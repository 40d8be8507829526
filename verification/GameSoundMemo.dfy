/** A game's memoized sounds: the record kept at each key, the lookup ladder, the two setters,
    the verdicts, and what each of them carries forward.

    A memo maps a game to its sounds; a sound is kept at a key, 'state' or 'state@level'.
    Two memos have this shape: the agent's, and one per person.  The functions here say what
    each operation computes; class Memo updates a memo in place and is proved against them. */
module GameSoundMemo {
  import opened Options

  type Url = string
  type Key = string
  type TaskId = string

  /** What a take was composed with. */
  datatype Labels = Labels(mood: string, prompt: string, variant: int)

  /** A take somebody turned down. */
  datatype Take = Take(url: Url, variant: int, reason: string, at: Option<real>)

  datatype LostTask = LostTask(task: Option<TaskId>, reason: string, at: real)

  /** One record of a memo; None is a field the record does not have. */
  datatype Sound = Sound(
    url: Option<Url>,
    labels: Option<Labels>,
    composedAt: Option<real>,
    approvedAt: Option<real>,
    rejectedUrl: Option<Url>,
    rejectedReason: Option<string>,
    rejectedAt: Option<real>,
    previousTakes: seq<Take>,
    taskId: Option<TaskId>,
    taskSince: Option<real>,
    taskTake: Option<Labels>,
    submittedAt: Option<real>,
    lostTask: Option<LostTask>)

  const EMPTY: Sound :=
    Sound(None, None, None, None, None, None, None, [], None, None, None, None, None)

  /** One game's part of a memo.  'music' is the shape the first version stored: the game's bgm. */
  datatype Slot = Slot(sounds: map<Key, Sound>, music: Option<Sound>)

  type Games = map<string, Slot>

  /** A composition, named by its submit note's time or by its task. */
  datatype Composition = Note(at: real) | Task(id: TaskId)

  /** What a lookup matched, or what it found under way. */
  datatype Matched = Mine | Level | Game | InFlight | Miss

  datatype Found = Found(record: Sound, matched: Matched, key: Key)

  const SUBMIT_COOLDOWN_S: real := 600.0

  const BGM: string := "bgm"

  // ------------------------------------------------------------ keys

  function StateKey(state: string, level: string): Key {
    if level == "" then state else state + "@" + level
  }

  /** No state name holds the separator. */
  predicate StateName(state: string) {
    state != "" && '@' !in state
  }

  /** 'key' is one of the level keys of the state whose own key is 'gameKey'. */
  predicate LevelKeyOf(gameKey: Key, key: Key) {
    gameKey + "@" <= key
  }

  // ------------------------------------------------------------ records

  predicate SubmitInFlight(r: Sound, now: real) {
    && r.submittedAt.Some? && r.submittedAt.value != 0.0
    && r.url.None?
    && now - r.submittedAt.value < SUBMIT_COOLDOWN_S
  }

  /** A composition under way at this record, with no take yet. */
  predicate Composing(r: Sound, now: real) {
    r.url.None? && (r.taskId.Some? || SubmitInFlight(r, now))
  }

  /** The record without the fields of a composition under way. */
  function WithoutInFlight(r: Sound): Sound {
    r.(taskId := None, taskSince := None, taskTake := None, submittedAt := None)
  }

  function EndedComposition(r: Sound, reason: string, task: Option<TaskId>, now: real): Sound {
    WithoutInFlight(r).(lostTask := Some(LostTask(if task.Some? then task else r.taskId, reason, now)))
  }

  function SubmitNote(r: Sound, labels: Labels, now: real): Sound {
    r.(submittedAt := Some(now), taskTake := Some(labels))
  }

  /** The record names this composition, whatever else it holds. */
  predicate Names(r: Sound, c: Composition) {
    match c
    case Note(at) => r.submittedAt == Some(at)
    case Task(id) => r.taskId == Some(id)
  }

  /** The record still holds this composition, with no take yet. */
  predicate HoldsComposition(r: Sound, c: Composition) {
    Names(r, c) && r.url.None?
  }

  function WithoutSubmitNote(r: Sound, at: real): Sound {
    if !HoldsComposition(r, Note(at)) || r.taskId.Some? then r
    else r.(submittedAt := None, taskTake := None)
  }

  function TakeVariant(r: Sound): int {
    if r.labels.Some? && r.labels.value.variant != 0 then r.labels.value.variant else 1
  }

  /** The take the record itself holds as just rejected. */
  function OwnRejection(r: Sound): seq<Take> {
    if r.rejectedUrl.None? then [] else
    [Take(r.rejectedUrl.value, TakeVariant(r),
          if r.rejectedReason.Some? then r.rejectedReason.value else "", r.rejectedAt)]
  }

  /** Every take the record holds as turned down, oldest first. */
  function TurnedDownTakes(r: Sound): seq<Take> {
    r.previousTakes + OwnRejection(r)
  }

  function Urls(takes: seq<Take>): set<Url> {
    set t | t in takes :: t.url
  }

  function Down(r: Sound): set<Url> {
    Urls(TurnedDownTakes(r))
  }

  function Given(url: Option<Url>): set<Url> {
    if url.Some? then {url.value} else {}
  }

  /** The takes whose url is not known yet, each url once. */
  function NewTakes(takes: seq<Take>, known: set<Url>): seq<Take> {
    if takes == [] then []
    else if takes[0].url in known then NewTakes(takes[1..], known)
    else [takes[0]] + NewTakes(takes[1..], known + {takes[0].url})
  }

  /** 'r', carrying every take 'replaced' held as turned down. */
  function Keeping(replaced: Sound, r: Sound): Sound {
    var known := Urls(r.previousTakes) + Given(r.url) + Given(r.rejectedUrl);
    r.(previousTakes := r.previousTakes + NewTakes(TurnedDownTakes(replaced), known))
  }

  /** _keeping_turned_down: the loop over the replaced record's takes. */
  method KeepingTurnedDown(replaced: Sound, r: Sound) returns (kept: Sound)
    ensures kept == Keeping(replaced, r)
  {
    var known := Urls(r.previousTakes) + Given(r.url) + Given(r.rejectedUrl);
    ghost var before := known;
    var takes := TurnedDownTakes(replaced);
    var extra: seq<Take> := [];
    for i := 0 to |takes|
      invariant extra + NewTakes(takes[i..], known) == NewTakes(takes, before)
    {
      assert takes[i..][1..] == takes[i + 1..];
      if takes[i].url !in known {
        known := known + {takes[i].url};
        extra := extra + [takes[i]];
      }
    }
    if extra == [] {
      return r;
    }
    kept := r.(previousTakes := r.previousTakes + extra);
  }

  // ------------------------------------------------------------ reading a memo

  function SoundsOf(games: Games, game: string): map<Key, Sound> {
    if game in games then games[game].sounds else map[]
  }

  function Held(sounds: map<Key, Sound>, key: Key): Sound {
    if key in sounds then sounds[key] else EMPTY
  }

  function RecordAt(games: Games, game: string, key: Key): Sound {
    Held(SoundsOf(games, game), key)
  }

  /** The record of the first version's shape, empty when there is none. */
  function MusicOf(games: Games, game: string): Sound {
    if game in games && games[game].music.Some? then games[game].music.value else EMPTY
  }

  /** Every take turned down at the level's key or the game's. */
  function TurnedDownAt(mine: map<Key, Sound>, state: string, level: string): set<Url> {
    Down(Held(mine, StateKey(state, level))) + Down(Held(mine, StateKey(state, "")))
  }

  predicate Audible(r: Sound, down: set<Url>) {
    r.url.Some? && r.url.value !in down
  }

  /** The lookup ladder: a person's own take, this level's, the game's, the first version's
      music, a composition under way at the exact key, nothing. */
  function GameStateMatch(games: Games, own: Option<Games>, game: string, state: string, level: string,
                          ownOnly: bool, now: real): Found
  {
    var mine := if own.Some? then SoundsOf(own.value, game) else map[];
    var shared := if ownOnly then map[] else SoundsOf(games, game);
    var music := if ownOnly || state != BGM then EMPTY else MusicOf(games, game);
    Ladder(mine, shared, music, state, level, now)
  }

  function Ladder(mine: map<Key, Sound>, shared: map<Key, Sound>, music: Sound,
                  state: string, level: string, now: real): Found
  {
    var levelKey, gameKey := StateKey(state, level), StateKey(state, "");
    var down := TurnedDownAt(mine, state, level);
    if Held(mine, levelKey).url.Some? then Found(Held(mine, levelKey), Mine, levelKey)
    else if Held(mine, gameKey).url.Some? then Found(Held(mine, gameKey), Mine, gameKey)
    else if levelKey != gameKey && Audible(Held(shared, levelKey), down) then
      Found(Held(shared, levelKey), Level, levelKey)
    else if Audible(Held(shared, gameKey), down) then Found(Held(shared, gameKey), Game, gameKey)
    else if Audible(music, down) then Found(music, Game, gameKey)
    else if Composing(Held(mine, levelKey), now) then Found(Held(mine, levelKey), InFlight, levelKey)
    else if Composing(Held(shared, levelKey), now) then Found(Held(shared, levelKey), InFlight, levelKey)
    else Found(EMPTY, Miss, levelKey)
  }

  /** The take a record holds as most lately turned down, if any, and when. */
  function LatestTurnedDown(r: Sound): Option<Take> {
    var takes := TurnedDownTakes(r);
    if r.rejectedAt.Some? && r.rejectedUrl.Some? then Some(OwnRejection(r)[0])
    else if r.url.Some? || takes == [] then None
    else Some(takes[|takes| - 1])
  }

  function When(t: Take): real {
    if t.at.Some? then t.at.value else 0.0
  }

  /** The complaint the next take at this key answers: the newer of the level's and the game's,
      the level's on a tie. */
  function RejectedTake(games: Games, game: string, state: string, level: string): Option<Take> {
    var atLevel := LatestTurnedDown(RecordAt(games, game, StateKey(state, level)));
    var atGame := LatestTurnedDown(RecordAt(games, game, StateKey(state, "")));
    if atLevel.None? then atGame
    else if atGame.Some? && When(atGame.value) > When(atLevel.value) then atGame
    else atLevel
  }

  // ------------------------------------------------------------ writing a memo

  function SlotOf(games: Games, game: string): Slot {
    if game in games then games[game] else Slot(map[], None)
  }

  /** The memo with 'r' written at an exact key. */
  function SetAt(games: Games, game: string, key: Key, r: Sound): Games {
    var kept := Keeping(RecordAt(games, game, key), r);
    var slot := SlotOf(games, game);
    games[game := Slot(slot.sounds[key := kept],
                       if key == BGM && slot.music.Some? then Some(kept) else slot.music)]
  }

  /** The memo with 'r' written under the key that was asked for. */
  function SetState(games: Games, game: string, state: string, level: string, r: Sound): Games {
    var key := StateKey(state, level);
    var kept := Keeping(RecordAt(games, game, key), r);
    var slot := SlotOf(games, game);
    games[game := Slot(slot.sounds[key := kept],
                       if state == BGM && level == "" then Some(kept) else slot.music)]
  }

  /** The memo without the record at exactly this key, and without the music copy of it. */
  function Forget(games: Games, game: string, state: string, level: string): Games {
    var key := StateKey(state, level);
    if game !in games || key !in games[game].sounds then games else
    var slot := games[game];
    games[game := Slot(slot.sounds - {key},
                       if state == BGM && level == "" && slot.music == Some(slot.sounds[key])
                       then None else slot.music)]
  }

  function EndedByKeep(r: Sound, gameKey: Key, now: real): Sound {
    Keeping(r, EndedComposition(r, "a take was kept at " + gameKey, None, now))
  }

  /** The sounds, with every composition under way at a level key of 'gameKey' ended, but for those at
      'but'. */
  function EndUnder(sounds: map<Key, Sound>, gameKey: Key, but: set<Key>, now: real): map<Key, Sound> {
    map k | k in sounds ::
      if k !in but && LevelKeyOf(gameKey, k) && Composing(sounds[k], now) then EndedByKeep(sounds[k], gameKey, now)
      else sounds[k]
  }

  function EndCompositionsUnder(games: Games, game: string, gameKey: Key, now: real): Games {
    if game !in games then games
    else WithSounds(games, game, EndUnder(games[game].sounds, gameKey, {}, now))
  }

  function WithSounds(games: Games, game: string, sounds: map<Key, Sound>): Games
    requires game in games
  {
    games[game := games[game].(sounds := sounds)]
  }

  /** The record a verdict makes of the take it judged. */
  function Judged(r: Sound, approved: bool, reason: string, now: real): Sound {
    if approved then r.(approvedAt := Some(now))
    else r.(rejectedAt := Some(now), rejectedReason := Some(reason), rejectedUrl := r.url, url := None)
  }

  function Or<T>(a: Option<T>, b: Option<T>): Option<T> {
    if a.Some? then a else b
  }

  /** 'r', with the composition under way at 'held' laid over it. */
  function CarryingInFlight(held: Sound, r: Sound): Sound {
    if held.url.Some? then r
    else r.(taskId := Or(held.taskId, r.taskId), taskSince := Or(held.taskSince, r.taskSince),
            taskTake := Or(held.taskTake, r.taskTake), submittedAt := Or(held.submittedAt, r.submittedAt))
  }

  /** The memo a verdict on 'found' is written in, after it. */
  function VerdictIn(target: Games, game: string, state: string, found: Found, approved: bool,
                     reason: string, now: real): Games
  {
    if found.record.url.None? then target else
    var judged := Judged(found.record, approved, reason, now);
    var written := if judged.url.None? then CarryingInFlight(RecordAt(target, game, found.key), judged) else judged;
    var stored := SetAt(target, game, found.key, written);
    if approved && found.key == StateKey(state, "")
    then EndCompositionsUnder(stored, game, found.key, now) else stored
  }

  // ------------------------------------------------------------ the memo, updated in place

  class Memo {
    var games: Games

    constructor ()
      ensures games == map[]
    {
      games := map[];
    }

    /** set_game_state_sound_at: a write at the key a lookup matched. */
    method SetGameStateSoundAt(game: string, key: Key, r: Sound) returns (stored: Sound)
      modifies this
      ensures games == SetAt(old(games), game, key, r)
      ensures stored == RecordAt(games, game, key)
    {
      stored := KeepingTurnedDown(RecordAt(games, game, key), r);
      if game !in games {
        games := games[game := Slot(map[], None)];
      }
      var slot := games[game];
      slot := slot.(sounds := slot.sounds[key := stored]);
      if key == BGM && slot.music.Some? {
        slot := slot.(music := Some(stored));
      }
      games := games[game := slot];
    }

    /** set_game_state_sound: a write under the key that was asked for. */
    method SetGameStateSound(game: string, state: string, level: string, r: Sound) returns (stored: Sound)
      modifies this
      ensures games == SetState(old(games), game, state, level, r)
      ensures stored == RecordAt(games, game, StateKey(state, level))
    {
      var key := StateKey(state, level);
      stored := KeepingTurnedDown(RecordAt(games, game, key), r);
      if game !in games {
        games := games[game := Slot(map[], None)];
      }
      var slot := games[game];
      slot := slot.(sounds := slot.sounds[key := stored]);
      if state == BGM && level == "" {
        slot := slot.(music := Some(stored));
      }
      games := games[game := slot];
    }

    /** forget_game_state_record. */
    method ForgetGameStateRecord(game: string, state: string, level: string)
      modifies this
      ensures games == Forget(old(games), game, state, level)
    {
      if game !in games {
        return;
      }
      var key := StateKey(state, level);
      var slot := games[game];
      if key !in slot.sounds {
        return;
      }
      var removed := slot.sounds[key];
      slot := slot.(sounds := slot.sounds - {key});
      if state == BGM && level == "" && slot.music == Some(removed) {
        slot := slot.(music := None);
      }
      games := games[game := slot];
    }

    /** _end_compositions_under: one write per level key that is composing. */
    method EndCompositions(game: string, gameKey: Key, now: real)
      requires StateName(gameKey)
      modifies this
      ensures games == EndCompositionsUnder(old(games), game, gameKey, now)
    {
      if game !in games {
        return;
      }
      ghost var before := games;
      var keys := set k | k in games[game].sounds && LevelKeyOf(gameKey, k);
      assert EndUnder(games[game].sounds, gameKey, keys, now) == games[game].sounds;
      while keys != {}
        invariant forall k :: k in keys ==> k in before[game].sounds && LevelKeyOf(gameKey, k)
        invariant games == WithSounds(before, game, EndUnder(before[game].sounds, gameKey, keys, now))
        decreases keys
      {
        var key :| key in keys;
        EndsOneMore(before, game, gameKey, keys, key, now);
        var r := games[game].sounds[key];
        if Composing(r, now) {
          var _ := SetGameStateSoundAt(game, key,
            EndedComposition(r, "a take was kept at " + gameKey, None, now));
        }
        keys := keys - {key};
      }
    }

    /** record_verdict.  'this' is the agent's memo; 'own' a person's, null when the agent's creator
        decides for everyone. */
    method RecordVerdict(own: Memo?, game: string, state: string, level: string, approved: bool,
                         reason: string, now: real)
      returns (record: Sound, matched: Matched, key: Key)
      requires own != this
      requires StateName(state)
      modifies if own == null then this else own
      ensures var found := old(GameStateMatch(games, GamesIfAny(own), game, state, level, false, now));
        && matched == found.matched && key == found.key
        && (own == null ==> games == old(VerdictIn(games, game, state, found, approved, reason, now)))
        && (own != null ==> own.games == old(VerdictIn(own.games, game, state, found, approved, reason, now))
                            && games == old(games))
        && record == if found.record.url.None? then EMPTY
                     else RecordAt(if own == null then games else own.games, game, key)
    {
      var found := GameStateMatch(games, GamesIfAny(own), game, state, level, false, now);
      matched, key := found.matched, found.key;
      if found.record.url.None? {
        record := EMPTY;
        return;
      }
      record := found.record;
      if approved {
        record := record.(approvedAt := Some(now));
      } else {
        record := record.(rejectedAt := Some(now), rejectedReason := Some(reason));
        record := record.(rejectedUrl := record.url, url := None);
      }
      var target: Memo := if own != null then own else this;
      var held := RecordAt(target.games, game, key);
      if record.url.None? {
        record := CarryingInFlight(held, record);
      }
      record := target.SetGameStateSoundAt(game, key, record);
      if approved && key == StateKey(state, "") {
        EndingKeepsOthers(target.games, game, key, now);
        target.EndCompositions(game, key, now);
      }
    }
  }

  function GamesIfAny(memo: Memo?): Option<Games>
    reads memo
  {
    if memo == null then None else Some(memo.games)
  }

  // ------------------------------------------------------------ small facts

  /** A level key of a state is not a state's own key. */
  lemma LevelKeyIsNoState(gameKey: Key, key: Key)
    requires LevelKeyOf(gameKey, key)
    ensures !StateName(key) && key != gameKey && key != BGM
  {
    assert key[|gameKey|] == '@';
    assert '@' !in BGM;
  }

  /** One write of the loop that ends the compositions under a key. */
  lemma EndsOneMore(games: Games, game: string, gameKey: Key, keys: set<Key>, key: Key, now: real)
    requires game in games && key in games[game].sounds && key in keys && LevelKeyOf(gameKey, key)
    ensures var before := WithSounds(games, game, EndUnder(games[game].sounds, gameKey, keys, now));
      && before[game].sounds[key] == games[game].sounds[key]
      && WithSounds(games, game, EndUnder(games[game].sounds, gameKey, keys - {key}, now)) ==
         if !Composing(games[game].sounds[key], now) then before
         else SetAt(before, game, key, EndedComposition(games[game].sounds[key], "a take was kept at " + gameKey, None, now))
  {
    var sounds := games[game].sounds;
    LevelKeyIsNoState(gameKey, key);
    assert EndUnder(sounds, gameKey, keys - {key}, now) ==
      if Composing(sounds[key], now) then EndUnder(sounds, gameKey, keys, now)[key := EndedByKeep(sounds[key], gameKey, now)]
      else EndUnder(sounds, gameKey, keys, now);
  }

  /** Ending the compositions under a key leaves that key's own record. */
  lemma EndingKeepsOthers(games: Games, game: string, key: Key, now: real)
    ensures RecordAt(EndCompositionsUnder(games, game, key, now), game, key) == RecordAt(games, game, key)
  {
    if LevelKeyOf(key, key) {
      LevelKeyIsNoState(key, key);
    }
  }
}

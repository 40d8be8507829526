/** What a step of bind_game_sound's protocol writes, and the invariant every reachable world keeps. */
module BindProofs {
  import opened Options
  import opened GameSoundMemo
  import opened GameSoundLaws
  import opened BindProtocol

  // ------------------------------------------------------------ one step, one record

  predicate ByCall(event: Event) {
    event.Submitted? || event.Close? || event.Polled?
  }

  function WriteOf(w: World, step: Step): Write
    requires Enabled(w, step) && ByCall(step.event)
  {
    var call := w.calls[step.event.call];
    match step.event
    case Submitted(_, reply) => ReplyWrite(w, call, reply, step.at)
    case Close(_) => CloseWrite(w, call)
    case Polled(_, progress) => PollWrite(w, call, progress, step.at)
  }

  predicate AtCall(call: Call, m: MemoId, game: string, key: Key) {
    m == call.memo && game == call.ask.game && key == StateKey(call.ask.state, call.ask.level)
  }

  /** The step is a call's submit for exactly this key. */
  predicate SubmitsAt(w: World, step: Step, m: MemoId, game: string, key: Key) {
    step.event.Begin? &&
    var ask := step.event.ask;
    && EntryOf(w, ask, step.at).Submit?
    && m == MemoFor(w, ask, step.at) && game == ask.game && key == StateKey(ask.state, ask.level)
  }

  /** A verdict judges a take and writes it in this memo and game. */
  predicate JudgesIn(w: World, step: Step, m: MemoId, game: string) {
    step.event.Verdict? &&
    var v := step.event;
    && m == VerdictMemo(w, v.person, v.everyone) && game == v.game
    && VerdictFound(w, v.person, v.everyone, v.game, v.state, v.level, step.at).record.url.Some?
  }

  function Judging(w: World, step: Step): Found
    requires step.event.Verdict?
  {
    var v := step.event;
    VerdictFound(w, v.person, v.everyone, v.game, v.state, v.level, step.at)
  }

  /** The record a step leaves at one key of one memo. */
  function RecordAfter(w: World, step: Step, m: MemoId, game: string, key: Key): Sound
    requires Enabled(w, step)
  {
    match step.event
    case Begin(_, ask) => NotedAt(w, ask, EntryOf(w, ask, step.at), MemoFor(w, ask, step.at), step.at, m, game, key)
    case Verdict(person, everyone, g, state, _, approved, reason) =>
      JudgedAt(w, VerdictMemo(w, person, everyone), g, state, Judging(w, step), approved, reason, step.at, m, game, key)
    case Die(_) => At(w, m, game, key)
    case Pass => At(w, m, game, key)
    case _ => WrittenAt(w, w.calls[step.event.call], WriteOf(w, step), m, game, key)
  }

  function NotedAt(w: World, ask: Ask, entry: Entry, memo: MemoId, now: real, m: MemoId, game: string, key: Key): Sound {
    var r := At(w, m, game, key);
    if entry.Submit? && m == memo && game == ask.game && key == StateKey(ask.state, ask.level) then
      var before := BeforeNote(r, entry.stale, now);
      Keeping(before, SubmitNote(before, NextLabels(GamesOf(w, m), ask), now))
    else r
  }

  function WrittenAt(w: World, call: Call, write: Write, m: MemoId, game: string, key: Key): Sound {
    var r := At(w, m, game, key);
    if !AtCall(call, m, game, key) then r else
    match write
    case Nothing => r
    case Put(written) => Keeping(r, written)
    case Erase => EMPTY
  }

  function JudgedAt(w: World, memo: MemoId, g: string, state: string, found: Found, approved: bool, reason: string,
                    now: real, m: MemoId, game: string, key: Key): Sound
  {
    var r := At(w, m, game, key);
    if found.record.url.None? || m != memo || game != g then r
    else if key == found.key then
      var judged := Judged(found.record, approved, reason, now);
      Keeping(r, if approved then judged else CarryingInFlight(r, judged))
    else if approved && found.key == StateKey(state, "") && LevelKeyOf(found.key, key) && Composing(r, now)
    then EndedByKeep(r, found.key, now)
    else r
  }

  /** A take kept by this step covers the composition under way at this key: the key is the kept
      take's own, or a level key of the game key it landed on. */
  predicate KeepCovers(w: World, step: Step, m: MemoId, game: string, key: Key) {
    && JudgesIn(w, step, m, game) && step.event.approved
    && var found := Judging(w, step);
       || key == found.key
       || (found.key == StateKey(step.event.state, "") && LevelKeyOf(found.key, key)
           && Composing(At(w, m, game, key), step.at))
  }

  /** A step changes the records RecordAfter says, and no other. */
  lemma NextRecord(w: World, step: Step, m: MemoId, game: string, key: Key)
    requires Enabled(w, step)
    ensures At(Next(w, step), m, game, key) == RecordAfter(w, step, m, game, key)
  {
    match step.event
    case Begin(id, ask) =>
      StartRecord(w, id, ask, EntryOf(w, ask, step.at), MemoFor(w, ask, step.at), step.at, m, game, key);
    case Verdict(person, everyone, g, state, level, approved, reason) =>
      VerdictRecord(w, VerdictMemo(w, person, everyone), g, state, Judging(w, step), approved, reason, step.at, m, game, key);
    case Die(_) =>
    case Pass =>
    case _ =>
      ApplyRecord(w, w.calls[step.event.call], WriteOf(w, step), m, game, key);
  }

  lemma VerdictRecord(w: World, memo: MemoId, g: string, state: string, found: Found, approved: bool, reason: string,
                      now: real, m: MemoId, game: string, key: Key)
    ensures At(WithGames(w, memo, VerdictIn(GamesOf(w, memo), g, state, found, approved, reason, now)), m, game, key) ==
            JudgedAt(w, memo, g, state, found, approved, reason, now, m, game, key)
  {
    VerdictWrites(GamesOf(w, memo), g, state, found, approved, reason, now, game, key);
  }

  lemma StartRecord(w: World, id: CallId, ask: Ask, entry: Entry, memo: MemoId, now: real,
                    m: MemoId, game: string, key: Key)
    ensures At(StartedAs(w, id, ask, entry, memo, now), m, game, key) ==
            NotedAt(w, ask, entry, memo, now, m, game, key)
  {
    if entry.Submit? {
      NotedRecord(GamesOf(w, memo), ask, entry.stale, NextLabels(GamesOf(w, memo), ask), now, game, key);
    }
  }

  lemma NotedRecord(games: Games, ask: Ask, stale: Option<TaskId>, labels: Labels, now: real, game: string, key: Key)
    ensures RecordAt(Noted(games, ask, stale, labels, now), game, key) ==
            var r := RecordAt(games, game, key);
            if game == ask.game && key == StateKey(ask.state, ask.level)
            then Keeping(BeforeNote(r, stale, now), SubmitNote(BeforeNote(r, stale, now), labels, now))
            else r
  {
    var own := StateKey(ask.state, ask.level);
    var here := RecordAt(games, ask.game, own);
    var ended := EndedComposition(here, "no answer within TASK_STALE_S", stale, now);
    var cleared := if stale.None? then games else SetState(games, ask.game, ask.state, ask.level, ended);
    SetStateWrites(games, ask.game, ask.state, ask.level, ended, game, key);
    SetStateWrites(games, ask.game, ask.state, ask.level, ended, ask.game, own);
    SetStateWrites(cleared, ask.game, ask.state, ask.level,
                   SubmitNote(RecordAt(cleared, ask.game, own), labels, now), game, key);
  }

  lemma ApplyRecord(w: World, call: Call, write: Write, m: MemoId, game: string, key: Key)
    ensures At(Apply(w, call, write), m, game, key) == WrittenAt(w, call, write, m, game, key)
  {
    if write.Put? {
      SetStateWrites(GamesOf(w, call.memo), call.ask.game, call.ask.state, call.ask.level, write.record, game, key);
    }
  }

  // ------------------------------------------------------------ what every reachable world keeps

  /** A record with a take has no composition under way. */
  predicate Settled(r: Sound) {
    r.url.Some? ==> r.taskId.None? && r.submittedAt.None?
  }

  /** A record names one composition at most. */
  predicate NamesOne(r: Sound) {
    r.taskId.None? || r.submittedAt.None?
  }

  /** What the record names has already happened. */
  predicate Past(w: World, r: Sound) {
    && (r.submittedAt.Some? ==> r.submittedAt.value <= w.now)
    && (r.taskId.Some? ==> r.taskId.value in w.tasks)
  }

  ghost predicate MemosWell(w: World) {
    && (forall m, game, key :: Settled(At(w, m, game, key)) && Past(w, At(w, m, game, key)))
    && (forall m, game, key :: NamesOne(At(w, m, game, key)))
    && (forall game :: Settled(MusicOf(w.agent, game)))
  }

  /** While a call composes a game's bgm, the first version's copy holds no take but the one at
      the bgm key. */
  predicate MusicInStep(w: World, call: Call) {
    var music := MusicOf(GamesOf(w, call.memo), call.ask.game);
    call.ask.state == BGM && call.ask.level == "" && call.memo == Agent && music.url.Some? ==>
      music.url == Here(w, call).url
  }

  predicate CallWell(w: World, call: Call) {
    && StateName(call.ask.state)
    && MusicInStep(w, call)
    && PhaseWell(w, call.phase)
  }

  ghost predicate Well(w: World) {
    && 0.0 <= w.now
    && MemosWell(w)
    && forall id :: id in w.calls ==> CallWell(w, w.calls[id])
  }

  /** Where every run starts: nothing composed and no call begun. */
  lemma EmptyIsWell(creator: Option<Person>, now: real)
    requires 0.0 <= now
    ensures Well(World(map[], map[], creator, now, {}, map[]))
  {
  }

  /** A call that goes past its lookup found no take at the key it then writes. */
  lemma NoTakeWhereACallStarts(w: World, ask: Ask, now: real)
    requires StateName(ask.state)
    requires !EntryOf(w, ask, now).AlreadyBound?
    ensures At(w, MemoFor(w, ask, now), ask.game, StateKey(ask.state, ask.level)).url.None?
    ensures MemoFor(w, ask, now) == Agent && ask.state == BGM && ask.level == "" ==> MusicOf(w.agent, ask.game).url.None?
    ensures Bound(w, ask, now) in {At(w, MemoFor(w, ask, now), ask.game, StateKey(ask.state, ask.level)), EMPTY}
    ensures Composing(At(w, MemoFor(w, ask, now), ask.game, StateKey(ask.state, ask.level)), now) ==>
      Bound(w, ask, now) == At(w, MemoFor(w, ask, now), ask.game, StateKey(ask.state, ask.level))
  {
    var levelKey, gameKey := StateKey(ask.state, ask.level), StateKey(ask.state, "");
    var forAgent := ForAgent(w, ask);
    var mine := if forAgent then map[] else SoundsOf(GamesOf(w, Own(ask.person)), ask.game);
    if !Personal(w, ask, now) {
      assert TurnedDownAt(mine, ask.state, ask.level) == {} by {
        assert Held(mine, levelKey) == EMPTY && Held(mine, gameKey) == EMPTY;
        assert Down(EMPTY) == {};
      }
    }
  }

  lemma JudgedTakesAreSettled(w: World, step: Step)
    requires Well(w) && step.event.Verdict?
    ensures Settled(Judging(w, step).record)
  {
    var v := step.event;
    var levelKey, gameKey := StateKey(v.state, v.level), StateKey(v.state, "");
    var found := Judging(w, step);
    assert Settled(At(w, Own(v.person), v.game, levelKey)) && Settled(At(w, Own(v.person), v.game, gameKey));
    assert Settled(At(w, Agent, v.game, levelKey)) && Settled(At(w, Agent, v.game, gameKey));
    assert found.record in {EMPTY, At(w, Own(v.person), v.game, levelKey), At(w, Own(v.person), v.game, gameKey),
                            At(w, Agent, v.game, levelKey), At(w, Agent, v.game, gameKey), MusicOf(w.agent, v.game)};
  }

  /** What a call's step writes is settled, and names only what has happened by then. */
  lemma CallWritesWell(w: World, step: Step)
    requires Well(w) && Enabled(w, step) && ByCall(step.event)
    ensures var write := WriteOf(w, step);
      write.Put? ==> Settled(write.record) && Past(Next(w, step), write.record)
  {
    var call := w.calls[step.event.call];
    var here := Here(w, call);
    assert Settled(here) && Past(w, here);
    assert Next(w, step).now == step.at && w.tasks <= Next(w, step).tasks;
  }

  predicate Later(w: World, w': World) {
    w.now < w'.now && w.tasks <= w'.tasks
  }

  lemma StartStaysWell(w: World, w': World, ask: Ask, entry: Entry, memo: MemoId, m: MemoId, game: string, key: Key)
    requires Later(w, w')
    requires Settled(At(w, m, game, key)) && Past(w, At(w, m, game, key))
    requires entry.Submit? ==> At(w, memo, ask.game, StateKey(ask.state, ask.level)).url.None?
    ensures var r := NotedAt(w, ask, entry, memo, w'.now, m, game, key); Settled(r) && Past(w', r)
  {
  }

  lemma WriteStaysWell(w: World, w': World, call: Call, write: Write, m: MemoId, game: string, key: Key)
    requires Later(w, w')
    requires Settled(At(w, m, game, key)) && Past(w, At(w, m, game, key))
    requires write.Put? ==> Settled(write.record) && Past(w', write.record)
    ensures var r := WrittenAt(w, call, write, m, game, key); Settled(r) && Past(w', r)
  {
  }

  lemma VerdictStaysWell(w: World, w': World, memo: MemoId, g: string, state: string, found: Found, approved: bool,
                         reason: string, m: MemoId, game: string, key: Key)
    requires Later(w, w')
    requires Settled(At(w, m, game, key)) && Past(w, At(w, m, game, key))
    requires Settled(found.record)
    ensures var r := JudgedAt(w, memo, g, state, found, approved, reason, w'.now, m, game, key); Settled(r) && Past(w', r)
  {
  }

  /** No step leaves a record that names two compositions. */
  lemma StillNamesOne(w: World, step: Step, m: MemoId, game: string, key: Key)
    requires Well(w) && Enabled(w, step)
    ensures NamesOne(At(Next(w, step), m, game, key))
  {
    NextRecord(w, step, m, game, key);
    assert NamesOne(At(w, m, game, key));
    match step.event
    case Begin(_, ask) =>
      if EntryOf(w, ask, step.at).Submit? {
        SubmitsWhereNoTaskIs(w, ask, step.at);
      }
    case Verdict(person, everyone, g, state, _, approved, reason) =>
      JudgedTakesAreSettled(w, step);
      JudgedNamesOne(w, VerdictMemo(w, person, everyone), g, state, Judging(w, step), approved, reason, step.at, m, game, key);
    case Die(_) =>
    case Pass =>
    case _ =>
      if AtCall(w.calls[step.event.call], m, game, key) {
        WrittenNamesOne(w, step);
      }
  }

  /** A submit's note goes on no record that still holds a task. */
  lemma SubmitsWhereNoTaskIs(w: World, ask: Ask, now: real)
    requires StateName(ask.state) && EntryOf(w, ask, now).Submit?
    ensures EntryOf(w, ask, now).stale.None? ==>
      At(w, MemoFor(w, ask, now), ask.game, StateKey(ask.state, ask.level)).taskId.None?
  {
    NoTakeWhereACallStarts(w, ask, now);
  }

  lemma JudgedNamesOne(w: World, memo: MemoId, g: string, state: string, found: Found, approved: bool, reason: string,
                       now: real, m: MemoId, game: string, key: Key)
    requires Settled(found.record) && NamesOne(At(w, m, game, key))
    ensures NamesOne(JudgedAt(w, memo, g, state, found, approved, reason, now, m, game, key))
  {
  }

  lemma WrittenNamesOne(w: World, step: Step)
    requires Enabled(w, step) && ByCall(step.event) && NamesOne(Here(w, w.calls[step.event.call]))
    ensures WriteOf(w, step).Put? ==> NamesOne(WriteOf(w, step).record)
  {
  }

  /** Two compositions named by one record are the same. */
  lemma OneComposition(w: World, m: MemoId, game: string, key: Key, c: Composition, d: Composition)
    requires Well(w) && Names(At(w, m, game, key), c) && Names(At(w, m, game, key), d)
    ensures c == d
  {
    assert NamesOne(At(w, m, game, key));
  }

  lemma NextIsLater(w: World, step: Step)
    requires Enabled(w, step)
    ensures Later(w, Next(w, step)) && Next(w, step).now == step.at && Next(w, step).creator == w.creator
  {
    match step.event
    case Begin(id, ask) => StartLeaves(w, id, ask, EntryOf(w, ask, step.at), MemoFor(w, ask, step.at), step.at);
    case Verdict(_, _, _, _, _, _, _) =>
    case Die(_) =>
    case Pass =>
    case _ => ApplyLeaves(w, w.calls[step.event.call], WriteOf(w, step));
  }

  lemma StartLeaves(w: World, id: CallId, ask: Ask, entry: Entry, memo: MemoId, now: real)
    ensures var w' := StartedAs(w, id, ask, entry, memo, now); w'.tasks == w.tasks && w'.creator == w.creator
  {
  }

  lemma ApplyLeaves(w: World, call: Call, write: Write)
    ensures var w' := Apply(w, call, write); w'.tasks == w.tasks && w'.creator == w.creator && w'.calls == w.calls
  {
  }

  lemma RecordsStayWell(w: World, step: Step, m: MemoId, game: string, key: Key)
    requires Well(w) && Enabled(w, step)
    ensures Settled(At(Next(w, step), m, game, key)) && Past(Next(w, step), At(Next(w, step), m, game, key))
  {
    NextRecord(w, step, m, game, key);
    NextIsLater(w, step);
    var w' := Next(w, step);
    assert Settled(At(w, m, game, key)) && Past(w, At(w, m, game, key));
    match step.event
    case Begin(_, ask) =>
      var entry, memo := EntryOf(w, ask, step.at), MemoFor(w, ask, step.at);
      if entry.Submit? {
        NoTakeWhereACallStarts(w, ask, step.at);
      }
      StartStaysWell(w, w', ask, entry, memo, m, game, key);
    case Verdict(person, everyone, g, state, _, approved, reason) =>
      JudgedTakesAreSettled(w, step);
      VerdictStaysWell(w, w', VerdictMemo(w, person, everyone), g, state, Judging(w, step), approved, reason, m, game, key);
    case Die(_) =>
    case Pass =>
    case _ =>
      CallWritesWell(w, step);
      WriteStaysWell(w, w', w.calls[step.event.call], WriteOf(w, step), m, game, key);
  }

  // ------------------------------------------------------------ the first version's music

  lemma MusicAfterSetState(games: Games, game: string, state: string, level: string, r: Sound, game': string)
    ensures MusicOf(SetState(games, game, state, level, r), game') ==
            if game' == game && state == BGM && level == "" then RecordAt(SetState(games, game, state, level, r), game, BGM)
            else MusicOf(games, game')
  {
  }

  /** The agent's music is what it was, or the record now at the bgm key, or nothing. */
  predicate MusicStep(before: Games, after: Games, game: string) {
    || MusicOf(after, game) == RecordAt(after, game, BGM)
    || MusicOf(after, game).url.None?
    || (MusicOf(after, game) == MusicOf(before, game) && RecordAt(after, game, BGM).url == RecordAt(before, game, BGM).url)
  }

  lemma OnlyTheBgmKeyIsBgm(state: string, level: string)
    requires StateName(state)
    ensures StateKey(state, level) == BGM ==> state == BGM && level == ""
  {
    if level != "" {
      LevelKeyIsNoState(state, StateKey(state, level));
    }
  }

  lemma MusicAfterNoted(games: Games, ask: Ask, stale: Option<TaskId>, labels: Labels, now: real, game: string)
    requires StateName(ask.state)
    ensures MusicStep(games, Noted(games, ask, stale, labels, now), game)
  {
    var own := StateKey(ask.state, ask.level);
    var ended := EndedComposition(RecordAt(games, ask.game, own), "no answer within TASK_STALE_S", stale, now);
    var cleared := if stale.None? then games else SetState(games, ask.game, ask.state, ask.level, ended);
    var noted := SubmitNote(RecordAt(cleared, ask.game, own), labels, now);
    MusicAfterSetState(games, ask.game, ask.state, ask.level, ended, game);
    MusicAfterSetState(cleared, ask.game, ask.state, ask.level, noted, game);
    OnlyTheBgmKeyIsBgm(ask.state, ask.level);
  }

  lemma MusicAfterVerdict(games: Games, g: string, state: string, found: Found, approved: bool, reason: string,
                          now: real, game: string)
    ensures MusicStep(games, VerdictIn(games, g, state, found, approved, reason, now), game)
  {
    if found.record.url.Some? {
      var judged := Judged(found.record, approved, reason, now);
      var written := if judged.url.None? then CarryingInFlight(RecordAt(games, g, found.key), judged) else judged;
      var stored := SetAt(games, g, found.key, written);
      SetAtWrites(games, g, found.key, written, game, BGM);
      assert MusicStep(games, stored, game);
      EndUnderWrites(stored, g, found.key, now, game, BGM);
      if LevelKeyOf(found.key, BGM) {
        LevelKeyIsNoState(found.key, BGM);
      }
    }
  }

  lemma MusicAfterWrite(w: World, call: Call, write: Write, game: string)
    requires StateName(call.ask.state) && call.memo == Agent
    requires write.Erase? ==> Here(w, call).url.None?
    ensures MusicStep(w.agent, Apply(w, call, write).agent, game)
  {
    var state, level := call.ask.state, call.ask.level;
    OnlyTheBgmKeyIsBgm(state, level);
    if write.Put? {
      MusicAfterSetState(w.agent, call.ask.game, state, level, write.record, game);
    }
  }

  lemma ErasedHadNoTake(w: World, step: Step)
    requires Enabled(w, step) && ByCall(step.event)
    ensures WriteOf(w, step).Erase? ==> Here(w, w.calls[step.event.call]).url.None?
  {
  }

  lemma StartMusic(w: World, id: CallId, ask: Ask, entry: Entry, memo: MemoId, now: real, game: string)
    requires StateName(ask.state)
    ensures MusicStep(w.agent, StartedAs(w, id, ask, entry, memo, now).agent, game)
  {
    if entry.Submit? && memo == Agent {
      MusicAfterNoted(w.agent, ask, entry.stale, NextLabels(w.agent, ask), now, game);
    }
  }

  lemma CallMusic(w: World, step: Step, game: string)
    requires Well(w) && Enabled(w, step) && ByCall(step.event)
    ensures MusicStep(w.agent, Apply(w, w.calls[step.event.call], WriteOf(w, step)).agent, game)
  {
    var call := w.calls[step.event.call];
    assert CallWell(w, call);
    ErasedHadNoTake(w, step);
    if call.memo == Agent {
      MusicAfterWrite(w, call, WriteOf(w, step), game);
    }
  }

  lemma NextMusic(w: World, step: Step, game: string)
    requires Well(w) && Enabled(w, step)
    ensures MusicStep(w.agent, Next(w, step).agent, game)
  {
    match step.event
    case Begin(id, ask) =>
      StartMusic(w, id, ask, EntryOf(w, ask, step.at), MemoFor(w, ask, step.at), step.at, game);
    case Verdict(person, everyone, g, state, _, approved, reason) =>
      MusicAfterVerdict(w.agent, g, state, Judging(w, step), approved, reason, step.at, game);
    case Die(_) =>
    case Pass =>
    case _ => CallMusic(w, step, game);
  }

  // ------------------------------------------------------------ every reachable world is well

  lemma CallsStayWell(w: World, step: Step, id: CallId)
    requires Well(w) && Enabled(w, step) && id in Next(w, step).calls
    ensures CallWell(Next(w, step), Next(w, step).calls[id])
  {
    var w' := Next(w, step);
    var call := w'.calls[id];
    NextIsLater(w, step);
    PhaseStaysWell(w, step, id);
    if call.ask.state == BGM && call.ask.level == "" && call.memo == Agent {
      NextMusic(w, step, call.ask.game);
      if step.event.Begin? && step.event.call == id {
        NoTakeWhereACallStarts(w, step.event.ask, step.at);
      } else {
        assert CallWell(w, w.calls[id]);
      }
    }
  }

  predicate PhaseWell(w: World, phase: Phase) {
    match phase
    case Submitting(note) => note <= w.now
    case Closing(note, started) => note <= w.now && (started.Some? ==> started.value in w.tasks)
    case Polling(task, _) => task in w.tasks
  }

  /** The phase a call's own step moves it to. */
  function PhaseOf(w: World, step: Step): Option<Phase>
    requires Enabled(w, step) && ByCall(step.event)
  {
    var call := w.calls[step.event.call];
    match step.event
    case Submitted(_, reply) => ReplyPhase(w, call, reply, step.at)
    case Close(_) => if call.phase.started.Some? then Some(Polling(call.phase.started.value, None)) else None
    case Polled(_, _) => None
  }

  lemma MovedCalls(w: World, call: Call, write: Write, id: CallId, phase: Option<Phase>)
    requires id in w.calls
    ensures Move(Apply(w, call, write), id, phase).calls ==
            if phase.None? then w.calls - {id} else w.calls[id := w.calls[id].(phase := phase.value)]
  {
  }

  lemma PhaseOfIsWell(w: World, step: Step)
    requires Well(w) && Enabled(w, step) && ByCall(step.event)
    ensures PhaseOf(w, step).Some? ==> PhaseWell(Next(w, step), PhaseOf(w, step).value)
  {
    NextIsLater(w, step);
    assert CallWell(w, w.calls[step.event.call]);
  }

  lemma PhaseStaysWell(w: World, step: Step, id: CallId)
    requires Well(w) && Enabled(w, step) && id in Next(w, step).calls
    ensures var w' := Next(w, step); var call := w'.calls[id];
      && StateName(call.ask.state)
      && PhaseWell(w', call.phase)
      && (if step.event.Begin? && step.event.call == id
          then call.ask == step.event.ask && call.memo == MemoFor(w, call.ask, step.at)
               && !EntryOf(w, call.ask, step.at).AlreadyBound?
          else id in w.calls && call == w.calls[id].(phase := call.phase))
  {
    NextIsLater(w, step);
    if step.event.Begin? && step.event.call == id {
      var ask := step.event.ask;
      StartPhase(w, id, ask, EntryOf(w, ask, step.at), MemoFor(w, ask, step.at), step.at);
      if EntryOf(w, ask, step.at).Resume? {
        ResumedTaskIsPast(w, ask, step.at);
      }
    } else if ByCall(step.event) {
      PhaseOfIsWell(w, step);
      MovedCalls(w, w.calls[step.event.call], WriteOf(w, step), step.event.call, PhaseOf(w, step));
      assert CallWell(w, w.calls[id]);
    } else {
      OtherCallsStay(w, step);
      assert CallWell(w, w.calls[id]);
    }
  }

  lemma OtherCallsStay(w: World, step: Step)
    requires Enabled(w, step) && !ByCall(step.event)
    ensures forall id :: id in Next(w, step).calls && !(step.event.Begin? && step.event.call == id) ==>
      id in w.calls && Next(w, step).calls[id] == w.calls[id]
  {
  }

  lemma ResumedTaskIsPast(w: World, ask: Ask, now: real)
    requires Well(w) && StateName(ask.state) && EntryOf(w, ask, now).Resume?
    ensures EntryOf(w, ask, now).task in w.tasks
  {
    NoTakeWhereACallStarts(w, ask, now);
    assert Past(w, At(w, MemoFor(w, ask, now), ask.game, StateKey(ask.state, ask.level)));
  }

  lemma StartPhase(w: World, id: CallId, ask: Ask, entry: Entry, memo: MemoId, now: real)
    requires id !in w.calls
    ensures var w' := StartedAs(w, id, ask, entry, memo, now);
      && (id in w'.calls <==> entry.Resume? || entry.Submit?)
      && (id in w'.calls ==>
            && w'.calls[id].ask == ask && w'.calls[id].memo == memo
            && w'.calls[id].phase == if entry.Resume? then Polling(entry.task, entry.labels) else Submitting(now))
  {
  }

  lemma MemosStayWell(w: World, step: Step)
    requires Well(w) && Enabled(w, step)
    ensures MemosWell(Next(w, step))
  {
    var w' := Next(w, step);
    forall m, game, key
      ensures Settled(At(w', m, game, key)) && Past(w', At(w', m, game, key)) && NamesOne(At(w', m, game, key))
    {
      RecordsStayWell(w, step, m, game, key);
      StillNamesOne(w, step, m, game, key);
    }
    forall game ensures Settled(MusicOf(w'.agent, game)) {
      NextMusic(w, step, game);
      assert Settled(MusicOf(w.agent, game));
      assert Settled(At(w', Agent, game, BGM));
    }
  }

  lemma WellIsKept(w: World, step: Step)
    requires Well(w) && Enabled(w, step)
    ensures Well(Next(w, step))
  {
    var w' := Next(w, step);
    NextIsLater(w, step);
    MemosStayWell(w, step);
    forall id | id in w'.calls ensures CallWell(w', w'.calls[id]) {
      CallsStayWell(w, step, id);
    }
  }

  lemma {:induction false} RunsStayWell(w: World, steps: seq<Step>, n: nat)
    requires Well(w) && Run(w, steps) && n <= |steps|
    ensures Well(After(w, steps, n))
    ensures Run(After(w, steps, n), steps[n..])
    decreases n
  {
    if n == 0 {
      assert steps[0..] == steps;
    } else {
      WellIsKept(w, steps[0]);
      RunsStayWell(Next(w, steps[0]), steps[1..], n - 1);
      assert steps[1..][n - 1..] == steps[n..];
    }
  }
}

/** What the memo's operations promise: no write forgets a turned-down take, a lookup never
    answers one, a kept take is what is heard next, and a keep ends what it covers. */
module GameSoundLaws {
  import opened Options
  import opened GameSoundMemo

  // ------------------------------------------------------------ turned-down takes

  lemma {:induction false} NewTakesUrls(takes: seq<Take>, known: set<Url>)
    ensures Urls(NewTakes(takes, known)) == Urls(takes) - known
  {
    if takes != [] {
      var rest := takes[1..];
      assert Urls(takes) == {takes[0].url} + Urls(rest);
      if takes[0].url in known {
        NewTakesUrls(rest, known);
      } else {
        NewTakesUrls(rest, known + {takes[0].url});
        UrlsConcat([takes[0]], NewTakes(rest, known + {takes[0].url}));
      }
    }
  }

  lemma UrlsConcat(a: seq<Take>, b: seq<Take>)
    ensures Urls(a + b) == Urls(a) + Urls(b)
  {
    forall u | u in Urls(a) + Urls(b) ensures u in Urls(a + b) {
      if u in Urls(a) {
        var t :| t in a && t.url == u;
        assert t in a + b;
      } else {
        var t :| t in b && t.url == u;
        assert t in a + b;
      }
    }
  }

  lemma DownOf(r: Sound)
    ensures Down(r) == Urls(r.previousTakes) + Given(r.rejectedUrl)
  {
    UrlsConcat(r.previousTakes, OwnRejection(r));
    if r.rejectedUrl.Some? {
      assert OwnRejection(r)[0].url == r.rejectedUrl.value;
    }
  }

  /** A write over a record keeps every take it held as turned down, minus only the take the write
      binds, and turns nothing else down. */
  lemma WritesKeepTurnedDown(replaced: Sound, r: Sound)
    ensures Down(Keeping(replaced, r)) == Down(r) + (Down(replaced) - Given(r.url))
  {
    var known := Urls(r.previousTakes) + Given(r.url) + Given(r.rejectedUrl);
    var extra := NewTakes(TurnedDownTakes(replaced), known);
    NewTakesUrls(TurnedDownTakes(replaced), known);
    UrlsConcat(r.previousTakes, extra);
    DownOf(r);
    DownOf(Keeping(replaced, r));
  }

  /** Written over itself, a record loses nothing and gains nothing. */
  lemma {:induction false} NothingNew(takes: seq<Take>, known: set<Url>)
    requires Urls(takes) <= known
    ensures NewTakes(takes, known) == []
  {
    if takes != [] {
      assert takes[0] in takes;
      assert Urls(takes[1..]) <= Urls(takes);
      NothingNew(takes[1..], known);
    }
  }

  /** A record written over itself with nothing more turned down and nothing bound is what it was. */
  lemma KeptAsItIs(replaced: Sound, r: Sound)
    requires r.previousTakes == replaced.previousTakes && r.rejectedUrl == replaced.rejectedUrl
    ensures Keeping(replaced, r) == r
  {
    DownOf(replaced);
    NothingNew(TurnedDownTakes(replaced), Urls(r.previousTakes) + Given(r.url) + Given(r.rejectedUrl));
  }

  /** Ending a composition over a record keeps the record's history as it was. */
  lemma EndedKeepsHistory(r: Sound, gameKey: Key, now: real)
    requires r.url.None?
    ensures EndedByKeep(r, gameKey, now) == EndedComposition(r, "a take was kept at " + gameKey, None, now)
    ensures Down(EndedByKeep(r, gameKey, now)) == Down(r)
  {
    var ended := EndedComposition(r, "a take was kept at " + gameKey, None, now);
    DownOf(r);
    NothingNew(TurnedDownTakes(r), Urls(r.previousTakes) + Given(r.url) + Given(r.rejectedUrl));
    assert TurnedDownTakes(ended) == TurnedDownTakes(r);
  }

  // ------------------------------------------------------------ what a write changes

  lemma SetAtWrites(games: Games, game: string, key: Key, r: Sound, game': string, key': Key)
    ensures RecordAt(SetAt(games, game, key, r), game', key') ==
            if game' == game && key' == key then Keeping(RecordAt(games, game, key), r)
            else RecordAt(games, game', key')
  {
  }

  lemma SetStateWrites(games: Games, game: string, state: string, level: string, r: Sound, game': string, key': Key)
    ensures RecordAt(SetState(games, game, state, level, r), game', key') ==
            if game' == game && key' == StateKey(state, level)
            then Keeping(RecordAt(games, game, StateKey(state, level)), r)
            else RecordAt(games, game', key')
  {
  }

  lemma EndUnderWrites(games: Games, game: string, gameKey: Key, now: real, game': string, key': Key)
    ensures RecordAt(EndCompositionsUnder(games, game, gameKey, now), game', key') ==
            var r := RecordAt(games, game', key');
            if game' == game && LevelKeyOf(gameKey, key') && Composing(r, now)
            then EndedByKeep(r, gameKey, now) else r
  {
  }

  /** A verdict writes the take it judged, and a keep at the game's key also ends what it covers. */
  lemma VerdictWrites(target: Games, game: string, state: string, found: Found, approved: bool, reason: string,
                      now: real, game': string, key': Key)
    ensures RecordAt(VerdictIn(target, game, state, found, approved, reason, now), game', key') ==
            var r := RecordAt(target, game', key');
            if found.record.url.None? || game' != game then r
            else if key' == found.key then
              var judged := Judged(found.record, approved, reason, now);
              Keeping(r, if approved then judged else CarryingInFlight(r, judged))
            else if approved && found.key == StateKey(state, "") && LevelKeyOf(found.key, key') && Composing(r, now)
            then EndedByKeep(r, found.key, now)
            else r
  {
    if found.record.url.Some? {
      var judged := Judged(found.record, approved, reason, now);
      var held := RecordAt(target, game, found.key);
      var written := if judged.url.None? then CarryingInFlight(held, judged) else judged;
      var stored := SetAt(target, game, found.key, written);
      SetAtWrites(target, game, found.key, written, game', key');
      EndUnderWrites(stored, game, found.key, now, game', key');
      if LevelKeyOf(found.key, found.key) {
        LevelKeyIsNoState(found.key, found.key);
      }
    }
  }

  // ------------------------------------------------------------ the ladder

  /** The takes a person could be played at one state and level: their own at the level's key and
      the game's, the agent's at each, and the agent's first-version music. */
  function Playable(mine: map<Key, Sound>, shared: map<Key, Sound>, music: Sound, state: string, level: string): set<Url> {
    var levelKey, gameKey := StateKey(state, level), StateKey(state, "");
    Given(Held(mine, levelKey).url) + Given(Held(mine, gameKey).url) +
    (Given(Held(shared, levelKey).url) + Given(Held(shared, gameKey).url) + Given(music.url)
     - TurnedDownAt(mine, state, level))
  }

  /** The ladder plays something exactly when there is something to play, and what it plays from
      the agent's memo is a take the person did not turn down. */
  lemma LadderPlays(mine: map<Key, Sound>, shared: map<Key, Sound>, music: Sound, state: string, level: string, now: real)
    ensures var found := Ladder(mine, shared, music, state, level, now);
      && (found.record.url.Some? <==> Playable(mine, shared, music, state, level) != {})
      && (found.record.url.Some? <==> found.matched in {Mine, Level, Game})
      && (found.record.url.Some? ==> found.record.url.value in Playable(mine, shared, music, state, level))
      && (found.matched in {Level, Game} ==> found.record.url.value !in TurnedDownAt(mine, state, level))
      && (found.matched == Mine <==>
            Held(mine, StateKey(state, level)).url.Some? || Held(mine, StateKey(state, "")).url.Some?)
      && (found.record.url.Some? ==> found.key in {StateKey(state, level), StateKey(state, "")})
  {
    var levelKey, gameKey := StateKey(state, level), StateKey(state, "");
    var down := TurnedDownAt(mine, state, level);
    var all := Playable(mine, shared, music, state, level);
    assert Held(mine, levelKey).url.Some? ==> Held(mine, levelKey).url.value in all;
    assert Held(mine, gameKey).url.Some? ==> Held(mine, gameKey).url.value in all;
    assert Audible(Held(shared, levelKey), down) ==> Held(shared, levelKey).url.value in all;
    assert Audible(Held(shared, gameKey), down) ==> Held(shared, gameKey).url.value in all;
    assert Audible(music, down) ==> music.url.value in all;
  }

  /** A take turned down in a person's own memo, at the level's key or the game's, is never what the
      agent's memo plays them there. */
  lemma TurnedDownIsNotPlayed(games: Games, own: Games, game: string, state: string, level: string, now: real, url: Url)
    requires url in TurnedDownAt(SoundsOf(own, game), state, level)
    ensures var found := GameStateMatch(games, Some(own), game, state, level, false, now);
      found.matched in {Level, Game} ==> found.record.url != Some(url)
  {
    var music := if state != BGM then EMPTY else MusicOf(games, game);
    LadderPlays(SoundsOf(own, game), SoundsOf(games, game), music, state, level, now);
  }

  // ------------------------------------------------------------ verdicts

  /** A keep is what that person hears next, by the same lookup, as their own. */
  lemma KeepIsHeardNext(games: Games, own: Games, game: string, state: string, level: string, reason: string,
                        now: real, later: real)
    requires StateName(state)
    ensures var found := GameStateMatch(games, Some(own), game, state, level, false, now);
      var own' := VerdictIn(own, game, state, found, true, reason, now);
      var next := GameStateMatch(games, Some(own'), game, state, level, false, later);
      found.record.url.Some? ==> next.matched == Mine && next.key == found.key && next.record.url == found.record.url
  {
    var found := GameStateMatch(games, Some(own), game, state, level, false, now);
    var own' := VerdictIn(own, game, state, found, true, reason, now);
    if found.record.url.Some? {
      forall key ensures Held(SoundsOf(own', game), key).url ==
                         if key == found.key then found.record.url else Held(SoundsOf(own, game), key).url {
        VerdictWrites(own, game, state, found, true, reason, now, game, key);
      }
      KeptIsHeard(SoundsOf(own, game), SoundsOf(own', game), SoundsOf(games, game),
                  if state != BGM then EMPTY else MusicOf(games, game), state, level, now, later);
    }
  }

  lemma KeptIsHeard(mine: map<Key, Sound>, mine': map<Key, Sound>, shared: map<Key, Sound>, music: Sound,
                    state: string, level: string, now: real, later: real)
    requires var found := Ladder(mine, shared, music, state, level, now);
      found.record.url.Some? &&
      forall key :: Held(mine', key).url == if key == found.key then found.record.url else Held(mine, key).url
    ensures var found, next := Ladder(mine, shared, music, state, level, now), Ladder(mine', shared, music, state, level, later);
      next.matched == Mine && next.key == found.key && next.record.url == found.record.url
  {
  }

  /** How many of the five places a person could be played from still play. */
  function PlacesPlaying(mine: map<Key, Sound>, shared: map<Key, Sound>, music: Sound, state: string, level: string): nat {
    var levelKey, gameKey := StateKey(state, level), StateKey(state, "");
    var down := TurnedDownAt(mine, state, level);
    (if Held(mine, levelKey).url.Some? then 1 else 0) +
    (if levelKey != gameKey && Held(mine, gameKey).url.Some? then 1 else 0) +
    (if levelKey != gameKey && Audible(Held(shared, levelKey), down) then 1 else 0) +
    (if Audible(Held(shared, gameKey), down) then 1 else 0) +
    (if Audible(music, down) then 1 else 0)
  }

  /** The person's memo after they turn down what they hear, once for each (reason, time). */
  function RejectEach(games: Games, own: Games, game: string, state: string, level: string,
                      verdicts: seq<(string, real)>): Games
    decreases |verdicts|
  {
    if verdicts == [] then own else
    var (reason, now) := verdicts[0];
    var found := GameStateMatch(games, Some(own), game, state, level, false, now);
    RejectEach(games, VerdictIn(own, game, state, found, false, reason, now), game, state, level, verdicts[1..])
  }

  /** Each rejection silences the place it was heard from, and nothing starts to play again. */
  lemma RejectionSilencesOnePlace(games: Games, own: Games, game: string, state: string, level: string,
                                  reason: string, now: real)
    requires StateName(state)
    ensures var found := GameStateMatch(games, Some(own), game, state, level, false, now);
      var own' := VerdictIn(own, game, state, found, false, reason, now);
      var music := if state != BGM then EMPTY else MusicOf(games, game);
      var before := PlacesPlaying(SoundsOf(own, game), SoundsOf(games, game), music, state, level);
      var after := PlacesPlaying(SoundsOf(own', game), SoundsOf(games, game), music, state, level);
      if found.record.url.None? then before == 0 && own' == own else after < before
  {
    var found := GameStateMatch(games, Some(own), game, state, level, false, now);
    if found.record.url.Some? {
      RejectedIsTurnedDown(own, game, state, found, reason, now);
      var own' := VerdictIn(own, game, state, found, false, reason, now);
      SilencedIsFewer(SoundsOf(own, game), SoundsOf(own', game), SoundsOf(games, game),
                      if state != BGM then EMPTY else MusicOf(games, game), state, level, now);
    }
  }

  /** Where a person's rejection lands: the take goes from its key and is turned down there, and the
      rest of their memo of the game stays. */
  lemma RejectedIsTurnedDown(own: Games, game: string, state: string, found: Found, reason: string, now: real)
    requires found.record.url.Some?
    ensures var own' := VerdictIn(own, game, state, found, false, reason, now);
      && Silenced(SoundsOf(own, game), SoundsOf(own', game), found)
  {
    var own' := VerdictIn(own, game, state, found, false, reason, now);
    var held := RecordAt(own, game, found.key);
    var written := CarryingInFlight(held, Judged(found.record, false, reason, now));
    WritesKeepTurnedDown(held, written);
    DownOf(written);
    forall key | key != found.key ensures Held(SoundsOf(own', game), key) == Held(SoundsOf(own, game), key) {
      VerdictWrites(own, game, state, found, false, reason, now, game, key);
    }
    VerdictWrites(own, game, state, found, false, reason, now, game, found.key);
  }

  ghost predicate Silenced(mine: map<Key, Sound>, mine': map<Key, Sound>, found: Found) {
    && Held(mine', found.key).url.None?
    && Down(Held(mine, found.key)) + Given(found.record.url) <= Down(Held(mine', found.key))
    && forall key :: key != found.key ==> Held(mine', key) == Held(mine, key)
  }

  lemma SilencedIsFewer(mine: map<Key, Sound>, mine': map<Key, Sound>, shared: map<Key, Sound>, music: Sound,
                        state: string, level: string, now: real)
    requires var found := Ladder(mine, shared, music, state, level, now);
      found.record.url.Some? && Silenced(mine, mine', found)
    ensures PlacesPlaying(mine', shared, music, state, level) < PlacesPlaying(mine, shared, music, state, level)
  {
    var found := Ladder(mine, shared, music, state, level, now);
    var levelKey, gameKey := StateKey(state, level), StateKey(state, "");
    assert found.key == levelKey || found.key == gameKey;
    var down, down' := TurnedDownAt(mine, state, level), TurnedDownAt(mine', state, level);
    assert down + Given(found.record.url) <= down';
    StillAudible(Held(shared, levelKey), found.record.url.value, down, down');
    StillAudible(Held(shared, gameKey), found.record.url.value, down, down');
    StillAudible(music, found.record.url.value, down, down');
  }

  lemma StillAudible(r: Sound, url: Url, down: set<Url>, down': set<Url>)
    requires down + {url} <= down'
    ensures Audible(r, down') ==> Audible(r, down) && r.url != Some(url)
  {
  }

  /** With no new take bound, five rejections leave the lookup nothing to play. */
  lemma {:induction false} FiveRejectionsAreSilence(games: Games, own: Games, game: string, state: string, level: string,
                                                    verdicts: seq<(string, real)>, later: real)
    requires StateName(state)
    requires |verdicts| >= 5
    ensures GameStateMatch(games, Some(RejectEach(games, own, game, state, level, verdicts)),
                           game, state, level, false, later).record.url.None?
  {
    RejectionsCountDown(games, own, game, state, level, verdicts, later);
  }

  lemma {:induction false} RejectionsCountDown(games: Games, own: Games, game: string, state: string, level: string,
                                               verdicts: seq<(string, real)>, later: real)
    requires StateName(state)
    requires PlacesPlaying(SoundsOf(own, game), SoundsOf(games, game),
                           if state != BGM then EMPTY else MusicOf(games, game), state, level) <= |verdicts|
    ensures GameStateMatch(games, Some(RejectEach(games, own, game, state, level, verdicts)),
                           game, state, level, false, later).record.url.None?
    decreases |verdicts|
  {
    if verdicts != [] {
      var (reason, now) := verdicts[0];
      RejectionSilencesOnePlace(games, own, game, state, level, reason, now);
      var found := GameStateMatch(games, Some(own), game, state, level, false, now);
      RejectionsCountDown(games, VerdictIn(own, game, state, found, false, reason, now), game, state, level,
                          verdicts[1..], later);
    }
  }

  /** What a verdict leaves at the key it was heard from, whosever memo it goes to.  A keep marks the take
      approved and leaves it as it was heard.  A rejection takes it from play, noting which, why and when,
      beside the composition that was under way there. */
  lemma VerdictMarks(target: Games, game: string, state: string, found: Found, approved: bool, reason: string, now: real)
    requires found.record.url.Some?
    ensures var held, r := RecordAt(target, game, found.key),
                           RecordAt(VerdictIn(target, game, state, found, approved, reason, now), game, found.key);
      var heard := found.record;
      && r.labels == heard.labels && r.composedAt == heard.composedAt && r.lostTask == heard.lostTask
      && (approved ==> r.approvedAt == Some(now) && r.url == heard.url
                       && r.rejectedUrl == heard.rejectedUrl && r.rejectedReason == heard.rejectedReason
                       && r.rejectedAt == heard.rejectedAt
                       && r.taskId == heard.taskId && r.submittedAt == heard.submittedAt)
      && (!approved ==> r.url.None? && r.approvedAt == heard.approvedAt
                        && r.rejectedUrl == heard.url && r.rejectedReason == Some(reason) && r.rejectedAt == Some(now))
      && (!approved && held.url.None? ==>
            && r.taskId == (if held.taskId.Some? then held.taskId else heard.taskId)
            && r.taskSince == (if held.taskSince.Some? then held.taskSince else heard.taskSince)
            && r.taskTake == (if held.taskTake.Some? then held.taskTake else heard.taskTake)
            && r.submittedAt == (if held.submittedAt.Some? then held.submittedAt else heard.submittedAt))
  {
    VerdictWrites(target, game, state, found, approved, reason, now, game, found.key);
  }

  /** Every composition a keep covers is ended by it: the one at its own key, and, when it lands on
      the game's key, each one under way at a level key. */
  lemma KeepEndsWhatItCovers(target: Games, game: string, state: string, found: Found, reason: string, now: real,
                             key: Key, c: Composition)
    requires found.record.url.Some?
    requires !Names(found.record, c)
    requires key == found.key
             || (found.key == StateKey(state, "") && LevelKeyOf(found.key, key) && Composing(RecordAt(target, game, key), now))
    ensures !Names(RecordAt(VerdictIn(target, game, state, found, true, reason, now), game, key), c)
  {
    VerdictWrites(target, game, state, found, true, reason, now, game, key);
  }

  // ------------------------------------------------------------ the ladder, rung by rung

  /** A composition is under way: a task, or a submit noted less than ten minutes ago. */
  predicate UnderWay(r: Sound, now: real) {
    r.url.None? && (r.taskId.Some? ||
      (r.submittedAt.Some? && r.submittedAt.value != 0.0 && now < r.submittedAt.value + 600.0))
  }

  /** Which rung answers, and with what: the person's own take, at the level's key before the game's; the
      agent's for this level, then for the game, then its first-version music, each unless turned down; a
      composition under way at the level's key, the person's before the agent's; or nothing. */
  lemma LadderAnswersItsFirstRung(mine: map<Key, Sound>, shared: map<Key, Sound>, music: Sound, state: string, level: string, now: real)
    ensures var found := Ladder(mine, shared, music, state, level, now);
      var levelKey, gameKey := StateKey(state, level), StateKey(state, "");
      var heard := (r: Sound) => r.url.Some? && r.url.value !in TurnedDownAt(mine, state, level);
      && (found.matched == Mine ==>
            found.key == (if Held(mine, levelKey).url.Some? then levelKey else gameKey) && found.record == Held(mine, found.key))
      && (found.matched == Level <==> Held(mine, levelKey).url.None? && Held(mine, gameKey).url.None?
                                      && levelKey != gameKey && heard(Held(shared, levelKey)))
      && (found.matched == Level ==> found.key == levelKey && found.record == Held(shared, levelKey))
      && (found.matched == Game ==>
            found.key == gameKey && found.record == if heard(Held(shared, gameKey)) then Held(shared, gameKey) else music)
      && (found.matched == InFlight ==>
            found.key == levelKey && UnderWay(found.record, now)
            && found.record == if UnderWay(Held(mine, levelKey), now) then Held(mine, levelKey) else Held(shared, levelKey))
      && (found.matched == Miss ==>
            found.record == EMPTY && !UnderWay(Held(mine, levelKey), now) && !UnderWay(Held(shared, levelKey), now))
      && found.matched in {Mine, Level, Game, InFlight, Miss}
  {
  }

  /** The rung that plays is the highest that can. */
  lemma AGameTakeIsHeardAfterTheLevels(mine: map<Key, Sound>, shared: map<Key, Sound>, music: Sound, state: string, level: string, now: real)
    ensures Ladder(mine, shared, music, state, level, now).matched == Game ==>
      Held(mine, StateKey(state, level)).url.None? && Held(mine, StateKey(state, "")).url.None?
      && (StateKey(state, level) != StateKey(state, "") ==> !Audible(Held(shared, StateKey(state, level)), TurnedDownAt(mine, state, level)))
  {
  }

  // ------------------------------------------------------------ complaints

  /** The complaint the next take answers: of the level's and the game's latest, the newer, the level's on a
      tie. */
  lemma TheNewestComplaint(games: Games, game: string, state: string, level: string)
    ensures var level', game' := LatestTurnedDown(RecordAt(games, game, StateKey(state, level))),
                                 LatestTurnedDown(RecordAt(games, game, StateKey(state, "")));
      var next := RejectedTake(games, game, state, level);
      && (level'.Some? && (game'.Some? ==> When(level'.value) >= When(game'.value)) ==> next == level')
      && (game'.Some? && (level'.Some? ==> When(game'.value) > When(level'.value)) ==> next == game')
      && (level'.None? && game'.None? ==> next == None)
  {
  }

  /** A take bound answers every complaint at its key. */
  lemma ATakeAnswersItsComplaints(r: Sound)
    requires r.url.Some? && r.rejectedAt.None?
    ensures LatestTurnedDown(r) == None
  {
  }

  /** A rejection is still the complaint to answer after a job or an ended job took its place, unless the
      same take was turned down before. */
  lemma AJobKeepsTheComplaint(rejected: Sound, job: Sound)
    requires rejected.rejectedUrl.Some? && rejected.rejectedUrl.value !in Urls(rejected.previousTakes)
    requires job.url.None? && job.rejectedUrl.None? && job.rejectedAt.None? && job.previousTakes == []
    ensures var complaint := LatestTurnedDown(Keeping(rejected, job));
      && complaint.Some? && complaint.value.url == rejected.rejectedUrl.value && complaint.value.at == rejected.rejectedAt
      && complaint.value.reason == (if rejected.rejectedReason.Some? then rejected.rejectedReason.value else "")
      && complaint.value.variant ==
         (if rejected.labels.Some? && rejected.labels.value.variant != 0 then rejected.labels.value.variant else 1)
  {
    NewTakesOfTwo(rejected.previousTakes, OwnRejection(rejected)[0], {});
    assert TurnedDownTakes(rejected) == rejected.previousTakes + [OwnRejection(rejected)[0]];
    assert Urls([]) == {};
  }

  lemma {:induction false} NewTakesOfTwo(takes: seq<Take>, last: Take, known: set<Url>)
    requires last.url !in Urls(takes) + known
    ensures NewTakes(takes + [last], known) == NewTakes(takes, known) + [last]
  {
    if takes != [] {
      assert (takes + [last])[0] == takes[0] && (takes + [last])[1..] == takes[1..] + [last];
      assert takes[0] in takes && Urls(takes[1..]) <= Urls(takes);
      NewTakesOfTwo(takes[1..], last, if takes[0].url in known then known else known + {takes[0].url});
    } else {
      assert [] + [last] == [last] && [last][1..] == [];
    }
  }
}

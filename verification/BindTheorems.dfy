/** The promises of bind_game_sound over every run. */
module BindTheorems {
  import opened Options
  import opened GameSoundMemo
  import opened GameSoundLaws
  import opened BindProtocol
  import opened BindProofs

  // ------------------------------------------------------------ a keep ends what it covers, for good

  /** The composition was started by now. */
  predicate Begun(w: World, c: Composition) {
    match c
    case Note(at) => at <= w.now
    case Task(id) => id in w.tasks
  }

  /** A composition that was started and that this key no longer names. */
  predicate Over(w: World, m: MemoId, game: string, key: Key, c: Composition) {
    Begun(w, c) && !Names(At(w, m, game, key), c)
  }

  predicate ComposesAs(call: Call, c: Composition) {
    match call.phase
    case Submitting(note) => c == Note(note)
    case Closing(_, _) => false
    case Polling(task, _) => c == Task(task)
  }

  /** The step writes, at this key, the take or the task that came of this composition. */
  predicate Lands(w: World, step: Step, m: MemoId, game: string, key: Key, c: Composition)
    requires Enabled(w, step)
  {
    ByCall(step.event) &&
    var call := w.calls[step.event.call];
    && AtCall(call, m, game, key) && ComposesAs(call, c)
    && WriteOf(w, step).Put?
    && (WriteOf(w, step).record.url.Some? || step.event.Submitted?)
    && !(step.event.Polled? && step.event.progress.Failed?)
  }

  lemma LandingNeedsItsComposition(w: World, step: Step, m: MemoId, game: string, key: Key, c: Composition)
    requires Enabled(w, step) && Lands(w, step, m, game, key, c)
    ensures Names(At(w, m, game, key), c)
  {
  }

  /** What a call writes names only its own new task, the time of this step, or what the key named. */
  lemma CallsWriteNoOldComposition(w: World, step: Step, c: Composition)
    requires Well(w) && Enabled(w, step) && ByCall(step.event)
    requires Begun(w, c) && !Names(Here(w, w.calls[step.event.call]), c)
    ensures WriteOf(w, step).Put? ==> !Names(WriteOf(w, step).record, c)
  {
  }

  /** Once over, a composition stays over. */
  lemma OverStaysOver(w: World, step: Step, m: MemoId, game: string, key: Key, c: Composition)
    requires Well(w) && Enabled(w, step) && Over(w, m, game, key, c)
    ensures Over(Next(w, step), m, game, key, c)
  {
    NextRecord(w, step, m, game, key);
    NextIsLater(w, step);
    match step.event
    case Begin(_, ask) =>
      NoteNamesNoOther(w, ask, EntryOf(w, ask, step.at), MemoFor(w, ask, step.at), step.at, m, game, key, c);
    case Verdict(person, everyone, g, state, _, approved, reason) =>
      JudgedTakesAreSettled(w, step);
      VerdictNamesNoOther(w, VerdictMemo(w, person, everyone), g, state, Judging(w, step), approved, reason, step.at,
                          m, game, key, c);
    case Die(_) =>
    case Pass =>
    case _ =>
      if AtCall(w.calls[step.event.call], m, game, key) {
        CallsWriteNoOldComposition(w, step, c);
      }
  }

  lemma NoteNamesNoOther(w: World, ask: Ask, entry: Entry, memo: MemoId, now: real,
                         m: MemoId, game: string, key: Key, c: Composition)
    requires Over(w, m, game, key, c) && w.now < now
    ensures !Names(NotedAt(w, ask, entry, memo, now, m, game, key), c)
  {
  }

  lemma VerdictNamesNoOther(w: World, memo: MemoId, g: string, state: string, found: Found, approved: bool,
                            reason: string, now: real, m: MemoId, game: string, key: Key, c: Composition)
    requires Over(w, m, game, key, c) && Settled(found.record)
    ensures !Names(JudgedAt(w, memo, g, state, found, approved, reason, now, m, game, key), c)
  {
  }

  lemma KeepMakesOver(w: World, keep: Step, m: MemoId, game: string, key: Key, c: Composition)
    requires Well(w) && Enabled(w, keep) && KeepCovers(w, keep, m, game, key)
    requires HoldsComposition(At(w, m, game, key), c)
    ensures Over(Next(w, keep), m, game, key, c)
  {
    NextRecord(w, keep, m, game, key);
    NextIsLater(w, keep);
    JudgedTakesAreSettled(w, keep);
    assert Past(w, At(w, m, game, key));
    var v := keep.event;
    KeepNames(w, m, game, v.state, Judging(w, keep), v.reason, keep.at, key, c);
  }

  lemma KeepNames(w: World, m: MemoId, game: string, state: string, found: Found, reason: string, now: real,
                  key: Key, c: Composition)
    requires found.record.url.Some? && Settled(found.record)
    requires HoldsComposition(At(w, m, game, key), c)
    ensures Names(JudgedAt(w, m, game, state, found, true, reason, now, m, game, key), c) <==>
            !(key == found.key
              || (found.key == StateKey(state, "") && LevelKeyOf(found.key, key) && Composing(At(w, m, game, key), now)))
  {
  }

  /** At no step of this run does the composition land at the key. */
  predicate NeverLands(w: World, steps: seq<Step>, m: MemoId, game: string, key: Key, c: Composition)
    requires Run(w, steps)
    decreases |steps|
  {
    steps == [] ||
    (!Lands(w, steps[0], m, game, key, c) && NeverLands(Next(w, steps[0]), steps[1..], m, game, key, c))
  }

  lemma {:induction false} OverNeverLands(w: World, steps: seq<Step>, m: MemoId, game: string, key: Key, c: Composition)
    requires Well(w) && Run(w, steps) && Over(w, m, game, key, c)
    ensures NeverLands(w, steps, m, game, key, c)
    decreases |steps|
  {
    if steps != [] {
      if Lands(w, steps[0], m, game, key, c) {
        LandingNeedsItsComposition(w, steps[0], m, game, key, c);
      }
      WellIsKept(w, steps[0]);
      OverStaysOver(w, steps[0], m, game, key, c);
      OverNeverLands(Next(w, steps[0]), steps[1..], m, game, key, c);
    }
  }

  /** A composition that was under way at a key when a keep covered it never lands there, in any run
      that follows: neither its take nor its task is written, whoever keeps, turns down or composes
      meanwhile. */
  lemma KeptOverNeverLands(w: World, keep: Step, steps: seq<Step>, m: MemoId, game: string, key: Key, c: Composition)
    requires Well(w) && Enabled(w, keep) && KeepCovers(w, keep, m, game, key)
    requires HoldsComposition(At(w, m, game, key), c)
    requires Run(Next(w, keep), steps)
    ensures NeverLands(Next(w, keep), steps, m, game, key, c)
  {
    WellIsKept(w, keep);
    KeepMakesOver(w, keep, m, game, key, c);
    OverNeverLands(Next(w, keep), steps, m, game, key, c);
  }

  /** Exactly which compositions a keep leaves: those at another key it does not cover, and at a level
      key a submit note past its cooldown. */
  lemma WhatAKeepLeaves(w: World, keep: Step, m: MemoId, game: string, key: Key, c: Composition)
    requires Well(w) && Enabled(w, keep) && JudgesIn(w, keep, m, game) && keep.event.approved
    requires HoldsComposition(At(w, m, game, key), c)
    ensures Names(At(Next(w, keep), m, game, key), c) <==> !KeepCovers(w, keep, m, game, key)
    ensures KeepCovers(w, keep, m, game, key) <==>
      || key == Judging(w, keep).key
      || (LevelKeyOf(Judging(w, keep).key, key) && Judging(w, keep).key == StateKey(keep.event.state, "")
          && UnderWay(At(w, m, game, key), keep.at))
    ensures LevelKeyOf(Judging(w, keep).key, key) && Judging(w, keep).key == StateKey(keep.event.state, "") && c.Task? ==>
      KeepCovers(w, keep, m, game, key)
  {
    NextRecord(w, keep, m, game, key);
    JudgedTakesAreSettled(w, keep);
    var v := keep.event;
    KeepNames(w, m, game, v.state, Judging(w, keep), v.reason, keep.at, key, c);
  }

  // ------------------------------------------------------------ a turned-down take stays turned down

  lemma DownStays(w: World, step: Step, person: Person, game: string, key: Key, url: Url)
    requires Well(w) && Enabled(w, step)
    requires url in Down(At(w, Own(person), game, key))
    ensures var r := At(Next(w, step), Own(person), game, key); r.url == Some(url) || url in Down(r)
  {
    var m := Own(person);
    var r := At(w, m, game, key);
    NextRecord(w, step, m, game, key);
    match step.event
    case Begin(_, ask) =>
      NoteKeepsDown(w, ask, EntryOf(w, ask, step.at), MemoFor(w, ask, step.at), step.at, m, game, key, url);
    case Verdict(p, everyone, g, state, _, approved, reason) =>
      VerdictKeepsDown(w, VerdictMemo(w, p, everyone), g, state, Judging(w, step), approved, reason, step.at,
                       m, game, key, url);
    case Die(_) =>
    case Pass =>
    case _ =>
      ErasedHadNothing(w, step, url);
      if WriteOf(w, step).Put? {
        WritesKeepTurnedDown(r, WriteOf(w, step).record);
      }
  }

  lemma NoteKeepsDown(w: World, ask: Ask, entry: Entry, memo: MemoId, now: real, m: MemoId, game: string, key: Key, url: Url)
    requires url in Down(At(w, m, game, key))
    ensures var r := NotedAt(w, ask, entry, memo, now, m, game, key); r.url == Some(url) || url in Down(r)
  {
    var r := At(w, m, game, key);
    if entry.Submit? {
      var before := BeforeNote(r, entry.stale, now);
      WritesKeepTurnedDown(r, EndedComposition(r, "no answer within TASK_STALE_S", entry.stale, now));
      WritesKeepTurnedDown(before, SubmitNote(before, NextLabels(GamesOf(w, m), ask), now));
    }
  }

  lemma VerdictKeepsDown(w: World, memo: MemoId, g: string, state: string, found: Found, approved: bool, reason: string,
                         now: real, m: MemoId, game: string, key: Key, url: Url)
    requires url in Down(At(w, m, game, key))
    ensures var r := JudgedAt(w, memo, g, state, found, approved, reason, now, m, game, key);
      r.url == Some(url) || url in Down(r)
  {
    var r := At(w, m, game, key);
    var judged := Judged(found.record, approved, reason, now);
    WritesKeepTurnedDown(r, judged);
    WritesKeepTurnedDown(r, CarryingInFlight(r, judged));
    WritesKeepTurnedDown(r, EndedComposition(r, "a take was kept at " + found.key, None, now));
  }

  /** A record is forgotten only when it held no history. */
  lemma ErasedHadNothing(w: World, step: Step, url: Url)
    requires Enabled(w, step) && ByCall(step.event)
    ensures WriteOf(w, step).Erase? ==> url !in Down(Here(w, w.calls[step.event.call]))
  {
    if WriteOf(w, step).Erase? {
      var here := Here(w, w.calls[step.event.call]);
      assert here.previousTakes == [] && here.rejectedUrl.None?;
      assert TurnedDownTakes(here) == [];
    }
  }

  /** A person's rejection is written where they heard the take. */
  lemma RejectionIsKept(w: World, reject: Step, person: Person, game: string)
    requires Well(w) && Enabled(w, reject) && JudgesIn(w, reject, Own(person), game) && !reject.event.approved
    ensures Judging(w, reject).record.url.value in Down(At(Next(w, reject), Own(person), game, Judging(w, reject).key))
  {
    var v := reject.event;
    var found := Judging(w, reject);
    NextRecord(w, reject, Own(person), game, found.key);
    var r := At(w, Own(person), game, found.key);
    var judged := Judged(found.record, false, v.reason, reject.at);
    WritesKeepTurnedDown(r, CarryingInFlight(r, judged));
    DownOf(CarryingInFlight(r, judged));
  }

  /** What this person hears from the agent's memo, looked up at any time, is not this take. */
  ghost predicate NotHeard(w: World, person: Person, game: string, state: string, level: string, url: Url) {
    forall now: real ::
      var found := GameStateMatch(w.agent, Some(GamesOf(w, Own(person))), game, state, level, false, now);
      found.matched in {Level, Game} ==> found.record.url != Some(url)
  }

  /** At every point of this run, until their own memo holds the take at 'key', it is not heard. */
  ghost predicate SilentUntilRebound(w: World, steps: seq<Step>, person: Person, game: string, key: Key,
                                     state: string, level: string, url: Url)
    requires Run(w, steps)
    decreases |steps|
  {
    At(w, Own(person), game, key).url == Some(url) ||
    (NotHeard(w, person, game, state, level, url) &&
     (steps != [] ==> SilentUntilRebound(Next(w, steps[0]), steps[1..], person, game, key, state, level, url)))
  }

  lemma {:induction false} DownIsSilent(w: World, steps: seq<Step>, person: Person, game: string, key: Key,
                                        state: string, level: string, url: Url)
    requires Well(w) && Run(w, steps) && key in {StateKey(state, level), StateKey(state, "")}
    requires At(w, Own(person), game, key).url == Some(url) || url in Down(At(w, Own(person), game, key))
    ensures SilentUntilRebound(w, steps, person, game, key, state, level, url)
    decreases |steps|
  {
    if At(w, Own(person), game, key).url != Some(url) {
      forall now: real ensures
        var found := GameStateMatch(w.agent, Some(GamesOf(w, Own(person))), game, state, level, false, now);
        found.matched in {Level, Game} ==> found.record.url != Some(url)
      {
        TurnedDownIsNotPlayed(w.agent, GamesOf(w, Own(person)), game, state, level, now, url);
      }
      if steps != [] {
        WellIsKept(w, steps[0]);
        DownStays(w, steps[0], person, game, key, url);
        DownIsSilent(Next(w, steps[0]), steps[1..], person, game, key, state, level, url);
      }
    }
  }

  /** A take a person turned down, heard at (state, level), is never played to them from the agent's
      memo wherever that rejection reaches (its own level, or every level when it landed on the game's
      key), in any run that follows, until their own memo holds that take again. */
  lemma TurnedDownIsNeverPlayedAgain(w: World, reject: Step, steps: seq<Step>, person: Person, game: string, level: string)
    requires Well(w) && Enabled(w, reject) && JudgesIn(w, reject, Own(person), game) && !reject.event.approved
    requires Judging(w, reject).key in {StateKey(reject.event.state, level), StateKey(reject.event.state, "")}
    requires Run(Next(w, reject), steps)
    ensures SilentUntilRebound(Next(w, reject), steps, person, game, Judging(w, reject).key,
                               reject.event.state, level, Judging(w, reject).record.url.value)
  {
    WellIsKept(w, reject);
    RejectionIsKept(w, reject, person, game);
    DownIsSilent(Next(w, reject), steps, person, game, Judging(w, reject).key, reject.event.state, level,
                 Judging(w, reject).record.url.value);
  }

  // ------------------------------------------------------------ no step of a call loses a take

  lemma CallsKeepTheTakeHere(w: World, step: Step)
    requires Enabled(w, step) && ByCall(step.event)
    ensures var here := Here(w, w.calls[step.event.call]);
      here.url.Some? ==> WriteOf(w, step).Nothing? || (WriteOf(w, step).Put? && WriteOf(w, step).record.url == here.url)
  {
  }

  /** No step of any call removes or replaces a take held at any key of any memo, nor the agent's
      first-version music. */
  lemma CallsLoseNoTake(w: World, step: Step, m: MemoId, game: string, key: Key)
    requires Well(w) && Enabled(w, step) && !step.event.Verdict?
    ensures At(w, m, game, key).url.Some? ==> At(Next(w, step), m, game, key).url == At(w, m, game, key).url
    ensures MusicOf(w.agent, game).url.Some? ==> MusicOf(Next(w, step).agent, game).url == MusicOf(w.agent, game).url
  {
    NextRecord(w, step, m, game, key);
    if ByCall(step.event) {
      CallsKeepTheTakeHere(w, step);
      CallsKeepMusic(w, step, game);
    } else if step.event.Begin? {
      var ask := step.event.ask;
      if EntryOf(w, ask, step.at).Submit? {
        NoTakeWhereACallStarts(w, ask, step.at);
        StartsKeepMusic(w, step, game);
      }
    }
  }

  lemma StartsKeepMusic(w: World, step: Step, game: string)
    requires Well(w) && Enabled(w, step) && step.event.Begin?
    ensures MusicOf(w.agent, game).url.Some? ==> MusicOf(Next(w, step).agent, game).url == MusicOf(w.agent, game).url
  {
    var ask := step.event.ask;
    var entry, memo := EntryOf(w, ask, step.at), MemoFor(w, ask, step.at);
    if entry.Submit? && memo == Agent {
      NoTakeWhereACallStarts(w, ask, step.at);
      NotedMusic(w.agent, ask, entry.stale, NextLabels(w.agent, ask), step.at, game);
    }
  }

  lemma NotedMusic(games: Games, ask: Ask, stale: Option<TaskId>, labels: Labels, now: real, game: string)
    requires ask.state == BGM && ask.level == "" && game == ask.game ==> MusicOf(games, game).url.None?
    ensures MusicOf(games, game).url.Some? ==>
      MusicOf(Noted(games, ask, stale, labels, now), game) == MusicOf(games, game)
  {
  }

  lemma CallsKeepMusic(w: World, step: Step, game: string)
    requires Well(w) && Enabled(w, step) && ByCall(step.event)
    ensures MusicOf(w.agent, game).url.Some? ==> MusicOf(Next(w, step).agent, game).url == MusicOf(w.agent, game).url
  {
    var call := w.calls[step.event.call];
    assert CallWell(w, call);
    CallsKeepTheTakeHere(w, step);
    ErasedHadNoTake(w, step);
    AppliedKeepsMusic(w, call, WriteOf(w, step), game);
  }

  lemma AppliedKeepsMusic(w: World, call: Call, write: Write, game: string)
    requires StateName(call.ask.state) && MusicInStep(w, call)
    requires write.Put? && Here(w, call).url.Some? ==> write.record.url == Here(w, call).url
    requires write.Erase? ==> Here(w, call).url.None?
    ensures MusicOf(w.agent, game).url.Some? ==>
      MusicOf(Apply(w, call, write).agent, game).url == MusicOf(w.agent, game).url
  {
    if call.memo == Agent && write.Put? {
      MusicAfterSetState(w.agent, call.ask.game, call.ask.state, call.ask.level, write.record, game);
      SetStateWrites(w.agent, call.ask.game, call.ask.state, call.ask.level, write.record, game, BGM);
    }
  }

  // ------------------------------------------------------------ whose memo is written

  /** A call writes its own memo alone; the memo was chosen when it began. */
  lemma CallsWriteTheirMemo(w: World, step: Step, m: MemoId)
    requires Enabled(w, step) && ByCall(step.event) && m != w.calls[step.event.call].memo
    ensures GamesOf(Next(w, step), m) == GamesOf(w, m)
  {
    MovedGames(w, w.calls[step.event.call], WriteOf(w, step), step.event.call, PhaseOf(w, step), m);
  }

  lemma MovedGames(w: World, call: Call, write: Write, id: CallId, phase: Option<Phase>, m: MemoId)
    requires m != call.memo
    ensures GamesOf(Move(Apply(w, call, write), id, phase), m) == GamesOf(w, m)
  {
  }

  /** Someone who is not the creator and has a record of their own here never starts a call that
      writes the agent's memo. */
  lemma AChoiceStaysPersonal(w: World, step: Step)
    requires Enabled(w, step) && step.event.Begin?
    requires w.creator != Some(step.event.ask.person) && HasOwnRecord(w, step.event.ask)
    ensures Next(w, step).agent == w.agent
    ensures step.event.call in Next(w, step).calls ==> Next(w, step).calls[step.event.call].memo == Own(step.event.ask.person)
  {
    var ask := step.event.ask;
    StartPhase(w, step.event.call, ask, EntryOf(w, ask, step.at), MemoFor(w, ask, step.at), step.at);
  }

  /** A person's verdict leaves the agent's memo, and what everyone else hears, as they were. */
  lemma VerdictIsPersonal(w: World, step: Step, other: Person, game: string, state: string, level: string, ownOnly: bool, now: real)
    requires Enabled(w, step) && step.event.Verdict?
    requires !(step.event.everyone && w.creator == Some(step.event.person)) && other != step.event.person
    ensures Next(w, step).agent == w.agent
    ensures GameStateMatch(Next(w, step).agent, Some(GamesOf(Next(w, step), Own(other))), game, state, level, ownOnly, now)
         == GameStateMatch(w.agent, Some(GamesOf(w, Own(other))), game, state, level, ownOnly, now)
    ensures GameStateMatch(Next(w, step).agent, None, game, state, level, ownOnly, now)
         == GameStateMatch(w.agent, None, game, state, level, ownOnly, now)
  {
  }

  /** The creator's verdict for everyone judges what the agent's memo plays, lands there, and leaves every
      person's own memo as it was. */
  lemma VerdictForEveryone(w: World, step: Step)
    requires Enabled(w, step) && step.event.Verdict? && step.event.everyone && w.creator == Some(step.event.person)
    ensures Next(w, step).own == w.own
    ensures var v := step.event;
      var found := GameStateMatch(w.agent, None, v.game, v.state, v.level, false, step.at);
      && (found.record.url.None? ==> Next(w, step).agent == w.agent)
      && (found.record.url.Some? ==>
            RecordAt(Next(w, step).agent, v.game, found.key).url == if v.approved then found.record.url else None)
  {
    if JudgesIn(w, step, Agent, step.event.game) {
      VerdictIsMarked(w, step, Agent, step.event.game);
    }
  }

  // ------------------------------------------------------------ one submit at a time

  /** The record holds a composition under way, however old. */
  predicate Occupies(r: Sound) {
    r.url.None? && (r.taskId.Some? || r.submittedAt.Some?)
  }

  /** The key holds a composition submitted at 'since' or later, or its task. */
  predicate Occupied(r: Sound, since: real) {
    r.url.None? && (r.taskId.Some? || (r.submittedAt.Some? && r.submittedAt.value >= since))
  }

  /** The composition a call's step speaks for. */
  function OwnComposition(call: Call): Composition {
    match call.phase
    case Submitting(note) => Note(note)
    case Closing(note, _) => Note(note)
    case Polling(task, _) => Task(task)
  }

  /** The step ends the composition at this key as its own: its take lands there, a keep covers it, its
      note is cleared since nothing came of it, or its task is forgotten as failed or too old. */
  predicate EndsComposition(w: World, step: Step, m: MemoId, game: string, key: Key)
    requires Enabled(w, step)
  {
    || KeepCovers(w, step, m, game, key)
    || (SubmitsAt(w, step, m, game, key) && EntryOf(w, step.event.ask, step.at).stale.Some?)
    || (ByCall(step.event) && AtCall(w.calls[step.event.call], m, game, key)
        && !WriteOf(w, step).Nothing?
        && (step.event.Close?
            || (step.event.Polled? && step.event.progress.Failed? && Names(At(w, m, game, key), Task(w.calls[step.event.call].phase.task)))
            || (WriteOf(w, step).Put? && WriteOf(w, step).record.url.Some?)))
  }

  /** A call whose task failed forgets, in its place, the composition that came to its key since. */
  predicate ForgetsAnothers(w: World, step: Step, m: MemoId, game: string, key: Key)
    requires Enabled(w, step)
  {
    step.event.Polled? && step.event.progress.Failed? &&
    var call := w.calls[step.event.call];
    && AtCall(call, m, game, key) && Occupies(At(w, m, game, key))
    && !Names(At(w, m, game, key), Task(call.phase.task))
  }

  /** But for that, no step of a call, whatever it writes, ends a composition other than its own. */
  lemma CallsEndTheirOwn(w: World, step: Step, m: MemoId, game: string, key: Key, c: Composition)
    requires Well(w) && Enabled(w, step) && ByCall(step.event) && !ForgetsAnothers(w, step, m, game, key)
    requires HoldsComposition(At(w, m, game, key), c) && !Names(At(Next(w, step), m, game, key), c)
    ensures AtCall(w.calls[step.event.call], m, game, key) && c == OwnComposition(w.calls[step.event.call])
  {
    NextRecord(w, step, m, game, key);
    assert NamesOne(At(w, m, game, key));
  }

  lemma SubmitOccupies(w: World, step: Step, m: MemoId, game: string, key: Key)
    requires Well(w) && Enabled(w, step) && SubmitsAt(w, step, m, game, key)
    ensures Occupied(At(Next(w, step), m, game, key), step.at)
  {
    NextRecord(w, step, m, game, key);
    NoTakeWhereACallStarts(w, step.event.ask, step.at);
  }

  lemma OccupiedStays(w: World, step: Step, m: MemoId, game: string, key: Key, since: real)
    requires Well(w) && Enabled(w, step) && since <= w.now
    requires Occupied(At(w, m, game, key), since)
    requires !EndsComposition(w, step, m, game, key) && !ForgetsAnothers(w, step, m, game, key)
    ensures Occupied(At(Next(w, step), m, game, key), since)
  {
    NextRecord(w, step, m, game, key);
    match step.event
    case Begin(_, ask) =>
      StartKeepsOccupied(w, ask, EntryOf(w, ask, step.at), MemoFor(w, ask, step.at), step.at, m, game, key, since);
    case Verdict(person, everyone, g, state, _, approved, reason) =>
      VerdictKeepsOccupied(w, VerdictMemo(w, person, everyone), g, state, Judging(w, step), approved, reason, step.at,
                           m, game, key, since);
    case Die(_) =>
    case Pass =>
    case _ =>
      if AtCall(w.calls[step.event.call], m, game, key) {
        CallKeepsOccupied(w, step, since);
      }
  }

  lemma StartKeepsOccupied(w: World, ask: Ask, entry: Entry, memo: MemoId, now: real, m: MemoId, game: string, key: Key,
                           since: real)
    requires since <= now && Occupied(At(w, m, game, key), since)
    requires entry.Submit? && m == memo && game == ask.game && key == StateKey(ask.state, ask.level) ==> entry.stale.None?
    ensures Occupied(NotedAt(w, ask, entry, memo, now, m, game, key), since)
  {
  }

  lemma VerdictKeepsOccupied(w: World, memo: MemoId, g: string, state: string, found: Found, approved: bool, reason: string,
                             now: real, m: MemoId, game: string, key: Key, since: real)
    requires Occupied(At(w, m, game, key), since)
    requires !(m == memo && game == g && found.record.url.Some? && approved
               && (key == found.key
                   || (found.key == StateKey(state, "") && LevelKeyOf(found.key, key) && Composing(At(w, m, game, key), now))))
    ensures Occupied(JudgedAt(w, memo, g, state, found, approved, reason, now, m, game, key), since)
  {
  }

  lemma CallKeepsOccupied(w: World, step: Step, since: real)
    requires Enabled(w, step) && ByCall(step.event) && since <= w.now
    requires var call := w.calls[step.event.call];
      && Occupied(Here(w, call), since)
      && (WriteOf(w, step).Nothing?
          || (!step.event.Close? && !(step.event.Polled? && step.event.progress.Failed?)
              && !(WriteOf(w, step).Put? && WriteOf(w, step).record.url.Some?)))
    ensures WriteOf(w, step).Nothing? || (WriteOf(w, step).Put? && Occupied(WriteOf(w, step).record, since))
  {
  }

  /** A submit at a key already occupied comes only after the cooldown, or by forgetting the task
      there as too old. */
  lemma SubmitWhereOccupied(w: World, step: Step, m: MemoId, game: string, key: Key, since: real)
    requires Well(w) && Enabled(w, step) && SubmitsAt(w, step, m, game, key)
    requires 0.0 < since && Occupied(At(w, m, game, key), since)
    ensures EntryOf(w, step.event.ask, step.at).stale.Some? || step.at - since >= SUBMIT_COOLDOWN_S
  {
    var ask := step.event.ask;
    NoTakeWhereACallStarts(w, ask, step.at);
    assert Past(w, At(w, m, game, key));
  }

  /** In this run, every submit at the key comes the submit cooldown after 'since' or later, up to the
      step that ends the composition there as its own, or the failed poll of another call that ends it. */
  predicate SubmitsWait(w: World, steps: seq<Step>, m: MemoId, game: string, key: Key, since: real)
    requires Run(w, steps)
    decreases |steps|
  {
    steps == [] || EndsComposition(w, steps[0], m, game, key) || ForgetsAnothers(w, steps[0], m, game, key) ||
    ((SubmitsAt(w, steps[0], m, game, key) ==> steps[0].at - since >= SUBMIT_COOLDOWN_S) &&
     SubmitsWait(Next(w, steps[0]), steps[1..], m, game, key, since))
  }

  lemma {:induction false} OccupiedMakesSubmitsWait(w: World, steps: seq<Step>, m: MemoId, game: string, key: Key, since: real)
    requires Well(w) && Run(w, steps) && 0.0 < since <= w.now && Occupied(At(w, m, game, key), since)
    ensures SubmitsWait(w, steps, m, game, key, since)
    decreases |steps|
  {
    if steps != [] && !EndsComposition(w, steps[0], m, game, key) && !ForgetsAnothers(w, steps[0], m, game, key) {
      if SubmitsAt(w, steps[0], m, game, key) {
        SubmitWhereOccupied(w, steps[0], m, game, key, since);
      }
      WellIsKept(w, steps[0]);
      NextIsLater(w, steps[0]);
      OccupiedStays(w, steps[0], m, game, key, since);
      OccupiedMakesSubmitsWait(Next(w, steps[0]), steps[1..], m, game, key, since);
    }
  }

  /** After a submit for a key, in any run, every other submit for it comes the cooldown later, until a
      step of the first one's own ends its composition or another call's failed poll does.  A rejection
      is no such step. */
  lemma SubmitsAreSeparated(w: World, first: Step, steps: seq<Step>, m: MemoId, game: string, key: Key)
    requires Well(w) && Enabled(w, first) && SubmitsAt(w, first, m, game, key)
    requires Run(Next(w, first), steps)
    ensures SubmitsWait(Next(w, first), steps, m, game, key, first.at)
  {
    WellIsKept(w, first);
    NextIsLater(w, first);
    SubmitOccupies(w, first, m, game, key);
    OccupiedMakesSubmitsWait(Next(w, first), steps, m, game, key, first.at);
  }

  // ------------------------------------------------------------ what a verdict marks

  /** A verdict's record, by its fields, at the key it was heard from. */
  lemma VerdictIsMarked(w: World, step: Step, m: MemoId, game: string)
    requires Enabled(w, step) && JudgesIn(w, step, m, game)
    ensures var r, found := At(Next(w, step), m, game, Judging(w, step).key), Judging(w, step);
      && (step.event.approved ==> r.url == found.record.url && r.approvedAt == Some(step.at) && r.labels == found.record.labels)
      && (!step.event.approved ==> r.url.None? && r.rejectedUrl == found.record.url
                                   && r.rejectedReason == Some(step.event.reason) && r.rejectedAt == Some(step.at))
  {
    NextRecord(w, step, m, game, Judging(w, step).key);
  }

  /** A verdict rejects the take at this key. */
  predicate RejectsAt(w: World, step: Step, m: MemoId, game: string, key: Key) {
    JudgesIn(w, step, m, game) && !step.event.approved && Judging(w, step).key == key
  }

  predicate Approved(r: Sound, url: Url) {
    r.url == Some(url) && r.approvedAt.Some?
  }

  /** A verdict on a take kept at a key of the memo it is written to is on that very record. */
  lemma JudgesWhatIsThere(w: World, step: Step, m: MemoId, game: string)
    requires Enabled(w, step) && JudgesIn(w, step, m, game) && At(w, m, game, Judging(w, step).key).url.Some?
    ensures Judging(w, step).record == At(w, m, game, Judging(w, step).key)
  {
    assert Down(EMPTY) == {};
  }

  lemma ApprovalStays(w: World, step: Step, m: MemoId, game: string, key: Key, url: Url)
    requires Well(w) && Enabled(w, step) && Approved(At(w, m, game, key), url) && !RejectsAt(w, step, m, game, key)
    ensures Approved(At(Next(w, step), m, game, key), url)
  {
    NextRecord(w, step, m, game, key);
    match step.event
    case Begin(_, ask) =>
      if EntryOf(w, ask, step.at).Submit? {
        NoTakeWhereACallStarts(w, ask, step.at);
      }
    case Verdict(_, _, _, _, _, _, _) =>
      if JudgesIn(w, step, m, game) && Judging(w, step).key == key {
        JudgesWhatIsThere(w, step, m, game);
      }
    case Die(_) =>
    case Pass =>
    case _ =>
      if AtCall(w.calls[step.event.call], m, game, key) {
        CallsKeepTheApproval(w, step);
      }
  }

  lemma CallsKeepTheApproval(w: World, step: Step)
    requires Enabled(w, step) && ByCall(step.event)
    ensures var here := Here(w, w.calls[step.event.call]);
      here.url.Some? && !WriteOf(w, step).Nothing? ==>
        WriteOf(w, step).Put? && WriteOf(w, step).record.url == here.url && WriteOf(w, step).record.approvedAt == here.approvedAt
  {
  }

  /** In this run the take at the key stays, approved, until a verdict turns it down there. */
  predicate ApprovedUntilRejected(w: World, steps: seq<Step>, m: MemoId, game: string, key: Key, url: Url)
    requires Run(w, steps)
    decreases |steps|
  {
    Approved(At(w, m, game, key), url) &&
    (steps != [] ==> RejectsAt(w, steps[0], m, game, key) ||
                     ApprovedUntilRejected(Next(w, steps[0]), steps[1..], m, game, key, url))
  }

  lemma {:induction false} ApprovedStays(w: World, steps: seq<Step>, m: MemoId, game: string, key: Key, url: Url)
    requires Well(w) && Run(w, steps) && Approved(At(w, m, game, key), url)
    ensures ApprovedUntilRejected(w, steps, m, game, key, url)
    decreases |steps|
  {
    if steps != [] && !RejectsAt(w, steps[0], m, game, key) {
      WellIsKept(w, steps[0]);
      ApprovalStays(w, steps[0], m, game, key, url);
      ApprovedStays(Next(w, steps[0]), steps[1..], m, game, key, url);
    }
  }

  /** A take that was kept is there, approved, in every run that follows, until somebody whose verdict goes
      to that memo turns it down there. */
  lemma KeptStaysApproved(w: World, keep: Step, steps: seq<Step>, m: MemoId, game: string)
    requires Well(w) && Enabled(w, keep) && JudgesIn(w, keep, m, game) && keep.event.approved
    requires Run(Next(w, keep), steps)
    ensures ApprovedUntilRejected(Next(w, keep), steps, m, game, Judging(w, keep).key, Judging(w, keep).record.url.value)
  {
    WellIsKept(w, keep);
    VerdictIsMarked(w, keep, m, game);
    ApprovedStays(Next(w, keep), steps, m, game, Judging(w, keep).key, Judging(w, keep).record.url.value);
  }

  // ------------------------------------------------------------ a closed submit's note is gone

  /** Once a submit is closed no record holds its note at its key. */
  lemma CloseLeavesNoNote(w: World, close: Step)
    requires Well(w) && Enabled(w, close) && close.event.Close?
    ensures var call := w.calls[close.event.call];
      At(Next(w, close), call.memo, call.ask.game, StateKey(call.ask.state, call.ask.level)).submittedAt != Some(call.phase.note)
  {
    var call := w.calls[close.event.call];
    NextRecord(w, close, call.memo, call.ask.game, StateKey(call.ask.state, call.ask.level));
    assert Settled(Here(w, call)) && NamesOne(Here(w, call));
    ClosedRecord(w, call);
  }

  lemma ClosedRecord(w: World, call: Call)
    requires call.phase.Closing? && Settled(Here(w, call)) && NamesOne(Here(w, call))
    ensures WrittenAt(w, call, CloseWrite(w, call), call.memo, call.ask.game,
                      StateKey(call.ask.state, call.ask.level)).submittedAt != Some(call.phase.note)
  {
  }

  // ------------------------------------------------------------ what an ended composition leaves

  /** The record with its composition over: nothing of it left but a note of which and why. */
  predicate LostTo(r: Sound, r': Sound, task: Option<TaskId>, why: string, at: real) {
    && r'.lostTask == Some(LostTask(task, why, at))
    && r'.taskId.None? && r'.taskSince.None? && r'.taskTake.None? && r'.submittedAt.None?
    && r'.url == r.url && r'.labels == r.labels && r'.rejectedUrl == r.rejectedUrl && r'.rejectedReason == r.rejectedReason
    && r'.rejectedAt == r.rejectedAt && Down(r) <= Down(r')
  }

  /** A failed poll notes the task it polled and the composer's reason. */
  lemma FailedPollIsNoted(w: World, failed: Step)
    requires Enabled(w, failed) && failed.event.Polled? && failed.event.progress.Failed?
    ensures var call := w.calls[failed.event.call];
      LostTo(Here(w, call), At(Next(w, failed), call.memo, call.ask.game, StateKey(call.ask.state, call.ask.level)),
             Some(call.phase.task), failed.event.progress.why, failed.at)
  {
    var call := w.calls[failed.event.call];
    NextRecord(w, failed, call.memo, call.ask.game, StateKey(call.ask.state, call.ask.level));
    EndedIsLost(Here(w, call), failed.event.progress.why, Some(call.phase.task), failed.at);
  }

  /** A keep at the game's key notes the task it ended at a level's. */
  lemma CoveredIsNoted(w: World, keep: Step, m: MemoId, game: string, key: Key)
    requires Enabled(w, keep) && KeepCovers(w, keep, m, game, key) && key != Judging(w, keep).key
    ensures LostTo(At(w, m, game, key), At(Next(w, keep), m, game, key), At(w, m, game, key).taskId,
                   "a take was kept at " + Judging(w, keep).key, keep.at)
  {
    NextRecord(w, keep, m, game, key);
    EndedIsLost(At(w, m, game, key), "a take was kept at " + Judging(w, keep).key, None, keep.at);
  }

  lemma EndedIsLost(r: Sound, why: string, task: Option<TaskId>, at: real)
    ensures LostTo(r, Keeping(r, EndedComposition(r, why, task, at)), if task.Some? then task else r.taskId, why, at)
  {
    KeptAsItIs(r, EndedComposition(r, why, task, at));
    assert TurnedDownTakes(EndedComposition(r, why, task, at)) == TurnedDownTakes(r);
  }
}

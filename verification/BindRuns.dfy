/** Two runs of bind_game_sound, each from an empty memo, that end as a reader would not expect. */
module BindRuns {
  import opened Options
  import opened GameSoundMemo
  import opened GameSoundLaws
  import opened BindProtocol
  import opened BindProofs
  import opened BindTheorems
  import opened BindOutcomes

  const GAME: string := "spelling"

  /** The agent's creator asks for the sound of a state, for every level and for level 3 alone. */
  const ASK: Ask := Ask("creator", false, GAME, "correct", "", "happy", "a chime")
  const LEVEL_ASK: Ask := Ask("creator", false, GAME, "correct", "3", "happy", "a chime")

  const START: World := World(map[], map[], Some("creator"), 0.0, {}, map[])

  lemma Keys()
    ensures StateKey("correct", "") == "correct" && StateKey("correct", "3") == "correct@3"
    ensures LevelKeyOf("correct", "correct@3") && !LevelKeyOf("correct", "correct") && "correct" != "correct@3"
    ensures StateName("correct") && "correct" != BGM
  {
    assert "correct" + "@" + "3" == "correct@3";
    assert "correct" + "@" == "correct@3"[..8];
  }

  // ------------------------------------------------------------ runs, step by step

  predicate Reached(steps: seq<Step>, w: World) {
    Run(START, steps) && After(START, steps, |steps|) == w
  }

  lemma {:induction false} Extended(w: World, steps: seq<Step>, s: Step)
    requires Run(w, steps) && Enabled(After(w, steps, |steps|), s)
    ensures Run(w, steps + [s])
    ensures After(w, steps + [s], |steps| + 1) == Next(After(w, steps, |steps|), s)
    decreases |steps|
  {
    if steps == [] {
      assert [] + [s] == [s] && [s][1..] == [];
      assert After(Next(w, s), [], 0) == Next(w, s);
    } else {
      assert (steps + [s])[1..] == steps[1..] + [s];
      Extended(Next(w, steps[0]), steps[1..], s);
    }
  }

  lemma Reach(steps: seq<Step>, w: World, s: Step)
    requires Reached(steps, w) && Enabled(w, s)
    ensures Reached(steps + [s], Next(w, s))
  {
    Extended(START, steps, s);
  }

  // ------------------------------------------------------------ what the creator's calls do

  /** The creator's ask, where neither its key nor the game's holds a take, reads its own key alone. */
  lemma CreatorReads(w: World, ask: Ask, now: real)
    requires ForAgent(w, ask) && ask.state != BGM
    requires At(w, Agent, ask.game, StateKey(ask.state, ask.level)).url.None?
    requires At(w, Agent, ask.game, StateKey(ask.state, "")).url.None?
    ensures MemoFor(w, ask, now) == Agent && PlayableTo(w, ask, true, false) == {}
    ensures var r := At(w, Agent, ask.game, StateKey(ask.state, ask.level));
      Bound(w, ask, now) == if Composing(r, now) then r else EMPTY
  {
    assert Down(EMPTY) == {};
  }

  /** The record holds a submit's note and nothing else under way. */
  predicate OnlyNote(r: Sound, note: real) {
    r.url.None? && r.taskId.None? && r.submittedAt == Some(note)
  }

  lemma CreatorSubmits(w: World, begin: Step)
    requires Enabled(w, begin) && begin.event.Begin? && ForAgent(w, begin.event.ask) && begin.event.ask.state != BGM
    requires var r := At(w, Agent, begin.event.ask.game, StateKey(begin.event.ask.state, begin.event.ask.level));
      r.url.None? && r.taskId.None? && r.submittedAt.None?
    requires At(w, Agent, begin.event.ask.game, StateKey(begin.event.ask.state, "")).url.None?
    ensures var ask := begin.event.ask; var key := StateKey(ask.state, ask.level); var w' := Next(w, begin);
      && SubmitsAt(w, begin, Agent, ask.game, key)
      && OnlyNote(At(w', Agent, ask.game, key), begin.at)
      && (forall k :: k != key ==> At(w', Agent, ask.game, k) == At(w, Agent, ask.game, k))
      && begin.event.call in w'.calls
      && var call := w'.calls[begin.event.call];
         call.ask == ask && call.forAgent && call.memo == Agent && call.phase == Submitting(begin.at)
    ensures SameElsewhere(w, Next(w, begin), begin.event.call)
  {
    var ask := begin.event.ask;
    CreatorReads(w, ask, begin.at);
    NextRecord(w, begin, Agent, ask.game, StateKey(ask.state, ask.level));
    forall k | k != StateKey(ask.state, ask.level)
      ensures At(Next(w, begin), Agent, ask.game, k) == At(w, Agent, ask.game, k)
    {
      NextRecord(w, begin, Agent, ask.game, k);
    }
    StartedCall(w, begin.event.call, ask, EntryOf(w, ask, begin.at), Agent, begin.at);
    NextIsLater(w, begin);
  }

  /** Nothing but the memo and the one call has changed. */
  ghost predicate SameElsewhere(w: World, w': World, id: CallId) {
    && w'.creator == w.creator && w'.tasks == w.tasks
    && forall other :: other != id ==> (other in w'.calls <==> other in w.calls) &&
                                       (other in w.calls ==> w'.calls[other] == w.calls[other])
  }

  /** A creator's call for every level of the state, at this phase. */
  predicate CallAt(w: World, id: CallId, ask: Ask, phase: Phase) {
    id in w.calls && w.calls[id].ask == ask && w.calls[id].forAgent && w.calls[id].memo == Agent && w.calls[id].phase == phase
  }

  predicate Idle(r: Sound) {
    r.url.None? && r.taskId.None? && r.submittedAt.None?
  }

  predicate OnlyTask(r: Sound, task: TaskId, since: real) {
    r.url.None? && r.taskId == Some(task) && r.taskSince == Some(since) && r.submittedAt.None?
  }

  function Chime(w: World): Sound {
    At(w, Agent, GAME, "correct")
  }

  /** The record a step leaves for the creator's ask, and its call. */
  lemma StepOfCall(w: World, step: Step, id: CallId, phase: Phase)
    requires Enabled(w, step) && ByCall(step.event) && step.event.call == id && CallAt(w, id, ASK, phase)
    ensures Chime(Next(w, step)) == WrittenAt(w, w.calls[id], WriteOf(w, step), Agent, GAME, "correct")
    ensures Next(w, step).creator == w.creator
    ensures Next(w, step).calls == if PhaseOf(w, step).None? then w.calls - {id}
                                   else w.calls[id := w.calls[id].(phase := PhaseOf(w, step).value)]
  {
    NextRecord(w, step, Agent, GAME, "correct");
    MovedCalls(w, w.calls[id], WriteOf(w, step), id, PhaseOf(w, step));
    NextIsLater(w, step);
  }

  lemma TaskStarts(w: World, answer: Step, id: CallId, note: real, task: TaskId)
    requires Enabled(w, answer) && answer.event == Submitted(id, Pending(task))
    requires ForAgent(w, ASK) && CallAt(w, id, ASK, Submitting(note)) && OnlyNote(Chime(w), note)
    ensures OnlyTask(Chime(Next(w, answer)), task, answer.at)
    ensures CallAt(Next(w, answer), id, ASK, Closing(note, Some(task)))
    ensures Next(w, answer).creator == w.creator && Next(w, answer).calls.Keys == w.calls.Keys
  {
    Keys();
    CreatorReads(w, ASK, answer.at);
    LookupPlays(w, ASK, true, false, answer.at);
    StepOfCall(w, answer, id, Submitting(note));
  }

  lemma TaskIsPolled(w: World, close: Step, id: CallId, note: real, task: TaskId, since: real)
    requires Enabled(w, close) && close.event == Close(id)
    requires CallAt(w, id, ASK, Closing(note, Some(task))) && OnlyTask(Chime(w), task, since)
    ensures Chime(Next(w, close)) == Chime(w) && CallAt(Next(w, close), id, ASK, Polling(task, None))
    ensures Next(w, close).creator == w.creator && Next(w, close).calls.Keys == w.calls.Keys
  {
    Keys();
    StepOfCall(w, close, id, Closing(note, Some(task)));
  }

  /** A second call finds the task under way and polls it too. */
  lemma TaskIsResumed(w: World, begin: Step, id: CallId, task: TaskId, since: real)
    requires Enabled(w, begin) && begin.event == Begin(id, ASK) && ForAgent(w, ASK)
    requires OnlyTask(Chime(w), task, since) && begin.at - since <= TASK_STALE_S
    ensures Chime(Next(w, begin)) == Chime(w) && Next(w, begin).creator == w.creator
    ensures id in Next(w, begin).calls && CallAt(Next(w, begin), id, ASK, Next(w, begin).calls[id].phase)
    ensures Next(w, begin).calls[id].phase.Polling? && Next(w, begin).calls[id].phase.task == task
    ensures forall other :: other in w.calls ==> other in Next(w, begin).calls && Next(w, begin).calls[other] == w.calls[other]
    ensures Next(w, begin).calls.Keys == w.calls.Keys + {id}
  {
    Keys();
    CreatorReads(w, ASK, begin.at);
    NextRecord(w, begin, Agent, GAME, "correct");
    NextIsLater(w, begin);
  }

  lemma TaskFails(w: World, failed: Step, id: CallId, phase: Phase)
    requires Enabled(w, failed) && failed.event.Polled? && failed.event.call == id && failed.event.progress.Failed?
    requires CallAt(w, id, ASK, phase) && Chime(w).url.None?
    ensures Idle(Chime(Next(w, failed))) && Next(w, failed).creator == w.creator && Next(w, failed).calls == w.calls - {id}
  {
    Keys();
    StepOfCall(w, failed, id, phase);
  }

  // ------------------------------------------------------------ a failed task ends another call's submit

  const S1: Step := Step(1.0, Begin(0, ASK))
  const S2: Step := Step(2.0, Submitted(0, Pending("T")))
  const S3: Step := Step(3.0, Close(0))
  const S4: Step := Step(4.0, Begin(1, ASK))
  const S5: Step := Step(21.0, Polled(0, Failed("out of memory")))
  const S6: Step := Step(22.0, Begin(2, ASK))
  const S7: Step := Step(23.0, Polled(1, Failed("out of memory")))
  const S8: Step := Step(24.0, Begin(3, ASK))

  /** The run of these eight steps. */
  const TWICE: seq<Step> := [S1, S2, S3, S4, S5, S6, S7, S8]

  lemma ATaskStarts() returns (w: World)
    ensures Reached([S1, S2], w) && w.now == 2.0 && w.creator == Some("creator") && OnlyTask(Chime(w), "T", 2.0)
    ensures w.calls.Keys == {0} && CallAt(w, 0, ASK, Closing(1.0, Some("T")))
  {
    Keys();
    CreatorSubmits(START, S1);
    Reach([], START, S1);
    assert [] + [S1] == [S1];
    var w1 := Next(START, S1);
    assert w1.calls.Keys == {0};
    TaskStarts(w1, S2, 0, 1.0, "T");
    Reach([S1], w1, S2);
    assert [S1] + [S2] == [S1, S2];
    w := Next(w1, S2);
  }

  /** Two calls poll a task by the time it fails. */
  lemma TwoCallsPollOneTask() returns (w: World)
    ensures Reached([S1, S2, S3, S4], w) && w.now == 4.0 && w.creator == Some("creator") && OnlyTask(Chime(w), "T", 2.0)
    ensures w.calls.Keys == {0, 1} && CallAt(w, 0, ASK, Polling("T", None))
    ensures CallAt(w, 1, ASK, w.calls[1].phase) && w.calls[1].phase.Polling? && w.calls[1].phase.task == "T"
  {
    var w2 := ATaskStarts();
    TaskIsPolled(w2, S3, 0, 1.0, "T", 2.0);
    Reach([S1, S2], w2, S3);
    assert [S1, S2] + [S3] == [S1, S2, S3];
    var w3 := Next(w2, S3);
    TaskIsResumed(w3, S4, 1, "T", 2.0);
    Reach([S1, S2, S3], w3, S4);
    assert [S1, S2, S3] + [S4] == [S1, S2, S3, S4];
    w := Next(w3, S4);
  }

  /** A call still polls the failed task. */
  predicate StillPolls(w: World) {
    w.creator == Some("creator") && 1 in w.calls && CallAt(w, 1, ASK, w.calls[1].phase) && w.calls[1].phase.Polling? && w.calls[1].phase.task == "T"
  }

  /** The first of them sees it fail. */
  lemma TheFirstSeesItFail() returns (w: World)
    ensures Reached([S1, S2, S3, S4, S5], w) && w.now == 21.0 && Idle(Chime(w))
    ensures w.calls.Keys == {1} && StillPolls(w)
  {
    Keys();
    var w4 := TwoCallsPollOneTask();
    TaskFails(w4, S5, 0, w4.calls[0].phase);
    Reach([S1, S2, S3, S4], w4, S5);
    assert [S1, S2, S3, S4] + [S5] == [S1, S2, S3, S4, S5];
    w := Next(w4, S5);
  }

  /** A third call submits again. */
  lemma AThirdCallSubmits(w: World) returns (w': World)
    requires Reached([S1, S2, S3, S4, S5], w) && w.now == 21.0 && Idle(Chime(w)) && w.calls.Keys == {1} && StillPolls(w)
    ensures SubmitsAt(w, S6, Agent, GAME, "correct") && Enabled(w, S6) && w' == Next(w, S6)
    ensures Reached([S1, S2, S3, S4, S5, S6], w') && w'.now == 22.0 && OnlyNote(Chime(w'), 22.0)
    ensures w'.calls.Keys == {1, 2} && StillPolls(w')
  {
    Keys();
    CreatorSubmits(w, S6);
    Reach([S1, S2, S3, S4, S5], w, S6);
    assert [S1, S2, S3, S4, S5] + [S6] == [S1, S2, S3, S4, S5, S6];
    w' := Next(w, S6);
    assert w'.calls.Keys == {1, 2};
  }

  /** The second sees the task fail too, and forgets the third's submit in its place. */
  lemma TheSecondForgetsIt(w: World) returns (w': World)
    requires Reached([S1, S2, S3, S4, S5, S6], w) && w.now == 22.0 && OnlyNote(Chime(w), 22.0)
    requires w.calls.Keys == {1, 2} && StillPolls(w)
    ensures Enabled(w, S7) && ForgetsAnothers(w, S7, Agent, GAME, "correct") && !EndsComposition(w, S7, Agent, GAME, "correct")
    ensures w' == Next(w, S7) && Reached([S1, S2, S3, S4, S5, S6, S7], w') && w'.now == 23.0 && Idle(Chime(w'))
    ensures w'.calls.Keys == {2} && w'.creator == Some("creator")
  {
    Keys();
    TaskFails(w, S7, 1, w.calls[1].phase);
    Reach([S1, S2, S3, S4, S5, S6], w, S7);
    assert [S1, S2, S3, S4, S5, S6] + [S7] == [S1, S2, S3, S4, S5, S6, S7];
    w' := Next(w, S7);
  }

  lemma AFourthSubmits(w: World)
    requires Reached([S1, S2, S3, S4, S5, S6, S7], w) && w.now == 23.0 && Idle(Chime(w))
    requires w.calls.Keys == {2} && w.creator == Some("creator")
    ensures SubmitsAt(w, S8, Agent, GAME, "correct") && Run(START, TWICE)
  {
    Keys();
    CreatorSubmits(w, S8);
    Reach([S1, S2, S3, S4, S5, S6, S7], w, S8);
    assert [S1, S2, S3, S4, S5, S6, S7] + [S8] == [S1, S2, S3, S4, S5, S6, S7, S8];
  }

  /** A submit whose composition no step of its own ends, and another for the same key two seconds later:
      in between, a call that polled an older task saw it fail.  The worlds are those before and after the
      first of the two submits. */
  lemma AFailedPollEndsAnothersSubmit() returns (before: World, w: World)
    ensures Run(START, TWICE) && Reached([S1, S2, S3, S4, S5], before) && S8.at - S6.at < SUBMIT_COOLDOWN_S
    ensures SubmitsAt(before, S6, Agent, GAME, "correct") && Enabled(before, S6) && w == Next(before, S6)
    ensures OnlyNote(Chime(w), S6.at) && Enabled(w, S7)
    ensures ForgetsAnothers(w, S7, Agent, GAME, "correct") && !EndsComposition(w, S7, Agent, GAME, "correct")
    ensures SubmitsAt(Next(w, S7), S8, Agent, GAME, "correct")
  {
    before := TheFirstSeesItFail();
    w := AThirdCallSubmits(before);
    var w7 := TheSecondForgetsIt(w);
    AFourthSubmits(w7);
  }

  // ------------------------------------------------------------ a lapsed submit outlives a keep

  const T1: Step := Step(1.0, Begin(0, LEVEL_ASK))
  const T2: Step := Step(2.0, Begin(1, ASK))
  const T3: Step := Step(3.0, Submitted(1, Completed(Some("kept"))))
  const KEEP: Step := Step(701.0, Verdict("creator", true, GAME, "correct", "", true, ""))
  const REJECT: Step := Step(702.0, Verdict("creator", true, GAME, "correct", "", false, "loud"))
  const ANSWER: Step := Step(703.0, Submitted(0, Completed(Some("late"))))

  const LATE: seq<Step> := [T1, T2, T3, KEEP, REJECT, ANSWER]

  function LevelThree(w: World): Sound {
    At(w, Agent, GAME, "correct@3")
  }

  /** The creator's submit for level 3 has had no answer, and the game's own take is bound. */
  predicate Lapsing(w: World, kept: Option<Url>) {
    && w.creator == Some("creator") && Chime(w).url == kept && OnlyNote(LevelThree(w), 1.0)
    && CallAt(w, 0, LEVEL_ASK, Submitting(1.0))
  }

  lemma LevelThreeIsSubmitted() returns (w: World)
    ensures Reached([T1, T2], w) && w.now == 2.0 && Lapsing(w, None) && OnlyNote(Chime(w), 2.0)
    ensures CallAt(w, 1, ASK, Submitting(2.0))
  {
    Keys();
    CreatorSubmits(START, T1);
    Reach([], START, T1);
    assert [] + [T1] == [T1];
    var w1 := Next(START, T1);
    assert At(w1, Agent, GAME, "correct") == At(START, Agent, GAME, "correct");
    CreatorSubmits(w1, T2);
    Reach([T1], w1, T2);
    assert [T1] + [T2] == [T1, T2];
    w := Next(w1, T2);
  }

  lemma TheGamesTakeIsBound() returns (w: World)
    ensures Reached([T1, T2, T3], w) && w.now == 3.0 && Lapsing(w, Some("kept"))
  {
    Keys();
    var w2 := LevelThreeIsSubmitted();
    CreatorReads(w2, ASK, T3.at);
    FinishedIsBound(w2, T3, 1, "kept");
    NextRecord(w2, T3, Agent, GAME, "correct@3");
    StepOfCall(w2, T3, 1, Submitting(2.0));
    Reach([T1, T2], w2, T3);
    assert [T1, T2] + [T3] == [T1, T2, T3];
    w := Next(w2, T3);
  }

  /** A creator's verdict on the game's take, past the cooldown, leaves level 3's note. */
  lemma LapsedSurvivesAVerdict(w: World, step: Step, approved: bool, reason: string)
    requires Enabled(w, step) && step.event == Verdict("creator", true, GAME, "correct", "", approved, reason)
    requires Lapsing(w, Some("kept")) && step.at >= 601.0
    ensures Judging(w, step).key == "correct" && Judging(w, step).record.url == Some("kept")
    ensures Lapsing(Next(w, step), if approved then Some("kept") else None)
  {
    Keys();
    assert TurnedDownAt(map[], "correct", "") == {} by { assert Down(EMPTY) == {}; }
    NextRecord(w, step, Agent, GAME, "correct");
    NextRecord(w, step, Agent, GAME, "correct@3");
    NextIsLater(w, step);
  }

  lemma LateAnswerLands(w: World)
    requires Enabled(w, ANSWER) && Lapsing(w, None)
    ensures LevelThree(Next(w, ANSWER)).url == Some("late")
  {
    Keys();
    CreatorReads(w, LEVEL_ASK, ANSWER.at);
    FinishedIsBound(w, ANSWER, 0, "late");
  }

  lemma LevelThreeIsLeft(w: World) returns (w': World)
    requires Reached([T1, T2, T3], w) && w.now == 3.0 && Lapsing(w, Some("kept"))
    ensures Judging(w, KEEP).key == "correct" && Judging(w, KEEP).record.url == Some("kept")
    ensures Reached([T1, T2, T3, KEEP], w') && w'.now == 701.0 && Lapsing(w', Some("kept"))
  {
    Keys();
    LapsedSurvivesAVerdict(w, KEEP, true, "");
    Reach([T1, T2, T3], w, KEEP);
    assert [T1, T2, T3] + [KEEP] == [T1, T2, T3, KEEP];
    w' := Next(w, KEEP);
  }

  lemma TheKeptTakeIsTurnedDown(w: World) returns (w': World)
    requires Reached([T1, T2, T3, KEEP], w) && w.now == 701.0 && Lapsing(w, Some("kept"))
    ensures Reached([T1, T2, T3, KEEP, REJECT], w') && w'.now == 702.0 && Lapsing(w', None)
  {
    Keys();
    LapsedSurvivesAVerdict(w, REJECT, false, "loud");
    Reach([T1, T2, T3, KEEP], w, REJECT);
    assert [T1, T2, T3, KEEP] + [REJECT] == [T1, T2, T3, KEEP, REJECT];
    w' := Next(w, REJECT);
  }

  /** A submit note past its cooldown outlives the keep of the game's take, whose level it is: when that
      take is turned down later, the submit's late answer is bound at its level.  The worlds are those
      before and after the keep, and at the end. */
  lemma ALapsedSubmitOutlivesAKeep() returns (w3: World, w4: World, w6: World)
    ensures Reached([T1, T2, T3], w3) && Reached([T1, T2, T3, KEEP], w4) && Reached([T1, T2, T3, KEEP, REJECT, ANSWER], w6)
    ensures Judging(w3, KEEP).key == "correct" && Judging(w3, KEEP).record.url == Some("kept")
    ensures LevelKeyOf("correct", "correct@3") && OnlyNote(LevelThree(w4), T1.at)
    ensures LevelThree(w6).url == Some("late")
  {
    Keys();
    w3 := TheGamesTakeIsBound();
    w4 := LevelThreeIsLeft(w3);
    var w5 := TheKeptTakeIsTurnedDown(w4);
    LateAnswerLands(w5);
    Reach([T1, T2, T3, KEEP, REJECT], w5, ANSWER);
    assert [T1, T2, T3, KEEP, REJECT] + [ANSWER] == [T1, T2, T3, KEEP, REJECT, ANSWER];
    w6 := Next(w5, ANSWER);
  }
}

/** What comes of a call nobody interrupts, what the next composition is told, and whose composition a
    failed poll ends. */
module BindOutcomes {
  import opened Options
  import opened GameSoundMemo
  import opened GameSoundLaws
  import opened BindProtocol
  import opened BindProofs
  import opened BindTheorems

  // ------------------------------------------------------------ composed once, played from then on

  /** What this ask could be played, read as its own lookup reads. */
  function PlayableTo(w: World, ask: Ask, forAgent: bool, ownOnly: bool): set<Url> {
    Playable(if forAgent then map[] else SoundsOf(GamesOf(w, Own(ask.person)), ask.game),
             if ownOnly then map[] else SoundsOf(w.agent, ask.game),
             if ownOnly || ask.state != BGM then EMPTY else MusicOf(w.agent, ask.game),
             ask.state, ask.level)
  }

  lemma LookupPlays(w: World, ask: Ask, forAgent: bool, ownOnly: bool, now: real)
    ensures Lookup(w, ask, forAgent, ownOnly, now).record.url.Some? <==> PlayableTo(w, ask, forAgent, ownOnly) != {}
  {
    LadderPlays(if forAgent then map[] else SoundsOf(GamesOf(w, Own(ask.person)), ask.game),
                if ownOnly then map[] else SoundsOf(w.agent, ask.game),
                if ownOnly || ask.state != BGM then EMPTY else MusicOf(w.agent, ask.game),
                ask.state, ask.level, now);
  }

  /** At this key nothing new to play, and no turned-down take forgotten. */
  predicate PlaysNoMore(r: Sound, r': Sound) {
    r'.url == r.url && Down(r) <= Down(r')
  }

  lemma NothingMoreToPlay(w: World, w': World, ask: Ask, forAgent: bool, ownOnly: bool)
    requires PlayableTo(w, ask, forAgent, ownOnly) == {}
    requires forall m, key :: PlaysNoMore(At(w, m, ask.game, key), At(w', m, ask.game, key))
    requires ask.state == BGM ==> MusicLikeBefore(w, w', ask.game)
    ensures PlayableTo(w', ask, forAgent, ownOnly) == {}
  {
    var levelKey, gameKey := StateKey(ask.state, ask.level), StateKey(ask.state, "");
    var own, own' := GamesOf(w, Own(ask.person)), GamesOf(w', Own(ask.person));
    var mine, mine' := if forAgent then map[] else SoundsOf(own, ask.game), if forAgent then map[] else SoundsOf(own', ask.game);
    var shared, shared' := if ownOnly then map[] else SoundsOf(w.agent, ask.game), if ownOnly then map[] else SoundsOf(w'.agent, ask.game);
    forall key ensures PlaysNoMore(Held(mine, key), Held(mine', key)) && PlaysNoMore(Held(shared, key), Held(shared', key)) {
      assert PlaysNoMore(At(w, Own(ask.person), ask.game, key), At(w', Own(ask.person), ask.game, key));
      assert PlaysNoMore(At(w, Agent, ask.game, key), At(w', Agent, ask.game, key));
    }
    PlayableShrinks(mine, mine', shared, shared',
                    if ownOnly || ask.state != BGM then EMPTY else MusicOf(w.agent, ask.game),
                    if ownOnly || ask.state != BGM then EMPTY else MusicOf(w'.agent, ask.game), ask.state, ask.level);
  }

  lemma PlayableShrinks(mine: map<Key, Sound>, mine': map<Key, Sound>, shared: map<Key, Sound>, shared': map<Key, Sound>,
                        music: Sound, music': Sound, state: string, level: string)
    requires forall key :: PlaysNoMore(Held(mine, key), Held(mine', key)) && PlaysNoMore(Held(shared, key), Held(shared', key))
    requires music'.url.Some? ==> music'.url == music.url
    ensures Playable(mine', shared', music', state, level) <= Playable(mine, shared, music, state, level)
  {
    var levelKey, gameKey := StateKey(state, level), StateKey(state, "");
    assert PlaysNoMore(Held(mine, levelKey), Held(mine', levelKey)) && PlaysNoMore(Held(mine, gameKey), Held(mine', gameKey));
    assert PlaysNoMore(Held(shared, levelKey), Held(shared', levelKey)) && PlaysNoMore(Held(shared, gameKey), Held(shared', gameKey));
  }

  /** A submit's note plays nothing and forgets no turned-down take. */
  lemma NotingPlaysNothing(w: World, begin: Step)
    requires Well(w) && Enabled(w, begin) && begin.event.Begin? && EntryOf(w, begin.event.ask, begin.at).Submit?
    ensures var ask := begin.event.ask;
      PlayableTo(Next(w, begin), ask, ForAgent(w, ask), ask.mineOnly) == {}
  {
    var ask := begin.event.ask;
    NothingToPlayYet(w, ask, begin.at);
    forall m, key ensures PlaysNoMore(At(w, m, ask.game, key), At(Next(w, begin), m, ask.game, key)) {
      NotedLikeBefore(w, begin, m, key);
    }
    if ask.state == BGM {
      NotedMusicTake(w, begin);
    }
    NothingMoreToPlay(w, Next(w, begin), ask, ForAgent(w, ask), ask.mineOnly);
  }

  lemma NothingToPlayYet(w: World, ask: Ask, now: real)
    requires StateName(ask.state) && !EntryOf(w, ask, now).AlreadyBound?
    ensures PlayableTo(w, ask, ForAgent(w, ask), ask.mineOnly) == {}
  {
    LookupPlays(w, ask, ForAgent(w, ask), ask.mineOnly, now);
  }

  predicate MusicLikeBefore(w: World, w': World, game: string) {
    MusicOf(w'.agent, game).url.Some? ==> MusicOf(w'.agent, game).url == MusicOf(w.agent, game).url
  }

  lemma NotedMusicTake(w: World, begin: Step)
    requires Well(w) && Enabled(w, begin) && begin.event.Begin? && EntryOf(w, begin.event.ask, begin.at).Submit?
    ensures begin.event.ask.state == BGM ==> MusicLikeBefore(w, Next(w, begin), begin.event.ask.game)
  {
    var ask := begin.event.ask;
    NoTakeWhereACallStarts(w, ask, begin.at);
    StartedMusic(w, begin.event.call, ask, EntryOf(w, ask, begin.at), MemoFor(w, ask, begin.at), begin.at);
  }

  lemma StartedMusic(w: World, id: CallId, ask: Ask, entry: Entry, memo: MemoId, now: real)
    requires entry.Submit? && At(w, memo, ask.game, StateKey(ask.state, ask.level)).url.None?
    ensures MusicLikeBefore(w, StartedAs(w, id, ask, entry, memo, now), ask.game)
  {
  }

  lemma NotedLikeBefore(w: World, begin: Step, m: MemoId, key: Key)
    requires Well(w) && Enabled(w, begin) && begin.event.Begin? && EntryOf(w, begin.event.ask, begin.at).Submit?
    ensures var game := begin.event.ask.game;
      PlaysNoMore(At(w, m, game, key), At(Next(w, begin), m, game, key))
  {
    var ask := begin.event.ask;
    NextRecord(w, begin, m, ask.game, key);
    NoTakeWhereACallStarts(w, ask, begin.at);
    NoteKeepsAll(w, ask, EntryOf(w, ask, begin.at), MemoFor(w, ask, begin.at), begin.at, m, ask.game, key);
  }

  lemma NoteKeepsAll(w: World, ask: Ask, entry: Entry, memo: MemoId, now: real, m: MemoId, game: string, key: Key)
    requires At(w, memo, ask.game, StateKey(ask.state, ask.level)).url.None?
    ensures var r := NotedAt(w, ask, entry, memo, now, m, game, key);
      r.url == At(w, m, game, key).url && Down(At(w, m, game, key)) <= Down(r)
  {
    var r := At(w, m, game, key);
    if entry.Submit? && m == memo && game == ask.game && key == StateKey(ask.state, ask.level) {
      var before := BeforeNote(r, entry.stale, now);
      WritesKeepTurnedDown(r, EndedComposition(r, "no answer within TASK_STALE_S", entry.stale, now));
      WritesKeepTurnedDown(before, SubmitNote(before, NextLabels(GamesOf(w, m), ask), now));
    }
  }

  /** The world once a submit has been answered, with nothing in between. */
  predicate AnsweredAtOnce(w: World, begin: Step, answer: Step, url: Url) {
    && Enabled(w, begin) && begin.event.Begin? && EntryOf(w, begin.event.ask, begin.at).Submit?
    && Enabled(Next(w, begin), answer)
    && answer.event == Submitted(begin.event.call, Completed(Some(url)))
  }

  lemma SubmitLeavesItsNote(w: World, begin: Step)
    requires Well(w) && Enabled(w, begin) && begin.event.Begin? && EntryOf(w, begin.event.ask, begin.at).Submit?
    ensures var ask := begin.event.ask; var w' := Next(w, begin);
      && begin.event.call in w'.calls
      && var call := w'.calls[begin.event.call];
         && call.ask == ask && call.forAgent == ForAgent(w, ask) && call.memo == MemoFor(w, ask, begin.at)
         && call.phase == Submitting(begin.at) && call.labels == NextLabels(GamesOf(w, call.memo), ask)
         && StillOurs(w', call, Note(begin.at))
  {
    var ask := begin.event.ask;
    var key := StateKey(ask.state, ask.level);
    NextRecord(w, begin, MemoFor(w, ask, begin.at), ask.game, key);
    NoTakeWhereACallStarts(w, ask, begin.at);
    StartedCall(w, begin.event.call, ask, EntryOf(w, ask, begin.at), MemoFor(w, ask, begin.at), begin.at);
  }

  lemma StartedCall(w: World, id: CallId, ask: Ask, entry: Entry, memo: MemoId, now: real)
    requires entry.Submit?
    ensures var calls := StartedAs(w, id, ask, entry, memo, now).calls;
      && id in calls
      && calls[id] == Call(ask, ForAgent(w, ask), memo, NextLabels(GamesOf(w, memo), ask), Submitting(now))
  {
  }

  /** The record is this finished take, labelled as what it was composed with and not yet approved. */
  predicate BoundAs(r: Sound, url: Url, labels: Labels, at: real) {
    r.url == Some(url) && r.labels == Some(labels) && r.composedAt == Some(at) && r.approvedAt.None?
    && r.taskId.None? && r.submittedAt.None?
  }

  /** A call nobody interrupts binds its take at its key, labelled as the take the call asked for. */
  lemma UninterruptedIsBound(w: World, begin: Step, answer: Step, url: Url)
    requires Well(w) && AnsweredAtOnce(w, begin, answer, url)
    ensures var ask := begin.event.ask; var memo := MemoFor(w, ask, begin.at);
      BoundAs(At(Next(Next(w, begin), answer), memo, ask.game, StateKey(ask.state, ask.level)), url,
              NextLabels(GamesOf(w, memo), ask), answer.at)
  {
    var ask, w' := begin.event.ask, Next(w, begin);
    SubmitLeavesItsNote(w, begin);
    NotingPlaysNothing(w, begin);
    FinishedIsBound(w', answer, begin.event.call, url);
  }

  lemma FinishedIsBound(w: World, answer: Step, id: CallId, url: Url)
    requires Enabled(w, answer) && answer.event == Submitted(id, Completed(Some(url)))
    requires var call := w.calls[id];
      StillOurs(w, call, Note(call.phase.note)) && PlayableTo(w, call.ask, call.forAgent, call.ask.mineOnly) == {}
    ensures var call := w.calls[id];
      BoundAs(At(Next(w, answer), call.memo, call.ask.game, StateKey(call.ask.state, call.ask.level)), url, call.labels, answer.at)
  {
    var call := w.calls[id];
    LookupPlays(w, call.ask, call.forAgent, call.ask.mineOnly, answer.at);
    assert !ChosenMeanwhile(w, call, answer.at);
    NextRecord(w, answer, call.memo, call.ask.game, StateKey(call.ask.state, call.ask.level));
  }

  lemma PutMusic(w: World, call: Call, r: Sound)
    requires r.url.None?
    ensures MusicLikeBefore(w, Apply(w, call, Put(r)), call.ask.game)
  {
  }

  /** The record is this task, just given, labelled as what it composes, with nothing left of a rejection but
      the history. */
  predicate TaskOnly(r: Sound, task: TaskId, labels: Labels, at: real) {
    && r.taskId == Some(task) && r.taskSince == Some(at) && r.taskTake == Some(labels) && r.submittedAt.None?
    && r.labels == Some(labels) && r.url.None? && r.approvedAt.None?
    && r.rejectedUrl.None? && r.rejectedReason.None? && r.rejectedAt.None? && r.lostTask.None?
  }

  /** A task given is written in place of its submit's note, and forgets no turned-down take. */
  lemma TaskIsNoted(w: World, pending: Step, id: CallId, task: TaskId)
    requires Enabled(w, pending) && pending.event == Submitted(id, Pending(task))
    requires StillOurs(w, w.calls[id], Note(w.calls[id].phase.note))
    ensures var call, w' := w.calls[id], Next(w, pending);
      && TaskOnly(Here(w', call), task, call.labels, pending.at) && Down(Here(w', call)) == Down(Here(w, call))
      && WriteOf(w, pending).Put? && WriteOf(w, pending).record.url.None?
  {
    var call := w.calls[id];
    NextRecord(w, pending, call.memo, call.ask.game, StateKey(call.ask.state, call.ask.level));
    var r := WriteOf(w, pending).record;
    WritesKeepTurnedDown(Here(w, call), r);
    assert Down(r) == {};
  }

  /** A task written in place of its submit's note plays nothing. */
  lemma TaskPlaysNothing(w: World, pending: Step, id: CallId, task: TaskId)
    requires Enabled(w, pending) && pending.event == Submitted(id, Pending(task))
    requires var call := w.calls[id];
      StillOurs(w, call, Note(call.phase.note)) && PlayableTo(w, call.ask, call.forAgent, call.ask.mineOnly) == {}
    ensures var call, w' := w.calls[id], Next(w, pending);
      && w'.calls == w.calls[id := call.(phase := Closing(call.phase.note, Some(task)))]
      && TaskOnly(Here(w', call), task, call.labels, pending.at)
      && PlayableTo(w', call.ask, call.forAgent, call.ask.mineOnly) == {}
  {
    var call, w' := w.calls[id], Next(w, pending);
    TaskIsNoted(w, pending, id, task);
    LookupPlays(w, call.ask, call.forAgent, call.ask.mineOnly, pending.at);
    MovedCalls(w, call, WriteOf(w, pending), id, PhaseOf(w, pending));
    StepMemos(w, pending);
    PutPlaysNothing(w, call, WriteOf(w, pending).record);
    SamePlayable(Apply(w, call, WriteOf(w, pending)), w', call.ask, call.forAgent, call.ask.mineOnly);
  }

  lemma StepMemos(w: World, step: Step)
    requires Enabled(w, step) && ByCall(step.event)
    ensures var applied := Apply(w, w.calls[step.event.call], WriteOf(w, step));
      Next(w, step).agent == applied.agent && Next(w, step).own == applied.own
  {
  }

  lemma SamePlayable(w: World, w': World, ask: Ask, forAgent: bool, ownOnly: bool)
    requires w'.agent == w.agent && w'.own == w.own
    ensures PlayableTo(w', ask, forAgent, ownOnly) == PlayableTo(w, ask, forAgent, ownOnly)
  {
  }

  lemma PutPlaysNothing(w: World, call: Call, r: Sound)
    requires r.url.None? && Here(w, call).url.None? && PlayableTo(w, call.ask, call.forAgent, call.ask.mineOnly) == {}
    ensures PlayableTo(Apply(w, call, Put(r)), call.ask, call.forAgent, call.ask.mineOnly) == {}
  {
    PutMusic(w, call, r);
    forall m, key ensures PlaysNoMore(At(w, m, call.ask.game, key), At(Apply(w, call, Put(r)), m, call.ask.game, key)) {
      ApplyRecord(w, call, Put(r), m, call.ask.game, key);
      PutPlaysNoMore(w, call, r, m, key);
    }
    NothingMoreToPlay(w, Apply(w, call, Put(r)), call.ask, call.forAgent, call.ask.mineOnly);
  }

  lemma PutPlaysNoMore(w: World, call: Call, r: Sound, m: MemoId, key: Key)
    requires r.url.None? && Here(w, call).url.None?
    ensures PlaysNoMore(At(w, m, call.ask.game, key), WrittenAt(w, call, Put(r), m, call.ask.game, key))
  {
    WritesKeepTurnedDown(Here(w, call), r);
  }

  /** On its way to poll the task, the call writes nothing. */
  lemma TaskIsLeft(w: World, close: Step, id: CallId, note: real, task: TaskId)
    requires Enabled(w, close) && close.event == Close(id) && w.calls[id].phase == Closing(note, Some(task))
    requires Here(w, w.calls[id]).submittedAt.None?
    ensures var w' := Next(w, close);
      && w'.agent == w.agent && w'.own == w.own
      && w'.calls == w.calls[id := w.calls[id].(phase := Polling(task, None))]
  {
    MovedCalls(w, w.calls[id], WriteOf(w, close), id, PhaseOf(w, close));
  }

  lemma PolledIsBound(w: World, done: Step, id: CallId, url: Url)
    requires Enabled(w, done) && done.event == Polled(id, Done(Some(url)))
    requires var call := w.calls[id];
      StillOurs(w, call, Task(call.phase.task)) && PlayableTo(w, call.ask, call.forAgent, call.ask.mineOnly) == {}
    ensures var call := w.calls[id];
      BoundAs(At(Next(w, done), call.memo, call.ask.game, StateKey(call.ask.state, call.ask.level)), url,
              if call.phase.resumed.Some? then call.phase.resumed.value else call.labels, done.at)
  {
    var call := w.calls[id];
    LookupPlays(w, call.ask, call.forAgent, call.ask.mineOnly, done.at);
    assert !ChosenMeanwhile(w, call, done.at);
    NextRecord(w, done, call.memo, call.ask.game, StateKey(call.ask.state, call.ask.level));
  }

  /** A submit that is given a task, and a poll that finds it done, with nothing in between. */
  predicate PolledToTheEnd(w: World, begin: Step, pending: Step, close: Step, done: Step, task: TaskId, url: Url) {
    && Enabled(w, begin) && begin.event.Begin? && EntryOf(w, begin.event.ask, begin.at).Submit?
    && var id, w1 := begin.event.call, Next(w, begin);
       && Enabled(w1, pending) && pending.event == Submitted(id, Pending(task))
       && var w2 := Next(w1, pending);
          && Enabled(w2, close) && close.event == Close(id)
          && Enabled(Next(w2, close), done) && done.event == Polled(id, Done(Some(url)))
  }

  /** A call nobody interrupts binds the take its task came to, at its key, labelled as the take it asked for. */
  lemma UninterruptedTaskIsBound(w: World, begin: Step, pending: Step, close: Step, done: Step, task: TaskId, url: Url)
    requires Well(w) && PolledToTheEnd(w, begin, pending, close, done, task, url)
    ensures var ask := begin.event.ask; var memo := MemoFor(w, ask, begin.at);
      BoundAs(At(Next(Next(Next(Next(w, begin), pending), close), done), memo, ask.game, StateKey(ask.state, ask.level)),
              url, NextLabels(GamesOf(w, memo), ask), done.at)
  {
    var id := begin.event.call;
    SubmitLeavesItsNote(w, begin);
    NotingPlaysNothing(w, begin);
    NotedTaskIsBound(Next(w, begin), pending, close, done, id, task, url);
  }

  lemma NotedTaskIsBound(w: World, pending: Step, close: Step, done: Step, id: CallId, task: TaskId, url: Url)
    requires Enabled(w, pending) && pending.event == Submitted(id, Pending(task))
    requires Enabled(Next(w, pending), close) && close.event == Close(id)
    requires Enabled(Next(Next(w, pending), close), done) && done.event == Polled(id, Done(Some(url)))
    requires var call := w.calls[id];
      StillOurs(w, call, Note(call.phase.note)) && PlayableTo(w, call.ask, call.forAgent, call.ask.mineOnly) == {}
    ensures var call := w.calls[id];
      BoundAs(At(Next(Next(Next(w, pending), close), done), call.memo, call.ask.game, StateKey(call.ask.state, call.ask.level)),
              url, call.labels, done.at)
  {
    TaskPlaysNothing(w, pending, id, task);
    LeftTaskIsBound(Next(w, pending), close, done, id, w.calls[id].phase.note, task, url);
  }

  lemma LeftTaskIsBound(w: World, close: Step, done: Step, id: CallId, note: real, task: TaskId, url: Url)
    requires Enabled(w, close) && close.event == Close(id) && w.calls[id].phase == Closing(note, Some(task))
    requires Enabled(Next(w, close), done) && done.event == Polled(id, Done(Some(url)))
    requires var call := w.calls[id];
      && StillOurs(w, call, Task(task)) && Here(w, call).submittedAt.None?
      && PlayableTo(w, call.ask, call.forAgent, call.ask.mineOnly) == {}
    ensures var call := w.calls[id];
      BoundAs(At(Next(Next(w, close), done), call.memo, call.ask.game, StateKey(call.ask.state, call.ask.level)),
              url, call.labels, done.at)
  {
    TaskIsLeft(w, close, id, note, task);
    PolledIsBound(Next(w, close), done, id, url);
  }

  /** A task picked up again by another call is bound as what it was composed with, whatever that call asked
      for. */
  lemma ResumedIsBoundAsComposed(w: World, begin: Step, done: Step, url: Url)
    requires Well(w) && Enabled(w, begin) && begin.event.Begin? && EntryOf(w, begin.event.ask, begin.at).Resume?
    requires Enabled(Next(w, begin), done) && done.event == Polled(begin.event.call, Done(Some(url)))
    ensures var ask := begin.event.ask; var memo, key := MemoFor(w, ask, begin.at), StateKey(ask.state, ask.level);
      var composedAs := At(w, memo, ask.game, key).taskTake;
      BoundAs(At(Next(Next(w, begin), done), memo, ask.game, key), url,
              if composedAs.Some? then composedAs.value else NextLabels(GamesOf(w, memo), ask), done.at)
  {
    var ask, id := begin.event.ask, begin.event.call;
    NoTakeWhereACallStarts(w, ask, begin.at);
    NothingToPlayYet(w, ask, begin.at);
    NextRecord(w, begin, MemoFor(w, ask, begin.at), ask.game, StateKey(ask.state, ask.level));
    ResumedCall(w, id, ask, EntryOf(w, ask, begin.at), MemoFor(w, ask, begin.at), begin.at);
    PolledIsBound(Next(w, begin), done, id, url);
  }

  lemma ResumedCall(w: World, id: CallId, ask: Ask, entry: Entry, memo: MemoId, now: real)
    requires entry.Resume?
    ensures var w' := StartedAs(w, id, ask, entry, memo, now);
      && w'.agent == w.agent && w'.own == w.own && id in w'.calls
      && w'.calls[id] == Call(ask, ForAgent(w, ask), memo, NextLabels(GamesOf(w, memo), ask), Polling(entry.task, entry.labels))
  {
  }

  // ------------------------------------------------------------ a submit that comes to nothing

  /** The answer left no composition behind: a refusal, or a finish with nothing to play. */
  predicate CameToNothing(answer: Step, id: CallId) {
    answer.event == Submitted(id, Refused) || answer.event == Submitted(id, Completed(None))
  }

  /** A submit, its answer and its close, with nothing in between. */
  predicate RefusedAtOnce(w: World, begin: Step, answer: Step, close: Step) {
    && Enabled(w, begin) && begin.event.Begin? && EntryOf(w, begin.event.ask, begin.at).Submit?
    && Enabled(Next(w, begin), answer) && CameToNothing(answer, begin.event.call)
    && Enabled(Next(Next(w, begin), answer), close) && close.event == Close(begin.event.call)
  }

  /** The record with nothing under way, all else as it was. */
  predicate FreeAgain(r: Sound, r': Sound) {
    && r'.taskId.None? && r'.submittedAt.None? && r'.taskTake.None?
    && r'.url == r.url && r'.labels == r.labels && r'.composedAt == r.composedAt && r'.approvedAt == r.approvedAt
    && r'.rejectedUrl == r.rejectedUrl && r'.rejectedReason == r.rejectedReason && r'.rejectedAt == r.rejectedAt
    && r'.previousTakes == r.previousTakes
  }

  /** A task too old to finish, forgotten on the way, is noted; otherwise nothing more is. */
  predicate StaleIsNoted(r: Sound, r': Sound, stale: Option<TaskId>, at: real) {
    if stale.Some? then r'.taskSince.None? && r'.lostTask == Some(LostTask(stale, "no answer within TASK_STALE_S", at))
    else r'.taskSince == r.taskSince && r'.lostTask == r.lostTask
  }

  /** The record a submit's note goes on. */
  function NotedOn(w: World, begin: Step): Sound
    requires begin.event.Begin?
  {
    var ask := begin.event.ask;
    var entry, r := EntryOf(w, ask, begin.at), At(w, MemoFor(w, ask, begin.at), ask.game, StateKey(ask.state, ask.level));
    if entry.Submit? && entry.stale.Some?
    then EndedComposition(r, "no answer within TASK_STALE_S", entry.stale, begin.at) else r
  }

  lemma NotedExactly(w: World, begin: Step)
    requires Well(w) && Enabled(w, begin) && begin.event.Begin? && EntryOf(w, begin.event.ask, begin.at).Submit?
    ensures var ask := begin.event.ask; var memo := MemoFor(w, ask, begin.at);
      At(Next(w, begin), memo, ask.game, StateKey(ask.state, ask.level)) ==
      NotedOn(w, begin).(submittedAt := Some(begin.at), taskTake := Some(NextLabels(GamesOf(w, memo), ask)))
    ensures NotedOn(w, begin).url.None? && NotedOn(w, begin).taskId.None?
  {
    var ask := begin.event.ask;
    var memo, entry := MemoFor(w, ask, begin.at), EntryOf(w, ask, begin.at);
    var r := At(w, memo, ask.game, StateKey(ask.state, ask.level));
    NextRecord(w, begin, memo, ask.game, StateKey(ask.state, ask.level));
    NoTakeWhereACallStarts(w, ask, begin.at);
    SubmitsWhereNoTaskIs(w, ask, begin.at);
    if entry.stale.Some? {
      KeptAsItIs(r, EndedComposition(r, "no answer within TASK_STALE_S", entry.stale, begin.at));
    }
    var b := NotedOn(w, begin);
    KeptAsItIs(b, SubmitNote(b, NextLabels(GamesOf(w, memo), ask), begin.at));
  }

  lemma NothingIsWritten(w: World, answer: Step, id: CallId, note: real)
    requires Enabled(w, answer) && CameToNothing(answer, id) && w.calls[id].phase == Submitting(note)
    ensures var w' := Next(w, answer);
      && w'.agent == w.agent && w'.own == w.own && w'.creator == w.creator
      && w'.calls == w.calls[id := w.calls[id].(phase := Closing(note, None))]
  {
    MovedCalls(w, w.calls[id], WriteOf(w, answer), id, PhaseOf(w, answer));
    NextIsLater(w, answer);
  }

  /** The first version's copy is the record at the call's key. */
  predicate CopyIsHere(w: World, call: Call) {
    var games := GamesOf(w, call.memo);
    call.ask.game in games && games[call.ask.game].music == Some(Here(w, call))
  }

  lemma NoteIsCleared(w: World, close: Step, id: CallId, note: real)
    requires Enabled(w, close) && close.event == Close(id) && w.calls[id].phase == Closing(note, None)
    requires var here := Here(w, w.calls[id]); here.submittedAt == Some(note) && here.url.None? && here.taskId.None?
    ensures var call, w' := w.calls[id], Next(w, close);
      var key, cleared := StateKey(call.ask.state, call.ask.level), Here(w, call).(submittedAt := None, taskTake := None);
      && At(w', call.memo, call.ask.game, key) == cleared
      && (forall m, game, k :: !AtCall(call, m, game, k) ==> At(w', m, game, k) == At(w, m, game, k))
      && (cleared == EMPTY ==> key !in SoundsOf(GamesOf(w', call.memo), call.ask.game))
      && (cleared == EMPTY && call.ask.state == BGM && call.ask.level == "" && CopyIsHere(w, call) ==>
            MusicOf(GamesOf(w', call.memo), call.ask.game) == EMPTY)
      && w'.creator == w.creator && MusicLikeBefore(w, w', call.ask.game)
  {
    var call := w.calls[id];
    var here, cleared := Here(w, call), Here(w, call).(submittedAt := None, taskTake := None);
    KeptAsItIs(here, cleared);
    NextRecord(w, close, call.memo, call.ask.game, StateKey(call.ask.state, call.ask.level));
    forall m, game, k | !AtCall(call, m, game, k) ensures At(Next(w, close), m, game, k) == At(w, m, game, k) {
      NextRecord(w, close, m, game, k);
    }
    NextIsLater(w, close);
  }

  /** The world a submit that came to nothing leaves. */
  lemma RefusedLeavesTheRecords(w: World, begin: Step, answer: Step, close: Step)
    requires Well(w) && RefusedAtOnce(w, begin, answer, close)
    ensures var ask, w3 := begin.event.ask, Next(Next(Next(w, begin), answer), close);
      var memo, key := MemoFor(w, ask, begin.at), StateKey(ask.state, ask.level);
      && FreeAgain(At(w, memo, ask.game, key), At(w3, memo, ask.game, key))
      && StaleIsNoted(At(w, memo, ask.game, key), At(w3, memo, ask.game, key), EntryOf(w, ask, begin.at).stale, begin.at)
      && (forall m, game, k :: !(m == memo && game == ask.game && k == key) ==> At(w3, m, game, k) == At(w, m, game, k))
      && (key !in SoundsOf(GamesOf(w, memo), ask.game) ==> key !in SoundsOf(GamesOf(w3, memo), ask.game))
      && w3.creator == w.creator
      && (ask.state == BGM ==> MusicLikeBefore(w, w3, ask.game))
      && (ask.state == BGM && ask.level == "" && key !in SoundsOf(GamesOf(w, memo), ask.game) ==>
            MusicOf(GamesOf(w3, memo), ask.game) == EMPTY)
  {
    var id, w1, ask := begin.event.call, Next(w, begin), begin.event.ask;
    SubmitLeavesItsNote(w, begin);
    NotedExactly(w, begin);
    NotedMusicTake(w, begin);
    NextIsLater(w, begin);
    OthersAsTheyWere(w, begin);
    AnsweredWithNothing(w1, answer, close, id, begin.at);
    AbsentWasEmpty(w, begin);
    if ask.state == BGM && ask.level == "" {
      NotedMusicIsTheNote(w, id, ask, EntryOf(w, ask, begin.at), MemoFor(w, ask, begin.at), begin.at);
    }
  }

  lemma NotedMusicIsTheNote(w: World, id: CallId, ask: Ask, entry: Entry, memo: MemoId, now: real)
    requires entry.Submit? && ask.state == BGM && ask.level == ""
    ensures var games := GamesOf(StartedAs(w, id, ask, entry, memo, now), memo);
      ask.game in games && games[ask.game].music == Some(RecordAt(games, ask.game, BGM))
  {
  }

  lemma OthersAsTheyWere(w: World, begin: Step)
    requires Enabled(w, begin) && begin.event.Begin?
    ensures var ask := begin.event.ask; var memo := MemoFor(w, ask, begin.at);
      forall m, game, k :: !(m == memo && game == ask.game && k == StateKey(ask.state, ask.level)) ==>
        At(Next(w, begin), m, game, k) == At(w, m, game, k)
  {
    var ask := begin.event.ask;
    forall m, game, k | !(m == MemoFor(w, ask, begin.at) && game == ask.game && k == StateKey(ask.state, ask.level))
      ensures At(Next(w, begin), m, game, k) == At(w, m, game, k)
    {
      NextRecord(w, begin, m, game, k);
    }
  }

  lemma AnsweredWithNothing(w: World, answer: Step, close: Step, id: CallId, note: real)
    requires Enabled(w, answer) && CameToNothing(answer, id) && w.calls[id].phase == Submitting(note)
    requires Enabled(Next(w, answer), close) && close.event == Close(id)
    requires var here := Here(w, w.calls[id]); here.submittedAt == Some(note) && here.url.None? && here.taskId.None?
    ensures var call, w' := w.calls[id], Next(Next(w, answer), close);
      var key, cleared := StateKey(call.ask.state, call.ask.level), Here(w, call).(submittedAt := None, taskTake := None);
      && At(w', call.memo, call.ask.game, key) == cleared
      && (forall m, game, k :: !AtCall(call, m, game, k) ==> At(w', m, game, k) == At(w, m, game, k))
      && (cleared == EMPTY ==> key !in SoundsOf(GamesOf(w', call.memo), call.ask.game))
      && (cleared == EMPTY && call.ask.state == BGM && call.ask.level == "" && CopyIsHere(w, call) ==>
            MusicOf(GamesOf(w', call.memo), call.ask.game) == EMPTY)
      && w'.creator == w.creator && MusicLikeBefore(w, w', call.ask.game)
  {
    NothingIsWritten(w, answer, id, note);
    NoteIsCleared(Next(w, answer), close, id, note);
  }

  lemma AbsentWasEmpty(w: World, begin: Step)
    requires Well(w) && Enabled(w, begin) && begin.event.Begin? && EntryOf(w, begin.event.ask, begin.at).Submit?
    ensures var ask := begin.event.ask; var memo := MemoFor(w, ask, begin.at);
      StateKey(ask.state, ask.level) !in SoundsOf(GamesOf(w, memo), ask.game) ==> NotedOn(w, begin) == EMPTY
  {
    NoTakeWhereACallStarts(w, begin.event.ask, begin.at);
  }

  /** After a submit that came to nothing the same ask submits again, and to the same memo unless all the
      person had of their own there was an old note: whatever the agent's memo then says is theirs again. */
  lemma RefusedIsAskedAgain(w: World, begin: Step, answer: Step, close: Step, later: real)
    requires Well(w) && RefusedAtOnce(w, begin, answer, close)
    ensures var ask, w3 := begin.event.ask, Next(Next(Next(w, begin), answer), close);
      var memo := MemoFor(w, ask, begin.at);
      && (MemoFor(w3, ask, later) == memo <==> memo == Agent || ask.mineOnly || HasOwnRecord(w3, ask))
      && (MemoFor(w3, ask, later) == memo ==> EntryOf(w3, ask, later) == Submit(None))
  {
    RefusedLeavesTheRecords(w, begin, answer, close);
    FreedIsAskedAgain(w, Next(Next(Next(w, begin), answer), close), begin.event.ask, begin.at, later);
  }

  lemma FreedIsAskedAgain(w: World, w3: World, ask: Ask, now: real, later: real)
    requires StateName(ask.state) && EntryOf(w, ask, now).Submit? && w3.creator == w.creator
    requires ask.state == BGM ==> MusicLikeBefore(w, w3, ask.game)
    requires var memo, key := MemoFor(w, ask, now), StateKey(ask.state, ask.level);
      && FreeAgain(At(w, memo, ask.game, key), At(w3, memo, ask.game, key))
      && (forall m, game, k :: !(m == memo && game == ask.game && k == key) ==> At(w3, m, game, k) == At(w, m, game, k))
    ensures var memo := MemoFor(w, ask, now);
      && (MemoFor(w3, ask, later) == memo <==> memo == Agent || ask.mineOnly || HasOwnRecord(w3, ask))
      && (MemoFor(w3, ask, later) == memo ==> EntryOf(w3, ask, later) == Submit(None))
  {
    NothingToPlayYet(w, ask, now);
    forall m, key ensures PlaysNoMore(At(w, m, ask.game, key), At(w3, m, ask.game, key)) {
    }
    NothingMoreToPlay(w, w3, ask, ForAgent(w, ask), ask.mineOnly);
    FreeKeyIsSubmitted(w, w3, ask, now, later);
  }

  lemma FreeKeyIsSubmitted(w: World, w3: World, ask: Ask, now: real, later: real)
    requires StateName(ask.state) && EntryOf(w, ask, now).Submit? && w3.creator == w.creator
    requires PlayableTo(w, ask, ForAgent(w, ask), ask.mineOnly) == {} == PlayableTo(w3, ask, ForAgent(w, ask), ask.mineOnly)
    requires var memo, key := MemoFor(w, ask, now), StateKey(ask.state, ask.level);
      && At(w3, memo, ask.game, key).taskId.None? && At(w3, memo, ask.game, key).submittedAt.None?
      && (forall m, game, k :: !(m == memo && game == ask.game && k == key) ==> At(w3, m, game, k) == At(w, m, game, k))
    ensures var memo := MemoFor(w, ask, now);
      && (MemoFor(w3, ask, later) == memo <==> memo == Agent || ask.mineOnly || HasOwnRecord(w3, ask))
      && (MemoFor(w3, ask, later) == memo ==> EntryOf(w3, ask, later) == Submit(None))
  {
    LookupPlays(w, ask, ForAgent(w, ask), ask.mineOnly, now);
    LookupPlays(w3, ask, ForAgent(w, ask), ask.mineOnly, later);
    if MemoFor(w3, ask, later) == MemoFor(w, ask, now) {
      NothingUnderWay(w3, ask, later);
    }
  }

  /** With nothing to play and nothing under way at the key it would write, an ask submits. */
  lemma NothingUnderWay(w: World, ask: Ask, now: real)
    requires PlayableTo(w, ask, ForAgent(w, ask), ask.mineOnly) == {}
    requires var here := At(w, MemoFor(w, ask, now), ask.game, StateKey(ask.state, ask.level));
      here.taskId.None? && here.submittedAt.None?
    ensures EntryOf(w, ask, now) == Submit(None)
  {
    LookupPlays(w, ask, ForAgent(w, ask), ask.mineOnly, now);
    LookupPlays(w, ask, ForAgent(w, ask), Personal(w, ask, now), now);
  }

  /** A take at the key an ask writes to is what that ask, and any like it, is then bound to, so the
      sound is never composed twice. */
  lemma BoundIsReplayed(w: World, ask: Ask, url: Url, now: real)
    requires At(w, if ask.mineOnly then Own(ask.person) else Agent, ask.game, StateKey(ask.state, ask.level)).url == Some(url)
    requires ask.mineOnly || ForAgent(w, ask) || !HasOwnRecord(w, ask)
    ensures EntryOf(w, ask, now) == AlreadyBound && Bound(w, ask, now).url == Some(url)
  {
    var levelKey, gameKey := StateKey(ask.state, ask.level), StateKey(ask.state, "");
    if !ask.mineOnly {
      var mine := if ForAgent(w, ask) then map[] else SoundsOf(GamesOf(w, Own(ask.person)), ask.game);
      assert Held(mine, levelKey) == EMPTY && Held(mine, gameKey) == EMPTY;
      assert Down(EMPTY) == {};
      assert TurnedDownAt(mine, ask.state, ask.level) == {};
    }
  }

  /** Composed once for the agent, a sound is what every later ask for that state and level is bound
      to: the creator's, and anyone's who has made no choice of their own there. */
  lemma ComposedOnceForEveryone(w: World, begin: Step, answer: Step, url: Url, other: Ask, now: real)
    requires Well(w) && AnsweredAtOnce(w, begin, answer, url)
    requires MemoFor(w, begin.event.ask, begin.at) == Agent
    requires other.game == begin.event.ask.game && other.state == begin.event.ask.state && other.level == begin.event.ask.level
    requires var w2 := Next(Next(w, begin), answer);
      !other.mineOnly && (ForAgent(w2, other) || !HasOwnRecord(w2, other))
    ensures var w2 := Next(Next(w, begin), answer);
      EntryOf(w2, other, now) == AlreadyBound && Bound(w2, other, now).url == Some(url)
  {
    UninterruptedIsBound(w, begin, answer, url);
    BoundIsReplayed(Next(Next(w, begin), answer), other, url, now);
  }

  // ------------------------------------------------------------ the next take answers the complaint

  /** A rejection is the complaint the next take answers, numbered after the take turned down, unless
      the other key of the ladder holds a newer one. */
  lemma NextTakeAnswersTheRejection(target: Games, ask: Ask, found: Found, reason: string, now: real)
    requires StateName(ask.state) && found.record.url.Some? && reason != ""
    requires found.key in {StateKey(ask.state, ask.level), StateKey(ask.state, "")}
    requires forall key :: key in {StateKey(ask.state, ask.level), StateKey(ask.state, "")} && key != found.key ==>
      var last := LatestTurnedDown(RecordAt(target, ask.game, key)); last.Some? ==> When(last.value) < now
    ensures var rejected := VerdictIn(target, ask.game, ask.state, found, false, reason, now);
      NextLabels(rejected, ask) ==
      Labels(ask.mood, ask.prompt + ". Not like the last one: " + reason,
             if found.record.labels.Some? && found.record.labels.value.variant != 0 then found.record.labels.value.variant + 1 else 2)
  {
    var levelKey, gameKey := StateKey(ask.state, ask.level), StateKey(ask.state, "");
    VerdictWrites(target, ask.game, ask.state, found, false, reason, now, ask.game, levelKey);
    VerdictWrites(target, ask.game, ask.state, found, false, reason, now, ask.game, gameKey);
    var rejected := VerdictIn(target, ask.game, ask.state, found, false, reason, now);
    var r := RecordAt(rejected, ask.game, found.key);
    assert LatestTurnedDown(r) == Some(Take(found.record.url.value, TakeVariant(found.record), reason, Some(now)));
    assert RejectedTake(rejected, ask.game, ask.state, ask.level) == LatestTurnedDown(r);
  }

  // ------------------------------------------------------------ forgetting a failed task

  /** A failed poll ends a composition that is not its own exactly when the call's key holds one, and no
      longer the task the call polled. */
  lemma FailedPollEndsAnothers(w: World, failed: Step)
    requires Well(w) && Enabled(w, failed) && failed.event.Polled? && failed.event.progress.Failed?
    ensures var call := w.calls[failed.event.call];
      var r, r' := Here(w, call), At(Next(w, failed), call.memo, call.ask.game, StateKey(call.ask.state, call.ask.level));
      (exists c :: c != Task(call.phase.task) && HoldsComposition(r, c) && !Names(r', c)) <==>
      Occupies(r) && r.taskId != Some(call.phase.task)
  {
    var call := w.calls[failed.event.call];
    var r := Here(w, call);
    NextRecord(w, failed, call.memo, call.ask.game, StateKey(call.ask.state, call.ask.level));
    assert NamesOne(r);
    if Occupies(r) && r.taskId != Some(call.phase.task) {
      var c := if r.taskId.Some? then Task(r.taskId.value) else Note(r.submittedAt.value);
      assert c != Task(call.phase.task) && HoldsComposition(r, c);
    }
  }

  // ------------------------------------------------------------ what an ask finds

  /** The record is a task too old to finish: given more than half an hour ago. */
  predicate TooOld(r: Sound, now: real) {
    r.taskSince.Some? && r.taskSince.value != 0.0 && r.taskSince.value + 1800.0 < now
  }

  /** What an ask does, by what there is to play and the record at the key it would write: it is bound already
      exactly when there is something to play; else a task there is picked up again, as what it was composed
      with, or forgotten when too old; a submit noted there less than the cooldown ago is waited for; and
      anything else is submitted. */
  lemma WhatAnAskDoes(w: World, ask: Ask, now: real)
    requires StateName(ask.state)
    ensures var entry, r := EntryOf(w, ask, now), At(w, MemoFor(w, ask, now), ask.game, StateKey(ask.state, ask.level));
      && (entry == AlreadyBound <==> PlayableTo(w, ask, ForAgent(w, ask), ask.mineOnly) != {})
      && (entry != AlreadyBound ==>
            entry == if r.taskId.Some? then if TooOld(r, now) then Submit(r.taskId) else Resume(r.taskId.value, r.taskTake)
                     else if UnderWay(r, now) then Waiting else Submit(None))
  {
    LookupPlays(w, ask, ForAgent(w, ask), ask.mineOnly, now);
    if PlayableTo(w, ask, ForAgent(w, ask), ask.mineOnly) == {} {
      LookupPlays(w, ask, ForAgent(w, ask), Personal(w, ask, now), now);
      NothingPlaysAlone(w, ask);
    }
    if EntryOf(w, ask, now) != AlreadyBound {
      NoTakeWhereACallStarts(w, ask, now);
    }
  }

  /** With nothing to play at all there is nothing of the person's own. */
  lemma NothingPlaysAlone(w: World, ask: Ask)
    ensures PlayableTo(w, ask, ForAgent(w, ask), ask.mineOnly) == {} ==> PlayableTo(w, ask, ForAgent(w, ask), true) == {}
  {
    if !ask.mineOnly {
      var mine := if ForAgent(w, ask) then map[] else SoundsOf(GamesOf(w, Own(ask.person)), ask.game);
      assert Playable(mine, map[], EMPTY, ask.state, ask.level) <=
             Playable(mine, SoundsOf(w.agent, ask.game), if ask.state != BGM then EMPTY else MusicOf(w.agent, ask.game), ask.state, ask.level);
    }
  }

  /** The first take is composed as it was asked for, and numbered one. */
  lemma TheFirstTakeIsNumberOne(games: Games, ask: Ask)
    requires LatestTurnedDown(RecordAt(games, ask.game, StateKey(ask.state, ask.level))).None?
    requires LatestTurnedDown(RecordAt(games, ask.game, StateKey(ask.state, ""))).None?
    ensures NextLabels(games, ask) == Labels(ask.mood, ask.prompt, 1)
  {
  }

  // ------------------------------------------------------------ a composer warming up

  /** A composer still warming up leaves the submit's note, timed anew, over all the record held, and no call;
      if the composition was ended meanwhile it leaves everything as it was. */
  lemma WarmupKeepsTheNote(w: World, answer: Step, id: CallId)
    requires Well(w) && Enabled(w, answer) && answer.event == Submitted(id, WarmingUp)
    ensures var call, w' := w.calls[id], Next(w, answer);
      var key := StateKey(call.ask.state, call.ask.level);
      var r, r' := Here(w, call), At(w', call.memo, call.ask.game, key);
      && w'.calls == w.calls - {id}
      && (forall m, game, k :: !AtCall(call, m, game, k) ==> At(w', m, game, k) == At(w, m, game, k))
      && (!StillOurs(w, call, Note(call.phase.note)) ==> r' == r)
      && (StillOurs(w, call, Note(call.phase.note)) ==>
            && r'.submittedAt == Some(answer.at) && r'.url.None? && r'.taskId.None? && r'.taskTake == r.taskTake
            && r'.labels == (if r.labels.Some? then r.labels else Some(call.labels))
            && r'.rejectedUrl == r.rejectedUrl && r'.rejectedReason == r.rejectedReason && r'.rejectedAt == r.rejectedAt
            && r'.previousTakes == r.previousTakes && r'.lostTask == r.lostTask
            && (forall now :: answer.at < now < answer.at + SUBMIT_COOLDOWN_S ==> UnderWay(r', now)))
  {
    var call := w.calls[id];
    var key := StateKey(call.ask.state, call.ask.level);
    assert Past(w, Here(w, call)) && NamesOne(Here(w, call));
    MovedCalls(w, call, WriteOf(w, answer), id, PhaseOf(w, answer));
    NextRecord(w, answer, call.memo, call.ask.game, key);
    forall m, game, k | !AtCall(call, m, game, k) ensures At(Next(w, answer), m, game, k) == At(w, m, game, k) {
      NextRecord(w, answer, m, game, k);
    }
    if StillOurs(w, call, Note(call.phase.note)) {
      KeptAsItIs(Here(w, call), WriteOf(w, answer).record);
    }
  }

  // ------------------------------------------------------------ a choice made meanwhile

  /** A finished take is bound over nothing the person would hear by now: every record stays. */
  lemma NothingIsBoundOverAChoice(w: World, finish: Step, m: MemoId, game: string, key: Key)
    requires Enabled(w, finish) && ByCall(finish.event)
    requires (finish.event.Submitted? && finish.event.reply.Completed?) || (finish.event.Polled? && finish.event.progress.Done?)
    requires var call := w.calls[finish.event.call];
      PlayableTo(w, call.ask, call.forAgent, call.ask.mineOnly) != {}
    ensures At(Next(w, finish), m, game, key) == At(w, m, game, key)
  {
    var call := w.calls[finish.event.call];
    LookupPlays(w, call.ask, call.forAgent, call.ask.mineOnly, finish.at);
    NextRecord(w, finish, m, game, key);
  }

  /** A task given after such a choice is noted, while its composition is still the call's, but not polled. */
  lemma ATaskBesideAChoiceIsLeft(w: World, pending: Step, close: Step, id: CallId, task: TaskId)
    requires Enabled(w, pending) && pending.event == Submitted(id, Pending(task))
    requires Enabled(Next(w, pending), close) && close.event == Close(id)
    requires var call := w.calls[id];
      StillOurs(w, call, Note(call.phase.note)) && PlayableTo(w, call.ask, call.forAgent, call.ask.mineOnly) != {}
    ensures var call, w2 := w.calls[id], Next(Next(w, pending), close);
      id !in w2.calls && At(w2, call.memo, call.ask.game, StateKey(call.ask.state, call.ask.level)).taskId == Some(task)
  {
    var call, w1 := w.calls[id], Next(w, pending);
    LookupPlays(w, call.ask, call.forAgent, call.ask.mineOnly, pending.at);
    NextRecord(w, pending, call.memo, call.ask.game, StateKey(call.ask.state, call.ask.level));
    MovedCalls(w, call, WriteOf(w, pending), id, PhaseOf(w, pending));
    ALeftTaskIsNotPolled(w1, close, id, task);
  }

  lemma ALeftTaskIsNotPolled(w: World, close: Step, id: CallId, task: TaskId)
    requires Enabled(w, close) && close.event == Close(id) && w.calls[id].phase.started.None?
    requires Here(w, w.calls[id]).taskId == Some(task)
    ensures var call, w' := w.calls[id], Next(w, close);
      id !in w'.calls && At(w', call.memo, call.ask.game, StateKey(call.ask.state, call.ask.level)).taskId == Some(task)
  {
    var call := w.calls[id];
    NextRecord(w, close, call.memo, call.ask.game, StateKey(call.ask.state, call.ask.level));
    MovedCalls(w, call, WriteOf(w, close), id, PhaseOf(w, close));
  }

  /** A call whose process dies is gone and writes nothing on its way, so its submit's note stays in the memo,
      to lapse. */
  lemma ADeadCallLeavesItsNote(w: World, die: Step)
    requires Enabled(w, die) && die.event.Die?
    ensures die.event.call !in Next(w, die).calls
    ensures forall m, game, key :: At(Next(w, die), m, game, key) == At(w, m, game, key)
  {
  }
}

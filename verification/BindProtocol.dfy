/** bind_game_sound as a protocol: any number of calls, each a submit that can wait minutes and a
    poll, interleaved with any number of verdicts, over the agent's memo and one per person.

    Each lookup-then-write of the code is one step; the composer answers as it likes.  The clock
    moves on at every step, so a submit note's time names that note, and a task id is new. */
module BindProtocol {
  import opened Options
  import opened GameSoundMemo

  type Person = string
  type CallId = nat

  datatype MemoId = Agent | Own(person: Person)

  /** What one call of bind_game_sound was asked. */
  datatype Ask = Ask(person: Person, mineOnly: bool, game: string, state: string, level: string,
                     mood: string, prompt: string)

  /** Where a call is: waiting for the submit's answer, on its way out of the submit (with the task
      it then polls, if any), or polling. */
  datatype Phase =
    | Submitting(note: real)
    | Closing(note: real, started: Option<TaskId>)
    | Polling(task: TaskId, resumed: Option<Labels>)

  datatype Call = Call(ask: Ask, forAgent: bool, memo: MemoId, labels: Labels, phase: Phase)

  datatype World = World(agent: Games, own: map<Person, Games>, creator: Option<Person>, now: real,
                         tasks: set<TaskId>, calls: map<CallId, Call>)

  /** The composer's answer to a submit; Refused stands for every answer, or exception, that left
      no composition behind. */
  datatype Reply = Completed(url: Option<Url>) | WarmingUp | Pending(task: TaskId) | Refused

  /** The composer's answer to a poll; Gone is an exception, an absent composer or the deadline. */
  datatype Progress = Done(url: Option<Url>) | Failed(why: string) | Gone

  datatype Event =
    | Begin(call: CallId, ask: Ask)
    | Submitted(call: CallId, reply: Reply)
    | Close(call: CallId)
    | Polled(call: CallId, progress: Progress)
    | Die(call: CallId)
    | Verdict(person: Person, everyone: bool, game: string, state: string, level: string, approved: bool, reason: string)
    | Pass

  datatype Step = Step(at: real, event: Event)

  const TASK_STALE_S: real := 1800.0

  // ------------------------------------------------------------ the memos

  function GamesOf(w: World, m: MemoId): Games {
    match m
    case Agent => w.agent
    case Own(p) => if p in w.own then w.own[p] else map[]
  }

  function WithGames(w: World, m: MemoId, games: Games): World {
    match m
    case Agent => w.(agent := games)
    case Own(p) => w.(own := w.own[p := games])
  }

  function At(w: World, m: MemoId, game: string, key: Key): Sound {
    RecordAt(GamesOf(w, m), game, key)
  }

  // ------------------------------------------------------------ the start of a call

  predicate ForAgent(w: World, ask: Ask) {
    !ask.mineOnly && w.creator == Some(ask.person)
  }

  /** What this person's call finds: the creator reads the agent's memo alone, anyone else their
      own first. */
  function Lookup(w: World, ask: Ask, forAgent: bool, ownOnly: bool, now: real): Found {
    GameStateMatch(w.agent, if forAgent then None else Some(GamesOf(w, Own(ask.person))),
                   ask.game, ask.state, ask.level, ownOnly, now)
  }

  /** The person has a record of their own here, so the next take is theirs alone. */
  predicate HasOwnRecord(w: World, ask: Ask) {
    || At(w, Own(ask.person), ask.game, StateKey(ask.state, ask.level)) != EMPTY
    || At(w, Own(ask.person), ask.game, StateKey(ask.state, "")) != EMPTY
  }

  predicate Personal(w: World, ask: Ask, now: real) {
    || ask.mineOnly
    || (!ForAgent(w, ask) && Lookup(w, ask, false, false, now).record.url.None? && HasOwnRecord(w, ask))
  }

  function MemoFor(w: World, ask: Ask, now: real): MemoId {
    if Personal(w, ask, now) then Own(ask.person) else Agent
  }

  /** What the call is bound to when it starts. */
  function Bound(w: World, ask: Ask, now: real): Sound {
    Lookup(w, ask, ForAgent(w, ask), Personal(w, ask, now), now).record
  }

  /** What the call does next: nothing, poll the task already under way, or submit, first forgetting
      a task too old to finish. */
  datatype Entry = AlreadyBound | Waiting | Resume(task: TaskId, labels: Option<Labels>) | Submit(stale: Option<TaskId>)

  predicate Stale(r: Sound, now: real) {
    && r.taskId.Some? && r.taskSince.Some? && r.taskSince.value != 0.0
    && now - r.taskSince.value > TASK_STALE_S
  }

  function EntryOf(w: World, ask: Ask, now: real): Entry {
    var bound := Bound(w, ask, now);
    var here := At(w, MemoFor(w, ask, now), ask.game, StateKey(ask.state, ask.level));
    if bound.url.Some? then AlreadyBound
    else if bound.taskId.Some? && !Stale(bound, now) then Resume(bound.taskId.value, bound.taskTake)
    else if bound.taskId.Some? then Submit(bound.taskId)
    else if here.taskId.None? && SubmitInFlight(here, now) then Waiting
    else Submit(None)
  }

  /** The labels of the take this call composes: the next variant, told the reason the last was
      turned down. */
  function NextLabels(games: Games, ask: Ask): Labels {
    var rejected := RejectedTake(games, ask.game, ask.state, ask.level);
    if rejected.None? then Labels(ask.mood, ask.prompt, 1) else
    var take := rejected.value;
    Labels(ask.mood,
           if take.reason == "" then ask.prompt else ask.prompt + ". Not like the last one: " + take.reason,
           (if take.variant == 0 then 1 else take.variant) + 1)
  }

  /** The record the submit note goes on: what the key holds, its stale task forgotten. */
  function BeforeNote(here: Sound, stale: Option<TaskId>, now: real): Sound {
    if stale.None? then here
    else Keeping(here, EndedComposition(here, "no answer within TASK_STALE_S", stale, now))
  }

  /** The memo a submit starts in: the stale task forgotten, then the note written. */
  function Noted(games: Games, ask: Ask, stale: Option<TaskId>, labels: Labels, now: real): Games {
    var key := StateKey(ask.state, ask.level);
    var here := RecordAt(games, ask.game, key);
    var cleared :=
      if stale.None? then games
      else SetState(games, ask.game, ask.state, ask.level,
                    EndedComposition(here, "no answer within TASK_STALE_S", stale, now));
    SetState(cleared, ask.game, ask.state, ask.level,
             SubmitNote(RecordAt(cleared, ask.game, key), labels, now))
  }

  function Started(w: World, id: CallId, ask: Ask, now: real): World {
    StartedAs(w, id, ask, EntryOf(w, ask, now), MemoFor(w, ask, now), now)
  }

  function StartedAs(w: World, id: CallId, ask: Ask, entry: Entry, memo: MemoId, now: real): World {
    var labels := NextLabels(GamesOf(w, memo), ask);
    var call := Call(ask, ForAgent(w, ask), memo, labels, Submitting(now));
    match entry
    case AlreadyBound => w
    case Waiting => w
    case Resume(task, resumed) => w.(calls := w.calls[id := call.(phase := Polling(task, resumed))])
    case Submit(stale) =>
      WithGames(w, memo, Noted(GamesOf(w, memo), ask, stale, labels, now)).(calls := w.calls[id := call])
  }

  // ------------------------------------------------------------ the rest of a call

  /** What a step of a call writes at the call's own key. */
  datatype Write = Nothing | Put(record: Sound) | Erase

  function Here(w: World, call: Call): Sound {
    At(w, call.memo, call.ask.game, StateKey(call.ask.state, call.ask.level))
  }

  /** The call's composition is still the one at its key. */
  predicate StillOurs(w: World, call: Call, c: Composition) {
    HoldsComposition(Here(w, call), c)
  }

  /** A take that landed while the call composed: one this person hears, or one at the call's key. */
  predicate ChosenMeanwhile(w: World, call: Call, now: real) {
    || Lookup(w, call.ask, call.forAgent, call.ask.mineOnly, now).record.url.Some?
    || Here(w, call).url.Some?
  }

  /** The call's take, labelled as what it was composed with. */
  function TakeOf(call: Call, resumed: Option<Labels>): Sound {
    EMPTY.(labels := Some(if resumed.Some? then resumed.value else call.labels))
  }

  /** A finished take is bound only where nothing landed and the composition is still this call's. */
  function Finish(w: World, call: Call, c: Composition, resumed: Option<Labels>, url: Option<Url>, now: real): Write {
    if url.None? || ChosenMeanwhile(w, call, now) || !StillOurs(w, call, c) then Nothing
    else Put(TakeOf(call, resumed).(url := url, composedAt := Some(now)))
  }

  function ReplyWrite(w: World, call: Call, reply: Reply, now: real): Write
    requires call.phase.Submitting?
  {
    var note := Note(call.phase.note);
    match reply
    case Completed(url) => Finish(w, call, note, None, url, now)
    case WarmingUp =>
      if StillOurs(w, call, note)
      then Put(Here(w, call).(labels := Or(Here(w, call).labels, Some(call.labels)), submittedAt := Some(now)))
      else Nothing
    case Pending(task) =>
      if StillOurs(w, call, note)
      then Put(TakeOf(call, None).(taskId := Some(task), taskSince := Some(now), taskTake := Some(call.labels)))
      else Nothing
    case Refused => Nothing
  }

  /** Where the call goes after the submit's answer; a composer still warming up keeps the note. */
  function ReplyPhase(w: World, call: Call, reply: Reply, now: real): Option<Phase>
    requires call.phase.Submitting?
  {
    var note := call.phase.note;
    if reply.WarmingUp? then None
    else if reply.Pending? && !ChosenMeanwhile(w, call, now) && StillOurs(w, call, Note(note))
    then Some(Closing(note, Some(reply.task)))
    else Some(Closing(note, None))
  }

  /** On the way out of the submit, a note that left no composition behind is cleared. */
  function CloseWrite(w: World, call: Call): Write
    requires call.phase.Closing?
  {
    var here := Here(w, call);
    var cleared := WithoutSubmitNote(here, call.phase.note);
    if cleared == here then Nothing else if cleared != EMPTY then Put(cleared) else Erase
  }

  function PollWrite(w: World, call: Call, progress: Progress, now: real): Write
    requires call.phase.Polling?
  {
    match progress
    case Done(url) => Finish(w, call, Task(call.phase.task), call.phase.resumed, url, now)
    case Failed(why) => Put(EndedComposition(Here(w, call), why, Some(call.phase.task), now))
    case Gone => Nothing
  }

  function Apply(w: World, call: Call, write: Write): World {
    var games := GamesOf(w, call.memo);
    match write
    case Nothing => w
    case Put(r) => WithGames(w, call.memo, SetState(games, call.ask.game, call.ask.state, call.ask.level, r))
    case Erase => WithGames(w, call.memo, Forget(games, call.ask.game, call.ask.state, call.ask.level))
  }

  function Move(w: World, id: CallId, phase: Option<Phase>): World {
    if phase.None? then w.(calls := w.calls - {id})
    else if id in w.calls then w.(calls := w.calls[id := w.calls[id].(phase := phase.value)])
    else w
  }

  // ------------------------------------------------------------ verdicts

  predicate ForEveryone(w: World, person: Person, everyone: bool) {
    everyone && w.creator == Some(person)
  }

  function VerdictMemo(w: World, person: Person, everyone: bool): MemoId {
    if ForEveryone(w, person, everyone) then Agent else Own(person)
  }

  function VerdictFound(w: World, person: Person, everyone: bool, game: string, state: string, level: string, now: real): Found {
    GameStateMatch(w.agent, if ForEveryone(w, person, everyone) then None else Some(GamesOf(w, Own(person))),
                   game, state, level, false, now)
  }

  // ------------------------------------------------------------ steps and runs

  predicate Enabled(w: World, step: Step) {
    && step.at > w.now
    && match step.event
       case Begin(id, ask) => id !in w.calls && StateName(ask.state)
       case Submitted(id, reply) =>
         id in w.calls && w.calls[id].phase.Submitting? && (reply.Pending? ==> reply.task !in w.tasks)
       case Close(id) => id in w.calls && w.calls[id].phase.Closing?
       case Polled(id, _) => id in w.calls && w.calls[id].phase.Polling?
       case Die(id) => id in w.calls
       case Verdict(_, _, _, state, _, _, _) => StateName(state)
       case Pass => true
  }

  function Next(w: World, step: Step): World
    requires Enabled(w, step)
  {
    var now := step.at;
    var w' := match step.event
      case Begin(id, ask) => Started(w, id, ask, now)
      case Submitted(id, reply) =>
        var call := w.calls[id];
        Move(Apply(w, call, ReplyWrite(w, call, reply, now)), id, ReplyPhase(w, call, reply, now))
          .(tasks := if reply.Pending? then w.tasks + {reply.task} else w.tasks)
      case Close(id) =>
        var call := w.calls[id];
        Move(Apply(w, call, CloseWrite(w, call)), id,
             if call.phase.started.Some? then Some(Polling(call.phase.started.value, None)) else None)
      case Polled(id, progress) =>
        Move(Apply(w, w.calls[id], PollWrite(w, w.calls[id], progress, now)), id, None)
      case Die(id) => Move(w, id, None)
      case Verdict(person, everyone, game, state, level, approved, reason) =>
        var memo := VerdictMemo(w, person, everyone);
        var found := VerdictFound(w, person, everyone, game, state, level, now);
        WithGames(w, memo, VerdictIn(GamesOf(w, memo), game, state, found, approved, reason, now))
      case Pass => w;
    w'.(now := now)
  }

  predicate Run(w: World, steps: seq<Step>)
    decreases |steps|
  {
    steps == [] || (Enabled(w, steps[0]) && Run(Next(w, steps[0]), steps[1..]))
  }

  /** The world after the first n steps of a run. */
  function After(w: World, steps: seq<Step>, n: nat): World
    requires n <= |steps| && Run(w, steps)
    decreases n
  {
    if n == 0 then w else After(Next(w, steps[0]), steps[1..], n - 1)
  }
}

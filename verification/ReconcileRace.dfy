/** The reconciler's sweep over one flow, among the other writers of that flow's files.

    The sweep looks for a live recipe, looks for a retired one, reads the action recipes one by one, and
    only then puts its own recipe in place.  Each of these is one step here; between any two of them a
    CREATE can write the live recipe or an action recipe, the optimizer can retire, accept or restore one,
    and the process can stop. */
module ReconcileRace {
  import opened Options
  import opened RecipeReconcile

  /** One flow's files: the live recipe, the retired one, and the action recipes by number. */
  datatype Flow = Flow(live: Option<RecipeFile>, bak: Option<RecipeFile>, actions: map<nat, ActionFile>)

  /** Where the sweep is with the flow; 'planned' is the count its config was read to give. */
  datatype Sweep =
    | Away
    | CheckingLive(planned: nat)
    | CheckingBak(planned: nat)
    | Reading(planned: nat, read: seq<ActionFile>)
    | Replacing(planned: nat, recipe: RecipeFile)

  datatype World = World(files: Flow, sweep: Sweep)

  /** What happens next: the sweep comes to this flow, or does its next file operation (a replace works or
      not), the process stops, or another writer does one thing to the files. */
  datatype Event =
    | Begin(planned: nat)
    | FileOp(works: bool)
    | Stop
    | Create(recipe: RecipeFile)
    | SaveAction(i: nat, file: ActionFile)
    | Archive
    | Accept
    | Rollback

  predicate Enabled(w: World, e: Event) {
    match e
    case Begin(_) => w.sweep.Away?
    case FileOp(_) => !w.sweep.Away?
    case _ => true
  }

  predicate Finished(f: Flow, i: nat) {
    i in f.actions && f.actions[i].Action? && Terminal(f.actions[i].status)
  }

  predicate Archives(w: World, e: Event) {
    e.Archive? && w.files.live.Some? && w.files.bak.None?
  }

  function Next(w: World, e: Event): World {
    var f := w.files;
    match e
    case Begin(planned) => w.(sweep := CheckingLive(planned))
    case Stop => w.(sweep := Away)
    case Create(recipe) => w.(files := f.(live := Some(recipe)))
    case SaveAction(i, file) => w.(files := f.(actions := f.actions[i := file]))
    case Archive => if Archives(w, e) then w.(files := f.(live := None, bak := f.live)) else w
    case Accept => w.(files := f.(bak := None))
    case Rollback => if f.bak.Some? then w.(files := f.(live := f.bak, bak := None)) else w
    case FileOp(works) => Swept(w, works)
  }

  /** The sweep's next file operation. */
  function Swept(w: World, works: bool): World {
    var f := w.files;
    match w.sweep
    case Away => w
    case CheckingLive(planned) => w.(sweep := if f.live.Some? then Away else CheckingBak(planned))
    case CheckingBak(planned) => w.(sweep := if f.bak.Some? || planned == 0 then Away else Reading(planned, []))
    case Reading(planned, read) =>
      var i := |read| + 1;
      if !Finished(f, i) then w.(sweep := Away)
      else
        var more := read + [f.actions[i]];
        w.(sweep := if i < planned then Reading(planned, more) else Replacing(planned, Assembled(more)))
    case Replacing(_, recipe) => World(if works then f.(live := Some(recipe)) else f, Away)
  }

  predicate Run(w: World, events: seq<Event>)
    decreases |events|
  {
    events == [] || (Enabled(w, events[0]) && Run(Next(w, events[0]), events[1..]))
  }

  function After(w: World, events: seq<Event>): World
    decreases |events|
  {
    if events == [] then w else After(Next(w, events[0]), events[1..])
  }

  lemma {:induction false} AfterSome(w: World, events: seq<Event>, i: nat)
    requires Run(w, events) && i <= |events|
    ensures Run(w, events[..i]) && Run(After(w, events[..i]), events[i..])
    ensures After(After(w, events[..i]), events[i..]) == After(w, events)
    decreases |events|
  {
    if i > 0 {
      assert events[..i][0] == events[0] && events[..i][1..] == events[1..][..i - 1];
      assert events[i..] == events[1..][i - 1..];
      AfterSome(Next(w, events[0]), events[1..], i - 1);
    } else {
      assert events[..0] == [] && events[0..] == events;
    }
  }

  // ------------------------------------------------------------ what the sweep writes

  /** Whatever the others do, the recipe put in place holds as many actions as were planned, each finished
      when it was read. */
  predicate ReadsWhole(s: Sweep) {
    match s
    case Reading(planned, read) => |read| < planned && AllFinished(read)
    case Replacing(planned, recipe) => recipe.Assembled? && |recipe.actions| == planned > 0 && AllFinished(recipe.actions)
    case _ => true
  }

  predicate AllFinished(actions: seq<ActionFile>) {
    forall a :: a in actions ==> a.Action? && Terminal(a.status)
  }

  lemma {:induction false} RunsReadWhole(w: World, events: seq<Event>)
    requires ReadsWhole(w.sweep) && Run(w, events)
    ensures ReadsWhole(After(w, events).sweep)
    decreases |events|
  {
    if events != [] {
      RunsReadWhole(Next(w, events[0]), events[1..]);
    }
  }

  // ------------------------------------------------------------ what lands behind a check

  /** The two checks of a sweep, each for a recipe it must not write over or beside. */
  datatype Check = Live | Bak

  predicate There(c: Check, f: Flow) {
    match c
    case Live => f.live.Some?
    case Bak => f.bak.Some?
  }

  predicate AtCheck(c: Check, s: Sweep) {
    match c
    case Live => s.CheckingLive?
    case Bak => s.CheckingBak?
  }

  predicate PastCheck(c: Check, s: Sweep) {
    s.Reading? || s.Replacing? || (c.Live? && s.CheckingBak?)
  }

  /** Another writer's step that puts there what the check looked for. */
  predicate Puts(c: Check, w: World, e: Event) {
    match c
    case Live => e.Create? || (e.Rollback? && w.files.bak.Some?)
    case Bak => Archives(w, e)
  }

  /** A step that takes it away again. */
  predicate Takes(c: Check, w: World, e: Event) {
    match c
    case Live => Archives(w, e)
    case Bak => (e.Accept? || e.Rollback?) && w.files.bak.Some?
  }

  predicate NeverTaken(c: Check, w: World, events: seq<Event>)
    decreases |events|
  {
    events == [] || (!Takes(c, w, events[0]) && NeverTaken(c, Next(w, events[0]), events[1..]))
  }

  /** Some step of these is another writer's that puts it there, and none after that takes it away. */
  predicate Landed(c: Check, w: World, events: seq<Event>)
    decreases |events|
  {
    events != [] &&
    ((Puts(c, w, events[0]) && NeverTaken(c, Next(w, events[0]), events[1..])) ||
     Landed(c, Next(w, events[0]), events[1..]))
  }

  /** Steps of one pass of the sweep: it neither comes to the flow anew nor puts its recipe in place. */
  predicate SamePass(w: World, events: seq<Event>)
    decreases |events|
  {
    events == [] ||
    (!events[0].Begin? && !(events[0].FileOp? && w.sweep.Replacing?) && SamePass(Next(w, events[0]), events[1..]))
  }

  /** What is there after the rest of a pass: what was there and stayed, or what landed meanwhile. */
  lemma {:induction false} ThereIffLanded(c: Check, w: World, events: seq<Event>)
    requires SamePass(w, events)
    ensures There(c, After(w, events).files) <==>
      (There(c, w.files) && NeverTaken(c, w, events)) || Landed(c, w, events)
    decreases |events|
  {
    if events != [] {
      ThereIffLanded(c, Next(w, events[0]), events[1..]);
    }
  }

  /** The i-th step is the check of the pass the run ends in. */
  predicate ChecksAt(c: Check, w: World, events: seq<Event>, i: nat)
    requires i < |events|
  {
    && AtCheck(c, After(w, events[..i]).sweep) && events[i].FileOp?
    && !There(c, After(w, events[..i]).files)
    && SamePass(After(w, events[..i + 1]), events[i + 1..])
  }

  /** A sweep past a check made that check in the same pass. */
  lemma {:induction false} CheckedBefore(c: Check, w: World, events: seq<Event>)
    requires Run(w, events) && PastCheck(c, After(w, events).sweep)
    ensures (PastCheck(c, w.sweep) && SamePass(w, events)) || exists i :: 0 <= i < |events| && ChecksAt(c, w, events, i)
    decreases |events|
  {
    if events != [] {
      var w', rest := Next(w, events[0]), events[1..];
      CheckedBefore(c, w', rest);
      if PastCheck(c, w'.sweep) && SamePass(w', rest) {
        if !PastCheck(c, w.sweep) {
          assert events[..0] == [] && events[..1] == [events[0]];
          assert After(w, events[..1]) == After(w', []);
          assert ChecksAt(c, w, events, 0);
        }
      } else {
        var i :| 0 <= i < |rest| && ChecksAt(c, w', rest, i);
        ChecksOneLater(c, w, events, i);
      }
    }
  }

  lemma ChecksOneLater(c: Check, w: World, events: seq<Event>, i: nat)
    requires i + 1 < |events| && ChecksAt(c, Next(w, events[0]), events[1..], i)
    ensures ChecksAt(c, w, events, i + 1)
  {
    assert events[..i + 1][1..] == events[1..][..i] && events[..i + 2][1..] == events[1..][..i + 1];
    assert events[i + 2..] == events[1..][i + 1..];
  }

  /** Over every run: when a sweep is about to put its recipe in place, there is a live recipe for it to
      overwrite, or a retired one for it to write beside, if and only if another writer's landed after this
      pass, which did check, checked for it, and was not taken away again. */
  lemma ReplaceMeetsWhatLanded(c: Check, w: World, events: seq<Event>)
    requires w.sweep.Away? && Run(w, events) && After(w, events).sweep.Replacing?
    ensures exists i :: 0 <= i < |events| && ChecksAt(c, w, events, i)
    ensures forall i :: 0 <= i < |events| && ChecksAt(c, w, events, i) ==>
      (There(c, After(w, events).files) <==> Landed(c, After(w, events[..i + 1]), events[i + 1..]))
  {
    CheckedBefore(c, w, events);
    forall i | 0 <= i < |events| && ChecksAt(c, w, events, i)
      ensures There(c, After(w, events).files) <==> Landed(c, After(w, events[..i + 1]), events[i + 1..])
    {
      AfterSome(w, events, i + 1);
      StepAfter(w, events, i);
      ThereIffLanded(c, After(w, events[..i + 1]), events[i + 1..]);
    }
  }

  lemma {:induction false} StepAfter(w: World, events: seq<Event>, i: nat)
    requires i < |events|
    ensures After(w, events[..i + 1]) == Next(After(w, events[..i]), events[i])
    decreases |events|
  {
    if i == 0 {
      assert events[..1] == [events[0]] && events[..0] == [];
    } else {
      assert events[..i + 1][1..] == events[1..][..i] && events[..i][1..] == events[1..][..i - 1];
      StepAfter(Next(w, events[0]), events[1..], i - 1);
    }
  }

  // ------------------------------------------------------------ a pass nothing gets in the way of

  function StepsLeft(s: Sweep): nat {
    match s
    case Away => 0
    case CheckingLive(planned) => planned + 4
    case CheckingBak(planned) => planned + 3
    case Reading(planned, read) => if |read| < planned then planned - |read| + 1 else 2
    case Replacing(_, _) => 1
  }

  /** The rest of a pass, with nothing in between. */
  function Alone(w: World): World
    decreases StepsLeft(w.sweep)
  {
    if w.sweep.Away? then w else Alone(Next(w, FileOp(true)))
  }

  /** These files are that flow's in the directory. */
  ghost predicate Shows(f: Flow, dir: Dir, key: FlowKey) {
    && f.live == (if key in dir.recipes then Some(dir.recipes[key]) else None)
    && (f.bak.Some? <==> key in dir.retired)
    && (forall i :: i in f.actions <==> (key.0, key.1, i) in dir.actions)
    && (forall i :: i in f.actions ==> f.actions[i] == dir.actions[(key.0, key.1, i)])
  }

  lemma {:induction false} AloneReads(w: World, dir: Dir, key: FlowKey, n: nat)
    requires Shows(w.files, dir, key) && n > 0
    requires w.sweep.Reading? && w.sweep.planned == n && |w.sweep.read| < n
    requires CompleteTo(dir.actions, key, |w.sweep.read|) && w.sweep.read == ActionsTo(dir.actions, key, |w.sweep.read|)
    ensures Alone(w).sweep.Away?
    ensures Alone(w).files == if CompleteTo(dir.actions, key, n)
                              then w.files.(live := Some(Assembled(ActionsTo(dir.actions, key, n)))) else w.files
    decreases n - |w.sweep.read|
  {
    var i := |w.sweep.read| + 1;
    assert Finished(w.files, i) <==> Complete(dir.actions, key, i);
    var next := Next(w, FileOp(true));
    if Finished(w.files, i) {
      assert CompleteTo(dir.actions, key, i);
      assert w.sweep.read + [w.files.actions[i]] == ActionsTo(dir.actions, key, i);
      if i < n {
        AloneReads(next, dir, key, n);
      } else {
        assert Alone(Next(next, FileOp(true))) == Next(next, FileOp(true));
      }
    } else {
      assert Alone(next) == next;
    }
  }

  /** A pass nothing gets in the way of does to the flow what the reconciler does at once. */
  lemma UndisturbedPass(w: World, dir: Dir, key: FlowKey)
    requires Shows(w.files, dir, key) && w.sweep == CheckingLive(Planned(dir.configs, key))
    ensures Alone(w).sweep.Away? && Shows(Alone(w).files, Reconciled(dir, {key}), key)
  {
    var n := Planned(dir.configs, key);
    var w1 := Next(w, FileOp(true));
    var w2 := Next(w1, FileOp(true));
    if w.files.live.None? && w.files.bak.None? && n > 0 {
      assert w2.sweep == Reading(n, []);
      assert ActionsTo(dir.actions, key, 0) == [];
      AloneReads(w2, dir, key, n);
      assert Alone(w) == Alone(w1) == Alone(w2);
    } else {
      assert !Due(dir, key);
      var end := if w.files.live.Some? then w1 else w2;
      assert Alone(w) == Alone(w1) && Alone(end) == end;
      assert Reconciled(dir, {key}).recipes == dir.recipes;
    }
  }

  // ------------------------------------------------------------ two runs

  const DONE: ActionFile := Action("done", "step one")

  const READY: World := World(Flow(None, None, map[1 := DONE]), Away)

  lemma OnePass(w: World, rest: seq<Event>)
    requires w == READY
    ensures var read := World(w.files, Replacing(1, Assembled([DONE])));
      var events := [Begin(1), FileOp(true), FileOp(true), FileOp(true)] + rest;
      && (Run(read, rest) ==> Run(w, events))
      && After(w, events) == After(read, rest)
  {
    OnePassSteps();
    var pass := [Begin(1), FileOp(true), FileOp(true), FileOp(true)];
    var w1, w2 := World(w.files, CheckingLive(1)), World(w.files, CheckingBak(1));
    var w3 := World(w.files, Reading(1, []));
    Prepended(w, Begin(1), [FileOp(true), FileOp(true), FileOp(true)] + rest);
    Prepended(w1, FileOp(true), [FileOp(true), FileOp(true)] + rest);
    Prepended(w2, FileOp(true), [FileOp(true)] + rest);
    Prepended(w3, FileOp(true), rest);
    assert pass + rest == [Begin(1)] + ([FileOp(true), FileOp(true), FileOp(true)] + rest);
    assert [FileOp(true), FileOp(true), FileOp(true)] + rest == [FileOp(true)] + ([FileOp(true), FileOp(true)] + rest);
    assert [FileOp(true), FileOp(true)] + rest == [FileOp(true)] + ([FileOp(true)] + rest);
  }

  lemma OnePassSteps()
    ensures var f := READY.files;
      && Next(READY, Begin(1)) == World(f, CheckingLive(1))
      && Next(World(f, CheckingLive(1)), FileOp(true)) == World(f, CheckingBak(1))
      && Next(World(f, CheckingBak(1)), FileOp(true)) == World(f, Reading(1, []))
      && Next(World(f, Reading(1, [])), FileOp(true)) == World(f, Replacing(1, Assembled([DONE])))
  {
    assert Terminal("done") by { assert Lower("done") == "done"; }
    assert [] + [DONE] == [DONE];
  }

  lemma Prepended(w: World, e: Event, rest: seq<Event>)
    ensures After(w, [e] + rest) == After(Next(w, e), rest)
    ensures Run(w, [e] + rest) <==> Enabled(w, e) && Run(Next(w, e), rest)
  {
    assert ([e] + rest)[1..] == rest;
  }

  /** CREATE saves the flow's recipe while the sweep reads its actions: the sweep overwrites it. */
  lemma ASweepOverwritesACreate(made: string)
    ensures var before := [Begin(1), FileOp(true), FileOp(true), FileOp(true)] + [Create(Saved(made))];
      && Run(READY, before + [FileOp(true)])
      && After(READY, before).files.live == Some(Saved(made))
      && After(READY, before + [FileOp(true)]).files.live == Some(Assembled([DONE]))
  {
    var pass := [Begin(1), FileOp(true), FileOp(true), FileOp(true)];
    var made' := [Create(Saved(made))];
    var read := World(READY.files, Replacing(1, Assembled([DONE])));
    OnePass(READY, made');
    OnePass(READY, made' + [FileOp(true)]);
    Prepended(read, Create(Saved(made)), []);
    Prepended(read, Create(Saved(made)), [FileOp(true)]);
    Prepended(Next(read, Create(Saved(made))), FileOp(true), []);
    assert [Create(Saved(made))] + [] == made' && [FileOp(true)] + [] == [FileOp(true)];
    assert pass + made' + [FileOp(true)] == pass + (made' + [FileOp(true)]);
  }

  /** CREATE saves it and the optimizer retires it meanwhile: the sweep brings the flow back beside the
      pending backup. */
  lemma ASweepWritesBesideABackup(made: string)
    ensures var events := [Begin(1), FileOp(true), FileOp(true), FileOp(true)] + [Create(Saved(made)), Archive, FileOp(true)];
      && Run(READY, events)
      && After(READY, events).files == Flow(Some(Assembled([DONE])), Some(Saved(made)), map[1 := DONE])
  {
    var read := World(READY.files, Replacing(1, Assembled([DONE])));
    var rest := [Create(Saved(made)), Archive, FileOp(true)];
    OnePass(READY, rest);
    var r1 := Next(read, Create(Saved(made)));
    var r2 := Next(r1, Archive);
    Prepended(read, Create(Saved(made)), [Archive, FileOp(true)]);
    Prepended(r1, Archive, [FileOp(true)]);
    Prepended(r2, FileOp(true), []);
    assert rest == [Create(Saved(made))] + [Archive, FileOp(true)];
    assert [Archive, FileOp(true)] == [Archive] + [FileOp(true)] && [FileOp(true)] == [FileOp(true)] + [];
  }
}

/** The foreground gate: a counter of requests in flight, changed under one lock, and a marker file
    synced to it under another.

    Any number of threads run; each step below is one thing a thread does without letting go of its
    lock, and a counter edge may fall between a sync's look at the count and its write. */
module Foreground {
  import opened Options

  // ------------------------------------------------------------ the counter

  function Entered(count: nat): nat {
    count + 1
  }

  /** The counter never goes below zero. */
  function Exited(count: nat): nat {
    if count > 0 then count - 1 else 0
  }

  /** The edges a sync follows: the first request in, the last one out. */
  predicate FirstIn(count: nat) {
    count == 0
  }

  predicate LastOut(count: nat) {
    count == 1
  }

  /** The gate as one thread sees it, nothing in between. */
  class ForegroundGate {
    var count: nat
    var marker: bool

    constructor ()
      ensures count == 0 && !marker
    {
      count, marker := 0, false;
    }

    /** _sync_foreground_marker: the marker made to match the count as it is now. */
    method SyncForegroundMarker()
      modifies this`marker
      ensures marker == (count > 0)
    {
      if count > 0 {
        marker := true;
      } else {
        marker := false;
      }
    }

    method EnterForeground()
      modifies this
      ensures count == Entered(old(count))
      ensures marker == if FirstIn(old(count)) then true else old(marker)
      ensures old(marker == (count > 0)) ==> marker == (count > 0)
    {
      count := count + 1;
      var first := count == 1;
      if first {
        SyncForegroundMarker();
      }
    }

    method ExitForeground()
      modifies this
      ensures count == Exited(old(count))
      ensures marker == if LastOut(old(count)) then false else old(marker)
      ensures old(marker == (count > 0)) ==> marker == (count > 0)
    {
      var last := false;
      if count > 0 {
        count := count - 1;
        if count == 0 {
          last := true;
        }
      }
      if last {
        SyncForegroundMarker();
      }
    }
  }

  // ------------------------------------------------------------ threads

  type ThreadId = nat

  /** How far a thread's sync has come: none due, waiting for the marker lock, holding it, or holding
      it and having looked at the count. */
  datatype Sync = NoSync | Wanted | Holding | Looked(active: bool)

  datatype Thread = Thread(inFlight: bool, sync: Sync)

  datatype Gate = Gate(count: nat, marker: bool, threads: map<ThreadId, Thread>)

  function ThreadOf(g: Gate, t: ThreadId): Thread {
    if t in g.threads then g.threads[t] else Thread(false, NoSync)
  }

  datatype Step =
    | Enter(t: ThreadId)
    | Exit(t: ThreadId)
    | StrayExit(t: ThreadId)
    | Lock(t: ThreadId)
    | Look(t: ThreadId)
    | Write(t: ThreadId)

  predicate HoldsLock(g: Gate, t: ThreadId) {
    ThreadOf(g, t).sync.Holding? || ThreadOf(g, t).sync.Looked?
  }

  /** A thread enters when it serves nothing and owes no sync, and exits what it entered; a stray exit
      is one no enter answers to. */
  ghost predicate Enabled(g: Gate, step: Step) {
    var thread := ThreadOf(g, step.t);
    match step
    case Enter(_) => !thread.inFlight && thread.sync.NoSync?
    case Exit(_) => thread.inFlight && thread.sync.NoSync?
    case StrayExit(_) => thread.sync.NoSync?
    case Lock(_) => thread.sync.Wanted? && forall u :: u in g.threads ==> !HoldsLock(g, u)
    case Look(_) => thread.sync.Holding?
    case Write(_) => thread.sync.Looked?
  }

  function Next(g: Gate, step: Step): Gate {
    var t, thread := step.t, ThreadOf(g, step.t);
    match step
    case Enter(_) =>
      g.(count := Entered(g.count),
         threads := g.threads[t := Thread(true, if FirstIn(g.count) then Wanted else NoSync)])
    case Exit(_) =>
      g.(count := Exited(g.count),
         threads := g.threads[t := Thread(false, if LastOut(g.count) then Wanted else NoSync)])
    case StrayExit(_) =>
      g.(count := Exited(g.count),
         threads := g.threads[t := thread.(sync := if LastOut(g.count) then Wanted else NoSync)])
    case Lock(_) => g.(threads := g.threads[t := thread.(sync := Holding)])
    case Look(_) => g.(threads := g.threads[t := thread.(sync := Looked(g.count > 0))])
    case Write(_) =>
      g.(marker := if thread.sync.Looked? then thread.sync.active else g.marker,
         threads := g.threads[t := thread.(sync := NoSync)])
  }

  ghost predicate Run(g: Gate, steps: seq<Step>)
    decreases |steps|
  {
    steps == [] || (Enabled(g, steps[0]) && Run(Next(g, steps[0]), steps[1..]))
  }

  function After(g: Gate, steps: seq<Step>): Gate
    decreases |steps|
  {
    if steps == [] then g else After(Next(g, steps[0]), steps[1..])
  }

  const IDLE: Gate := Gate(0, false, map[])

  // ------------------------------------------------------------ the marker follows the count

  predicate Agrees(g: Gate) {
    g.marker == (g.count > 0)
  }

  /** A thread that will still look at the count. */
  ghost predicate WillLook(g: Gate) {
    exists t :: t in g.threads && (g.threads[t].sync.Wanted? || g.threads[t].sync.Holding?)
  }

  /** At most one thread holds the marker lock; and unless some thread is still to look at the count,
      a thread about to write holds what the count says, and with none the marker says it. */
  ghost predicate InStep(g: Gate) {
    && (forall t, u :: t in g.threads && u in g.threads && HoldsLock(g, t) && HoldsLock(g, u) ==> t == u)
    && (!WillLook(g) ==>
          && (forall t :: t in g.threads && g.threads[t].sync.Looked? ==> g.threads[t].sync.active == (g.count > 0))
          && ((forall t :: t in g.threads ==> g.threads[t].sync.NoSync?) ==> Agrees(g)))
  }

  lemma StaysInStep(g: Gate, step: Step)
    requires InStep(g) && Enabled(g, step)
    ensures InStep(Next(g, step))
  {
    var g', t := Next(g, step), step.t;
    match step
    case Enter(_) => EdgeKeepsInStep(g, g', t);
    case Exit(_) => EdgeKeepsInStep(g, g', t);
    case StrayExit(_) => EdgeKeepsInStep(g, g', t);
    case Lock(_) => LockKeepsInStep(g, t);
    case Look(_) => LookKeepsInStep(g, t);
    case Write(_) => WriteKeepsInStep(g, t);
  }

  lemma LockKeepsInStep(g: Gate, t: ThreadId)
    requires InStep(g) && Enabled(g, Lock(t))
    ensures InStep(Next(g, Lock(t)))
  {
    assert Next(g, Lock(t)).threads[t].sync.Holding?;
  }

  lemma LookKeepsInStep(g: Gate, t: ThreadId)
    requires InStep(g) && Enabled(g, Look(t))
    ensures InStep(Next(g, Look(t)))
  {
    assert HoldsLock(g, t);
    assert !Next(g, Look(t)).threads[t].sync.NoSync?;
  }

  lemma WriteKeepsInStep(g: Gate, t: ThreadId)
    requires InStep(g) && Enabled(g, Write(t))
    ensures InStep(Next(g, Write(t)))
  {
    var g' := Next(g, Write(t));
    StillLooks(g, g', t);
    if !WillLook(g') {
      assert g.threads[t].sync.active == (g.count > 0);
      assert Agrees(g');
    }
  }

  lemma StillLooks(g: Gate, g': Gate, t: ThreadId)
    requires ThreadOf(g, t).sync.NoSync? || ThreadOf(g, t).sync.Looked?
    requires g.threads.Keys <= g'.threads.Keys
    requires forall u :: u in g.threads && u != t ==> g'.threads[u] == g.threads[u]
    ensures WillLook(g) ==> WillLook(g')
  {
    if WillLook(g) {
      var u :| u in g.threads && (g.threads[u].sync.Wanted? || g.threads[u].sync.Holding?);
      assert g'.threads[u] == g.threads[u];
    }
  }

  /** A step of the counter either leaves 'count > 0' as it was or leaves its thread a sync to do. */
  lemma EdgeKeepsInStep(g: Gate, g': Gate, t: ThreadId)
    requires InStep(g) && ThreadOf(g, t).sync.NoSync?
    requires t in g'.threads && g'.marker == g.marker
    requires g'.threads.Keys == g.threads.Keys + {t}
    requires forall u :: u in g.threads && u != t ==> g'.threads[u] == g.threads[u]
    requires g'.threads[t].sync.Wanted? || (g'.threads[t].sync.NoSync? && (g'.count > 0) == (g.count > 0))
    ensures InStep(g')
  {
    OneHolder(g, g', t);
    if g'.threads[t].sync.NoSync? {
      StillLooks(g, g', t);
      if !WillLook(g') {
        SameSide(g, g', t);
      }
    }
  }

  /** The thread that changed holds no lock, so still at most one does. */
  lemma OneHolder(g: Gate, g': Gate, t: ThreadId)
    requires InStep(g) && t in g'.threads && !HoldsLock(g', t)
    requires g'.threads.Keys == g.threads.Keys + {t}
    requires forall u :: u in g.threads && u != t ==> g'.threads[u] == g.threads[u]
    ensures forall u, v :: u in g'.threads && v in g'.threads && HoldsLock(g', u) && HoldsLock(g', v) ==> u == v
  {
    forall u, v | u in g'.threads && v in g'.threads && HoldsLock(g', u) && HoldsLock(g', v) ensures u == v {
      assert HoldsLock(g, u) && HoldsLock(g, v);
    }
  }

  /** A step that leaves 'count > 0' as it was leaves right what was right about it. */
  lemma SameSide(g: Gate, g': Gate, t: ThreadId)
    requires InStep(g) && !WillLook(g) && ThreadOf(g, t).sync.NoSync?
    requires t in g'.threads && g'.threads[t].sync.NoSync?
    requires g'.marker == g.marker && (g'.count > 0) == (g.count > 0)
    requires g'.threads.Keys == g.threads.Keys + {t}
    requires forall u :: u in g.threads && u != t ==> g'.threads[u] == g.threads[u]
    ensures forall u :: u in g'.threads && g'.threads[u].sync.Looked? ==> g'.threads[u].sync.active == (g'.count > 0)
    ensures (forall u :: u in g'.threads ==> g'.threads[u].sync.NoSync?) ==> Agrees(g')
  {
    forall u | u in g'.threads && g'.threads[u].sync.Looked? ensures g'.threads[u].sync.active == (g'.count > 0) {
      assert u != t && g.threads[u] == g'.threads[u];
    }
    if forall u :: u in g'.threads ==> g'.threads[u].sync.NoSync? {
      forall u | u in g.threads ensures g.threads[u].sync.NoSync? {
        assert u != t ==> g'.threads[u] == g.threads[u];
      }
    }
  }

  lemma {:induction false} RunsStayInStep(g: Gate, steps: seq<Step>)
    requires InStep(g) && Run(g, steps)
    ensures InStep(After(g, steps))
    decreases |steps|
  {
    if steps != [] {
      StaysInStep(g, steps[0]);
      RunsStayInStep(Next(g, steps[0]), steps[1..]);
    }
  }

  /** In any run of any threads, stray exits too, a marker that disagrees with the count means a
      thread still owes a sync that will write; so when no sync is under way they agree. */
  lemma MarkerFollowsCount(steps: seq<Step>)
    requires Run(IDLE, steps)
    ensures var g := After(IDLE, steps);
      && (!Agrees(g) ==> exists t :: t in g.threads && !g.threads[t].sync.NoSync?)
      && (!WillLook(g) && !Agrees(g) ==>
            exists t :: t in g.threads && g.threads[t].sync == Looked(g.count > 0))
  {
    RunsStayInStep(IDLE, steps);
    var g := After(IDLE, steps);
    if !WillLook(g) && !Agrees(g) {
      var t :| t in g.threads && !g.threads[t].sync.NoSync?;
      assert g.threads[t].sync.Looked?;
    }
  }

  /** The last thread to sync settles it: with no other sync under way, its lock, look and write leave
      the marker saying what the count says. */
  lemma LastSyncSettles(g: Gate, t: ThreadId)
    requires InStep(g) && t in g.threads && g.threads[t].sync.Wanted?
    requires forall u :: u in g.threads && u != t ==> g.threads[u].sync.NoSync?
    ensures Run(g, [Lock(t), Look(t), Write(t)])
    ensures Agrees(After(g, [Lock(t), Look(t), Write(t)]))
  {
    var g1 := Next(g, Lock(t));
    var g2 := Next(g1, Look(t));
    var g3 := Next(g2, Write(t));
    assert [Lock(t), Look(t), Write(t)][1..] == [Look(t), Write(t)];
    assert [Look(t), Write(t)][1..] == [Write(t)] && [Write(t)][1..] == [];
    assert Run(g2, [Write(t)]) && Run(g1, [Look(t), Write(t)]);
    assert After(g3, []) == g3;
    assert After(g2, [Write(t)]) == g3;
    assert After(g1, [Look(t), Write(t)]) == After(g2, [Look(t), Write(t)][1..]);
  }

  // ------------------------------------------------------------ the count is the requests in flight

  function InFlight(g: Gate): set<ThreadId> {
    set t | t in g.threads && g.threads[t].inFlight
  }

  /** Setting one thread changes only whether that thread's request is in flight. */
  lemma InFlightWith(g: Gate, g': Gate, t: ThreadId, thread: Thread)
    requires g'.threads == g.threads[t := thread]
    ensures InFlight(g') == if thread.inFlight then InFlight(g) + {t} else InFlight(g) - {t}
  {
  }

  lemma BalancedStepCounts(g: Gate, step: Step)
    requires Enabled(g, step) && !step.StrayExit? && g.count == |InFlight(g)|
    ensures Next(g, step).count == |InFlight(Next(g, step))|
  {
    var g', t := Next(g, step), step.t;
    InFlightWith(g, g', t, g'.threads[t]);
    InFlightOf(g, t);
    match step
    case Enter(_) => assert |InFlight(g) + {t}| == |InFlight(g)| + 1;
    case Exit(_) => assert |InFlight(g) - {t}| == |InFlight(g)| - 1;
    case _ => SameInFlight(g, t);
  }

  lemma InFlightOf(g: Gate, t: ThreadId)
    ensures ThreadOf(g, t).inFlight <==> t in InFlight(g)
  {
  }

  /** Leaving a thread's request as it was leaves the requests in flight as they were. */
  lemma SameInFlight(g: Gate, t: ThreadId)
    ensures (if ThreadOf(g, t).inFlight then InFlight(g) + {t} else InFlight(g) - {t}) == InFlight(g)
  {
    InFlightOf(g, t);
  }

  lemma {:induction false} BalancedRunsCount(g: Gate, steps: seq<Step>)
    requires Run(g, steps) && g.count == |InFlight(g)|
    requires forall i :: 0 <= i < |steps| ==> !steps[i].StrayExit?
    ensures After(g, steps).count == |InFlight(After(g, steps))|
    decreases |steps|
  {
    if steps != [] {
      BalancedStepCounts(g, steps[0]);
      BalancedRunsCount(Next(g, steps[0]), steps[1..]);
    }
  }

  /** With every exit answering an enter, the count is the number of requests in flight; so when no
      sync is under way the marker is there exactly while some request is. */
  lemma MarkerMeansARequest(steps: seq<Step>)
    requires Run(IDLE, steps)
    requires forall i :: 0 <= i < |steps| ==> !steps[i].StrayExit?
    ensures var g := After(IDLE, steps);
      && g.count == |InFlight(g)|
      && ((forall t :: t in g.threads ==> g.threads[t].sync.NoSync?) ==> (g.marker <==> InFlight(g) != {}))
  {
    assert InFlight(IDLE) == {};
    BalancedRunsCount(IDLE, steps);
    MarkerFollowsCount(steps);
  }

  /** A stray exit that finds the count above zero. */
  predicate Bites(g: Gate, step: Step) {
    step.StrayExit? && g.count > 0
  }

  predicate NeverBites(g: Gate, steps: seq<Step>)
    decreases |steps|
  {
    steps == [] || (!Bites(g, steps[0]) && NeverBites(Next(g, steps[0]), steps[1..]))
  }

  /** At every point of the run the count is the number of requests in flight. */
  predicate CountsThroughout(g: Gate, steps: seq<Step>)
    decreases |steps|
  {
    g.count == |InFlight(g)| && (steps != [] ==> CountsThroughout(Next(g, steps[0]), steps[1..]))
  }

  lemma StrayStepCounts(g: Gate, step: Step)
    requires Enabled(g, step) && step.StrayExit? && g.count == |InFlight(g)|
    ensures Next(g, step).count == |InFlight(Next(g, step))| <==> !Bites(g, step)
  {
    var g', t := Next(g, step), step.t;
    InFlightWith(g, g', t, g'.threads[t]);
    assert ThreadOf(g, t).inFlight <==> t in InFlight(g);
    assert InFlight(g') == InFlight(g);
  }

  /** The count falls short of the requests in flight at some point of a run exactly when a stray exit came
      with the count above zero. */
  lemma {:induction false} OnlyABiteFallsShort(g: Gate, steps: seq<Step>)
    requires Run(g, steps) && g.count == |InFlight(g)|
    ensures CountsThroughout(g, steps) <==> NeverBites(g, steps)
    decreases |steps|
  {
    if steps != [] {
      var step, g' := steps[0], Next(g, steps[0]);
      if step.StrayExit? {
        StrayStepCounts(g, step);
      } else {
        BalancedStepCounts(g, step);
      }
      if g'.count == |InFlight(g')| {
        OnlyABiteFallsShort(g', steps[1..]);
      }
    }
  }

  /** One stray exit is enough to hide a live request: the count is back to zero, the marker is gone,
      no sync is due, and a request is in flight. */
  lemma AStrayExitHidesARequest()
    ensures var steps := [Enter(0), Lock(0), Look(0), Write(0), StrayExit(1), Lock(1), Look(1), Write(1)];
      var g := After(IDLE, steps);
      && Run(IDLE, steps) && Agrees(g) && !g.marker && InFlight(g) != {}
      && forall t :: t in g.threads ==> g.threads[t].sync.NoSync?
  {
    var g4 := Gate(1, true, map[0 := Thread(true, NoSync)]);
    var g8 := Gate(0, false, map[0 := Thread(true, NoSync), 1 := Thread(false, NoSync)]);
    var sync0, sync1 := [Lock(0), Look(0), Write(0)], [Lock(1), Look(1), Write(1)];
    var tail := [StrayExit(1)] + (sync1 + []);
    assert Next(IDLE, Enter(0)) == Gate(1, false, map[0 := Thread(true, Wanted)]);
    assert Next(g4, StrayExit(1)) == Gate(0, true, map[0 := Thread(true, NoSync), 1 := Thread(false, Wanted)]);
    SyncOf(Next(g4, StrayExit(1)), 1, g8, []);
    Prepended(g4, StrayExit(1), sync1 + []);
    SyncOf(Next(IDLE, Enter(0)), 0, g4, tail);
    Prepended(IDLE, Enter(0), sync0 + tail);
    assert [Enter(0), Lock(0), Look(0), Write(0), StrayExit(1), Lock(1), Look(1), Write(1)] == [Enter(0)] + (sync0 + tail);
    assert 0 in InFlight(g8);
  }

  /** An undisturbed sync, then the rest of a run. */
  lemma SyncOf(g: Gate, t: ThreadId, synced: Gate, rest: seq<Step>)
    requires t in g.threads && g.threads[t].sync.Wanted?
    requires forall u :: u in g.threads && u != t ==> g.threads[u].sync.NoSync?
    requires synced == g.(marker := g.count > 0, threads := g.threads[t := g.threads[t].(sync := NoSync)])
    ensures var steps := [Lock(t), Look(t), Write(t)] + rest;
      After(g, steps) == After(synced, rest) && (Run(synced, rest) ==> Run(g, steps))
  {
    var g1 := Next(g, Lock(t));
    var g2 := Next(g1, Look(t));
    assert Next(g2, Write(t)) == synced;
    Prepended(g2, Write(t), rest);
    Prepended(g1, Look(t), [Write(t)] + rest);
    Prepended(g, Lock(t), [Look(t)] + ([Write(t)] + rest));
    assert [Lock(t), Look(t), Write(t)] + rest == [Lock(t)] + ([Look(t)] + ([Write(t)] + rest));
  }

  lemma Prepended(g: Gate, step: Step, rest: seq<Step>)
    ensures After(g, [step] + rest) == After(Next(g, step), rest)
    ensures Run(g, [step] + rest) <==> Enabled(g, step) && Run(Next(g, step), rest)
  {
    assert ([step] + rest)[1..] == rest;
  }

  // ------------------------------------------------------------ reading another process's marker

  /** A marker file of the directory: the writer's pid, if the name ends in one, and its time, if it
      could be read. */
  datatype MarkerFile = MarkerFile(pid: Option<nat>, mtime: Option<real>)

  /** A marker from the future reads as just written. */
  function Age(f: MarkerFile, now: real): real
    requires f.mtime.Some?
  {
    if now - f.mtime.value > 0.0 then now - f.mtime.value else 0.0
  }

  /** The marker of another process, young enough, whose writer, if asked for, still runs. */
  predicate Counts(f: MarkerFile, me: nat, now: real, maxAge: real, requireLive: bool, alive: nat -> bool) {
    && f.pid.Some? && f.pid.value != me
    && f.mtime.Some? && Age(f, now) < maxAge
    && (requireLive ==> alive(f.pid.value))
  }

  /** Whose marker counts: another process's, written less than 'maxAge' ago or in the future, by a writer that
      still runs where that is asked for. */
  lemma WhoseMarkerCounts(f: MarkerFile, me: nat, now: real, maxAge: real, requireLive: bool, alive: nat -> bool)
    ensures f.pid == Some(me) || f.pid.None? || f.mtime.None? ==> !Counts(f, me, now, maxAge, requireLive, alive)
    ensures f.pid.Some? && f.pid.value != me && f.mtime.Some? ==>
      (Counts(f, me, now, maxAge, requireLive, alive) <==>
       (if f.mtime.value >= now then 0.0 < maxAge else now < f.mtime.value + maxAge) && (!requireLive || alive(f.pid.value)))
    ensures f.mtime.Some? ==> Age(f, now) >= 0.0 && (f.mtime.value <= now ==> f.mtime.value + Age(f, now) == now)
                              && (f.mtime.value >= now ==> Age(f, now) == 0.0)
  {
  }

  /** marker_age_s: the age of the youngest marker that counts, if any does. */
  method MarkerAgeS(files: seq<MarkerFile>, me: nat, now: real, maxAge: real, requireLive: bool, alive: nat -> bool)
    returns (best: Option<real>)
    ensures best.Some? <==> exists f :: f in files && Counts(f, me, now, maxAge, requireLive, alive)
    ensures best.Some? ==>
      && (exists f :: f in files && Counts(f, me, now, maxAge, requireLive, alive) && Age(f, now) == best.value)
      && (forall f :: f in files && Counts(f, me, now, maxAge, requireLive, alive) ==> best.value <= Age(f, now))
  {
    best := None;
    for i := 0 to |files|
      invariant best.None? ==> forall f :: f in files[..i] ==> !Counts(f, me, now, maxAge, requireLive, alive)
      invariant best.Some? ==>
        && (exists f :: f in files[..i] && Counts(f, me, now, maxAge, requireLive, alive) && Age(f, now) == best.value)
        && (forall f :: f in files[..i] && Counts(f, me, now, maxAge, requireLive, alive) ==> best.value <= Age(f, now))
    {
      var file := files[i];
      assert files[..i + 1] == files[..i] + [file];
      if file.pid.None? || file.pid.value == me || file.mtime.None? {
        continue;
      }
      var age := Age(file, now);
      if age >= maxAge {
        continue;
      }
      if best.Some? && age >= best.value {
        continue;
      }
      if requireLive && !alive(file.pid.value) {
        continue;
      }
      best := Some(age);
    }
    assert files[..|files|] == files;
  }
}

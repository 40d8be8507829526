/** Retiring a flow recipe so it is made again, and keeping or restoring the retired one.

    One flow's files: the live recipe, the retired one ('.optbak') and its reward sidecar.  Each file
    operation is one step; the process can stop, or an operation fail, between any two, and a
    re-CREATE can write the live recipe at any point. */
module RecipeOptimizer {
  import opened Options

  type Recipe = string

  datatype Flow = Flow(live: Option<Recipe>, bak: Option<Recipe>, meta: Option<real>)

  // ------------------------------------------------------------ the operations, undisturbed

  function Archived(f: Flow, reward: real): Flow {
    if f.live.None? || f.bak.Some? then f else Flow(None, f.live, Some(reward))
  }

  function Accepted(f: Flow): Flow {
    Flow(f.live, None, None)
  }

  function RolledBack(f: Flow): Flow {
    if f.bak.None? then f else Flow(f.bak, None, None)
  }

  /** One flow's files, updated in place. */
  class FlowFiles {
    var files: Flow

    constructor (live: Option<Recipe>)
      ensures files == Flow(live, None, None)
    {
      files := Flow(live, None, None);
    }

    method HasPendingOptimization() returns (pending: bool)
      ensures pending <==> files.bak.Some?
    {
      pending := files.bak != None;
    }

    /** archive_recipe_for_reoptimization: the sidecar first, then the atomic rename. */
    method ArchiveRecipe(reward: real) returns (acted: bool)
      modifies this
      ensures files == Archived(old(files), reward)
      ensures acted <==> old(files.live.Some? && files.bak.None?)
    {
      if files.live.None? {
        return false;
      }
      if files.bak.Some? {
        return false;
      }
      files := files.(meta := Some(reward));
      files := files.(live := None, bak := files.live);
      acted := true;
    }

    /** accept_reoptimization. */
    method AcceptReoptimization() returns (acted: bool)
      modifies this
      ensures files == Accepted(old(files))
      ensures acted <==> old(files.bak.Some? || files.meta.Some?)
    {
      acted := false;
      if files.bak.Some? {
        files := files.(bak := None);
        acted := true;
      }
      if files.meta.Some? {
        files := files.(meta := None);
        acted := true;
      }
    }

    /** rollback_recipe. */
    method RollbackRecipe() returns (acted: bool)
      modifies this
      ensures files == RolledBack(old(files))
      ensures acted <==> old(files.bak.Some?)
    {
      if files.bak.None? {
        return false;
      }
      files := files.(live := files.bak, bak := None);
      if files.meta.Some? {
        files := files.(meta := None);
      }
      acted := true;
    }
  }

  /** Archive, any re-CREATE, then rollback: the original is live again and nothing else is left. */
  lemma RollbackUndoesArchive(f: Flow, reward: real, recreated: Option<Recipe>)
    requires f.live.Some? && f.bak.None?
    ensures RolledBack(Archived(f, reward).(live := recreated)) == Flow(f.live, None, None)
    ensures Accepted(Archived(f, reward).(live := recreated)) == Flow(recreated, None, None)
    ensures Archived(Archived(f, reward).(live := recreated), reward) == Archived(f, reward).(live := recreated)
  {
  }

  // ------------------------------------------------------------ the protocol

  /** The file operation the daemon is at. */
  datatype At =
    | Idle
    | WritingMeta(reward: real)
    | MovingLive(reward: real)
    | CleaningMeta
    | RemovingBak
    | RemovingMeta
    | RestoringBak
    | DroppingMeta

  datatype Retired = Retired(recipe: Recipe, reward: real)

  /** 'retired' is the model's own note: what an archive moved aside, and its reward, until an accept
      or a rollback decides on it. */
  datatype Daemon = Daemon(files: Flow, at: At, retired: Option<Retired>)

  /** What happens next: the daemon starts an operation or does its next file operation (which
      succeeds or not), the process stops, or a re-CREATE writes the live recipe. */
  datatype Event =
    | Archive(reward: real)
    | Accept
    | Rollback
    | FileOp(works: bool)
    | Stop
    | Create(recipe: Recipe)

  predicate Enabled(d: Daemon, e: Event) {
    match e
    case Archive(_) => d.at.Idle?
    case Accept => d.at.Idle?
    case Rollback => d.at.Idle?
    case FileOp(_) => !d.at.Idle?
    case Stop => true
    case Create(_) => true
  }

  function Next(d: Daemon, e: Event): Daemon {
    var f := d.files;
    match e
    case Archive(reward) => if f.live.None? || f.bak.Some? then d else d.(at := WritingMeta(reward))
    case Accept => d.(at := RemovingBak)
    case Rollback => if f.bak.None? then d else d.(at := RestoringBak)
    case Stop => d.(at := Idle)
    case Create(recipe) => d.(files := f.(live := Some(recipe)))
    case FileOp(works) => Done(d, works)
  }

  function Done(d: Daemon, works: bool): Daemon {
    var f := d.files;
    match d.at
    case Idle => d
    case WritingMeta(reward) =>
      if works then d.(files := f.(meta := Some(reward)), at := MovingLive(reward)) else d.(at := CleaningMeta)
    case MovingLive(reward) =>
      if works && f.live.Some?
      then Daemon(Flow(None, f.live, f.meta), Idle, Some(Retired(f.live.value, reward)))
      else d.(at := CleaningMeta)
    case CleaningMeta => d.(files := if works && f.bak.None? then f.(meta := None) else f, at := Idle)
    case RemovingBak => if works then Daemon(f.(bak := None), RemovingMeta, None) else d.(at := RemovingMeta)
    case RemovingMeta => d.(files := if works then f.(meta := None) else f, at := Idle)
    case RestoringBak =>
      if works && f.bak.Some? then Daemon(f.(live := f.bak, bak := None), DroppingMeta, None) else d.(at := Idle)
    case DroppingMeta => d.(files := if works then f.(meta := None) else f, at := Idle)
  }

  predicate Run(d: Daemon, events: seq<Event>)
    decreases |events|
  {
    events == [] || (Enabled(d, events[0]) && Run(Next(d, events[0]), events[1..]))
  }

  function After(d: Daemon, events: seq<Event>, n: nat): Daemon
    requires n <= |events|
    decreases n
  {
    if n == 0 then d else After(Next(d, events[0]), events[1..], n - 1)
  }

  /** The retired recipe is at '.optbak', whole; an archive never runs over a backup. */
  predicate Safe(d: Daemon) {
    && (match d.retired case None => d.files.bak.None? case Some(r) => d.files.bak == Some(r.recipe))
    && (d.at.WritingMeta? || d.at.MovingLive? || d.at.CleaningMeta? || d.at.DroppingMeta? ==> d.files.bak.None?)
  }

  /** A backup has the sidecar with the reward it was retired at. */
  predicate HasSidecar(d: Daemon) {
    d.retired.Some? ==> d.files.meta == Some(d.retired.value.reward)
  }

  predicate SidecarKept(d: Daemon) {
    && HasSidecar(d)
    && (d.at.MovingLive? ==> d.files.meta == Some(d.at.reward))
    && (d.at.RemovingMeta? ==> d.files.bak.None?)
  }

  /** This file operation decides on the retired recipe: an accept removes it, a rollback restores it. */
  predicate Decides(d: Daemon, e: Event) {
    e == FileOp(true) && (d.at.RemovingBak? || d.at.RestoringBak?)
  }

  /** An accept could not remove the backup; it goes on to remove the sidecar all the same. */
  predicate BakRemovalFails(d: Daemon, e: Event) {
    e == FileOp(false) && d.at.RemovingBak? && d.files.bak.Some?
  }

  lemma StepIsSafe(d: Daemon, e: Event)
    requires Safe(d) && Enabled(d, e)
    ensures Safe(Next(d, e))
    ensures d.retired.Some? && !Decides(d, e) ==> Next(d, e).retired == d.retired
    ensures d.retired.Some? && e == FileOp(true) && d.at.RestoringBak? ==>
      Next(d, e).files.live == Some(d.retired.value.recipe) && Next(d, e).files.bak.None?
    ensures SidecarKept(d) && !BakRemovalFails(d, e) ==> SidecarKept(Next(d, e))
  {
  }

  lemma {:induction false} RunsAreSafe(d: Daemon, events: seq<Event>, n: nat)
    requires Safe(d) && Run(d, events) && n <= |events|
    ensures Safe(After(d, events, n))
    ensures n < |events| ==> Enabled(After(d, events, n), events[n])
    decreases n
  {
    if n > 0 {
      StepIsSafe(d, events[0]);
      RunsAreSafe(Next(d, events[0]), events[1..], n - 1);
    }
  }

  /** Once retired, a recipe's content is at '.optbak' at every point of every run, stops, failures and
      re-CREATEs included, until a file operation of an accept or rollback decides on it; the first such
      operation of a rollback makes exactly that recipe live. */
  lemma {:induction false} RetiredIsNeverLost(d: Daemon, events: seq<Event>, n: nat)
    requires Safe(d) && d.retired.Some? && Run(d, events) && n <= |events|
    requires forall i :: 0 <= i < n ==> !Decides(After(d, events, i), events[i])
    ensures After(d, events, n).retired == d.retired
    ensures After(d, events, n).files.bak == Some(d.retired.value.recipe)
    ensures n < |events| && Decides(After(d, events, n), events[n]) && After(d, events, n).at.RestoringBak? ==>
      Next(After(d, events, n), events[n]).files.live == Some(d.retired.value.recipe)
    decreases n
  {
    if n > 0 {
      var d' := Next(d, events[0]);
      assert After(d, events, 0) == d;
      StepIsSafe(d, events[0]);
      forall i | 0 <= i < n - 1 ensures !Decides(After(d', events[1..], i), events[1..][i]) {
        assert After(d', events[1..], i) == After(d, events, i + 1);
      }
      RetiredIsNeverLost(d', events[1..], n - 1);
    } else if n < |events| {
      StepIsSafe(d, events[0]);
    }
  }

  /** A backup is never without its sidecar, in any run where no accept fails to remove the backup. */
  lemma {:induction false} BackupHasItsSidecar(d: Daemon, events: seq<Event>, n: nat)
    requires Safe(d) && SidecarKept(d) && Run(d, events) && n <= |events|
    requires forall i :: 0 <= i < n ==> !BakRemovalFails(After(d, events, i), events[i])
    ensures SidecarKept(After(d, events, n)) && Safe(After(d, events, n))
    ensures After(d, events, n).files.bak.Some? ==> After(d, events, n).files.meta.Some?
    decreases n
  {
    if n > 0 {
      var d' := Next(d, events[0]);
      assert After(d, events, 0) == d;
      StepIsSafe(d, events[0]);
      forall i | 0 <= i < n - 1 ensures !BakRemovalFails(After(d', events[1..], i), events[1..][i]) {
        assert After(d', events[1..], i) == After(d, events, i + 1);
      }
      BackupHasItsSidecar(d', events[1..], n - 1);
    }
  }

  /** An accept leaves a backup without its sidecar exactly when it could not remove the backup and did
      remove the sidecar. */
  lemma AcceptStrandsABackup(d: Daemon, bakWorks: bool, metaWorks: bool)
    requires Safe(d) && SidecarKept(d) && d.at.Idle? && d.retired.Some?
    ensures var events := [Accept, FileOp(bakWorks), FileOp(metaWorks)];
      && Run(d, events)
      && var f := After(d, events, 3).files;
         f.bak.Some? && f.meta.None? <==> !bakWorks && metaWorks
  {
    var events := [Accept, FileOp(bakWorks), FileOp(metaWorks)];
    var d1 := Next(d, Accept);
    var d2 := Next(d1, FileOp(bakWorks));
    assert events[1..] == [FileOp(bakWorks), FileOp(metaWorks)] && events[1..][1..] == [FileOp(metaWorks)];
    assert events[1..][1..][1..] == [];
    assert Run(d2, [FileOp(metaWorks)]);
    assert After(d2, [FileOp(metaWorks)], 1) == Next(d2, FileOp(metaWorks));
  }

  /** With nothing in between, the steps of each operation come to what the operation does at once. */
  lemma UndisturbedOperations(d: Daemon, reward: real)
    requires Safe(d) && d.at.Idle?
    ensures d.files.live.Some? && d.files.bak.None? ==>
      Next(Next(Next(d, Archive(reward)), FileOp(true)), FileOp(true)).files == Archived(d.files, reward)
    ensures Next(Next(Next(d, Accept), FileOp(true)), FileOp(true)).files == Accepted(d.files)
    ensures d.files.bak.Some? ==>
      Next(Next(Next(d, Rollback), FileOp(true)), FileOp(true)).files == RolledBack(d.files)
  {
  }

  /** An archive whose rename fails leaves the files as they were: the recipe live, and no sidecar behind. */
  lemma AFailedArchiveLeavesNothing(d: Daemon, reward: real)
    requires Safe(d) && d.at.Idle? && d.files.live.Some? && d.files.bak.None? && d.files.meta.None?
    ensures Next(Next(Next(Next(d, Archive(reward)), FileOp(true)), FileOp(false)), FileOp(true)) == d
    ensures Next(Next(Next(d, Archive(reward)), FileOp(false)), FileOp(true)) == d
  {
  }
}

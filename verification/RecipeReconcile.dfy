/** Writing the flow recipes that were never saved, from the action recipes on disk. */
module RecipeReconcile {
  import opened Options

  /** A flow of a prompt: the prompt's id and the flow's index. */
  type FlowKey = (string, nat)

  /** An action recipe file as read. */
  datatype ActionFile = Unreadable | Action(status: string, body: string)

  datatype RecipeFile = Assembled(actions: seq<ActionFile>) | Saved(content: string)

  /** The prompts directory: each readable prompt config, as the planned action count of each of its
      flows (0 when unknowable); the action recipes; the live flow recipes; the retired ones. */
  datatype Dir = Dir(configs: map<string, seq<nat>>, actions: Actions,
                     recipes: map<FlowKey, RecipeFile>, retired: set<FlowKey>)

  function Lower(s: string): string {
    seq(|s|, i requires 0 <= i < |s| => if 'A' <= s[i] <= 'Z' then (s[i] as int + 32) as char else s[i])
  }

  predicate Terminal(status: string) {
    Lower(status) == "done" || Lower(status) == "completed"
  }

  predicate Numeric(pid: string) {
    pid != "" && forall i :: 0 <= i < |pid| ==> '0' <= pid[i] <= '9'
  }

  /** _planned_action_count: 0 when the config does not say. */
  function PlannedActionCount(config: seq<nat>, flow: nat): nat {
    if flow >= |config| then 0 else config[flow]
  }

  type Actions = map<(string, nat, nat), ActionFile>

  /** This action recipe is there, readable and finished. */
  predicate Complete(actions: Actions, key: FlowKey, i: nat) {
    var at := (key.0, key.1, i);
    at in actions && actions[at].Action? && Terminal(actions[at].status)
  }

  /** Action recipes 1..n are all complete. */
  predicate CompleteTo(actions: Actions, key: FlowKey, n: nat) {
    forall i: nat :: 1 <= i <= n ==> Complete(actions, key, i)
  }

  function Planned(configs: map<string, seq<nat>>, key: FlowKey): nat {
    if key.0 in configs then PlannedActionCount(configs[key.0], key.1) else 0
  }

  /** The flow has a known number of actions and each of them is complete. */
  predicate Ready(configs: map<string, seq<nat>>, actions: Actions, key: FlowKey) {
    Planned(configs, key) > 0 && CompleteTo(actions, key, Planned(configs, key))
  }

  /** The flow is ready, and its recipe is neither live nor retired. */
  predicate Due(dir: Dir, key: FlowKey) {
    key !in dir.recipes && key !in dir.retired && Ready(dir.configs, dir.actions, key)
  }

  /** Action recipes 1..n, in order. */
  function ActionsTo(actions: Actions, key: FlowKey, n: nat): seq<ActionFile>
    requires CompleteTo(actions, key, n)
  {
    seq(n, i requires 0 <= i < n => assert Complete(actions, key, i + 1); actions[(key.0, key.1, i + 1)])
  }

  function FlowRecipe(configs: map<string, seq<nat>>, actions: Actions, key: FlowKey): RecipeFile
    requires Ready(configs, actions, key)
  {
    Assembled(ActionsTo(actions, key, Planned(configs, key)))
  }

  /** The directory with every due flow of 'work' written, and nothing else changed. */
  function Reconciled(dir: Dir, work: set<FlowKey>): Dir {
    dir.(recipes := dir.recipes + Assembling(dir, work))
  }

  /** The recipes of the flows of 'work' that are due. */
  function Assembling(dir: Dir, work: set<FlowKey>): map<FlowKey, RecipeFile> {
    map key | key in work && Due(dir, key) :: FlowRecipe(dir.configs, dir.actions, key)
  }

  /** The flows a targeted run looks at: every flow the prompt's config names. */
  function Targeted(dir: Dir, pid: string): set<FlowKey> {
    if pid in dir.configs then set f | 0 <= f < |dir.configs[pid]| :: (pid, f) else {}
  }

  /** The flows a sweep looks at: each that has an action recipe of a numeric prompt. */
  function Swept(dir: Dir): set<FlowKey> {
    set at | at in dir.actions && Numeric(at.0) :: (at.0, at.1)
  }

  class PromptsDir {
    var dir: Dir

    constructor (dir: Dir)
      ensures this.dir == dir
    {
      this.dir := dir;
    }

    /** _collect_complete_actions: the recipes in order, or None at the first that is not complete. */
    method CollectCompleteActions(key: FlowKey, planned: nat) returns (actions: Option<seq<ActionFile>>)
      ensures actions.Some? <==> CompleteTo(dir.actions, key, planned)
      ensures actions.Some? ==> actions.value == ActionsTo(dir.actions, key, planned)
    {
      var found: seq<ActionFile> := [];
      for i := 1 to planned + 1
        invariant CompleteTo(dir.actions, key, i - 1)
        invariant found == ActionsTo(dir.actions, key, i - 1)
      {
        var at := (key.0, key.1, i);
        if at !in dir.actions || dir.actions[at].Unreadable? || !Terminal(dir.actions[at].status) {
          assert !Complete(dir.actions, key, i);
          return None;
        }
        assert Complete(dir.actions, key, i);
        found := found + [dir.actions[at]];
      }
      return Some(found);
    }

    /** _flows_needing_reconcile: one prompt's flows, or every flow with an action recipe of a numeric
        prompt among the listed files. */
    method FlowsNeedingReconcile(pid: Option<string>, listing: seq<(string, nat, nat)>) returns (work: set<FlowKey>)
      requires forall at :: at in listing <==> at in dir.actions
      ensures work == if pid.Some? then Targeted(dir, pid.value) else Swept(dir)
    {
      if pid.Some? {
        return if pid.value in dir.configs then set f | 0 <= f < |dir.configs[pid.value]| :: (pid.value, f) else {};
      }
      work := {};
      for i := 0 to |listing|
        invariant work == set at | at in listing[..i] && Numeric(at.0) :: (at.0, at.1)
      {
        assert listing[..i + 1] == listing[..i] + [listing[i]];
        if Numeric(listing[i].0) {
          work := work + {(listing[i].0, listing[i].1)};
        }
      }
      assert listing[..|listing|] == listing;
    }

    /** reconcile_orphaned_flow_recipes. */
    method ReconcileOrphanedFlowRecipes(pid: Option<string>, listing: seq<(string, nat, nat)>)
      returns (reconciled: seq<FlowKey>)
      requires forall at :: at in listing <==> at in dir.actions
      modifies this
      ensures var work := old(if pid.Some? then Targeted(dir, pid.value) else Swept(dir));
        && dir == Reconciled(old(dir), work)
        && (forall key :: key in reconciled <==> key in work && Due(old(dir), key))
      ensures forall i, j :: 0 <= i < j < |reconciled| ==> reconciled[i] != reconciled[j]
    {
      var work := FlowsNeedingReconcile(pid, listing);
      reconciled := ReconcileFlows(work);
    }

    /** The loop over the flows to examine. */
    method ReconcileFlows(work: set<FlowKey>) returns (reconciled: seq<FlowKey>)
      modifies this
      ensures dir == Reconciled(old(dir), work)
      ensures forall key :: key in reconciled <==> key in work && Due(old(dir), key)
      ensures forall i, j :: 0 <= i < j < |reconciled| ==> reconciled[i] != reconciled[j]
    {
      reconciled := [];
      ghost var before := dir;
      var rest, seen := work, {};
      while rest != {}
        invariant seen + rest == work && seen !! rest
        invariant dir == Reconciled(before, seen)
        invariant forall key :: key in reconciled <==> key in seen && Due(before, key)
        invariant forall i, j :: 0 <= i < j < |reconciled| ==> reconciled[i] != reconciled[j]
        decreases rest
      {
        var key :| key in rest;
        OneMore(before, seen, key);
        rest, seen := rest - {key}, seen + {key};
        var written := ReconcileFlow(key);
        if written {
          reconciled := reconciled + [key];
        }
      }
    }

    /** One flow of the loop: written when it is due. */
    method ReconcileFlow(key: FlowKey) returns (written: bool)
      modifies this
      ensures written <==> Due(old(dir), key)
      ensures dir == if written
                     then old(dir).(recipes := old(dir).recipes[key := FlowRecipe(old(dir).configs, old(dir).actions, key)])
                     else old(dir)
    {
      written := false;
      if key.0 !in dir.configs || key in dir.recipes || key in dir.retired {
        return;
      }
      var planned := PlannedActionCount(dir.configs[key.0], key.1);
      if planned <= 0 {
        return;
      }
      var actions := CollectCompleteActions(key, planned);
      if actions.Some? {
        dir := dir.(recipes := dir.recipes[key := Assembled(actions.value)]);
        written := true;
      }
    }
  }

  /** Reconciling leaves due only what it did not look at. */
  lemma DueAfter(dir: Dir, work: set<FlowKey>, key: FlowKey)
    ensures Due(Reconciled(dir, work), key) <==> Due(dir, key) && key !in work
  {
  }

  /** Reconciling one more flow, not looked at yet, is writing it if it is due. */
  lemma OneMore(dir: Dir, seen: set<FlowKey>, key: FlowKey)
    requires key !in seen
    ensures Due(Reconciled(dir, seen), key) <==> Due(dir, key)
    ensures Reconciled(dir, seen + {key}) ==
            if Due(dir, key)
            then Reconciled(dir, seen).(recipes := Reconciled(dir, seen).recipes[key := FlowRecipe(dir.configs, dir.actions, key)])
            else Reconciled(dir, seen)
  {
    DueAfter(dir, seen, key);
    OneMoreAssembled(dir, seen, key);
  }

  lemma OneMoreAssembled(dir: Dir, seen: set<FlowKey>, key: FlowKey)
    ensures Assembling(dir, seen + {key}) ==
            if Due(dir, key) then Assembling(dir, seen)[key := FlowRecipe(dir.configs, dir.actions, key)]
            else Assembling(dir, seen)
  {
  }

  /** A recipe already there is never overwritten, one in the middle of optimization never brought
      back, and what is written holds the planned actions 1..N, all finished, in order. */
  lemma ReconcileWritesOnlyWhatIsDue(dir: Dir, work: set<FlowKey>, key: FlowKey)
    ensures var after := Reconciled(dir, work);
      && after.configs == dir.configs && after.actions == dir.actions && after.retired == dir.retired
      && (key in dir.recipes ==> key in after.recipes && after.recipes[key] == dir.recipes[key])
      && (key in dir.retired && key !in dir.recipes ==> key !in after.recipes)
      && (key in after.recipes && key !in dir.recipes <==> key in work && Due(dir, key))
      && (key in work && Due(dir, key) ==>
            after.recipes[key] == FlowRecipe(dir.configs, dir.actions, key))
  {
  }

  /** A written recipe holds exactly the planned actions, each finished, at its own place. */
  lemma FlowRecipeIsWhole(configs: map<string, seq<nat>>, actions: Actions, key: FlowKey, i: nat)
    requires Ready(configs, actions, key) && i < Planned(configs, key)
    ensures var recipe := FlowRecipe(configs, actions, key);
      && key.0 in configs && key.1 < |configs[key.0]| && |recipe.actions| == configs[key.0][key.1]
      && (key.0, key.1, i + 1) in actions && recipe.actions[i] == actions[(key.0, key.1, i + 1)]
      && recipe.actions[i].Action? && Terminal(recipe.actions[i].status)
  {
    assert Complete(actions, key, i + 1);
  }

  /** Doing it in two parts, in either order, comes to doing it at once. */
  lemma ReconcileInParts(dir: Dir, first: set<FlowKey>, second: set<FlowKey>)
    ensures Reconciled(Reconciled(dir, first), second) == Reconciled(dir, first + second)
  {
    var once := Reconciled(dir, first);
    var both, twice := Reconciled(dir, first + second), Reconciled(once, second);
    assert twice.recipes.Keys == both.recipes.Keys;
    assert twice.recipes == both.recipes;
  }

  /** A second run writes nothing. */
  lemma ReconcileIsIdempotent(dir: Dir, work: set<FlowKey>)
    ensures Reconciled(Reconciled(dir, work), work) == Reconciled(dir, work)
  {
    ReconcileInParts(dir, work, work);
    assert work + work == work;
  }

  /** Every due flow of a numeric prompt is looked at by the sweep and by that prompt's own run. */
  lemma DueIsLookedAt(dir: Dir, key: FlowKey)
    requires Due(dir, key)
    ensures key in Targeted(dir, key.0)
    ensures key in Swept(dir) <==> Numeric(key.0)
  {
    assert Complete(dir.actions, key, 1);
    assert (key.0, key.1, 1) in dir.actions;
  }

  /** The same letters, upper or lower case. */
  predicate SameLetters(a: string, b: string) {
    |a| == |b| && forall i :: 0 <= i < |a| ==> a[i] == b[i] || ('A' <= a[i] <= 'Z' && a[i] as int + 32 == b[i] as int)
  }

  /** An action is finished when its status reads done or completed, in any case. */
  lemma TerminalByItsLetters(status: string)
    ensures Terminal(status) <==> SameLetters(status, "done") || SameLetters(status, "completed")
  {
    LowerByItsLetters(status, "done");
    LowerByItsLetters(status, "completed");
  }

  lemma LowerByItsLetters(s: string, word: string)
    requires forall i :: 0 <= i < |word| ==> 'a' <= word[i] <= 'z'
    ensures Lower(s) == word <==> SameLetters(s, word)
  {
    if Lower(s) == word {
      forall i | 0 <= i < |s| ensures s[i] == word[i] || ('A' <= s[i] <= 'Z' && s[i] as int + 32 == word[i] as int) {
        assert Lower(s)[i] == word[i];
      }
    }
    if SameLetters(s, word) {
      forall i | 0 <= i < |s| ensures Lower(s)[i] == word[i] {
      }
    }
  }

  /** The sweep looks at a flow exactly when an action recipe of it is there and its prompt's id is written in
      digits. */
  lemma SweptByItsDigits(dir: Dir, pid: string, flow: nat)
    ensures (pid, flow) in Swept(dir) <==>
      pid != "" && (forall c :: c in pid ==> c in "0123456789") && exists i :: (pid, flow, i) in dir.actions
  {
    DigitsAreNumeric(pid);
    if (pid, flow) in Swept(dir) {
      var at :| at in dir.actions && Numeric(at.0) && (at.0, at.1) == (pid, flow);
      assert (pid, flow, at.2) in dir.actions;
    }
    if i :| (pid, flow, i) in dir.actions {
      var at := (pid, flow, i);
      assert at in dir.actions;
    }
  }

  lemma DigitsAreNumeric(pid: string)
    ensures Numeric(pid) <==> pid != "" && forall c :: c in pid ==> c in "0123456789"
  {
    forall i | 0 <= i < |pid| ensures pid[i] in "0123456789" <==> '0' <= pid[i] <= '9' {
      OneDigit(pid[i]);
    }
    if Numeric(pid) {
      forall c | c in pid ensures c in "0123456789" {
        var i :| 0 <= i < |pid| && pid[i] == c;
      }
    } else if pid != "" {
      var i :| 0 <= i < |pid| && !('0' <= pid[i] <= '9');
      assert pid[i] in pid;
    }
  }

  lemma OneDigit(c: char)
    ensures c in "0123456789" <==> '0' <= c <= '9'
  {
    if '0' <= c <= '9' {
      assert "0123456789"[c as int - 48] == c;
    }
  }

  /** What a run writes depends only on which due flows it looks at. */
  lemma SameDueSameResult(dir: Dir, a: set<FlowKey>, b: set<FlowKey>)
    requires forall key :: Due(dir, key) ==> (key in a <==> key in b)
    ensures Reconciled(dir, a) == Reconciled(dir, b)
  {
    var x, y := Reconciled(dir, a), Reconciled(dir, b);
    assert x.recipes.Keys == y.recipes.Keys;
    assert x.recipes == y.recipes;
  }

  function AllTargeted(dir: Dir, pids: set<string>): set<FlowKey> {
    set pid, key | pid in pids && key in Targeted(dir, pid) :: key
  }

  /** The sweep writes exactly what the targeted runs of the numeric prompts write between them. */
  lemma SweepIsTheTargetedRuns(dir: Dir, pids: set<string>)
    requires forall pid :: pid in pids <==> pid in dir.configs && Numeric(pid)
    ensures Reconciled(dir, Swept(dir)) == Reconciled(dir, AllTargeted(dir, pids))
  {
    forall key | Due(dir, key) ensures key in Swept(dir) <==> key in AllTargeted(dir, pids) {
      DueIsLookedAt(dir, key);
      if key in AllTargeted(dir, pids) {
        var pid :| pid in pids && key in Targeted(dir, pid);
      }
    }
    SameDueSameResult(dir, Swept(dir), AllTargeted(dir, pids));
  }

  function TargetedRuns(dir: Dir, pids: seq<string>): Dir
    decreases |pids|
  {
    if pids == [] then dir
    else TargetedRuns(Reconciled(dir, Targeted(dir, pids[0])), pids[1..])
  }

  lemma NoneIsLookedAt(dir: Dir)
    ensures Reconciled(dir, AllTargeted(dir, {})) == dir
  {
    assert AllTargeted(dir, {}) == {};
    assert Reconciled(dir, {}).recipes == dir.recipes;
  }

  lemma OneMorePrompt(dir: Dir, once: Dir, pid: string, pids: set<string>)
    requires once.configs == dir.configs
    ensures AllTargeted(dir, {pid} + pids) == Targeted(dir, pid) + AllTargeted(once, pids)
  {
    assert forall p :: Targeted(once, p) == Targeted(dir, p);
    forall key | key in Targeted(dir, pid) ensures key in AllTargeted(dir, {pid} + pids) {
      assert pid in {pid} + pids;
    }
  }

  /** One targeted run after another, over any prompts in any order, comes to one run over all of them. */
  lemma {:induction false} TargetedRunsAreOne(dir: Dir, pids: seq<string>)
    ensures TargetedRuns(dir, pids) == Reconciled(dir, AllTargeted(dir, set pid | pid in pids))
    decreases |pids|
  {
    if pids == [] {
      NoneIsLookedAt(dir);
      assert (set pid | pid in pids) == {};
    } else {
      var once, rest := Reconciled(dir, Targeted(dir, pids[0])), set pid | pid in pids[1..];
      TargetedRunsAreOne(once, pids[1..]);
      OneMorePrompt(dir, once, pids[0], rest);
      ReconcileInParts(dir, Targeted(dir, pids[0]), AllTargeted(once, rest));
      assert (set pid | pid in pids) == {pids[0]} + rest by {
        assert pids == [pids[0]] + pids[1..];
      }
    }
  }

  /** The targeted runs of the numeric prompts, one after another in any order, leave the directory the
      sweep leaves. */
  lemma TargetedRunsAreTheSweep(dir: Dir, pids: seq<string>)
    requires forall pid :: pid in pids <==> pid in dir.configs && Numeric(pid)
    ensures TargetedRuns(dir, pids) == Reconciled(dir, Swept(dir))
  {
    TargetedRunsAreOne(dir, pids);
    SweepIsTheTargetedRuns(dir, set pid | pid in pids);
  }
}

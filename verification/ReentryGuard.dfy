/** The re-entry guard around a lazy module's attribute lookup, for one thread. */
module ReentryGuard {
  import opened Options

  /** An attribute, by its identity. */
  datatype Value = Value(id: nat)

  /** A module and a name in it. */
  datatype Key = Key(owner: nat, name: string)

  /** What the wrapped lookup does for a name: answer, raise, or ask for an attribute itself and go on by
      what that gave; 'otherwise' is for the answers not listed. None is a raise. */
  datatype Plan =
    | Return(value: Value)
    | Fail
    | Ask(key: Key, cases: map<Option<Value>, Plan>, otherwise: Plan)

  function Next(p: Plan, answer: Option<Value>): (next: Plan)
    requires p.Ask?
    ensures next < p
  {
    if answer in p.cases then p.cases[answer] else p.otherwise
  }

  /** The names the lookup knows, each with its plan; they may ask for one another in circles. */
  type Plans = map<Key, Plan>

  // ------------------------------------------------------------ with the guard

  function Guarded(plans: Plans, busy: set<Key>, key: Key): Option<Value>
    decreases plans.Keys - busy, 0, Fail
  {
    if key in busy || key !in plans then None
    else
      assert key in plans.Keys - busy && key !in plans.Keys - (busy + {key});
      Answer(plans, busy + {key}, plans[key])
  }

  /** The plan carried out with these names in progress. */
  function Answer(plans: Plans, busy: set<Key>, p: Plan): Option<Value>
    decreases plans.Keys - busy, 1, p
  {
    match p
    case Return(value) => Some(value)
    case Fail => None
    case Ask(key, _, _) => Answer(plans, busy, Next(p, Guarded(plans, busy, key)))
  }

  class Guard {
    const plans: Plans
    var inProgress: set<Key>

    constructor (plans: Plans)
      ensures this.plans == plans && inProgress == {}
    {
      this.plans := plans;
      inProgress := {};
    }

    /** _hartos_guarded_getattr: it comes back, and with the names in progress as it found them, whether
        the lookup answered or raised. */
    method Getattr(key: Key) returns (answer: Option<Value>)
      modifies this
      ensures answer == Guarded(plans, old(inProgress), key)
      ensures inProgress == old(inProgress)
      decreases plans.Keys - inProgress, 0, Fail
    {
      if key in inProgress {
        return None;
      }
      if key !in plans {
        return None;
      }
      ghost var before := inProgress;
      inProgress := inProgress + {key};
      assert key in plans.Keys - before && key !in plans.Keys - inProgress;
      answer := Original(plans[key]);
      inProgress := inProgress - {key};
      assert inProgress == before;
    }

    /** The wrapped lookup, going on from each attribute it asks for. */
    method Original(plan: Plan) returns (answer: Option<Value>)
      modifies this
      ensures answer == Answer(plans, old(inProgress), plan)
      ensures inProgress == old(inProgress)
      decreases plans.Keys - inProgress, 1, plan
    {
      var p := plan;
      while p.Ask?
        invariant inProgress == old(inProgress)
        invariant p == plan || p < plan
        invariant Answer(plans, inProgress, p) == Answer(plans, inProgress, plan)
        decreases p
      {
        var found := Getattr(p.key);
        p := Next(p, found);
      }
      answer := if p.Return? then Some(p.value) else None;
    }
  }

  // ------------------------------------------------------------ without it

  /** How an unguarded lookup ends: with an answer, or not within the depth allowed. */
  datatype Outcome = Done(answer: Option<Value>) | TooDeep

  /** The lookup without the guard, to at most 'depth' lookups inside one another. */
  function Plain(plans: Plans, key: Key, depth: nat): Outcome
    decreases depth, 0, Fail
  {
    if depth == 0 then TooDeep
    else if key !in plans then Done(None)
    else PlainAnswer(plans, plans[key], depth - 1)
  }

  function PlainAnswer(plans: Plans, p: Plan, depth: nat): Outcome
    decreases depth, 1, p
  {
    match p
    case Return(value) => Done(Some(value))
    case Fail => Done(None)
    case Ask(key, _, _) =>
      var found := Plain(plans, key, depth);
      if found.Done? then PlainAnswer(plans, Next(p, found.answer), depth) else TooDeep
  }

  /** The guarded lookup asks for no name that is in progress. */
  predicate NeverReenters(plans: Plans, busy: set<Key>, key: Key)
    decreases plans.Keys - busy, 0, Fail
  {
    key !in busy && (key in plans ==>
      assert key in plans.Keys - busy && key !in plans.Keys - (busy + {key});
      PlanNeverReenters(plans, busy + {key}, plans[key]))
  }

  predicate PlanNeverReenters(plans: Plans, busy: set<Key>, p: Plan)
    decreases plans.Keys - busy, 1, p
  {
    p.Ask? ==>
      NeverReenters(plans, busy, p.key) && PlanNeverReenters(plans, busy, Next(p, Guarded(plans, busy, p.key)))
  }

  /** A name in progress reads as one that is not there: the guarded lookup is the lookup among the other
      names. */
  lemma {:induction false} InProgressIsNotThere(plans: Plans, busy: set<Key>, key: Key)
    ensures Guarded(plans, busy, key) == Guarded(plans - busy, {}, key)
    decreases plans.Keys - busy, 0, Fail
  {
    if key !in busy && key in plans {
      assert key in plans.Keys - busy && key !in plans.Keys - (busy + {key});
      AnswerWithoutThem(plans, busy + {key}, plans[key]);
      AnswerWithoutThem(plans - busy, {key}, plans[key]);
      assert plans - (busy + {key}) == plans - busy - {key};
      assert {} + {key} == {key} && (plans - busy)[key] == plans[key];
    }
  }

  lemma {:induction false} AnswerWithoutThem(plans: Plans, busy: set<Key>, p: Plan)
    ensures Answer(plans, busy, p) == Answer(plans - busy, {}, p)
    decreases plans.Keys - busy, 1, p
  {
    if p.Ask? {
      InProgressIsNotThere(plans, busy, p.key);
      AnswerWithoutThem(plans, busy, Next(p, Guarded(plans, busy, p.key)));
    }
  }

  /** A name whose lookup first asks for itself, as hasattr does, is told it is not there, and goes on from
      that. */
  lemma AskedForItself(plans: Plans, key: Key, soFar: Value)
    requires key in plans && plans[key] == Ask(key, map[None := Return(soFar)], Fail)
    ensures Guarded(plans, {}, key) == Some(soFar)
  {
    assert {} + {key} == {key};
    assert Guarded(plans, {key}, key) == None;
    assert Next(plans[key], None) == Return(soFar);
    assert Answer(plans, {key}, plans[key]) == Answer(plans, {key}, Return(soFar));
  }

  /** Allowed to go deeper, a lookup that ended ends the same. */
  lemma {:induction false} DeeperIsTheSame(plans: Plans, p: Plan, depth: nat, more: nat)
    requires depth <= more && PlainAnswer(plans, p, depth).Done?
    ensures PlainAnswer(plans, p, more) == PlainAnswer(plans, p, depth)
    decreases depth, p
  {
    if p.Ask? {
      var found := Plain(plans, p.key, depth);
      if p.key in plans {
        DeeperIsTheSame(plans, plans[p.key], depth - 1, more - 1);
      }
      DeeperIsTheSame(plans, Next(p, found.answer), depth, more);
    }
  }

  lemma DeeperLookup(plans: Plans, key: Key, depth: nat, more: nat)
    requires depth <= more && Plain(plans, key, depth).Done?
    ensures Plain(plans, key, more) == Plain(plans, key, depth)
  {
    if key in plans {
      DeeperIsTheSame(plans, plans[key], depth - 1, more - 1);
    }
  }

  /** Where no name is re-entered the guard changes nothing: the unguarded lookup ends, no deeper than
      there are names left to look up, with the same answer. */
  lemma {:induction false} GuardIsTransparent(plans: Plans, busy: set<Key>, key: Key, depth: nat)
    requires NeverReenters(plans, busy, key) && depth > |plans.Keys - busy|
    ensures Plain(plans, key, depth) == Done(Guarded(plans, busy, key))
    decreases plans.Keys - busy, 0, Fail
  {
    if key in plans {
      assert plans.Keys - busy == plans.Keys - (busy + {key}) + {key};
      PlanIsTransparent(plans, busy + {key}, plans[key], depth - 1);
    }
  }

  lemma {:induction false} PlanIsTransparent(plans: Plans, busy: set<Key>, p: Plan, depth: nat)
    requires PlanNeverReenters(plans, busy, p) && depth > |plans.Keys - busy|
    ensures PlainAnswer(plans, p, depth) == Done(Answer(plans, busy, p))
    decreases plans.Keys - busy, 1, p
  {
    if p.Ask? {
      GuardIsTransparent(plans, busy, p.key, depth);
      PlanIsTransparent(plans, busy, Next(p, Guarded(plans, busy, p.key)), depth);
    }
  }

  /** The least depth at which a lookup ends. */
  lemma {:induction false} LeastDepth(plans: Plans, key: Key, depth: nat) returns (least: nat)
    requires Plain(plans, key, depth).Done?
    ensures 0 < least <= depth && Plain(plans, key, least) == Plain(plans, key, depth)
    ensures Plain(plans, key, least - 1).TooDeep?
    decreases depth
  {
    if Plain(plans, key, depth - 1).TooDeep? {
      least := depth;
    } else {
      DeeperLookup(plans, key, depth - 1, depth);
      least := LeastDepth(plans, key, depth - 1);
    }
  }

  /** No name in progress ends within this depth: what asked for it is still waiting on it. */
  predicate Waiting(plans: Plans, busy: set<Key>, depth: nat) {
    forall k :: k in busy ==> Plain(plans, k, depth).TooDeep?
  }

  lemma {:induction false} EndingNeverReenters(plans: Plans, busy: set<Key>, key: Key, depth: nat)
    requires Waiting(plans, busy, depth) && Plain(plans, key, depth).Done?
    ensures NeverReenters(plans, busy, key) && Plain(plans, key, depth) == Done(Guarded(plans, busy, key))
    decreases depth, 0, Fail
  {
    if key in plans {
      var least := LeastDepth(plans, key, depth);
      forall k | k in busy + {key} ensures Plain(plans, k, least - 1).TooDeep? {
        if Plain(plans, k, least - 1).Done? && k != key {
          DeeperLookup(plans, k, least - 1, depth);
        }
      }
      PlanEndingNeverReenters(plans, busy + {key}, plans[key], least - 1);
    }
  }

  lemma {:induction false} PlanEndingNeverReenters(plans: Plans, busy: set<Key>, p: Plan, depth: nat)
    requires Waiting(plans, busy, depth) && PlainAnswer(plans, p, depth).Done?
    ensures PlanNeverReenters(plans, busy, p) && PlainAnswer(plans, p, depth) == Done(Answer(plans, busy, p))
    decreases depth, 1, p
  {
    if p.Ask? {
      EndingNeverReenters(plans, busy, p.key, depth);
      PlanEndingNeverReenters(plans, busy, Next(p, Guarded(plans, busy, p.key)), depth);
    }
  }

  /** The unguarded lookup ends exactly when the guarded one re-enters no name, and then both answer the
      same: the guard changes only lookups that would never come back. */
  lemma GuardChangesOnlyEndlessLookups(plans: Plans, key: Key)
    ensures (exists depth: nat :: Plain(plans, key, depth).Done?) <==> NeverReenters(plans, {}, key)
    ensures forall depth: nat :: Plain(plans, key, depth).Done? ==>
      Plain(plans, key, depth) == Done(Guarded(plans, {}, key))
  {
    if NeverReenters(plans, {}, key) {
      GuardIsTransparent(plans, {}, key, |plans.Keys - {}| + 1);
    }
    forall depth: nat | Plain(plans, key, depth).Done?
      ensures NeverReenters(plans, {}, key) && Plain(plans, key, depth) == Done(Guarded(plans, {}, key))
    {
      EndingNeverReenters(plans, {}, key, depth);
    }
  }
}

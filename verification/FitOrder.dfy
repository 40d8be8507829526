/** The order in which a fit considers the entries of a block, told by who they are and where they stand. */
module FitOrder {
  import opened Options
  import opened ToolMenu
  import opened ToolMenuLaws

  /** The j-th entry of the block is considered before the i-th: the protected come first, then the main
      leg's, then the rest, each in block order. */
  predicate Ahead(block: Block, j: nat, i: nat, keepFirst: set<string>, mainLeg: set<string>)
    requires i < |block| && j < |block|
  {
    if NamedAmong(block[i], keepFirst) then NamedAmong(block[j], keepFirst) && j < i
    else if NamedAmong(block[j], keepFirst) then true
    else if NamedAmong(block[i], mainLeg) then NamedAmong(block[j], mainLeg) && j < i
    else NamedAmong(block[j], mainLeg) || j < i
  }

  /** What those of the first n entries that are kept, and come ahead of the i-th, cost one at a time. */
  function CostAhead(block: Block, kept: Block, i: nat, n: nat, keepFirst: set<string>, sizing: Sizing): nat
    requires i < |block| && n <= |block|
  {
    if n == 0 then 0
    else
      CostAhead(block, kept, i, n - 1, keepFirst, sizing) +
      if block[n - 1] in kept && Ahead(block, n - 1, i, keepFirst, sizing.mainLeg) then sizing.cost([block[n - 1]]) else 0
  }

  /** What those of these entries that are kept cost one at a time. */
  function CostOf(entries: Block, kept: Block, cost: Block -> nat): nat {
    if entries == [] then 0
    else
      CostOf(entries[..|entries| - 1], kept, cost) +
      if entries[|entries| - 1] in kept then cost([entries[|entries| - 1]]) else 0
  }

  lemma {:induction false} CostOfBoth(a: Block, b: Block, kept: Block, cost: Block -> nat)
    ensures CostOf(a + b, kept, cost) == CostOf(a, kept, cost) + CostOf(b, kept, cost)
    decreases |b|
  {
    if b == [] {
      assert a + b == a;
    } else {
      assert (a + b)[..|a + b| - 1] == a + b[..|b| - 1];
      CostOfBoth(a, b[..|b| - 1], kept, cost);
    }
  }

  /** The n-th prefix's share of those ahead of the i-th, rank by rank. */
  lemma {:induction false} CostAheadByRank(block: Block, kept: Block, i: nat, n: nat, keepFirst: set<string>, sizing: Sizing)
    requires i < |block| && n <= |block|
    ensures var rank := Rank(block[i], keepFirst, sizing.mainLeg);
      CostAhead(block, kept, i, n, keepFirst, sizing) ==
      CostOf(Share(block, 0, rank, i, n, keepFirst, sizing), kept, sizing.cost) +
      CostOf(Share(block, 1, rank, i, n, keepFirst, sizing), kept, sizing.cost) +
      CostOf(Share(block, 2, rank, i, n, keepFirst, sizing), kept, sizing.cost)
  {
    if n > 0 {
      CostAheadByRank(block, kept, i, n - 1, keepFirst, sizing);
      var rank := Rank(block[i], keepFirst, sizing.mainLeg);
      ShareGrows(block, 0, rank, i, n, kept, keepFirst, sizing);
      ShareGrows(block, 1, rank, i, n, kept, keepFirst, sizing);
      ShareGrows(block, 2, rank, i, n, kept, keepFirst, sizing);
    }
  }

  /** The entries of rank 'of', among the first n, ahead of the i-th, which has rank 'rank'. */
  function Share(block: Block, of: nat, rank: nat, i: nat, n: nat, keepFirst: set<string>, sizing: Sizing): Block
    requires i < |block| && n <= |block|
  {
    if of < rank then OfRank(block[..n], of, keepFirst, sizing.mainLeg)
    else if of == rank then OfRank(block[..if n < i then n else i], of, keepFirst, sizing.mainLeg)
    else []
  }

  lemma ShareGrows(block: Block, of: nat, rank: nat, i: nat, n: nat, kept: Block, keepFirst: set<string>, sizing: Sizing)
    requires i < |block| && 0 < n <= |block| && rank == Rank(block[i], keepFirst, sizing.mainLeg)
    ensures var e := block[n - 1];
      CostOf(Share(block, of, rank, i, n, keepFirst, sizing), kept, sizing.cost) ==
      CostOf(Share(block, of, rank, i, n - 1, keepFirst, sizing), kept, sizing.cost) +
      if Rank(e, keepFirst, sizing.mainLeg) == of && e in kept && Ahead(block, n - 1, i, keepFirst, sizing.mainLeg)
      then sizing.cost([e]) else 0
  {
    var e, before := block[n - 1], OfRank(block[..n - 1], of, keepFirst, sizing.mainLeg);
    assert block[..n][..n - 1] == block[..n - 1];
    assert OfRank(block[..n], of, keepFirst, sizing.mainLeg) ==
      before + if Rank(e, keepFirst, sizing.mainLeg) == of then [e] else [];
    CostOfOneMore(before, e, kept, sizing.cost);
    assert before + [] == before;
  }

  lemma CostOfOneMore(before: Block, e: Entry, kept: Block, cost: Block -> nat)
    ensures CostOf(before + [e], kept, cost) == CostOf(before, kept, cost) + if e in kept then cost([e]) else 0
  {
    assert (before + [e])[..|before|] == before;
  }

  lemma {:induction false} OfRankSplits(block: Block, i: nat, rank: nat, keepFirst: set<string>, mainLeg: set<string>)
    requires i <= |block|
    ensures OfRank(block, rank, keepFirst, mainLeg) ==
            OfRank(block[..i], rank, keepFirst, mainLeg) + OfRank(block[i..], rank, keepFirst, mainLeg)
    decreases |block| - i
  {
    if i < |block| {
      OfRankSplits(block[..|block| - 1], i, rank, keepFirst, mainLeg);
      assert block[..|block| - 1][..i] == block[..i] && block[i..][..|block[i..]| - 1] == block[..|block| - 1][i..];
    } else {
      assert block[..i] == block && block[i..] == [];
    }
  }

  /** Where the i-th entry stands in the order of the first pass. */
  lemma StandsAt(block: Block, i: nat, keepFirst: set<string>, sizing: Sizing) returns (at: nat)
    requires i < |block|
    ensures var rank, ranked := Rank(block[i], keepFirst, sizing.mainLeg), Ranked(block, keepFirst, sizing.mainLeg);
      && at < |ranked| && ranked[at] == block[i]
      && ranked[..at] == Share(block, 0, rank, i, |block|, keepFirst, sizing) +
                         Share(block, 1, rank, i, |block|, keepFirst, sizing) +
                         Share(block, 2, rank, i, |block|, keepFirst, sizing)
  {
    var rank := Rank(block[i], keepFirst, sizing.mainLeg);
    var own := OfRank(block[..i], rank, keepFirst, sizing.mainLeg);
    OfRankSplits(block, i, rank, keepFirst, sizing.mainLeg);
    OfRankStarts(block[i..], rank, keepFirst, sizing.mainLeg);
    assert block[..|block|] == block;
    var a, b := OfRank(block, 0, keepFirst, sizing.mainLeg), OfRank(block, 1, keepFirst, sizing.mainLeg);
    at := |own| + (if rank == 0 then 0 else if rank == 1 then |a| else |a| + |b|);
  }

  lemma {:induction false} OfRankStarts(block: Block, rank: nat, keepFirst: set<string>, mainLeg: set<string>)
    requires block != [] && rank == Rank(block[0], keepFirst, mainLeg)
    ensures OfRank(block, rank, keepFirst, mainLeg) != [] && OfRank(block, rank, keepFirst, mainLeg)[0] == block[0]
  {
    if |block| > 1 {
      OfRankStarts(block[..|block| - 1], rank, keepFirst, mainLeg);
    } else {
      assert block[..0] == [];
    }
  }

  /** What the first pass keeps of a front part costs what of it is kept in the end. */
  lemma {:induction false} KeptOfTheFront(ranked: Block, p: nat, cost: Block -> nat, room: int)
    requires UniqueNames(ranked) && p <= |ranked|
    ensures Summed(Chosen(ranked[..p], cost, room), cost) == CostOf(ranked[..p], Chosen(ranked, cost, room), cost)
    decreases p
  {
    if p > 0 {
      var e := ranked[p - 1];
      assert ranked[..p][..p - 1] == ranked[..p - 1];
      KeptOfTheFront(ranked, p - 1, cost, room);
      var before := Chosen(ranked[..p - 1], cost, room);
      KeptWhenReached(ranked, p - 1, cost, room);
      assert (before + [e])[..|before|] == before;
    }
  }

  /** An entry is kept by the first pass exactly when it is when it is reached. */
  lemma KeptWhenReached(ranked: Block, p: nat, cost: Block -> nat, room: int)
    requires UniqueNames(ranked) && p < |ranked|
    ensures ranked[p] in Chosen(ranked, cost, room) <==>
      Summed(Chosen(ranked[..p], cost, room), cost) + cost([ranked[p]]) <= room
  {
    WhatFitsIsChosen(ranked, cost, room, p);
    if Summed(Chosen(ranked[..p], cost, room), cost) + cost([ranked[p]]) > room {
      NotKeptLater(ranked, p, |ranked|, cost, room);
      assert ranked[..|ranked|] == ranked;
    }
  }

  lemma {:induction false} NotKeptLater(ranked: Block, p: nat, n: nat, cost: Block -> nat, room: int)
    requires UniqueNames(ranked) && p < n <= |ranked|
    requires Summed(Chosen(ranked[..p], cost, room), cost) + cost([ranked[p]]) > room
    ensures ranked[p] !in Chosen(ranked[..n], cost, room)
    decreases n
  {
    assert ranked[..n][..n - 1] == ranked[..n - 1];
    if n == p + 1 {
      ChosenComesFrom(ranked[..p], cost, room);
      if ranked[p] in Chosen(ranked[..p], cost, room) {
        OnceOnly(ranked, p, ranked[..p]);
      }
    } else {
      NotKeptLater(ranked, p, n - 1, cost, room);
      if ranked[p] == ranked[n - 1] {
        OnceOnly(ranked, n - 1, ranked[..n - 1]);
      }
    }
  }

  lemma {:induction false} ChosenComesFrom(ranked: Block, cost: Block -> nat, room: int)
    ensures forall e :: e in Chosen(ranked, cost, room) ==> e in ranked
  {
    if ranked != [] {
      ChosenComesFrom(ranked[..|ranked| - 1], cost, room);
    }
  }

  lemma OnceOnly(block: Block, p: nat, front: Block)
    requires UniqueNames(block) && p < |block| && front == block[..p]
    ensures block[p] !in front
  {
    assert block == front + block[p..] && block[p..] == [block[p]] + block[p + 1..];
    assert multiset(block) == multiset(front) + multiset{block[p]} + multiset(block[p + 1..]);
    assert multiset(block)[block[p]] == 1;
    assert block[p] in front <==> block[p] in multiset(front);
  }

  /** What the first pass keeps. */
  function FirstKept(block: Block, keepFirst: set<string>, sizing: Sizing, room: int): Block {
    Chosen(Ranked(block, keepFirst, sizing.mainLeg), sizing.cost, room)
  }

  /** The first pass keeps an entry exactly when it fits beside the ones it keeps that come ahead: the
      protected, for one of the main leg those and the main leg's before it, for any other all of these and
      the others before it. */
  lemma KeptExactlyBesideThoseAhead(block: Block, keepFirst: set<string>, sizing: Sizing, room: int, i: nat)
    requires UniqueNames(block) && i < |block|
    ensures var kept := FirstKept(block, keepFirst, sizing, room);
      block[i] in kept <==>
      CostAhead(block, kept, i, |block|, keepFirst, sizing) + sizing.cost([block[i]]) <= room
  {
    var ranked, kept := Ranked(block, keepFirst, sizing.mainLeg), FirstKept(block, keepFirst, sizing, room);
    RankedIsPermutation(block, keepFirst, sizing.mainLeg);
    SamePlacesSameUniqueness(block, ranked);
    var at := StandsAt(block, i, keepFirst, sizing);
    var rank := Rank(block[i], keepFirst, sizing.mainLeg);
    var a, b := Share(block, 0, rank, i, |block|, keepFirst, sizing), Share(block, 1, rank, i, |block|, keepFirst, sizing);
    var c := Share(block, 2, rank, i, |block|, keepFirst, sizing);
    CostAheadByRank(block, kept, i, |block|, keepFirst, sizing);
    CostOfBoth(a, b, kept, sizing.cost);
    CostOfBoth(a + b, c, kept, sizing.cost);
    KeptOfTheFront(ranked, at, sizing.cost, room);
    KeptWhenReached(ranked, at, sizing.cost, room);
  }

  /** A tool of the main leg is kept before one that is neither protected nor of the main leg, wherever they
      stand in the block. */
  lemma TheMainLegComesFirst(core: Entry, other: Entry, sizing: Sizing)
    requires core.name.Some? && other.name.Some? && core.name != other.name
    requires REQUEST_TOOLS !in NameOf(core) + NameOf(other)
    requires sizing.mainLeg == {core.name.value} && forall b :: sizing.cost(b) == |b|
    ensures Fitted([other, core], {REQUEST_TOOLS}, sizing, 1) == [core]
    ensures Fitted([core, other], {REQUEST_TOOLS}, sizing, 1) == [core]
  {
    RankedTwoBy(other, core, {REQUEST_TOOLS}, sizing.mainLeg);
    RankedTwoBy(core, other, {REQUEST_TOOLS}, sizing.mainLeg);
    WithoutTheFirst(other, core);
    WithoutTheSecond(core, other);
    TheOtherGoes([other, core], core, other, sizing);
    TheOtherGoes([core, other], core, other, sizing);
  }

  lemma TheOtherGoes(block: Block, core: Entry, other: Entry, sizing: Sizing)
    requires Ranked(block, {REQUEST_TOOLS}, sizing.mainLeg) == [core, other] && forall b :: sizing.cost(b) == |b|
    requires REQUEST_TOOLS !in NameOf(other) && Without(block, NameOf(other)) == [core]
    ensures Fitted(block, {REQUEST_TOOLS}, sizing, 1) == [core]
  {
    SecondIsDropped(block, core, other, {REQUEST_TOOLS}, sizing);
    assert NameOf(other) - {REQUEST_TOOLS} == NameOf(other);
  }

  /** Of the entries the first pass kept, the second gives up only ones that come after all it leaves. */
  lemma TheLastAreGivenUp(block: Block, keepFirst: set<string>, sizing: Sizing, room: int, i: nat, j: nat)
    requires UniqueNames(block) && i < |block| && j < |block|
    requires block[i] in FirstKept(block, keepFirst, sizing, room) && block[i] !in Kept(block, keepFirst, sizing, room)
    requires block[j] in Kept(block, keepFirst, sizing, room)
    ensures Ahead(block, j, i, keepFirst, sizing.mainLeg)
    ensures sizing.cost(FirstKept(block, keepFirst, sizing, room)) > room
  {
    var ranked, chosen := Ranked(block, keepFirst, sizing.mainLeg), FirstKept(block, keepFirst, sizing, room);
    RankedIsPermutation(block, keepFirst, sizing.mainLeg);
    SamePlacesSameUniqueness(block, ranked);
    SettledIsAFront(chosen, sizing.cost, room);
    var at := StandsAt(block, i, keepFirst, sizing);
    var to := StandsAt(block, j, keepFirst, sizing);
    if at < to {
      InTheFront(ranked, at, to, |Kept(block, keepFirst, sizing, room)|, sizing.cost, room);
    }
    if to < at {
      StandsAhead(block, i, j, at, to, keepFirst, sizing);
    }
  }

  /** What the first pass keeps stands in its own order. */
  lemma InTheFront(ranked: Block, at: nat, to: nat, n: nat, cost: Block -> nat, room: int)
    requires UniqueNames(ranked) && at < to < |ranked| && n <= |Chosen(ranked, cost, room)|
    requires ranked[at] in Chosen(ranked, cost, room) && ranked[to] in Chosen(ranked, cost, room)[..n]
    ensures ranked[at] in Chosen(ranked, cost, room)[..n]
  {
    var chosen, before := Chosen(ranked, cost, room), Chosen(ranked[..to], cost, room);
    ChosenGrows(ranked, cost, room, to);
    ChosenComesFrom(ranked[..to], cost, room);
    OnceOnly(ranked, to, ranked[..to]);
    KeptWhenReached(ranked, at, cost, room);
    assert ranked[..to][..at] == ranked[..at] && ranked[..to][at] == ranked[at];
    WhatFitsIsChosen(ranked[..to], cost, room, at);
    assert ranked[at] in before && before == chosen[..|before|];
    FrontOf(chosen, before, n, ranked[to]);
    assert before == chosen[..n][..|before|];
  }

  lemma FrontOf(block: Block, front: Block, n: nat, e: Entry)
    requires front <= block && n <= |block|
    ensures e in block[..n] && n <= |front| ==> e in front
  {
    if n <= |front| {
      assert block[..n] == front[..n];
    }
  }

  lemma StandsAhead(block: Block, i: nat, j: nat, at: nat, to: nat, keepFirst: set<string>, sizing: Sizing)
    requires UniqueNames(block) && i < |block| && j < |block| && to < at
    requires var rank, ranked := Rank(block[i], keepFirst, sizing.mainLeg), Ranked(block, keepFirst, sizing.mainLeg);
      && at < |ranked| && ranked[to] == block[j]
      && ranked[..at] == Share(block, 0, rank, i, |block|, keepFirst, sizing) +
                         Share(block, 1, rank, i, |block|, keepFirst, sizing) +
                         Share(block, 2, rank, i, |block|, keepFirst, sizing)
    ensures Ahead(block, j, i, keepFirst, sizing.mainLeg)
  {
    var rank := Rank(block[i], keepFirst, sizing.mainLeg);
    assert block[j] in Ranked(block, keepFirst, sizing.mainLeg)[..at];
    OfRankComesFrom(block[..|block|], 0, keepFirst, sizing.mainLeg);
    OfRankComesFrom(block[..|block|], 1, keepFirst, sizing.mainLeg);
    OfRankComesFrom(block[..i], rank, keepFirst, sizing.mainLeg);
    BeforeIt(block, i, j);
  }

  lemma BeforeIt(block: Block, i: nat, j: nat)
    requires UniqueNames(block) && i < |block| && j < |block|
    ensures block[j] in block[..i] ==> j < i
  {
    if i <= j {
      OnceOnly(block, j, block[..j]);
      assert block[..j][..i] == block[..i];
    }
  }

  lemma {:induction false} OfRankComesFrom(block: Block, rank: nat, keepFirst: set<string>, mainLeg: set<string>)
    ensures forall e :: e in OfRank(block, rank, keepFirst, mainLeg) ==> e in block && Rank(e, keepFirst, mainLeg) == rank
  {
    if block != [] {
      OfRankComesFrom(block[..|block| - 1], rank, keepFirst, mainLeg);
    }
  }

  lemma {:induction false} SettledIsAFront(kept: Block, cost: Block -> nat, room: int)
    ensures |Settled(kept, cost, room)| <= |kept| && Settled(kept, cost, room) == kept[..|Settled(kept, cost, room)|]
    ensures Settled(kept, cost, room) != kept ==> cost(kept) > room
  {
    if kept != [] && cost(kept) > room {
      SettledIsAFront(kept[..|kept| - 1], cost, room);
    } else {
      assert kept[..|kept|] == kept;
    }
  }
}

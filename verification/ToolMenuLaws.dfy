/** What a fit promises: it keeps the best-ranked tools the room holds and gives up no other, never the
    escape that brings the rest back. */
module ToolMenuLaws {
  import opened Options
  import opened ToolMenu

  // ------------------------------------------------------------ blocks

  lemma NamesOfConcat(a: Block, b: Block)
    ensures Names(a + b) == Names(a) + Names(b)
  {
    forall n | n in Names(a) + Names(b) ensures n in Names(a + b) {
      if n in Names(a) {
        var e :| e in a && n in NameOf(e);
        assert e in a + b;
      } else {
        var e :| e in b && n in NameOf(e);
        assert e in a + b;
      }
    }
  }

  lemma LastOf(block: Block)
    requires block != []
    ensures block == block[..|block| - 1] + [block[|block| - 1]]
    ensures Names(block) == Names(block[..|block| - 1]) + NameOf(block[|block| - 1])
    ensures multiset(block) == multiset(block[..|block| - 1]) + multiset{block[|block| - 1]}
  {
    var e := block[|block| - 1];
    assert block == block[..|block| - 1] + [e];
    NamesOfConcat(block[..|block| - 1], [e]);
    assert Names([e]) == NameOf(e) by {
      assert e in [e];
    }
  }

  /** Deferring takes exactly these names off, and leaves every other entry as often as it was. */
  lemma {:induction false} WithoutIs(block: Block, names: set<string>)
    ensures Names(Without(block, names)) == Names(block) - names
    ensures forall e :: multiset(Without(block, names))[e] == if NameOf(e) !! names then multiset(block)[e] else 0
  {
    if block != [] {
      var e := block[|block| - 1];
      LastOf(block);
      WithoutIs(block[..|block| - 1], names);
      if NameOf(e) !! names {
        LastOf(Without(block, names));
      }
    }
  }

  lemma {:induction false} WithoutOthers(block: Block, names: set<string>)
    requires Names(block) !! names
    ensures Without(block, names) == block
  {
    if block != [] {
      LastOf(block);
      WithoutOthers(block[..|block| - 1], names);
    }
  }

  /** Each entry is named, and no two share a name. */
  ghost predicate UniqueNames(block: Block) {
    && (forall e :: e in block ==> e.name.Some? && multiset(block)[e] == 1)
    && (forall e, f :: e in block && f in block && e.name == f.name ==> e == f)
  }

  lemma UniqueInit(block: Block)
    requires UniqueNames(block) && block != []
    ensures UniqueNames(block[..|block| - 1])
    ensures NameOf(block[|block| - 1]) !! Names(block[..|block| - 1])
  {
    LastOf(block);
    var init := block[..|block| - 1];
    forall e | e in init ensures e in block && multiset(init)[e] == 1 {
      assert multiset(init)[e] >= 1;
    }
  }

  lemma SamePlacesSameUniqueness(a: Block, b: Block)
    requires multiset(a) == multiset(b) && UniqueNames(a)
    ensures UniqueNames(b)
  {
    forall e ensures e in a <==> e in b {
      assert (e in a <==> e in multiset(a)) && (e in b <==> e in multiset(b));
    }
  }

  lemma NamedIn(block: Block, e: Entry)
    requires UniqueNames(block) && e.name.Some?
    requires e.name.value in Names(block)
    ensures exists f :: f in block && f.name == e.name
  {
    var f, n :| f in block && n in NameOf(f) && n == e.name.value;
  }

  // ------------------------------------------------------------ ranking

  predicate NamedAmong(e: Entry, names: set<string>) {
    e.name.Some? && e.name.value in names
  }

  /** The protected entries of a block, in its order. */
  function Protected(block: Block, keepFirst: set<string>): Block {
    if block == [] then []
    else
      Protected(block[..|block| - 1], keepFirst) +
      if NamedAmong(block[|block| - 1], keepFirst) then [block[|block| - 1]] else []
  }

  lemma {:induction false} ProtectedRankFirst(block: Block, keepFirst: set<string>, mainLeg: set<string>)
    ensures Protected(block, keepFirst) == OfRank(block, 0, keepFirst, mainLeg)
  {
    if block != [] {
      ProtectedRankFirst(block[..|block| - 1], keepFirst, mainLeg);
    }
  }

  lemma {:induction false} OfRankIs(block: Block, rank: nat, keepFirst: set<string>, mainLeg: set<string>)
    ensures forall e :: multiset(OfRank(block, rank, keepFirst, mainLeg))[e] ==
                        if Rank(e, keepFirst, mainLeg) == rank then multiset(block)[e] else 0
    ensures forall e :: e in OfRank(block, rank, keepFirst, mainLeg) ==> Rank(e, keepFirst, mainLeg) == rank
  {
    if block != [] {
      LastOf(block);
      OfRankIs(block[..|block| - 1], rank, keepFirst, mainLeg);
    }
  }

  lemma RankedIsPermutation(block: Block, keepFirst: set<string>, mainLeg: set<string>)
    ensures multiset(Ranked(block, keepFirst, mainLeg)) == multiset(block)
  {
    OfRankIs(block, 0, keepFirst, mainLeg);
    OfRankIs(block, 1, keepFirst, mainLeg);
    OfRankIs(block, 2, keepFirst, mainLeg);
  }

  lemma RankedIsSorted(block: Block, keepFirst: set<string>, mainLeg: set<string>, i: nat, j: nat)
    requires i <= j < |Ranked(block, keepFirst, mainLeg)|
    ensures var ranked := Ranked(block, keepFirst, mainLeg);
      Rank(ranked[i], keepFirst, mainLeg) <= Rank(ranked[j], keepFirst, mainLeg)
  {
    OfRankIs(block, 0, keepFirst, mainLeg);
    OfRankIs(block, 1, keepFirst, mainLeg);
    OfRankIs(block, 2, keepFirst, mainLeg);
    var a, b := OfRank(block, 0, keepFirst, mainLeg), OfRank(block, 1, keepFirst, mainLeg);
    var c := OfRank(block, 2, keepFirst, mainLeg);
    InThirds(a, b, c, i);
    InThirds(a, b, c, j);
  }

  lemma InThirds(a: Block, b: Block, c: Block, k: nat)
    requires k < |a + b + c|
    ensures (a + b + c)[k] in if k < |a| then a else if k < |a| + |b| then b else c
  {
  }

  // ------------------------------------------------------------ the two passes

  lemma UniqueAppend(block: Block, e: Entry)
    requires UniqueNames(block) && e.name.Some? && NameOf(e) !! Names(block)
    ensures UniqueNames(block + [e])
    ensures Names(block + [e]) == Names(block) + NameOf(e)
    ensures multiset(block + [e]) == multiset(block) + multiset{e}
  {
    LastOf(block + [e]);
    assert (block + [e])[..|block|] == block;
    forall f | f in block ensures f.name != e.name {
      assert f.name.value in NameOf(f) && f.name.value in Names(block);
    }
  }

  lemma {:induction false} ChosenAndPassed(ranked: Block, cost: Block -> nat, room: int)
    requires UniqueNames(ranked)
    ensures var chosen := Chosen(ranked, cost, room);
      && UniqueNames(chosen)
      && multiset(chosen) <= multiset(ranked)
      && Names(ranked) == Names(chosen) + Passed(ranked, cost, room)
      && Names(chosen) !! Passed(ranked, cost, room)
  {
    if ranked != [] {
      var init, e := ranked[..|ranked| - 1], ranked[|ranked| - 1];
      LastOf(ranked);
      UniqueInit(ranked);
      ChosenAndPassed(init, cost, room);
      var before := Chosen(init, cost, room);
      assert e in ranked && e.name.Some?;
      if Summed(before, cost) + cost([e]) <= room {
        UniqueAppend(before, e);
      }
    }
  }

  lemma {:induction false} SettledAndPopped(kept: Block, cost: Block -> nat, room: int)
    requires UniqueNames(kept)
    ensures var settled := Settled(kept, cost, room);
      && UniqueNames(settled)
      && settled <= kept
      && Names(kept) == Names(settled) + Popped(kept, cost, room)
      && Names(settled) !! Popped(kept, cost, room)
      && (settled == [] || cost(settled) <= room)
  {
    if !(kept == [] || cost(kept) <= room) {
      LastOf(kept);
      UniqueInit(kept);
      SettledAndPopped(kept[..|kept| - 1], cost, room);
    }
  }

  /** The names a fit drops are those it did not keep. */
  lemma DroppedIsTheRest(block: Block, keepFirst: set<string>, sizing: Sizing, room: int)
    requires UniqueNames(block)
    ensures var kept := Kept(block, keepFirst, sizing, room);
      && UniqueNames(kept) && (kept == [] || sizing.cost(kept) <= room)
      && Names(kept) <= Names(block)
      && Dropped(block, keepFirst, sizing, room) == Names(block) - Names(kept)
      && forall e :: e in kept ==> e in block
  {
    var ranked := Ranked(block, keepFirst, sizing.mainLeg);
    var chosen := Chosen(ranked, sizing.cost, room);
    RankedIsPermutation(block, keepFirst, sizing.mainLeg);
    SamePlacesSameUniqueness(block, ranked);
    ChosenAndPassed(ranked, sizing.cost, room);
    SettledAndPopped(chosen, sizing.cost, room);
    SameNames(block, ranked);
    forall e | e in Kept(block, keepFirst, sizing, room) ensures e in block {
      InAll(e, chosen, ranked, block);
    }
  }

  lemma InAll(e: Entry, chosen: Block, ranked: Block, block: Block)
    requires e in chosen && multiset(chosen) <= multiset(ranked) && multiset(ranked) == multiset(block)
    ensures e in block
  {
    assert e in multiset(chosen) && e in multiset(ranked) && e in multiset(block);
  }

  /** A fit leaves exactly the tools it kept, and request_tools wherever it stood, in block order. */
  lemma FitLeavesTheKept(block: Block, keepFirst: set<string>, sizing: Sizing, room: int)
    requires UniqueNames(block)
    ensures var kept := Kept(block, keepFirst, sizing, room);
      && (kept == [] || sizing.cost(kept) <= room)
      && Fitted(block, keepFirst, sizing, room) == Without(block, Names(block) - Names(kept) - {REQUEST_TOOLS})
      && (forall e :: e in Fitted(block, keepFirst, sizing, room) <==>
                      e in block && (e in kept || e.name == Some(REQUEST_TOOLS)))
  {
    DroppedIsTheRest(block, keepFirst, sizing, room);
    forall e ensures e in Fitted(block, keepFirst, sizing, room) <==>
                     e in block && (e in Kept(block, keepFirst, sizing, room) || e.name == Some(REQUEST_TOOLS)) {
      LeftByFit(block, Kept(block, keepFirst, sizing, room), e);
    }
  }

  lemma LeftByFit(block: Block, kept: Block, e: Entry)
    requires UniqueNames(block) && UniqueNames(kept) && forall f :: f in kept ==> f in block
    ensures e in Without(block, Names(block) - Names(kept) - {REQUEST_TOOLS}) <==>
            e in block && (e in kept || e.name == Some(REQUEST_TOOLS))
  {
    var gone := Names(block) - Names(kept) - {REQUEST_TOOLS};
    WithoutIs(block, gone);
    assert (e in block <==> e in multiset(block)) && (e in Without(block, gone) <==> e in multiset(Without(block, gone)));
    if e in block {
      assert e.name.value in NameOf(e) && e.name.value in Names(block);
      if e.name.value in Names(kept) {
        NamedIn(kept, e);
      }
    }
  }

  lemma SameNames(a: Block, b: Block)
    requires multiset(a) == multiset(b)
    ensures Names(a) == Names(b)
  {
    forall e ensures e in a <==> e in b {
      assert (e in a <==> e in multiset(a)) && (e in b <==> e in multiset(b));
    }
  }

  lemma NothingToFit(block: Block, keepFirst: set<string>, sizing: Sizing, room: int)
    ensures block == [] ==> Fitted(block, keepFirst, sizing, room) == block
  {
  }

  /** What a block costs does not depend on its order. */
  ghost predicate OrderFree(cost: Block -> nat) {
    forall a, b {:trigger cost(a), cost(b)} :: multiset(a) == multiset(b) ==> cost(a) == cost(b)
  }

  /** A block costs at least the sum of its single entries. */
  ghost predicate CostsItsEntries(cost: Block -> nat) {
    forall a {:trigger cost(a)} :: Summed(a, cost) <= cost(a)
  }

  /** The block a fit leaves is within the room, unless request_tools itself did not fit and stayed. */
  lemma FitIsWithinRoom(block: Block, keepFirst: set<string>, sizing: Sizing, room: int)
    requires UniqueNames(block) && OrderFree(sizing.cost)
    requires REQUEST_TOOLS in Names(block) ==> REQUEST_TOOLS in Names(Kept(block, keepFirst, sizing, room))
    ensures var fitted := Fitted(block, keepFirst, sizing, room);
      fitted == [] || sizing.cost(fitted) <= room
  {
    var fitted, kept := Fitted(block, keepFirst, sizing, room), Kept(block, keepFirst, sizing, room);
    FitLeavesTheKept(block, keepFirst, sizing, room);
    forall e ensures multiset(fitted)[e] == multiset(kept)[e] {
      KeptOnce(block, keepFirst, sizing, room, e);
    }
    assert multiset(fitted) == multiset(kept);
    assert |multiset(fitted)| == |fitted| && |multiset(kept)| == |kept|;
  }

  lemma KeptOnce(block: Block, keepFirst: set<string>, sizing: Sizing, room: int, e: Entry)
    requires UniqueNames(block)
    requires REQUEST_TOOLS in Names(block) ==> REQUEST_TOOLS in Names(Kept(block, keepFirst, sizing, room))
    ensures multiset(Fitted(block, keepFirst, sizing, room))[e] == multiset(Kept(block, keepFirst, sizing, room))[e]
  {
    var fitted, kept := Fitted(block, keepFirst, sizing, room), Kept(block, keepFirst, sizing, room);
    FitLeavesTheKept(block, keepFirst, sizing, room);
    DroppedIsTheRest(block, keepFirst, sizing, room);
    WithoutIs(block, Names(block) - Names(kept) - {REQUEST_TOOLS});
    assert (e in fitted <==> e in multiset(fitted)) && (e in kept <==> e in multiset(kept)) && (e in block <==> e in multiset(block));
    if e in block && e.name == Some(REQUEST_TOOLS) {
      assert REQUEST_TOOLS in NameOf(e);
      NamedIn(kept, e);
      var f :| f in kept && f.name == e.name;
      assert f in block;
    }
  }

  /** request_tools is on the block after any fit that found it there. */
  lemma RequestToolsStays(block: Block, names: set<string>)
    ensures REQUEST_TOOLS in Names(block) <==> REQUEST_TOOLS in Names(Deferred(block, names))
  {
    WithoutIs(block, names - {REQUEST_TOOLS});
  }

  lemma {:induction false} ChosenGrows(ranked: Block, cost: Block -> nat, room: int, i: nat)
    requires i <= |ranked|
    ensures Chosen(ranked[..i], cost, room) <= Chosen(ranked, cost, room)
  {
    if i < |ranked| {
      ChosenGrows(ranked[..|ranked| - 1], cost, room, i);
      assert ranked[..|ranked| - 1][..i] == ranked[..i];
    } else {
      assert ranked[..i] == ranked;
    }
  }

  lemma WhatFitsIsChosen(ranked: Block, cost: Block -> nat, room: int, i: nat)
    requires i < |ranked|
    ensures Summed(Chosen(ranked[..i], cost, room), cost) + cost([ranked[i]]) <= room ==>
      ranked[i] in Chosen(ranked, cost, room)
  {
    var before := Chosen(ranked[..i], cost, room);
    ChosenGrows(ranked, cost, room, i + 1);
    assert ranked[..i + 1][..i] == ranked[..i];
    if Summed(before, cost) + cost([ranked[i]]) <= room {
      assert Chosen(ranked[..i + 1], cost, room)[|before|] == ranked[i];
    }
  }

  /** The first pass gives an entry up only when what it kept of the better-ranked leaves no room. */
  lemma PassedOnlyForRoom(block: Block, keepFirst: set<string>, sizing: Sizing, room: int, i: nat)
    requires var ranked := Ranked(block, keepFirst, sizing.mainLeg);
      i < |ranked| && ranked[i] !in Chosen(ranked, sizing.cost, room)
    ensures var ranked := Ranked(block, keepFirst, sizing.mainLeg);
      && Summed(Chosen(ranked[..i], sizing.cost, room), sizing.cost) + sizing.cost([ranked[i]]) > room
      && Chosen(ranked[..i], sizing.cost, room) <= Chosen(ranked, sizing.cost, room)
      && (forall k :: 0 <= k < i && NamedAmong(ranked[i], keepFirst) ==> NamedAmong(ranked[k], keepFirst))
      && (forall k :: 0 <= k < i && NamedAmong(ranked[i], sizing.mainLeg) ==>
            NamedAmong(ranked[k], keepFirst) || NamedAmong(ranked[k], sizing.mainLeg))
  {
    var ranked := Ranked(block, keepFirst, sizing.mainLeg);
    ChosenGrows(ranked, sizing.cost, room, i);
    WhatFitsIsChosen(ranked, sizing.cost, room, i);
    forall k | 0 <= k < i
      ensures Rank(ranked[k], keepFirst, sizing.mainLeg) <= Rank(ranked[i], keepFirst, sizing.mainLeg)
    {
      RankedIsSorted(block, keepFirst, sizing.mainLeg, k, i);
    }
  }

  lemma {:induction false} AllChosen(ranked: Block, cost: Block -> nat, room: int)
    requires Summed(ranked, cost) <= room
    ensures Chosen(ranked, cost, room) == ranked && Passed(ranked, cost, room) == {}
  {
    if ranked != [] {
      AllChosen(ranked[..|ranked| - 1], cost, room);
      LastOf(ranked);
    }
  }

  /** A block already within the room is left as it is. */
  lemma FittingWhatFitsChangesNothing(block: Block, keepFirst: set<string>, sizing: Sizing, room: int)
    requires OrderFree(sizing.cost) && CostsItsEntries(sizing.cost)
    requires sizing.cost(block) <= room
    ensures Dropped(block, keepFirst, sizing, room) == {}
    ensures Fitted(block, keepFirst, sizing, room) == block
  {
    var ranked := Ranked(block, keepFirst, sizing.mainLeg);
    RankedIsPermutation(block, keepFirst, sizing.mainLeg);
    assert sizing.cost(ranked) == sizing.cost(block);
    assert Summed(ranked, sizing.cost) <= sizing.cost(ranked);
    AllChosen(ranked, sizing.cost, room);
    WithoutOthers(block, {});
    assert {} - {REQUEST_TOOLS} == {};
  }

  /** The settling pass gives up nothing of a front part that fits. */
  lemma {:induction false} SettledKeepsTheFront(front: Block, kept: Block, cost: Block -> nat, room: int)
    requires front <= kept && cost(front) <= room
    ensures front <= Settled(kept, cost, room)
  {
    if kept != [] && cost(kept) > room {
      assert |front| == |kept| ==> front == kept;
      SettledKeepsTheFront(front, kept[..|kept| - 1], cost, room);
    }
  }

  /** The protected entries are kept when they fit the room on their own. */
  lemma ProtectedFrontIsKept(block: Block, keepFirst: set<string>, sizing: Sizing, room: int)
    requires CostsItsEntries(sizing.cost) && sizing.cost(Protected(block, keepFirst)) <= room
    ensures Protected(block, keepFirst) <= Kept(block, keepFirst, sizing, room)
  {
    var front, ranked := Protected(block, keepFirst), Ranked(block, keepFirst, sizing.mainLeg);
    ProtectedRankFirst(block, keepFirst, sizing.mainLeg);
    assert Summed(front, sizing.cost) <= sizing.cost(front);
    AllChosen(front, sizing.cost, room);
    assert ranked[..|front|] == front;
    ChosenGrows(ranked, sizing.cost, room, |front|);
    SettledKeepsTheFront(front, Chosen(ranked, sizing.cost, room), sizing.cost, room);
  }

  lemma {:induction false} ProtectedAreThere(block: Block, keepFirst: set<string>)
    ensures forall e :: e in Protected(block, keepFirst) <==> e in block && NamedAmong(e, keepFirst)
  {
    if block != [] {
      ProtectedAreThere(block[..|block| - 1], keepFirst);
      assert block == block[..|block| - 1] + [block[|block| - 1]];
    }
  }

  /** When what a fit is told to protect, request_tools always with it, fits the room on its own, none of
      it is given up, and the block the fit leaves is within the room. */
  lemma FitKeepsTheProtected(block: Block, keepFirst: set<string>, sizing: Sizing, room: int)
    requires UniqueNames(block) && OrderFree(sizing.cost) && CostsItsEntries(sizing.cost)
    requires REQUEST_TOOLS in keepFirst
    requires sizing.cost(Protected(block, keepFirst)) <= room
    ensures var fitted := Fitted(block, keepFirst, sizing, room);
      && (forall e :: e in block && NamedAmong(e, keepFirst) ==> e in fitted)
      && (fitted == [] || sizing.cost(fitted) <= room)
  {
    var kept := Kept(block, keepFirst, sizing, room);
    ProtectedFrontIsKept(block, keepFirst, sizing, room);
    ProtectedAreThere(block, keepFirst);
    forall e | e in block && NamedAmong(e, keepFirst) ensures e in kept {
      assert e in Protected(block, keepFirst);
    }
    FitLeavesTheKept(block, keepFirst, sizing, room);
    if REQUEST_TOOLS in Names(block) {
      RequestToolsIsKept(block, kept);
    }
    FitIsWithinRoom(block, keepFirst, sizing, room);
  }

  lemma RequestToolsIsKept(block: Block, kept: Block)
    requires REQUEST_TOOLS in Names(block)
    requires forall e :: e in block && e.name == Some(REQUEST_TOOLS) ==> e in kept
    ensures REQUEST_TOOLS in Names(kept)
  {
    var e :| e in block && REQUEST_TOOLS in NameOf(e);
    assert e in kept && REQUEST_TOOLS in NameOf(e);
  }

  lemma {:induction false} OneCostsNoMore(block: Block, e: Entry, cost: Block -> nat)
    requires e in block
    ensures cost([e]) <= Summed(block, cost)
  {
    LastOf(block);
    if e != block[|block| - 1] {
      assert block == block[..|block| - 1] + [block[|block| - 1]];
      OneCostsNoMore(block[..|block| - 1], e, cost);
    }
  }

  /** With nothing else to protect, a fit brings a block within the room exactly when request_tools, which
      it never takes off, fits there alone. */
  lemma FitsExactlyWhenTheEscapeFits(block: Block, escape: Entry, sizing: Sizing, room: int)
    requires UniqueNames(block) && OrderFree(sizing.cost) && CostsItsEntries(sizing.cost)
    requires escape in block && escape.name == Some(REQUEST_TOOLS)
    ensures sizing.cost(Fitted(block, {REQUEST_TOOLS}, sizing, room)) <= room <==> sizing.cost([escape]) <= room
  {
    var keepFirst := {REQUEST_TOOLS};
    var fitted := Fitted(block, keepFirst, sizing, room);
    OnlyTheEscapeIsProtected(block, escape);
    FitLeavesTheKept(block, keepFirst, sizing, room);
    assert escape in fitted;
    if sizing.cost([escape]) <= room {
      FitKeepsTheProtected(block, keepFirst, sizing, room);
    } else {
      OneCostsNoMore(fitted, escape, sizing.cost);
      assert Summed(fitted, sizing.cost) <= sizing.cost(fitted);
    }
  }

  lemma OnlyTheEscapeIsProtected(block: Block, escape: Entry)
    requires UniqueNames(block) && escape in block && escape.name == Some(REQUEST_TOOLS)
    ensures Protected(block, {REQUEST_TOOLS}) == [escape]
  {
    var front := Protected(block, {REQUEST_TOOLS});
    forall e ensures multiset(front)[e] == multiset{escape}[e] {
      ProtectedOnce(block, {REQUEST_TOOLS}, e);
      assert e in multiset(block) <==> e in block;
    }
    OneLong(front, escape);
  }

  /** A part of a block costs no more than the whole. */
  ghost predicate PartsCostLess(cost: Block -> nat) {
    forall a, b {:trigger cost(a), cost(b)} :: multiset(a) <= multiset(b) ==> cost(a) <= cost(b)
  }

  /** Everything the fit was told to protect is still there. */
  predicate Spares(block: Block, keepFirst: set<string>, fitted: Block) {
    forall e :: e in block && NamedAmong(e, keepFirst) ==> e in fitted
  }

  /** A fit spares everything it is told to protect and brings the block within the room exactly when the
      protected entries fit the room on their own. */
  lemma ProtectedFitExactly(block: Block, keepFirst: set<string>, sizing: Sizing, room: int)
    requires UniqueNames(block) && PartsCostLess(sizing.cost) && CostsItsEntries(sizing.cost)
    requires REQUEST_TOOLS in keepFirst
    ensures var fitted := Fitted(block, keepFirst, sizing, room);
      Spares(block, keepFirst, fitted) && sizing.cost(fitted) <= room <==>
      sizing.cost(Protected(block, keepFirst)) <= room
  {
    var fitted, front := Fitted(block, keepFirst, sizing, room), Protected(block, keepFirst);
    PartsGiveOrder(sizing.cost);
    if sizing.cost(front) <= room {
      FitKeepsTheProtected(block, keepFirst, sizing, room);
      assert sizing.cost([]) <= sizing.cost(front);
    }
    if Spares(block, keepFirst, fitted) {
      SparedContents(block, keepFirst, fitted);
    }
  }

  lemma {:induction false} ProtectedOnce(block: Block, keepFirst: set<string>, e: Entry)
    ensures multiset(Protected(block, keepFirst))[e] == if NamedAmong(e, keepFirst) then multiset(block)[e] else 0
  {
    if block != [] {
      LastOf(block);
      ProtectedOnce(block[..|block| - 1], keepFirst, e);
    }
  }

  lemma SparedContents(block: Block, keepFirst: set<string>, fitted: Block)
    requires UniqueNames(block) && Spares(block, keepFirst, fitted)
    ensures multiset(Protected(block, keepFirst)) <= multiset(fitted)
  {
    forall e ensures multiset(Protected(block, keepFirst))[e] <= multiset(fitted)[e] {
      ProtectedOnce(block, keepFirst, e);
      assert e in multiset(block) <==> e in block;
      assert e in multiset(fitted) <==> e in fitted;
    }
  }

  lemma PartsGiveOrder(cost: Block -> nat)
    requires PartsCostLess(cost)
    ensures OrderFree(cost)
  {
  }

  /** Two protected entries, and room for either alone: the first pass gives request_tools up, the fit
      leaves it all the same, and the block is over the room.  Fitted again with request_tools alone
      protected, the block loses the other. */
  lemma TwoProtectedOverflow(a: Entry, escape: Entry, sizing: Sizing)
    requires a.name.Some? && a.name != Some(REQUEST_TOOLS) && escape.name == Some(REQUEST_TOOLS)
    requires sizing.mainLeg == {} && forall b :: sizing.cost(b) == |b|
    ensures var block := [a, escape];
      && Fitted(block, {REQUEST_TOOLS, a.name.value}, sizing, 1) == block && sizing.cost(block) > 1
      && Fitted(block, {REQUEST_TOOLS}, sizing, 1) == [escape]
  {
    var block := [a, escape];
    TwoRanked(a, escape, {REQUEST_TOOLS, a.name.value}, {});
    TwoRanked(a, escape, {REQUEST_TOOLS}, {});
    SecondIsDropped(block, a, escape, {REQUEST_TOOLS, a.name.value}, sizing);
    SecondIsDropped(block, escape, a, {REQUEST_TOOLS}, sizing);
    assert NameOf(escape) - {REQUEST_TOOLS} == {} && NameOf(a) - {REQUEST_TOOLS} == NameOf(a);
    WithoutOthers(block, {});
    WithoutTheFirst(a, escape);
  }

  lemma WithoutTheFirst(a: Entry, b: Entry)
    requires a.name.Some? && b.name.Some? && a.name != b.name
    ensures Without([a, b], NameOf(a)) == [b]
  {
    assert [a, b][..1] == [a] && [a][..0] == [];
    assert Without([a], NameOf(a)) == [];
  }

  lemma SecondIsDropped(block: Block, a: Entry, b: Entry, keepFirst: set<string>, sizing: Sizing)
    requires Ranked(block, keepFirst, sizing.mainLeg) == [a, b] && forall c :: sizing.cost(c) == |c|
    ensures Dropped(block, keepFirst, sizing, 1) == NameOf(b)
  {
    SecondIsPassed(a, b, sizing.cost);
  }

  /** Of two entries that cost one each, room for one keeps the first. */
  lemma SecondIsPassed(a: Entry, b: Entry, cost: Block -> nat)
    requires forall c :: cost(c) == |c|
    ensures Chosen([a, b], cost, 1) == [a] && Passed([a, b], cost, 1) == NameOf(b)
    ensures Popped([a], cost, 1) == {}
  {
    assert [a, b][..1] == [a] && [a][..0] == [];
    assert Chosen([a], cost, 1) == [a] && Passed([a], cost, 1) == {} && Summed([a], cost) == 1;
  }

  lemma TwoRanked(a: Entry, escape: Entry, keepFirst: set<string>, mainLeg: set<string>)
    requires a.name.Some? && a.name != Some(REQUEST_TOOLS) && escape.name == Some(REQUEST_TOOLS)
    requires REQUEST_TOOLS in keepFirst && mainLeg == {}
    ensures Ranked([a, escape], keepFirst, mainLeg) ==
            if a.name.value in keepFirst then [a, escape] else [escape, a]
  {
    RankedTwo(a, escape, keepFirst);
  }

  lemma RankedTwo(a: Entry, b: Entry, keepFirst: set<string>)
    ensures Ranked([a, b], keepFirst, {}) ==
            if NamedAmong(b, keepFirst) && !NamedAmong(a, keepFirst) then [b, a] else [a, b]
  {
    RankedTwoBy(a, b, keepFirst, {});
  }

  lemma RankedTwoBy(a: Entry, b: Entry, keepFirst: set<string>, mainLeg: set<string>)
    ensures Ranked([a, b], keepFirst, mainLeg) ==
            if Rank(b, keepFirst, mainLeg) < Rank(a, keepFirst, mainLeg) then [b, a] else [a, b]
  {
    RankOfTwo(a, b, 0, keepFirst, mainLeg);
    RankOfTwo(a, b, 1, keepFirst, mainLeg);
    RankOfTwo(a, b, 2, keepFirst, mainLeg);
  }

  lemma RankOfTwo(a: Entry, b: Entry, rank: nat, keepFirst: set<string>, mainLeg: set<string>)
    ensures OfRank([a, b], rank, keepFirst, mainLeg) ==
      (if Rank(a, keepFirst, mainLeg) == rank then [a] else []) + (if Rank(b, keepFirst, mainLeg) == rank then [b] else [])
  {
    assert [a, b][..1] == [a] && [a][..0] == [] && OfRank([], rank, keepFirst, mainLeg) == [];
    assert OfRank([a], rank, keepFirst, mainLeg) ==
      OfRank([a][..0], rank, keepFirst, mainLeg) + if Rank(a, keepFirst, mainLeg) == rank then [a] else [];
  }

  lemma WithoutTheSecond(a: Entry, b: Entry)
    requires a.name.Some? && b.name.Some? && a.name != b.name
    ensures Without([a, b], NameOf(b)) == [a]
  {
    assert [a, b][..1] == [a] && [a][..0] == [];
    assert Without([a], NameOf(b)) == Without([a][..0], NameOf(b)) + [a];
  }

  /** Fitting again, whatever is protected then, changes nothing when request_tools was among the kept. */
  lemma FitIsIdempotent(block: Block, keepFirst: set<string>, again: set<string>, sizing: Sizing, room: int)
    requires UniqueNames(block) && OrderFree(sizing.cost) && CostsItsEntries(sizing.cost)
    requires REQUEST_TOOLS in Names(block) ==> REQUEST_TOOLS in Names(Kept(block, keepFirst, sizing, room))
    ensures var fitted := Fitted(block, keepFirst, sizing, room);
      Fitted(fitted, again, sizing, room) == fitted
  {
    var fitted := Fitted(block, keepFirst, sizing, room);
    FitIsWithinRoom(block, keepFirst, sizing, room);
    if fitted == [] {
      assert Fitted([], again, sizing, room) == [];
    } else {
      FittingWhatFitsChangesNothing(fitted, again, sizing, room);
    }
  }

  /** An entry that fits no room by itself is passed, and the others are kept when they fit together. */
  lemma {:induction false} AllButOneChosen(ranked: Block, e: Entry, cost: Block -> nat, room: int)
    requires multiset(ranked)[e] == 1 && cost([e]) > room && Summed(ranked, cost) - cost([e]) <= room
    ensures var chosen := Chosen(ranked, cost, room);
      && multiset(chosen) + multiset{e} == multiset(ranked) && Passed(ranked, cost, room) == NameOf(e)
      && Summed(chosen, cost) == Summed(ranked, cost) - cost([e])
  {
    LastOf(ranked);
    var init, last := ranked[..|ranked| - 1], ranked[|ranked| - 1];
    if last == e {
      AllChosen(init, cost, room);
    } else {
      AllButOneChosen(init, e, cost, room);
      OneMoreChosen(Chosen(init, cost, room), last, cost);
    }
  }

  lemma OneMoreChosen(before: Block, last: Entry, cost: Block -> nat)
    ensures Summed(before + [last], cost) == Summed(before, cost) + cost([last])
    ensures multiset(before + [last]) == multiset(before) + multiset{last}
  {
    assert (before + [last])[..|before|] == before;
  }

  /** When request_tools alone is over the room, a fit's block is that entry beside what fits, and every
      later fit leaves it so. */
  lemma RefitWithoutRoom(block: Block, escape: Entry, keepFirst: set<string>, again: set<string>, sizing: Sizing, room: int)
    requires UniqueNames(block) && OrderFree(sizing.cost) && CostsItsEntries(sizing.cost)
    requires escape in block && escape.name == Some(REQUEST_TOOLS) && sizing.cost([escape]) > room
    ensures var fitted := Fitted(block, keepFirst, sizing, room); Fitted(fitted, again, sizing, room) == fitted
  {
    var fitted, kept := Fitted(block, keepFirst, sizing, room), Kept(block, keepFirst, sizing, room);
    FittedIsKeptAndEscape(block, escape, keepFirst, sizing, room);
    RankedIsPermutation(fitted, again, sizing.mainLeg);
    OnlyTheEscapeDropped(fitted, kept, escape, again, sizing, room);
    assert NameOf(escape) - {REQUEST_TOOLS} == {};
    WithoutOthers(fitted, {});
  }

  lemma OnlyTheEscapeDropped(fitted: Block, kept: Block, escape: Entry, again: set<string>, sizing: Sizing, room: int)
    requires OrderFree(sizing.cost) && CostsItsEntries(sizing.cost) && sizing.cost([escape]) > room
    requires escape !in kept && (kept == [] || sizing.cost(kept) <= room)
    requires multiset(Ranked(fitted, again, sizing.mainLeg)) == multiset(kept) + multiset{escape}
    ensures Dropped(fitted, again, sizing, room) == NameOf(escape)
  {
    var ranked := Ranked(fitted, again, sizing.mainLeg);
    if kept == [] {
      OneLong(ranked, escape);
      AlonePassed(escape, sizing.cost, room);
    } else {
      EscapePassed(ranked, kept, escape, sizing.cost, room);
    }
  }

  lemma AlonePassed(e: Entry, cost: Block -> nat, room: int)
    requires cost([e]) > room
    ensures Passed([e], cost, room) == NameOf(e) && Chosen([e], cost, room) == []
  {
    assert [e][..0] == [];
  }

  lemma EscapePassed(ranked: Block, kept: Block, escape: Entry, cost: Block -> nat, room: int)
    requires OrderFree(cost) && CostsItsEntries(cost) && cost([escape]) > room
    requires escape !in kept && cost(kept) <= room && multiset(ranked) == multiset(kept) + multiset{escape}
    ensures Passed(ranked, cost, room) == NameOf(escape) && Popped(Chosen(ranked, cost, room), cost, room) == {}
  {
    assert Summed(kept, cost) <= cost(kept);
    OneMoreChosen(kept, escape, cost);
    SummedByContents(kept + [escape], ranked, cost);
    assert multiset(kept)[escape] == 0;
    AllButOneChosen(ranked, escape, cost, room);
    var chosen := Chosen(ranked, cost, room);
    Cancelled(multiset(chosen), multiset(kept), escape);
    assert cost(chosen) == cost(kept);
  }

  lemma OneLong(block: Block, e: Entry)
    requires multiset(block) == multiset{e}
    ensures block == [e]
  {
    assert |multiset(block)| == |block| && block[0] in multiset(block);
  }

  lemma FittedIsKeptAndEscape(block: Block, escape: Entry, keepFirst: set<string>, sizing: Sizing, room: int)
    requires UniqueNames(block) && CostsItsEntries(sizing.cost)
    requires escape in block && escape.name == Some(REQUEST_TOOLS) && sizing.cost([escape]) > room
    ensures var kept := Kept(block, keepFirst, sizing, room);
      && escape !in kept && (kept == [] || sizing.cost(kept) <= room)
      && multiset(Fitted(block, keepFirst, sizing, room)) == multiset(kept) + multiset{escape}
  {
    var fitted, kept := Fitted(block, keepFirst, sizing, room), Kept(block, keepFirst, sizing, room);
    FitLeavesTheKept(block, keepFirst, sizing, room);
    DroppedIsTheRest(block, keepFirst, sizing, room);
    assert Summed(kept, sizing.cost) <= sizing.cost(kept);
    if escape in kept {
      OneCostsNoMore(kept, escape, sizing.cost);
      assert false;
    }
    FittedUnique(block, keepFirst, sizing, room);
    forall e ensures multiset(fitted)[e] == (multiset(kept) + multiset{escape})[e] {
      assert (e in fitted <==> e in multiset(fitted)) && (e in kept <==> e in multiset(kept));
    }
  }

  lemma FittedUnique(block: Block, keepFirst: set<string>, sizing: Sizing, room: int)
    requires UniqueNames(block)
    ensures UniqueNames(Fitted(block, keepFirst, sizing, room))
  {
    var fitted := Fitted(block, keepFirst, sizing, room);
    WithoutIs(block, Dropped(block, keepFirst, sizing, room) - {REQUEST_TOOLS});
    forall e | e in fitted ensures e in block && multiset(fitted)[e] == 1 {
      assert e in multiset(fitted) && e in multiset(block);
    }
  }

  /** The sum of single costs depends only on which entries there are. */
  lemma {:induction false} SummedByContents(a: Block, b: Block, cost: Block -> nat)
    requires multiset(a) == multiset(b)
    ensures Summed(a, cost) == Summed(b, cost)
    decreases |a|
  {
    if a == [] {
      assert |multiset(b)| == |b|;
    } else {
      LastOf(a);
      var e := a[|a| - 1];
      assert e in multiset(b);
      var i :| 0 <= i < |b| && b[i] == e;
      WithoutPlace(b, i);
      Cancelled(multiset(a[..|a| - 1]), multiset(b[..i] + b[i + 1..]), e);
      SummedByContents(a[..|a| - 1], b[..i] + b[i + 1..], cost);
      SummedWithout(b, i, cost);
    }
  }

  lemma Cancelled(x: multiset<Entry>, y: multiset<Entry>, e: Entry)
    requires x + multiset{e} == y + multiset{e}
    ensures x == y
  {
    forall f ensures x[f] == y[f] {
      assert (x + multiset{e})[f] == (y + multiset{e})[f];
    }
  }

  lemma WithoutPlace(b: Block, i: nat)
    requires i < |b|
    ensures multiset(b) == multiset(b[..i] + b[i + 1..]) + multiset{b[i]}
  {
    assert b == b[..i] + [b[i]] + b[i + 1..];
  }

  lemma {:induction false} SummedWithout(b: Block, i: nat, cost: Block -> nat)
    requires i < |b|
    ensures Summed(b, cost) == Summed(b[..i] + b[i + 1..], cost) + cost([b[i]])
    decreases |b|
  {
    if i == |b| - 1 {
      assert b[..i] + b[i + 1..] == b[..|b| - 1];
    } else {
      var init := b[..|b| - 1];
      SummedWithout(init, i, cost);
      var rest := b[..i] + b[i + 1..];
      assert rest[..|rest| - 1] == init[..i] + init[i + 1..];
    }
  }

  /** A fit is one for good, whatever later fits protect, exactly when it brought the block within the room
      or request_tools alone is over it. */
  lemma FitsOnceExactly(block: Block, escape: Entry, keepFirst: set<string>, sizing: Sizing, room: int)
    requires UniqueNames(block) && OrderFree(sizing.cost) && CostsItsEntries(sizing.cost)
    requires escape in block && escape.name == Some(REQUEST_TOOLS)
    ensures var fitted := Fitted(block, keepFirst, sizing, room);
      (forall again :: Fitted(fitted, again, sizing, room) == fitted) <==>
      sizing.cost(fitted) <= room || sizing.cost([escape]) > room
  {
    var fitted := Fitted(block, keepFirst, sizing, room);
    if sizing.cost(fitted) <= room {
      forall again ensures Fitted(fitted, again, sizing, room) == fitted {
        FittingWhatFitsChangesNothing(fitted, again, sizing, room);
      }
    } else if sizing.cost([escape]) > room {
      forall again ensures Fitted(fitted, again, sizing, room) == fitted {
        RefitWithoutRoom(block, escape, keepFirst, again, sizing, room);
      }
    } else {
      FittedUnique(block, keepFirst, sizing, room);
      FitLeavesTheKept(block, keepFirst, sizing, room);
      FitsExactlyWhenTheEscapeFits(fitted, escape, sizing, room);
      assert Fitted(fitted, {REQUEST_TOOLS}, sizing, room) != fitted;
    }
  }
}

/** Attaching, deferring and fitting over any run: every schema entry stays executable, nothing is
    lost for good, and the report names what a seat really holds. */
module AttachLaws {
  import opened Options
  import opened ToolMenu
  import opened ToolMenuLaws

  /** Every name a seat's schema shows can be run; a helper without a readable schema shows none. */
  predicate Executable(s: Seats) {
    && Names(s.helper) <= s.functions
    && Names(s.executor) <= s.functions
    && s.ledger <= s.functions
    && (!s.helperReads ==> s.helper == [])
  }

  /** This tool needs no more attaching. */
  predicate Satisfied(s: Seats, name: string, propose: bool) {
    !NeedsHelper(s, name) && !NeedsProposer(s, name, propose)
  }

  /** Nothing on a schema, in the function map or in the ledger was lost. */
  predicate Grew(s: Seats, s': Seats) {
    && Names(s.helper) <= Names(s'.helper) && Names(s.executor) <= Names(s'.executor)
    && s.functions <= s'.functions && s.ledger <= s'.ledger && s'.helperReads == s.helperReads
  }

  lemma RegisteredNames(block: Block, tool: Tool)
    ensures Names(Registered(block, tool)) == Names(block) + {tool.name}
  {
    WithoutIs(block, {tool.name});
    LastOf(Registered(block, tool));
    assert Registered(block, tool)[..|Without(block, {tool.name})|] == Without(block, {tool.name});
  }

  lemma AttachGrows(s: Seats, tool: Tool, propose: bool)
    ensures Grew(s, Attach(s, tool, propose))
    ensures Executable(s) ==> Executable(Attach(s, tool, propose))
    ensures tool.available ==> Satisfied(Attach(s, tool, propose), tool.name, propose)
    ensures Names(Attach(s, tool, propose).helper) <= Names(s.helper) + {tool.name}
    ensures Names(Attach(s, tool, propose).executor) <= Names(s.executor) + if propose then {tool.name} else {}
  {
    RegisteredNames(s.helper, tool);
    RegisteredNames(s.executor, tool);
  }

  lemma {:induction false} AttachEachGrows(p: Progress, tools: seq<Tool>, pick: Tool -> bool, propose: Tool -> bool)
    ensures var q := AttachEach(p, tools, pick, propose);
      && Grew(p.seats, q.seats) && (Executable(p.seats) ==> Executable(q.seats))
      && p.attached <= q.attached && p.toProposer <= q.toProposer
      && (forall t :: t in tools && pick(t) && t.available ==> Satisfied(q.seats, t.name, propose(t)))
  {
    if tools != [] {
      var init, tool := tools[..|tools| - 1], tools[|tools| - 1];
      AttachEachGrows(p, init, pick, propose);
      var before := AttachEach(p, init, pick, propose);
      AttachGrows(before.seats, tool, propose(tool));
      assert tools == init + [tool];
    }
  }

  /** Attaching again what is already attached adds nothing. */
  lemma {:induction false} AttachingAgainAddsNothing(s: Seats, p: Progress, tools: seq<Tool>, pick: Tool -> bool, propose: Tool -> bool)
    requires p.seats == s && p.attached == []
    requires forall t :: t in tools && pick(t) && t.available ==> Satisfied(s, t.name, propose(t))
    ensures AttachEach(p, tools, pick, propose).seats == s && AttachEach(p, tools, pick, propose).attached == []
  {
    if tools != [] {
      var init, tool := tools[..|tools| - 1], tools[|tools| - 1];
      assert tools == init + [tool];
      AttachingAgainAddsNothing(s, p, init, pick, propose);
    }
  }

  /** A tool a turn names goes back on the helper's schema, whatever was deferred before. */
  lemma NamedAgainGoesBack(s: Seats, names: set<string>, registry: seq<Tool>, core: seq<Tool>, tool: Tool)
    requires tool in registry + core && tool.available && tool.name in names
    ensures var after := AttachForNames(s, names, registry, core).seats;
      && tool.name in after.ledger
      && (s.helperReads ==> tool.name in Names(after.helper))
      && (Names(s.executor) != {} ==> tool.name in Names(after.executor))
  {
    var pick := (t: Tool) => t.name in names;
    var proposes := Names(s.executor) != {};
    var propose := (t: Tool) => proposes;
    var first := AttachEach(Start(s), registry, pick, propose);
    AttachEachGrows(Start(s), registry, pick, propose);
    AttachEachGrows(first, core, pick, propose);
    assert AttachForNames(s, names, registry, core) == AttachEach(first, core, pick, propose);
    var after := AttachEach(first, core, pick, propose).seats;
    assert Satisfied(first.seats, tool.name, proposes) || Satisfied(after, tool.name, proposes);
  }

  /** Naming the same tools twice, with no fit in between, attaches nothing the second time. */
  lemma NamingTwiceAddsNothing(s: Seats, names: set<string>, registry: seq<Tool>, core: seq<Tool>)
    ensures var once := AttachForNames(s, names, registry, core).seats;
      AttachForNames(once, names, registry, core).seats == once && AttachForNames(once, names, registry, core).attached == []
  {
    var pick := (t: Tool) => t.name in names;
    var proposes := Names(s.executor) != {};
    var propose := (t: Tool) => proposes;
    var first := AttachEach(Start(s), registry, pick, propose);
    var once := AttachEach(first, core, pick, propose);
    AttachEachGrows(Start(s), registry, pick, propose);
    AttachEachGrows(first, core, pick, propose);
    assert AttachForNames(s, names, registry, core) == once;
    ProposesAsBefore(s, names, registry, core);
    var proposes' := Names(once.seats.executor) != {};
    var propose' := (t: Tool) => proposes';
    forall t | t in registry + core && pick(t) && t.available ensures Satisfied(once.seats, t.name, proposes) {
      if t in registry {
        assert Satisfied(first.seats, t.name, proposes);
      }
    }
    AttachingAgainAddsNothing(once.seats, Start(once.seats), registry, pick, propose');
    var again := AttachEach(Start(once.seats), registry, pick, propose');
    AttachingAgainAddsNothing(once.seats, again, core, pick, propose');
    assert AttachForNames(once.seats, names, registry, core) == AttachEach(again, core, pick, propose');
  }

  /** Attaching by the same tags twice, with no fit in between, attaches nothing the second time. */
  lemma TaggingTwiceAddsNothing(s: Seats, tags: set<string>, registry: seq<Tool>)
    ensures var once := AttachForTags(s, tags, registry).seats;
      AttachForTags(once, tags, registry).seats == once && AttachForTags(once, tags, registry).attached == []
  {
    var pick, propose := (t: Tool) => t.tags * tags != {}, (t: Tool) => false;
    var once := AttachEach(Start(s), registry, pick, propose).seats;
    AttachEachGrows(Start(s), registry, pick, propose);
    assert AttachForTags(s, tags, registry).seats == once;
    AttachingAgainAddsNothing(once, Start(once), registry, pick, propose);
    assert AttachForTags(once, tags, registry) == AttachEach(Start(once), registry, pick, propose);
  }

  lemma {:induction false} NothingProposed(p: Progress, tools: seq<Tool>, pick: Tool -> bool, propose: Tool -> bool)
    requires forall t :: !propose(t)
    ensures AttachEach(p, tools, pick, propose).seats.executor == p.seats.executor
    ensures AttachEach(p, tools, pick, propose).toProposer == p.toProposer
  {
    if tools != [] {
      NothingProposed(p, tools[..|tools| - 1], pick, propose);
    }
  }

  lemma ProposesAsBefore(s: Seats, names: set<string>, registry: seq<Tool>, core: seq<Tool>)
    ensures (Names(AttachForNames(s, names, registry, core).seats.executor) != {}) == (Names(s.executor) != {})
  {
    var pick := (t: Tool) => t.name in names;
    var proposes := Names(s.executor) != {};
    var propose := (t: Tool) => proposes;
    var first := AttachEach(Start(s), registry, pick, propose);
    AttachEachGrows(Start(s), registry, pick, propose);
    AttachEachGrows(first, core, pick, propose);
    if !proposes {
      NothingProposed(Start(s), registry, pick, propose);
      NothingProposed(first, core, pick, propose);
    }
    assert AttachForNames(s, names, registry, core) == AttachEach(first, core, pick, propose);
  }

  // ------------------------------------------------------------ what discovery reports

  /** What a run of attaches has put where. */
  ghost predicate Attached(s: Seats, p: Progress) {
    && (forall n :: n in p.attached ==> n in p.seats.ledger && (p.seats.helperReads ==> n in Names(p.seats.helper)))
    && (forall n :: n in p.toProposer ==> n in p.attached && n in Names(p.seats.executor) && n !in Names(s.executor))
    && (forall n :: n in Names(p.seats.executor) && n !in Names(s.executor) ==> n in p.toProposer)
  }

  lemma {:induction false} AttachEachReports(s: Seats, p: Progress, tools: seq<Tool>, pick: Tool -> bool, propose: Tool -> bool)
    requires Attached(s, p) && Grew(s, p.seats)
    ensures Attached(s, AttachEach(p, tools, pick, propose)) && Grew(s, AttachEach(p, tools, pick, propose).seats)
  {
    if tools != [] {
      AttachEachReports(s, p, tools[..|tools| - 1], pick, propose);
      AttachOneReports(s, AttachEach(p, tools[..|tools| - 1], pick, propose), tools[|tools| - 1], propose(tools[|tools| - 1]));
    }
  }

  lemma AttachOneReports(s: Seats, p: Progress, tool: Tool, propose: bool)
    requires Attached(s, p) && Grew(s, p.seats)
    ensures Attached(s, AttachOne(p, tool, propose)) && Grew(s, AttachOne(p, tool, propose).seats)
  {
    AttachGrows(p.seats, tool, propose);
  }

  lemma {:induction false} ReportedIs(attached: seq<string>, onProposer: set<string>, offHelper: set<string>, n: string)
    ensures n in Reported(attached, onProposer, offHelper) <==> n in attached && (n in onProposer || n !in offHelper)
  {
    if attached != [] {
      assert attached == attached[..|attached| - 1] + [attached[|attached| - 1]];
      ReportedIs(attached[..|attached| - 1], onProposer, offHelper, n);
    }
  }

  lemma FittedForNames(block: Block, protect: seq<string>, turnProtect: set<string>, sizing: Sizing, room: int)
    ensures Names(FittedFor(block, protect, turnProtect, sizing, room)) <= Names(block)
    ensures protect == [] ==> FittedFor(block, protect, turnProtect, sizing, room) == block
  {
    if protect != [] {
      var dropped := Dropped(block, KeepFirst(Members(protect), turnProtect), sizing, room);
      WithoutIs(block, dropped - {REQUEST_TOOLS});
    }
  }

  /** A name is on a seat the pair's model reads. */
  predicate OnASeat(s: Seats, name: string) {
    name in Names(s.helper) || name in Names(s.executor)
  }

  /** What the fit of a seat gives up, told from the block before it. */
  function GivenUp(block: Block, protect: seq<string>, turnProtect: set<string>, sizing: Sizing, room: int): set<string> {
    if protect == [] then {}
    else Dropped(block, KeepFirst(Members(protect), turnProtect), sizing, room) - {REQUEST_TOOLS}
  }

  lemma FittedNames(block: Block, protect: seq<string>, turnProtect: set<string>, sizing: Sizing, room: int)
    ensures Names(FittedFor(block, protect, turnProtect, sizing, room)) ==
            Names(block) - GivenUp(block, protect, turnProtect, sizing, room)
  {
    WithoutIs(block, GivenUp(block, protect, turnProtect, sizing, room));
  }

  /** A name the report misses: the proposer showed it before the request, so this request did not put it
      there, and of the two fits only the helper's gives it up. */
  predicate Missed(s: Seats, p: Progress, helperTurn: set<string>, executorTurn: set<string>, sizing: Sizing, room: int, n: string) {
    && n in Names(s.executor)
    && n in GivenUp(p.seats.helper, p.attached, helperTurn, sizing, room)
    && n !in GivenUp(p.seats.executor, p.toProposer, executorTurn, sizing, room)
  }

  /** A helper with no schema to read shows no tool. */
  predicate ReadsOrBare(s: Seats) {
    s.helperReads || s.helper == []
  }

  /** What discover_and_attach says is ready, told from the pair before its fits: every name it reports was
      attached and is, where the helper's schema can be read, on a seat after both; and a name it attached
      is reported exactly when it is on one, unless it is missed. */
  lemma ReadyIsOnASeat(s: Seats, p: Progress, helperTurn: set<string>, executorTurn: set<string>, sizing: Sizing,
                       room: int, n: string)
    requires ReadsOrBare(p.seats) && Attached(s, p) && Grew(s, p.seats)
    ensures var after := DiscoveredSeats(p, helperTurn, executorTurn, sizing, room);
      && (!p.seats.helperReads ==> (n in Ready(p, after) <==> n in p.attached))
      && (p.seats.helperReads && n in Ready(p, after) ==> n in p.attached && OnASeat(after, n))
      && (p.seats.helperReads && n in p.attached ==>
            ((n in Ready(p, after) <==> OnASeat(after, n)) <==>
             !Missed(s, p, helperTurn, executorTurn, sizing, room, n)))
  {
    var after := DiscoveredSeats(p, helperTurn, executorTurn, sizing, room);
    ReportedIs(p.attached, Members(p.toProposer) * Names(after.executor), Names(p.seats.helper) - Names(after.helper), n);
    FittedNames(p.seats.executor, p.toProposer, executorTurn, sizing, room);
    FittedNames(p.seats.helper, p.attached, helperTurn, sizing, room);
  }

  /** When nothing it attached was on the proposer before, ready is exactly what is on a seat. */
  lemma NewToTheProposerIsReported(s: Seats, p: Progress, helperTurn: set<string>, executorTurn: set<string>,
                                   sizing: Sizing, room: int)
    requires p.seats.helperReads && Attached(s, p) && Grew(s, p.seats)
    requires forall n :: n in p.attached ==> n !in Names(s.executor)
    ensures var after := DiscoveredSeats(p, helperTurn, executorTurn, sizing, room);
      forall n :: n in Ready(p, after) <==> n in p.attached && OnASeat(after, n)
  {
    forall n ensures var after := DiscoveredSeats(p, helperTurn, executorTurn, sizing, room);
      n in Ready(p, after) <==> n in p.attached && OnASeat(after, n)
    {
      ReadyIsOnASeat(s, p, helperTurn, executorTurn, sizing, room, n);
    }
  }

  /** When what the request attached, and what the turn protects, fits the helper's room on its own, all
      it attached is ready, on the helper. */
  lemma RoomForAllMakesAllReady(s: Seats, p: Progress, helperTurn: set<string>, executorTurn: set<string>,
                                sizing: Sizing, room: int)
    requires p.seats.helperReads && Attached(s, p) && Grew(s, p.seats)
    requires UniqueNames(p.seats.helper) && OrderFree(sizing.cost) && CostsItsEntries(sizing.cost)
    requires sizing.cost(Protected(p.seats.helper, KeepFirst(Members(p.attached), helperTurn))) <= room
    ensures var after := DiscoveredSeats(p, helperTurn, executorTurn, sizing, room);
      forall n :: n in p.attached ==> n in Ready(p, after) && n in Names(after.helper)
  {
    var keepFirst := KeepFirst(Members(p.attached), helperTurn);
    var after := DiscoveredSeats(p, helperTurn, executorTurn, sizing, room);
    forall n | n in p.attached ensures n in Ready(p, after) && n in Names(after.helper) {
      FitKeepsTheProtected(p.seats.helper, keepFirst, sizing, room);
      var e :| e in p.seats.helper && n in NameOf(e);
      assert e in after.helper && n in NameOf(e);
      ReportedIs(p.attached, Members(p.toProposer) * Names(after.executor), Names(p.seats.helper) - Names(after.helper), n);
    }
  }

  /** A tool the proposer shows already, attached to a helper with no room for it, is on a seat and is not
      reported ready. */
  lemma AnAttachedToolIsMissed(tool: Tool, matches: Tool -> bool, named: Tool -> bool, listing: set<string> -> seq<string>,
                               sizing: Sizing, room: int)
    requires tool.available && tool.name != REQUEST_TOOLS && matches(tool) && listing({tool.name}) == [tool.name]
    requires sizing.cost([Entry(Some(tool.name), tool.description)]) > room
    ensures var entry := Entry(Some(tool.name), tool.description);
      var s := Seats([], true, [entry], {tool.name}, {});
      var p := Discovered(s, matches, named, [tool], [], listing);
      var after := DiscoveredSeats(p, {}, {}, sizing, room);
      && p.attached == [tool.name] && Missed(s, p, {}, {}, sizing, room, tool.name)
      && OnASeat(after, tool.name) && Ready(p, after) == []
  {
    var n, entry := tool.name, Entry(Some(tool.name), tool.description);
    var s := Seats([], true, [entry], {n}, {});
    var p := Discovered(s, matches, named, [tool], [], listing);
    assert entry in [entry] && n in NameOf(entry) && n in Names([entry]);
    MissedIsAttached(s, tool, matches, named, listing);
    OneDropped(entry, sizing, room);
    FittedNames(p.seats.helper, p.attached, {}, sizing, room);
    var after := DiscoveredSeats(p, {}, {}, sizing, room);
    assert after.executor == [entry];
    forall m ensures m !in Ready(p, after) {
      ReportedIs(p.attached, Members(p.toProposer) * Names(after.executor), Names(p.seats.helper) - Names(after.helper), m);
    }
    NoElements(Ready(p, after));
  }

  lemma NoElements(names: seq<string>)
    ensures (forall m :: m !in names) ==> names == []
  {
    if names != [] {
      assert names[0] in names;
    }
  }

  lemma MissedIsAttached(s: Seats, tool: Tool, matches: Tool -> bool, named: Tool -> bool, listing: set<string> -> seq<string>)
    requires tool.available && matches(tool) && listing({tool.name}) == [tool.name]
    requires var entry := Entry(Some(tool.name), tool.description);
      s == Seats([], true, [entry], {tool.name}, {}) && tool.name in Names([entry])
    ensures var entry := Entry(Some(tool.name), tool.description);
      Discovered(s, matches, named, [tool], [], listing) ==
      Progress(Seats([entry], true, [entry], {tool.name}, {tool.name}), [tool.name], [], [])
  {
    var n, entry := tool.name, Entry(Some(tool.name), tool.description);
    var p := Progress(Seats([entry], true, [entry], {n}, {n}), [n], [], []);
    var proposes := Names(s.executor) != {};
    var propose := (t: Tool) => proposes && named(t);
    var first := AttachEach(Start(s), [tool], matches, propose);
    assert [tool][..0] == [] && AttachEach(Start(s), [], matches, propose) == Start(s);
    assert Registered([], tool) == [entry] && [] + [n] == [n] && {n} + {n} == {n};
    assert first == p;
    assert AttachEach(p, [], matches, propose) == p;
    var again := FunctionTools([n]);
    assert again == [Tool(n, n, true, {})] && again[..0] == [];
    assert AttachEach(p, again, matches, propose) == p;
    assert Discovered(s, matches, named, [tool], [], listing) ==
           AttachEach(AttachEach(first, [], matches, propose), FunctionTools(listing(p.seats.functions)), matches, propose);
  }

  /** With no room for it, a fit that protects the block's one entry gives it up. */
  lemma OneDropped(entry: Entry, sizing: Sizing, room: int)
    requires entry.name.Some? && entry.name != Some(REQUEST_TOOLS) && sizing.cost([entry]) > room
    ensures GivenUp([entry], [entry.name.value], {}, sizing, room) == {entry.name.value}
  {
    var keepFirst := KeepFirst(Members([entry.name.value]), {});
    assert entry.name.value in Members([entry.name.value]) && Rank(entry, keepFirst, sizing.mainLeg) == 0;
    assert [entry][..0] == [];
    assert OfRank([entry], 0, keepFirst, sizing.mainLeg) == [entry];
    assert OfRank([], 1, keepFirst, sizing.mainLeg) == [] && OfRank([], 2, keepFirst, sizing.mainLeg) == [];
    assert OfRank([entry], 1, keepFirst, sizing.mainLeg) == OfRank([entry][..0], 1, keepFirst, sizing.mainLeg) + [];
    assert OfRank([entry], 2, keepFirst, sizing.mainLeg) == OfRank([entry][..0], 2, keepFirst, sizing.mainLeg) + [];
    assert Ranked([entry], keepFirst, sizing.mainLeg) == [entry];
    AlonePassed(entry, sizing.cost, room);
  }

  /** Discovery starts from nothing attached. */
  lemma DiscoveryReports(s: Seats, matches: Tool -> bool, named: Tool -> bool, registry: seq<Tool>, core: seq<Tool>,
                         listing: set<string> -> seq<string>)
    ensures var p := Discovered(s, matches, named, registry, core, listing);
      && Attached(s, p) && Grew(s, p.seats) && (Executable(s) ==> Executable(p.seats))
  {
    var proposes := Names(s.executor) != {};
    var propose := (t: Tool) => proposes && named(t);
    var first := AttachEach(Start(s), registry, matches, propose);
    var second := AttachEach(first, core, matches, propose);
    var tools := FunctionTools(listing(second.seats.functions));
    AttachEachReports(s, Start(s), registry, matches, propose);
    AttachEachReports(s, first, core, matches, propose);
    AttachEachReports(s, second, tools, matches, propose);
    AttachEachGrows(Start(s), registry, matches, propose);
    AttachEachGrows(first, core, matches, propose);
    AttachEachGrows(second, tools, matches, propose);
    assert Discovered(s, matches, named, registry, core, listing) == AttachEach(second, tools, matches, propose);
  }

  /** Deferral is not exclusion: a tool the executor can run that a need describes is put back on the
      helper's schema, before the fit. */
  lemma RunnableIsFound(s: Seats, matches: Tool -> bool, named: Tool -> bool, registry: seq<Tool>, core: seq<Tool>,
                        listing: set<string> -> seq<string>, name: string)
    requires s.helperReads && name in s.functions
    requires forall names, n :: n in names <==> n in listing(names)
    requires matches(Tool(name, name, true, {}))
    ensures name in Names(Discovered(s, matches, named, registry, core, listing).seats.helper)
  {
    var proposes := Names(s.executor) != {};
    var propose := (t: Tool) => proposes && named(t);
    var first := AttachEach(Start(s), registry, matches, propose);
    var second := AttachEach(first, core, matches, propose);
    var names := listing(second.seats.functions);
    AttachEachGrows(Start(s), registry, matches, propose);
    AttachEachGrows(first, core, matches, propose);
    AttachEachGrows(second, FunctionTools(names), matches, propose);
    assert name in names;
    var i :| 0 <= i < |names| && names[i] == name;
    assert FunctionTools(names)[i] == Tool(name, name, true, {});
    assert Tool(name, name, true, {}) in FunctionTools(names);
    assert Discovered(s, matches, named, registry, core, listing) == AttachEach(second, FunctionTools(names), matches, propose);
  }

  // ------------------------------------------------------------ a turn

  /** A turn that unlocks nothing new leaves the pair alone, so the same words twice attach and fit
      once. */
  lemma SameTurnTwice(s: Seats, unlocked: set<string>, resolved: set<string>, family: string -> set<string>,
                      registry: seq<Tool>, helperTurn: set<string>, executorTurn: set<string>, sizing: Sizing, room: int)
    ensures var (once, unlocked') := TurnAttached(s, unlocked, resolved, family, registry, helperTurn, executorTurn, sizing, room);
      && TurnAttached(once, unlocked', resolved, family, registry, helperTurn, executorTurn, sizing, room) == (once, unlocked')
      && s.functions <= once.functions && s.ledger <= once.ledger && (Executable(s) ==> Executable(once))
  {
    var newTags := resolved - unlocked;
    if newTags != {} {
      assert resolved - (unlocked + newTags) == {};
      var tags := Families(newTags, family);
      AttachEachGrows(Start(s), registry, (t: Tool) => t.tags * tags != {}, (t: Tool) => false);
      var p := AttachForTags(s, tags, registry);
      var just := p.seats.ledger - s.ledger;
      DeferredNames(p.seats.helper, Dropped(p.seats.helper, KeepFirst(just, helperTurn), sizing, room));
      DeferredNames(p.seats.executor, Dropped(p.seats.executor, KeepFirst(just, executorTurn), sizing, room));
    }
  }

  /** A turn attaches the available tools of the families its words newly unlock, and no others. */
  lemma TurnAttachesItsFamilies(s: Seats, newTags: set<string>, family: string -> set<string>, registry: seq<Tool>)
    ensures var p := AttachForTags(s, Families(newTags, family), registry);
      && (forall t, tag, f :: t in registry && t.available && tag in newTags && f in family(tag) && f in t.tags ==>
            t.name in p.seats.ledger && (s.helperReads ==> t.name in Names(p.seats.helper)))
      && (forall n :: n in p.attached ==>
            exists t, tag, f :: t in registry && t.name == n && t.available && tag in newTags && f in family(tag) && f in t.tags)
  {
    var tags := Families(newTags, family);
    var pick, propose := (t: Tool) => t.tags * tags != {}, (t: Tool) => false;
    var p := AttachEach(Start(s), registry, pick, propose);
    AttachEachGrows(Start(s), registry, pick, propose);
    assert AttachForTags(s, tags, registry) == p;
    forall t, tag, f | t in registry && t.available && tag in newTags && f in family(tag) && f in t.tags
      ensures t.name in p.seats.ledger && (s.helperReads ==> t.name in Names(p.seats.helper))
    {
      assert f in t.tags * tags && pick(t);
    }
    forall n | n in p.attached
      ensures exists t, tag, f :: t in registry && t.name == n && t.available && tag in newTags && f in family(tag) && f in t.tags
    {
      OnlyTheAvailableAttached(Start(s), registry, pick, propose, n);
      var t :| t in registry && t.name == n && t.available && pick(t);
      var f :| f in t.tags * tags;
    }
  }

  lemma {:induction false} LedgerTakesTheAttached(s: Seats, p: Progress, tools: seq<Tool>, pick: Tool -> bool, propose: Tool -> bool)
    requires p.seats.ledger == s.ledger + Members(p.attached) && forall t :: !propose(t)
    ensures var q := AttachEach(p, tools, pick, propose); q.seats.ledger == s.ledger + Members(q.attached)
  {
    if tools != [] {
      LedgerTakesTheAttached(s, p, tools[..|tools| - 1], pick, propose);
      var before, tool := AttachEach(p, tools[..|tools| - 1], pick, propose), tools[|tools| - 1];
      assert Members(before.attached + [tool.name]) == Members(before.attached) + {tool.name};
    }
  }

  /** What a turn's fits protect, the names its attach added to the ledger, is precisely what it attached
      that was not in the ledger before; so they protect all of it exactly when none of it was. */
  lemma TurnProtectsTheNew(s: Seats, tags: set<string>, registry: seq<Tool>)
    ensures var p := AttachForTags(s, tags, registry);
      && p.seats.ledger - s.ledger == Members(p.attached) - s.ledger
      && (Members(p.attached) <= p.seats.ledger - s.ledger <==> Members(p.attached) !! s.ledger)
  {
    assert Members([]) == {};
    LedgerTakesTheAttached(s, Start(s), registry, (t: Tool) => t.tags * tags != {}, (t: Tool) => false);
  }

  /** Those stay on the helper's schema when, with what the turn protects, they fit the room on their own. */
  lemma TheNewStay(s: Seats, unlocked: set<string>, resolved: set<string>, family: string -> set<string>,
                   registry: seq<Tool>, helperTurn: set<string>, executorTurn: set<string>, sizing: Sizing, room: int)
    requires s.helperReads && OrderFree(sizing.cost) && CostsItsEntries(sizing.cost)
    requires var p := AttachForTags(s, Families(resolved - unlocked, family), registry);
      && UniqueNames(p.seats.helper)
      && sizing.cost(Protected(p.seats.helper, KeepFirst(Members(p.attached) - s.ledger, helperTurn))) <= room
    ensures var p := AttachForTags(s, Families(resolved - unlocked, family), registry);
      var after := TurnAttached(s, unlocked, resolved, family, registry, helperTurn, executorTurn, sizing, room).0;
      resolved - unlocked != {} ==> Members(p.attached) - s.ledger <= Names(after.helper)
  {
    var tags := Families(resolved - unlocked, family);
    var p := AttachForTags(s, tags, registry);
    TurnProtectsTheNew(s, tags, registry);
    AttachEachReports(s, Start(s), registry, (t: Tool) => t.tags * tags != {}, (t: Tool) => false);
    var keepFirst := KeepFirst(Members(p.attached) - s.ledger, helperTurn);
    forall n | n in p.attached && n !in s.ledger ensures n in Names(Fitted(p.seats.helper, keepFirst, sizing, room)) {
      FitKeepsTheProtected(p.seats.helper, keepFirst, sizing, room);
      var e :| e in p.seats.helper && n in NameOf(e);
      assert e in Fitted(p.seats.helper, keepFirst, sizing, room) && n in NameOf(e);
    }
  }

  /** A tool in the ledger, taken off by an earlier fit and put back by this turn, is given up by the turn's
      own fit: attached, it is not on the helper after.  Its tag counts as unlocked, so the same words do
      not bring it back.  With the tool new to the ledger the same turn keeps it. */
  lemma AReattachedToolIsNotProtected(other: Entry, tool: Tool, tag: string, family: string -> set<string>, sizing: Sizing)
    requires other.name.Some? && other.name != Some(tool.name) && REQUEST_TOOLS !in NameOf(other) + {tool.name}
    requires tool.available && tool.tags == {tag} && family(tag) == {tag}
    requires sizing.mainLeg == {} && forall b :: sizing.cost(b) == |b|
    ensures var s := Seats([other], true, [], {tool.name}, {tool.name});
      && AttachForTags(s, Families({tag}, family), [tool]).attached == [tool.name]
      && TurnAttached(s, {}, {tag}, family, [tool], {}, {}, sizing, 1) == (s, {tag})
    ensures var s := Seats([other], true, [], {tool.name}, {});
      TurnAttached(s, {}, {tag}, family, [tool], {}, {}, sizing, 1).0.helper == [Entry(Some(tool.name), tool.description)]
  {
    assert Families({tag}, family) == {tag} by {
      assert tag in {tag} && tag in family(tag);
    }
    OneTurn(Seats([other], true, [], {tool.name}, {tool.name}), other, tool, tag, family, sizing);
    OneTurn(Seats([other], true, [], {tool.name}, {}), other, tool, tag, family, sizing);
    OneAttached(Seats([other], true, [], {tool.name}, {tool.name}), tool, tag);
  }

  lemma OneTurn(s: Seats, other: Entry, tool: Tool, tag: string, family: string -> set<string>, sizing: Sizing)
    requires other.name.Some? && other.name != Some(tool.name) && REQUEST_TOOLS !in NameOf(other) + {tool.name}
    requires tool.available && tool.tags == {tag} && Families({tag}, family) == {tag}
    requires sizing.mainLeg == {} && forall b :: sizing.cost(b) == |b|
    requires s == Seats([other], true, [], {tool.name}, s.ledger) && s.ledger <= {tool.name}
    ensures TurnAttached(s, {}, {tag}, family, [tool], {}, {}, sizing, 1) ==
      (s.(helper := if s.ledger == {} then [Entry(Some(tool.name), tool.description)] else [other], ledger := {tool.name}), {tag})
  {
    var entry := Entry(Some(tool.name), tool.description);
    var just := {tool.name} - s.ledger;
    OneAttached(s, tool, tag);
    assert {tag} - {} == {tag} && {} + {tag} == {tag};
    assert just == if s.ledger == {} then {tool.name} else {};
    FitOfTwo(other, entry, just, sizing);
    NothingToFit([], KeepFirst(just, {}), sizing, 1);
    assert [other] + [entry] == [other, entry];
  }

  lemma OneAttached(s: Seats, tool: Tool, tag: string)
    requires tool.available && tool.tags == {tag} && s.helperReads && |s.helper| == 1 && s.functions == {tool.name}
    requires s.helper[0].name.Some? && s.helper[0].name != Some(tool.name) && s.ledger <= {tool.name}
    ensures AttachForTags(s, {tag}, [tool]) ==
      Progress(s.(helper := s.helper + [Entry(Some(tool.name), tool.description)], ledger := {tool.name}), [tool.name], [], [])
  {
    var pick, propose := (t: Tool) => t.tags * {tag} != {}, (t: Tool) => false;
    assert s.helper == [s.helper[0]] && Names(s.helper) == NameOf(s.helper[0]) by {
      assert s.helper[0] in s.helper;
    }
    WithoutOthers(s.helper, {tool.name});
    assert [tool][..0] == [] && AttachEach(Start(s), [], pick, propose) == Start(s);
    assert tag in tool.tags * {tag} && pick(tool);
    assert s.functions + {tool.name} == s.functions && s.ledger + {tool.name} == {tool.name} && [] + [tool.name] == [tool.name];
    assert AttachEach(Start(s), [tool], pick, propose) == AttachOne(Start(s), tool, false);
    assert AttachForTags(s, {tag}, [tool]) == AttachEach(Start(s), [tool], pick, propose);
  }

  /** A block of two, of which only the second may be protected, and room for one. */
  lemma FitOfTwo(other: Entry, entry: Entry, just: set<string>, sizing: Sizing)
    requires other.name.Some? && entry.name.Some? && other.name != entry.name && just <= {entry.name.value}
    requires REQUEST_TOOLS !in NameOf(other) + NameOf(entry)
    requires sizing.mainLeg == {} && forall b :: sizing.cost(b) == |b|
    ensures Fitted([other, entry], KeepFirst(just, {}), sizing, 1) == if just == {} then [other] else [entry]
  {
    var keepFirst := KeepFirst(just, {});
    if just == {} {
      RankedTwo(other, entry, keepFirst);
      SecondIsDropped([other, entry], other, entry, keepFirst, sizing);
      WithoutTheSecond(other, entry);
      assert NameOf(entry) - {REQUEST_TOOLS} == NameOf(entry);
    } else {
      assert just == {entry.name.value};
      RankedTwo(other, entry, keepFirst);
      SecondIsDropped([other, entry], entry, other, keepFirst, sizing);
      WithoutTheFirst(other, entry);
      assert NameOf(other) - {REQUEST_TOOLS} == NameOf(other);
    }
  }

  // ------------------------------------------------------------ runs

  /** One thing done to a pair: any operation of the menu, with whatever it was asked. */
  datatype Op =
    | NameTools(names: set<string>, registry: seq<Tool>, core: seq<Tool>)
    | TagTools(tags: set<string>, registry: seq<Tool>)
    | Turn(unlocked: set<string>, resolved: set<string>, family: string -> set<string>, registry: seq<Tool>,
           helperTurn: set<string>, executorTurn: set<string>, room: int)
    | Discover(matches: Tool -> bool, named: Tool -> bool, registry: seq<Tool>, core: seq<Tool>,
               listing: set<string> -> seq<string>, helperTurn: set<string>, executorTurn: set<string>, room: int)
    | Defer(names: set<string>)
    | FitHelper(keepFirst: set<string>, room: int)
    | FitExecutor(keepFirst: set<string>, room: int)

  function Do(s: Seats, op: Op, sizing: Sizing): Seats {
    match op
    case NameTools(names, registry, core) => AttachForNames(s, names, registry, core).seats
    case TagTools(tags, registry) => AttachForTags(s, tags, registry).seats
    case Turn(unlocked, resolved, family, registry, helperTurn, executorTurn, room) =>
      TurnAttached(s, unlocked, resolved, family, registry, helperTurn, executorTurn, sizing, room).0
    case Discover(matches, named, registry, core, listing, helperTurn, executorTurn, room) =>
      DiscoveredSeats(Discovered(s, matches, named, registry, core, listing), helperTurn, executorTurn, sizing, room)
    case Defer(names) => s.(helper := Deferred(s.helper, names))
    case FitHelper(keepFirst, room) => s.(helper := Fitted(s.helper, keepFirst, sizing, room))
    case FitExecutor(keepFirst, room) => s.(executor := Fitted(s.executor, keepFirst, sizing, room))
  }

  function DoAll(s: Seats, ops: seq<Op>, sizing: Sizing): Seats
    decreases |ops|
  {
    if ops == [] then s else DoAll(Do(s, ops[0], sizing), ops[1..], sizing)
  }

  lemma DeferredNames(block: Block, names: set<string>)
    ensures Names(Deferred(block, names)) <= Names(block)
    ensures block == [] ==> Deferred(block, names) == []
    ensures REQUEST_TOOLS in Names(Deferred(block, names)) <==> REQUEST_TOOLS in Names(block)
  {
    WithoutIs(block, names - {REQUEST_TOOLS});
  }

  lemma DoKeepsExecutable(s: Seats, op: Op, sizing: Sizing)
    requires Executable(s)
    ensures var s' := Do(s, op, sizing);
      && Executable(s') && s.functions <= s'.functions && s.ledger <= s'.ledger && s'.helperReads == s.helperReads
      && (REQUEST_TOOLS in Names(s.helper) ==> REQUEST_TOOLS in Names(s'.helper))
      && (REQUEST_TOOLS in Names(s.executor) ==> REQUEST_TOOLS in Names(s'.executor))
  {
    match op
    case NameTools(names, registry, core) =>
      var pick := (t: Tool) => t.name in names;
      var proposes := Names(s.executor) != {};
      var propose := (t: Tool) => proposes;
      AttachEachGrows(Start(s), registry, pick, propose);
      AttachEachGrows(AttachEach(Start(s), registry, pick, propose), core, pick, propose);
      assert AttachForNames(s, names, registry, core) ==
             AttachEach(AttachEach(Start(s), registry, pick, propose), core, pick, propose);
    case TagTools(tags, registry) =>
      AttachEachGrows(Start(s), registry, (t: Tool) => t.tags * tags != {}, (t: Tool) => false);
    case Turn(unlocked, resolved, family, registry, helperTurn, executorTurn, room) =>
      TurnKeepsExecutable(s, unlocked, resolved, family, registry, helperTurn, executorTurn, sizing, room);
    case Discover(matches, named, registry, core, listing, helperTurn, executorTurn, room) =>
      DiscoveryReports(s, matches, named, registry, core, listing);
      var p := Discovered(s, matches, named, registry, core, listing);
      FitsKeepExecutable(p, helperTurn, executorTurn, sizing, room);
    case Defer(names) =>
      DeferredNames(s.helper, names);
    case FitHelper(keepFirst, room) =>
      DeferredNames(s.helper, Dropped(s.helper, keepFirst, sizing, room));
    case FitExecutor(keepFirst, room) =>
      DeferredNames(s.executor, Dropped(s.executor, keepFirst, sizing, room));
  }

  lemma TurnKeepsExecutable(s: Seats, unlocked: set<string>, resolved: set<string>, family: string -> set<string>,
                            registry: seq<Tool>, helperTurn: set<string>, executorTurn: set<string>, sizing: Sizing, room: int)
    requires Executable(s)
    ensures var s' := TurnAttached(s, unlocked, resolved, family, registry, helperTurn, executorTurn, sizing, room).0;
      && Executable(s') && s.functions <= s'.functions && s.ledger <= s'.ledger && s'.helperReads == s.helperReads
      && (REQUEST_TOOLS in Names(s.helper) ==> REQUEST_TOOLS in Names(s'.helper))
      && (REQUEST_TOOLS in Names(s.executor) ==> REQUEST_TOOLS in Names(s'.executor))
  {
    var newTags := resolved - unlocked;
    if newTags != {} {
      var tags := Families(newTags, family);
      AttachEachGrows(Start(s), registry, (t: Tool) => t.tags * tags != {}, (t: Tool) => false);
      var p := AttachForTags(s, tags, registry);
      var just := p.seats.ledger - s.ledger;
      DeferredNames(p.seats.helper, Dropped(p.seats.helper, KeepFirst(just, helperTurn), sizing, room));
      DeferredNames(p.seats.executor, Dropped(p.seats.executor, KeepFirst(just, executorTurn), sizing, room));
    }
  }

  lemma FitsKeepExecutable(p: Progress, helperTurn: set<string>, executorTurn: set<string>, sizing: Sizing, room: int)
    requires Executable(p.seats)
    ensures var s' := DiscoveredSeats(p, helperTurn, executorTurn, sizing, room);
      && Executable(s') && s'.functions == p.seats.functions && s'.ledger == p.seats.ledger
      && s'.helperReads == p.seats.helperReads
      && (REQUEST_TOOLS in Names(p.seats.helper) ==> REQUEST_TOOLS in Names(s'.helper))
      && (REQUEST_TOOLS in Names(p.seats.executor) ==> REQUEST_TOOLS in Names(s'.executor))
  {
    DeferredNames(p.seats.helper, Dropped(p.seats.helper, KeepFirst(Members(p.attached), helperTurn), sizing, room));
    DeferredNames(p.seats.executor, Dropped(p.seats.executor, KeepFirst(Members(p.toProposer), executorTurn), sizing, room));
  }

  /** Over every run: each name a schema shows is executable, the function map and the ledger never
      shrink, and request_tools, once shown, is always there to bring the rest back. */
  lemma {:induction false} RunsKeepExecutable(s: Seats, ops: seq<Op>, sizing: Sizing)
    requires Executable(s)
    ensures var s' := DoAll(s, ops, sizing);
      && Executable(s') && s.functions <= s'.functions && s.ledger <= s'.ledger && s'.helperReads == s.helperReads
      && (REQUEST_TOOLS in Names(s.helper) ==> REQUEST_TOOLS in Names(s'.helper))
      && (REQUEST_TOOLS in Names(s.executor) ==> REQUEST_TOOLS in Names(s'.executor))
    decreases |ops|
  {
    if ops != [] {
      DoKeepsExecutable(s, ops[0], sizing);
      RunsKeepExecutable(Do(s, ops[0], sizing), ops[1..], sizing);
    }
  }

  // ------------------------------------------------------------ what is attached can be

  /** Only available tools are attached. */
  lemma {:induction false} OnlyTheAvailableAttached(p: Progress, tools: seq<Tool>, pick: Tool -> bool, propose: Tool -> bool, n: string)
    requires n in AttachEach(p, tools, pick, propose).attached && n !in p.attached
    ensures exists t :: t in tools && t.name == n && t.available && pick(t)
  {
    var init, tool := tools[..|tools| - 1], tools[|tools| - 1];
    assert tools == init + [tool];
    if n in AttachEach(p, init, pick, propose).attached {
      OnlyTheAvailableAttached(p, init, pick, propose, n);
      var t :| t in init && t.name == n && t.available && pick(t);
      assert t in tools;
    } else {
      assert tool in tools;
    }
  }

  /** A tool whose service is down is reported as one that could be started, and is put on no seat, when no
      other of its name is up and the helper lacks it. */
  lemma {:induction false} TheDownAreStartable(p: Progress, tools: seq<Tool>, pick: Tool -> bool, propose: Tool -> bool, tool: Tool)
    requires tool in tools && pick(tool) && NeedsHelper(p.seats, tool.name)
    requires forall t :: t in tools && t.name == tool.name ==> !t.available
    ensures var q := AttachEach(p, tools, pick, propose);
      && tool.name in q.startable && NeedsHelper(q.seats, tool.name)
      && (tool.name in q.seats.functions <==> tool.name in p.seats.functions)
  {
    var init, last := tools[..|tools| - 1], tools[|tools| - 1];
    assert tools == init + [last];
    StillNeeded(p, init, pick, propose, tool.name);
    if tool in init {
      TheDownAreStartable(p, init, pick, propose, tool);
    }
    StillNeeded(p, tools, pick, propose, tool.name);
  }

  lemma {:induction false} StillNeeded(p: Progress, tools: seq<Tool>, pick: Tool -> bool, propose: Tool -> bool, n: string)
    requires NeedsHelper(p.seats, n) && forall t :: t in tools && t.name == n ==> !t.available
    ensures var q := AttachEach(p, tools, pick, propose);
      && NeedsHelper(q.seats, n) && (n in q.seats.functions <==> n in p.seats.functions)
      && p.startable <= q.startable
  {
    if tools != [] {
      var init, last := tools[..|tools| - 1], tools[|tools| - 1];
      assert tools == init + [last];
      StillNeeded(p, init, pick, propose, n);
      RegisteredNames(AttachEach(p, init, pick, propose).seats.helper, last);
    }
  }

  // ------------------------------------------------------------ what a discovery or a turn leaves fits

  /** After a discovery a seat it widened is within the room, when what it put there and what the turn
      protects fits on its own. */
  lemma DiscoveryFitsTheRoom(p: Progress, helperTurn: set<string>, executorTurn: set<string>, sizing: Sizing, room: int)
    requires OrderFree(sizing.cost) && CostsItsEntries(sizing.cost)
    requires UniqueNames(p.seats.helper) && UniqueNames(p.seats.executor)
    ensures var after := DiscoveredSeats(p, helperTurn, executorTurn, sizing, room);
      && (p.toProposer != []
          && sizing.cost(Protected(p.seats.executor, {REQUEST_TOOLS} + Members(p.toProposer) + executorTurn)) <= room ==>
            (after.executor == [] || sizing.cost(after.executor) <= room)
            && Spares(p.seats.executor, {REQUEST_TOOLS} + Members(p.toProposer) + executorTurn, after.executor))
      && (p.attached != []
          && sizing.cost(Protected(p.seats.helper, {REQUEST_TOOLS} + Members(p.attached) + helperTurn)) <= room ==>
            (after.helper == [] || sizing.cost(after.helper) <= room)
            && Spares(p.seats.helper, {REQUEST_TOOLS} + Members(p.attached) + helperTurn, after.helper))
  {
    if p.toProposer != []
       && sizing.cost(Protected(p.seats.executor, {REQUEST_TOOLS} + Members(p.toProposer) + executorTurn)) <= room {
      FitKeepsTheProtected(p.seats.executor, KeepFirst(Members(p.toProposer), executorTurn), sizing, room);
    }
    if p.attached != []
       && sizing.cost(Protected(p.seats.helper, {REQUEST_TOOLS} + Members(p.attached) + helperTurn)) <= room {
      FitKeepsTheProtected(p.seats.helper, KeepFirst(Members(p.attached), helperTurn), sizing, room);
    }
  }
}

/** A live helper/executor pair, its schemas and ledger updated in place. */
module AgentSeats {
  import opened Options
  import opened ToolMenu
  import opened ToolMenuLaws
  import opened AttachLaws

  /** A seat that reads tool schemas. */
  class Seat {
    const hasSchema: bool
    var tools: Block
    var turnProtect: set<string>

    constructor (hasSchema: bool, tools: Block)
      ensures this.hasSchema == hasSchema && this.tools == tools && turnProtect == {}
    {
      this.hasSchema := hasSchema;
      this.tools := tools;
      turnProtect := {};
    }

    /** defer_helper_schema: drop these names from what the model reads, request_tools never. */
    method DeferHelperSchema(names: set<string>) returns (removed: set<string>)
      modifies this`tools
      ensures tools == if hasSchema then Deferred(old(tools), names) else old(tools)
      ensures removed == if hasSchema then Names(old(tools)) * (names - {REQUEST_TOOLS}) else {}
    {
      removed := {};
      var drop := names - {REQUEST_TOOLS};
      if !hasSchema {
        return;
      }
      var block := tools;
      var kept: Block := [];
      for i := 0 to |block|
        invariant tools == block
        invariant kept == Without(block[..i], drop)
        invariant removed == Names(block[..i]) * drop
      {
        assert block[..i + 1][..i] == block[..i];
        LastOf(block[..i + 1]);
        var e := block[i];
        if e.name.Some? && e.name.value in drop {
          removed := removed + {e.name.value};
        } else {
          kept := kept + [e];
        }
      }
      assert block[..|block|] == block;
      if removed == {} {
        WithoutOthers(block, drop);
        return;
      }
      tools := kept;
    }

    /** fit_schema_to_ctx: defer until the block fits the room. */
    method FitSchemaToCtx(protect: set<string>, room: int, recordTurn: bool, sizing: Sizing) returns (removed: set<string>)
      modifies this
      ensures turnProtect == if recordTurn && hasSchema && old(tools) != [] then protect else old(turnProtect)
      ensures tools == if hasSchema && old(tools) != []
                       then Fitted(old(tools), KeepFirst(protect, turnProtect), sizing, room) else old(tools)
      ensures removed == if hasSchema && old(tools) != []
                         then Names(old(tools)) * (Dropped(old(tools), KeepFirst(protect, turnProtect), sizing, room) - {REQUEST_TOOLS})
                         else {}
    {
      removed := {};
      if !hasSchema || tools == [] {
        return;
      }
      if recordTurn {
        turnProtect := protect;
      }
      var ranked := Ranked(tools, KeepFirst(protect, turnProtect), sizing.mainLeg);
      var kept, drop := FirstPass(ranked, sizing.cost, room);
      var popped := SettlePass(kept, sizing.cost, room);
      drop := drop + popped;
      if drop == {} {
        WithoutOthers(tools, drop - {REQUEST_TOOLS});
        return;
      }
      removed := DeferHelperSchema(drop);
    }

    /** register_for_llm: this tool's schema, in place of any entry of its name. */
    method RegisterForLlm(tool: Tool)
      modifies this`tools
      ensures tools == if hasSchema then Registered(old(tools), tool) else old(tools)
    {
      if hasSchema {
        tools := Without(tools, {tool.name}) + [Entry(Some(tool.name), tool.description)];
      }
    }
  }

  /** The greedy pass of a fit: keep each entry, in rank order, that fits beside those kept so far. */
  method FirstPass(ranked: Block, cost: Block -> nat, room: int) returns (kept: Block, drop: set<string>)
    ensures kept == Chosen(ranked, cost, room) && drop == Passed(ranked, cost, room)
    ensures kept == [] || Summed(kept, cost) <= room
  {
    var used := 0;
    kept, drop := [], {};
    for i := 0 to |ranked|
      invariant kept == Chosen(ranked[..i], cost, room) && drop == Passed(ranked[..i], cost, room)
      invariant used == Summed(kept, cost) && (kept == [] || used <= room)
    {
      assert ranked[..i + 1][..i] == ranked[..i];
      var e := ranked[i];
      if used + cost([e]) <= room {
        used := used + cost([e]);
        assert (kept + [e])[..|kept|] == kept;
        kept := kept + [e];
      } else {
        drop := drop + NameOf(e);
      }
    }
    assert ranked[..|ranked|] == ranked;
  }

  /** The settling pass: pop the lowest-priority survivors until the real block fits. */
  method SettlePass(chosen: Block, cost: Block -> nat, room: int) returns (drop: set<string>)
    ensures drop == Popped(chosen, cost, room)
  {
    var kept := chosen;
    drop := {};
    while kept != [] && cost(kept) > room
      invariant drop + Popped(kept, cost, room) == Popped(chosen, cost, room)
      decreases |kept|
    {
      drop := drop + NameOf(kept[|kept| - 1]);
      kept := kept[..|kept| - 1];
    }
  }

  /** A helper that shows schemas and an executor that runs them (and may propose its own). */
  class AgentPair {
    const helper: Seat
    const executor: Seat
    var functions: set<string>
    var ledger: set<string>
    var unlocked: set<string>

    constructor (helper: Seat, executor: Seat, functions: set<string>)
      ensures this.helper == helper && this.executor == executor
      ensures this.functions == functions && ledger == {} && unlocked == {}
    {
      this.helper := helper;
      this.executor := executor;
      this.functions := functions;
      ledger := {};
      unlocked := {};
    }

    /** Two seats; a seat with no schema to read shows no tool. */
    ghost predicate Valid()
      reads this, helper, executor
    {
      && helper != executor
      && (!helper.hasSchema ==> helper.tools == [])
      && (!executor.hasSchema ==> executor.tools == [])
    }

    ghost function View(): Seats
      reads this, helper, executor
    {
      Seats(helper.tools, helper.hasSchema, executor.tools, functions, ledger)
    }

    /** _attach_tool: None when the tool is needed and its service is down. */
    method AttachTool(tool: Tool, propose: bool) returns (got: Option<(bool, bool)>)
      requires Valid() && (propose ==> executor.hasSchema)
      modifies this`functions, this`ledger, helper`tools, executor`tools
      ensures Valid()
      ensures View() == old(Attach(View(), tool, propose))
      ensures !tool.available ==> View() == old(View())
      ensures var onHelper, onProposer := old(NeedsHelper(View(), tool.name)), old(NeedsProposer(View(), tool.name, propose));
        got == if (onHelper || onProposer) && !tool.available then None else Some((onHelper, onProposer))
    {
      var needHelper := !(tool.name in ledger && (!helper.hasSchema || tool.name in Names(helper.tools)));
      var needProposer := propose && tool.name !in Names(executor.tools);
      if !(needHelper || needProposer) {
        return Some((false, false));
      }
      if !tool.available {
        return None;
      }
      if needHelper {
        helper.RegisterForLlm(tool);
        functions := functions + {tool.name};
        ledger := ledger + {tool.name};
      }
      if needProposer {
        executor.RegisterForLlm(tool);
      }
      return Some((needHelper, needProposer));
    }

    /** One source of an attach: every tool the selector picks, in order. */
    method AttachSource(tools: seq<Tool>, pick: Tool -> bool, propose: Tool -> bool, ghost before: Progress)
      returns (attached: seq<string>, toProposer: seq<string>, startable: seq<string>, ghost p: Progress)
      requires Valid() && before.seats == View()
      requires forall t :: propose(t) ==> executor.hasSchema
      modifies this`functions, this`ledger, helper`tools, executor`tools
      ensures Valid()
      ensures p == AttachEach(before, tools, pick, propose) && View() == p.seats
      ensures p.attached == before.attached + attached
      ensures p.toProposer == before.toProposer + toProposer
      ensures p.startable == before.startable + startable
    {
      attached, toProposer, startable := [], [], [];
      p := before;
      for i := 0 to |tools|
        invariant Valid()
        invariant p == AttachEach(before, tools[..i], pick, propose) && View() == p.seats
        invariant p.attached == before.attached + attached
        invariant p.toProposer == before.toProposer + toProposer
        invariant p.startable == before.startable + startable
      {
        assert tools[..i + 1][..i] == tools[..i];
        if pick(tools[i]) {
          var got := AttachTool(tools[i], propose(tools[i]));
          p := AttachOne(p, tools[i], propose(tools[i]));
          if got.None? {
            startable := startable + [tools[i].name];
          } else {
            if got.value.1 {
              toProposer := toProposer + [tools[i].name];
            }
            if got.value.0 || got.value.1 {
              attached := attached + [tools[i].name];
            }
          }
        }
      }
      assert tools[..|tools|] == tools;
    }

    /** attach_for_names. */
    method AttachForNames(names: set<string>, registry: seq<Tool>, core: seq<Tool>) returns (n: nat)
      requires Valid()
      modifies this`functions, this`ledger, helper`tools, executor`tools
      ensures Valid()
      ensures View() == old(ToolMenu.AttachForNames(View(), names, registry, core).seats)
      ensures n == old(|ToolMenu.AttachForNames(View(), names, registry, core).attached|)
    {
      var pick := (t: Tool) => t.name in names;
      var proposes := Names(executor.tools) != {};
      var propose := (t: Tool) => proposes;
      ghost var start := Start(View());
      var first, _, _, p := AttachSource(registry, pick, propose, start);
      var second, _, _, q := AttachSource(core, pick, propose, p);
      n := |first| + |second|;
    }

    /** attach_for_tags. */
    method AttachForTags(tags: set<string>, registry: seq<Tool>) returns (n: nat)
      requires Valid()
      modifies this`functions, this`ledger, helper`tools, executor`tools
      ensures Valid()
      ensures View() == old(ToolMenu.AttachForTags(View(), tags, registry).seats)
      ensures n == old(|ToolMenu.AttachForTags(View(), tags, registry).attached|)
    {
      ghost var start := Start(View());
      var attached, _, _, p := AttachSource(registry, (t: Tool) => t.tags * tags != {}, (t: Tool) => false, start);
      n := |attached|;
    }

    /** Fit both seats, protecting these names. */
    method FitBoth(just: set<string>, sizing: Sizing, room: int)
      requires Valid()
      modifies helper, executor
      ensures Valid()
      ensures helper.turnProtect == old(helper.turnProtect) && executor.turnProtect == old(executor.turnProtect)
      ensures helper.tools == Fitted(old(helper.tools), KeepFirst(just, helper.turnProtect), sizing, room)
      ensures executor.tools == Fitted(old(executor.tools), KeepFirst(just, executor.turnProtect), sizing, room)
    {
      NothingToFit(helper.tools, KeepFirst(just, helper.turnProtect), sizing, room);
      NothingToFit(executor.tools, KeepFirst(just, executor.turnProtect), sizing, room);
      var _ := helper.FitSchemaToCtx(just, room, false, sizing);
      var _ := executor.FitSchemaToCtx(just, room, false, sizing);
    }

    /** attach_for_turn: the tools this turn's words unlock, then both seats fitted around them. */
    method AttachForTurn(resolved: set<string>, family: string -> set<string>, registry: seq<Tool>, sizing: Sizing, room: int)
      returns (newTags: set<string>, n: nat)
      requires Valid()
      modifies this, helper, executor
      ensures Valid() && newTags == resolved - old(unlocked)
      ensures helper.turnProtect == old(helper.turnProtect) && executor.turnProtect == old(executor.turnProtect)
      ensures (View(), unlocked) ==
        old(TurnAttached(View(), unlocked, resolved, family, registry, helper.turnProtect, executor.turnProtect, sizing, room))
    {
      newTags, n := resolved - unlocked, 0;
      if newTags == {} {
        return;
      }
      var before := ledger;
      n := AttachForTags(Families(newTags, family), registry);
      unlocked := unlocked + newTags;
      if n > 0 {
        FitBoth(ledger - before, sizing, room);
      }
    }

    /** The attaching half of discover_and_attach. */
    method AttachDiscovered(matches: Tool -> bool, named: Tool -> bool, registry: seq<Tool>, core: seq<Tool>,
                            listing: set<string> -> seq<string>)
      returns (attached: seq<string>, toProposer: seq<string>, startable: seq<string>)
      requires Valid()
      modifies this`functions, this`ledger, helper`tools, executor`tools
      ensures Valid()
      ensures var p := old(Discovered(View(), matches, named, registry, core, listing));
        && View() == p.seats && attached == p.attached && toProposer == p.toProposer
        && startable == old(Startable(View(), matches, named, registry))
    {
      var proposes := Names(executor.tools) != {};
      var propose := (t: Tool) => proposes && named(t);
      ghost var start := Start(View());
      var a1, t1, s1, p1 := AttachSource(registry, matches, propose, start);
      var a2, t2, _, p2 := AttachSource(core, matches, propose, p1);
      var a3, t3, _, p3 := AttachSource(FunctionTools(listing(functions)), matches, propose, p2);
      attached, toProposer, startable := a1 + a2 + a3, t1 + t2 + t3, s1;
    }

    /** Fit one seat around the names put on it, if any. */
    method FitAround(seat: Seat, protect: seq<string>, sizing: Sizing, room: int) returns (deferred: set<string>)
      requires Valid() && (seat == helper || seat == executor)
      modifies seat
      ensures Valid()
      ensures seat.turnProtect == old(seat.turnProtect)
      ensures seat.tools == FittedFor(old(seat.tools), protect, seat.turnProtect, sizing, room)
      ensures deferred == Names(old(seat.tools)) - Names(seat.tools)
    {
      deferred := {};
      NothingToFit(seat.tools, KeepFirst(Members(protect), seat.turnProtect), sizing, room);
      if protect != [] {
        WithoutIs(seat.tools, Dropped(seat.tools, KeepFirst(Members(protect), seat.turnProtect), sizing, room) - {REQUEST_TOOLS});
        deferred := seat.FitSchemaToCtx(Members(protect), room, false, sizing);
      }
    }

    /** discover_and_attach: attach what the need describes from the three sources, fit what was
        widened, and report what is ready, what did not fit and what could be started. */
    method DiscoverAndAttach(matches: Tool -> bool, named: Tool -> bool, registry: seq<Tool>, core: seq<Tool>,
                             listing: set<string> -> seq<string>, sizing: Sizing, room: int)
      returns (ready: seq<string>, notOffered: seq<string>, startable: seq<string>)
      requires Valid()
      modifies this, helper, executor
      ensures Valid()
      ensures var p := old(Discovered(View(), matches, named, registry, core, listing));
        && View() == DiscoveredSeats(p, old(helper.turnProtect), old(executor.turnProtect), sizing, room)
        && ready == Ready(p, View())
        && (forall n :: n in notOffered <==> n in p.attached && n !in ready)
        && startable == old(Startable(View(), matches, named, registry))
    {
      ghost var p := Discovered(View(), matches, named, registry, core, listing);
      DiscoveryReports(View(), matches, named, registry, core, listing);
      var attached, toProposer;
      attached, toProposer, startable := AttachDiscovered(matches, named, registry, core, listing);
      var onProposer, offHelper := FitWidened(attached, toProposer, p, sizing, room);
      ready, notOffered := Report(attached, onProposer, offHelper);
    }

    /** Fit what a discovery widened: what of it the proposer still shows, and what the helper lost. */
    method FitWidened(attached: seq<string>, toProposer: seq<string>, ghost p: Progress, sizing: Sizing, room: int)
      returns (onProposer: set<string>, offHelper: set<string>)
      requires Valid() && View() == p.seats && attached == p.attached && toProposer == p.toProposer
      requires forall n :: n in toProposer ==> n in Names(p.seats.executor)
      modifies helper, executor
      ensures Valid()
      ensures View() == DiscoveredSeats(p, old(helper.turnProtect), old(executor.turnProtect), sizing, room)
      ensures onProposer == Members(toProposer) * Names(View().executor)
      ensures offHelper == Names(p.seats.helper) - Names(View().helper)
    {
      FittedForNames(executor.tools, toProposer, executor.turnProtect, sizing, room);
      var offProposer := FitAround(executor, toProposer, sizing, room);
      offHelper := FitAround(helper, attached, sizing, room);
      onProposer := Members(toProposer) - offProposer;
    }
  }

  /** The names reported ready, and those attached but not offered. */
  method Report(attached: seq<string>, onProposer: set<string>, offHelper: set<string>)
    returns (ready: seq<string>, notOffered: seq<string>)
    ensures ready == Reported(attached, onProposer, offHelper)
    ensures forall n :: n in notOffered <==> n in attached && n !in ready
  {
    ready, notOffered := [], [];
    for i := 0 to |attached|
      invariant ready == Reported(attached[..i], onProposer, offHelper)
      invariant forall n :: n in ready <==> n in attached[..i] && (n in onProposer || n !in offHelper)
      invariant forall n :: n in notOffered <==> n in attached[..i] && !(n in onProposer || n !in offHelper)
    {
      assert attached[..i + 1][..i] == attached[..i];
      if attached[i] in onProposer || attached[i] !in offHelper {
        ready := ready + [attached[i]];
      } else {
        notOffered := notOffered + [attached[i]];
      }
    }
    assert attached[..|attached|] == attached;
  }
}

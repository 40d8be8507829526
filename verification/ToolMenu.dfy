/** The tool schemas an agent pair carries: deferring a schema, fitting a schema block to the room
    the model has, and attaching tools again.

    A seat's schema is a block of entries; the executor's function map is what can be run.  A deferred
    tool leaves the block, never the map.  The functions say what each operation computes; module
    AgentSeats updates a live pair in place and is proved against them. */
module ToolMenu {
  import opened Options

  /** One entry of a schema block; an entry with no readable name keeps its place. */
  datatype Entry = Entry(name: Option<string>, description: string)

  type Block = seq<Entry>

  /** What the server charges for a block, and the names the leg is built around. */
  datatype Sizing = Sizing(cost: Block -> nat, mainLeg: set<string>)

  const REQUEST_TOOLS: string := "request_tools"

  function NameOf(e: Entry): set<string> {
    if e.name.Some? then {e.name.value} else {}
  }

  function Names(block: Block): set<string> {
    set e, n | e in block && n in NameOf(e) :: n
  }

  // ------------------------------------------------------------ deferring

  /** The block without the entries of these names, in order. */
  function Without(block: Block, names: set<string>): Block {
    if block == [] then []
    else if NameOf(block[|block| - 1]) !! names
    then Without(block[..|block| - 1], names) + [block[|block| - 1]]
    else Without(block[..|block| - 1], names)
  }

  function Deferred(block: Block, names: set<string>): Block {
    Without(block, names - {REQUEST_TOOLS})
  }

  // ------------------------------------------------------------ fitting

  function Rank(e: Entry, keepFirst: set<string>, mainLeg: set<string>): nat {
    if e.name.Some? && e.name.value in keepFirst then 0
    else if e.name.Some? && e.name.value in mainLeg then 1
    else 2
  }

  /** The entries of one rank, in the order the block holds them. */
  function OfRank(block: Block, rank: nat, keepFirst: set<string>, mainLeg: set<string>): Block {
    if block == [] then []
    else
      var e := block[|block| - 1];
      OfRank(block[..|block| - 1], rank, keepFirst, mainLeg) + if Rank(e, keepFirst, mainLeg) == rank then [e] else []
  }

  /** Most load-bearing first, each rank in block order. */
  function Ranked(block: Block, keepFirst: set<string>, mainLeg: set<string>): Block {
    OfRank(block, 0, keepFirst, mainLeg) + OfRank(block, 1, keepFirst, mainLeg) + OfRank(block, 2, keepFirst, mainLeg)
  }

  /** The sum of what the entries cost one at a time. */
  function Summed(block: Block, cost: Block -> nat): nat {
    if block == [] then 0 else Summed(block[..|block| - 1], cost) + cost([block[|block| - 1]])
  }

  /** The first pass: each entry, in rank order, that still fits beside the ones kept so far. */
  function Chosen(ranked: Block, cost: Block -> nat, room: int): Block {
    if ranked == [] then []
    else
      var before, e := Chosen(ranked[..|ranked| - 1], cost, room), ranked[|ranked| - 1];
      if Summed(before, cost) + cost([e]) <= room then before + [e] else before
  }

  function Passed(ranked: Block, cost: Block -> nat, room: int): set<string> {
    if ranked == [] then {}
    else
      var before, e := Chosen(ranked[..|ranked| - 1], cost, room), ranked[|ranked| - 1];
      Passed(ranked[..|ranked| - 1], cost, room) + if Summed(before, cost) + cost([e]) <= room then {} else NameOf(e)
  }

  /** The second pass: settled against the real block, the lowest-priority survivors popped. */
  function Settled(kept: Block, cost: Block -> nat, room: int): Block {
    if kept == [] || cost(kept) <= room then kept else Settled(kept[..|kept| - 1], cost, room)
  }

  function Popped(kept: Block, cost: Block -> nat, room: int): set<string> {
    if kept == [] || cost(kept) <= room then {}
    else NameOf(kept[|kept| - 1]) + Popped(kept[..|kept| - 1], cost, room)
  }

  function Kept(block: Block, keepFirst: set<string>, sizing: Sizing, room: int): Block {
    Settled(Chosen(Ranked(block, keepFirst, sizing.mainLeg), sizing.cost, room), sizing.cost, room)
  }

  /** The names a fit gives up. */
  function Dropped(block: Block, keepFirst: set<string>, sizing: Sizing, room: int): set<string> {
    var ranked := Ranked(block, keepFirst, sizing.mainLeg);
    Passed(ranked, sizing.cost, room) + Popped(Chosen(ranked, sizing.cost, room), sizing.cost, room)
  }

  function Fitted(block: Block, keepFirst: set<string>, sizing: Sizing, room: int): Block {
    Deferred(block, Dropped(block, keepFirst, sizing, room))
  }

  function KeepFirst(protect: set<string>, turnProtect: set<string>): set<string> {
    {REQUEST_TOOLS} + protect + turnProtect
  }

  // ------------------------------------------------------------ attaching

  /** A tool some source offers; it is not available when its backing service is down. */
  datatype Tool = Tool(name: string, description: string, available: bool, tags: set<string>)

  /** A live pair: the helper's schema (when it has one to read), the executor's own schema, what the
      executor can run, and the ledger of what was attached. */
  datatype Seats = Seats(helper: Block, helperReads: bool, executor: Block, functions: set<string>, ledger: set<string>)

  /** The block with this tool's schema, in place of any entry of its name. */
  function Registered(block: Block, tool: Tool): Block {
    Without(block, {tool.name}) + [Entry(Some(tool.name), tool.description)]
  }

  predicate NeedsHelper(s: Seats, name: string) {
    !(name in s.ledger && (!s.helperReads || name in Names(s.helper)))
  }

  predicate NeedsProposer(s: Seats, name: string, propose: bool) {
    propose && name !in Names(s.executor)
  }

  function Attach(s: Seats, tool: Tool, propose: bool): Seats {
    if !tool.available then s
    else
      var onHelper, onProposer := NeedsHelper(s, tool.name), NeedsProposer(s, tool.name, propose);
      s.(helper := if onHelper && s.helperReads then Registered(s.helper, tool) else s.helper,
         functions := if onHelper then s.functions + {tool.name} else s.functions,
         ledger := if onHelper then s.ledger + {tool.name} else s.ledger,
         executor := if onProposer then Registered(s.executor, tool) else s.executor)
  }

  /** What a run of attaches has done so far: the pair, the names it attached, those it put on the
      proposing seat, and those whose service is down. */
  datatype Progress = Progress(seats: Seats, attached: seq<string>, toProposer: seq<string>, startable: seq<string>)

  function AttachOne(p: Progress, tool: Tool, propose: bool): Progress {
    var s := p.seats;
    var onHelper, onProposer := NeedsHelper(s, tool.name), NeedsProposer(s, tool.name, propose);
    if !(onHelper || onProposer) then p
    else if !tool.available then p.(startable := p.startable + [tool.name])
    else Progress(Attach(s, tool, propose),
                  p.attached + [tool.name],
                  if onProposer then p.toProposer + [tool.name] else p.toProposer,
                  p.startable)
  }

  /** Attach, in order, every tool the selector picks. */
  function AttachEach(p: Progress, tools: seq<Tool>, pick: Tool -> bool, propose: Tool -> bool): Progress {
    if tools == [] then p
    else
      var before, tool := AttachEach(p, tools[..|tools| - 1], pick, propose), tools[|tools| - 1];
      if pick(tool) then AttachOne(before, tool, propose(tool)) else before
  }

  function Start(s: Seats): Progress {
    Progress(s, [], [], [])
  }

  /** attach_for_names: the tools a turn names outright, registry then core closures. */
  function AttachForNames(s: Seats, names: set<string>, registry: seq<Tool>, core: seq<Tool>): Progress {
    var pick := (t: Tool) => t.name in names;
    var proposes := Names(s.executor) != {};
    var propose := (t: Tool) => proposes;
    AttachEach(AttachEach(Start(s), registry, pick, propose), core, pick, propose)
  }

  /** attach_for_tags: the registry tools whose tags meet these, onto the helper alone. */
  function AttachForTags(s: Seats, tags: set<string>, registry: seq<Tool>): Progress {
    AttachEach(Start(s), registry, (t: Tool) => t.tags * tags != {}, (t: Tool) => false)
  }

  /** The executor's own functions, offered by name. */
  function FunctionTools(names: seq<string>): seq<Tool> {
    seq(|names|, i requires 0 <= i < |names| => Tool(names[i], names[i], true, {}))
  }

  /** The attaching half of discover_and_attach: the registry, the core closures, then what the
      executor can already run. */
  function Discovered(s: Seats, matches: Tool -> bool, named: Tool -> bool, registry: seq<Tool>, core: seq<Tool>,
                      listing: set<string> -> seq<string>): Progress
  {
    var proposes := Names(s.executor) != {};
    var propose := (t: Tool) => proposes && named(t);
    var fromRegistry := AttachEach(Start(s), registry, matches, propose);
    var fromCore := AttachEach(fromRegistry, core, matches, propose);
    AttachEach(fromCore, FunctionTools(listing(fromCore.seats.functions)), matches, propose)
  }

  /** The registry's matches whose service is down: what the report says could be started. */
  function Startable(s: Seats, matches: Tool -> bool, named: Tool -> bool, registry: seq<Tool>): seq<string> {
    var proposes := Names(s.executor) != {};
    AttachEach(Start(s), registry, matches, (t: Tool) => proposes && named(t)).startable
  }

  function Members(names: seq<string>): set<string> {
    set n | n in names
  }

  /** A seat's block after a fit that protects these names; nothing is fitted when none are given. */
  function FittedFor(block: Block, protect: seq<string>, turnProtect: set<string>, sizing: Sizing, room: int): Block {
    if protect == [] then block else Fitted(block, KeepFirst(Members(protect), turnProtect), sizing, room)
  }

  /** The pair after discover_and_attach has fitted both seats it widened. */
  function DiscoveredSeats(p: Progress, helperTurn: set<string>, executorTurn: set<string>, sizing: Sizing, room: int): Seats {
    p.seats.(executor := FittedFor(p.seats.executor, p.toProposer, executorTurn, sizing, room),
             helper := FittedFor(p.seats.helper, p.attached, helperTurn, sizing, room))
  }

  /** The names reported ready: attached, and put on the proposer and still there, or not taken off
      the helper. */
  function Ready(p: Progress, after: Seats): seq<string> {
    Reported(p.attached, Members(p.toProposer) * Names(after.executor), Names(p.seats.helper) - Names(after.helper))
  }

  function Reported(attached: seq<string>, onProposer: set<string>, offHelper: set<string>): seq<string> {
    if attached == [] then []
    else
      var n := attached[|attached| - 1];
      Reported(attached[..|attached| - 1], onProposer, offHelper) +
      if n in onProposer || n !in offHelper then [n] else []
  }

  /** attach_for_turn: the families this turn's words newly unlock, attached to the helper; when that
      attached anything, both seats are fitted, protecting the names it added to the ledger.  Gives the
      pair and the tags unlocked by now. */
  function TurnAttached(s: Seats, unlocked: set<string>, resolved: set<string>, family: string -> set<string>,
                        registry: seq<Tool>, helperTurn: set<string>, executorTurn: set<string>, sizing: Sizing,
                        room: int): (Seats, set<string>)
  {
    var newTags := resolved - unlocked;
    if newTags == {} then (s, unlocked) else
    var p := AttachForTags(s, Families(newTags, family), registry);
    var just := p.seats.ledger - s.ledger;
    (if p.attached == [] then p.seats
     else p.seats.(helper := Fitted(p.seats.helper, KeepFirst(just, helperTurn), sizing, room),
                   executor := Fitted(p.seats.executor, KeepFirst(just, executorTurn), sizing, room)),
     unlocked + newTags)
  }

  function Families(tags: set<string>, family: string -> set<string>): set<string> {
    set t, f | t in tags && f in family(t) :: f
  }
}

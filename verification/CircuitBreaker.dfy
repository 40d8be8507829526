/** The circuit breaker, one per key, and the peers' backoff; the clock is a parameter of each call. */
module CircuitBreaker {
  import opened Options

  // ------------------------------------------------------------ one breaker

  datatype Config = Config(threshold: int, cooldown: real)

  datatype Breaker = Breaker(failures: nat, openedAt: real, probing: bool)

  const FRESH: Breaker := Breaker(0, 0.0, false)

  datatype CircuitState = Closed | Open | HalfOpen

  function StateOf(b: Breaker, c: Config, now: real): CircuitState {
    if b.failures < c.threshold then Closed
    else if now - b.openedAt > c.cooldown then HalfOpen
    else Open
  }

  /** A call asks to go ahead, or reports how it went. */
  datatype Event = Ask | Success | Failure | Reset

  /** The ask is let through. */
  predicate Admits(b: Breaker, c: Config, now: real) {
    var state := StateOf(b, c, now);
    state.Closed? || (state.HalfOpen? && !b.probing)
  }

  function Next(b: Breaker, c: Config, e: Event, now: real): Breaker {
    match e
    case Ask => if StateOf(b, c, now).HalfOpen? then b.(probing := true) else b
    case Success => b.(failures := 0, probing := false)
    case Failure =>
      Breaker(b.failures + 1, if b.failures + 1 >= c.threshold then now else b.openedAt, false)
    case Reset => FRESH
  }

  class Circuit {
    const config: Config
    var failures: nat
    var openedAt: real
    var halfOpenInFlight: bool

    constructor (config: Config)
      ensures this.config == config && View() == FRESH
    {
      this.config := config;
      failures, openedAt, halfOpenInFlight := 0, 0.0, false;
    }

    ghost function View(): Breaker
      reads this
    {
      Breaker(failures, openedAt, halfOpenInFlight)
    }

    /** state: read without taking the half-open probe. */
    method GetState(now: real) returns (state: CircuitState)
      ensures state == StateOf(View(), config, now)
    {
      if failures < config.threshold {
        return Closed;
      }
      var elapsed := now - openedAt;
      if elapsed > config.cooldown {
        return HalfOpen;
      }
      return Open;
    }

    /** is_open: whether the call is blocked; half open, one caller at a time takes the probe. */
    method IsOpen(now: real) returns (blocked: bool)
      modifies this
      ensures blocked <==> !old(Admits(View(), config, now))
      ensures View() == old(Next(View(), config, Ask, now))
    {
      var state := GetState(now);
      if state == Closed {
        return false;
      }
      if state == HalfOpen {
        if !halfOpenInFlight {
          halfOpenInFlight := true;
          return false;
        }
        return true;
      }
      return true;
    }

    method RecordSuccess(now: real)
      modifies this
      ensures View() == old(Next(View(), config, Success, now))
    {
      failures := 0;
      halfOpenInFlight := false;
    }

    method RecordFailure(now: real)
      modifies this
      ensures View() == old(Next(View(), config, Failure, now))
    {
      failures := failures + 1;
      halfOpenInFlight := false;
      if failures >= config.threshold {
        openedAt := now;
      }
    }

    method ResetBreaker(now: real)
      modifies this
      ensures View() == old(Next(View(), config, Reset, now))
    {
      failures := 0;
      openedAt := 0.0;
      halfOpenInFlight := false;
    }
  }

  // ------------------------------------------------------------ told from the events alone

  /** The failures since the last success or reset. */
  function FailuresSince(events: seq<Timed>): nat {
    if events == [] then 0
    else
      var before, (e, at) := FailuresSince(events[..|events| - 1]), events[|events| - 1];
      match e
      case Ask => before
      case Failure => before + 1
      case Success => 0
      case Reset => 0
  }

  /** When the last of those was. */
  function LastFailure(events: seq<Timed>): Option<real> {
    if events == [] then None
    else
      var (e, at) := events[|events| - 1];
      match e
      case Ask => LastFailure(events[..|events| - 1])
      case Failure => Some(at)
      case Success => None
      case Reset => None
  }

  /** That many failures, the last of them more than the cooldown ago. */
  predicate CooledDown(events: seq<Timed>, c: Config, now: real) {
    var last := LastFailure(events);
    FailuresSince(events) >= c.threshold && last.Some? && now - last.value > c.cooldown
  }

  /** A call came since the last report, when the breaker had cooled down: it is the probe. */
  predicate ProbeOut(events: seq<Timed>, c: Config) {
    events != [] &&
    var before, (e, at) := events[..|events| - 1], events[|events| - 1];
    e.Ask? && (ProbeOut(before, c) || CooledDown(before, c, at))
  }

  lemma {:induction false} AfterOneMore(b: Breaker, c: Config, events: seq<Timed>, e: Timed)
    ensures After(b, c, events + [e]) == Next(After(b, c, events), c, e.0, e.1)
    decreases |events|
  {
    if events == [] {
      assert [] + [e] == [e];
    } else {
      assert (events + [e])[1..] == events[1..] + [e];
      AfterOneMore(Next(b, c, events[0].0, events[0].1), c, events[1..], e);
    }
  }

  /** What the breaker holds after any events, in terms of those events. */
  lemma {:induction false} BreakerHoldsItsHistory(c: Config, events: seq<Timed>)
    requires c.threshold > 0
    ensures var b := After(FRESH, c, events);
      && b.failures == FailuresSince(events)
      && (b.failures > 0 <==> LastFailure(events).Some?)
      && (b.failures >= c.threshold ==> LastFailure(events) == Some(b.openedAt))
      && (b.failures >= c.threshold ==> (b.probing <==> ProbeOut(events, c)))
      && (b.failures < c.threshold ==> !ProbeOut(events, c) && !b.probing)
  {
    if events != [] {
      var before, last := events[..|events| - 1], events[|events| - 1];
      assert events == before + [last];
      BreakerHoldsItsHistory(c, before);
      AfterOneMore(FRESH, c, before, last);
    }
  }

  /** From a fresh breaker, after any events: a call is let through exactly when there were fewer failures
      than the threshold since the last success or reset, or the last failure is more than the cooldown ago
      and no call since has been let through to probe. */
  lemma AdmittedExactly(c: Config, events: seq<Timed>, now: real)
    requires c.threshold > 0
    ensures Admits(After(FRESH, c, events), c, now) <==>
      FailuresSince(events) < c.threshold || (CooledDown(events, c, now) && !ProbeOut(events, c))
  {
    BreakerHoldsItsHistory(c, events);
  }

  /** So enough failures, the last within the cooldown, block every call, and too few block none. */
  lemma EnoughFailuresTrip(c: Config, events: seq<Timed>, now: real)
    requires c.threshold > 0
    ensures FailuresSince(events) >= c.threshold ==>
      var last := LastFailure(events);
      last.Some? && (now - last.value <= c.cooldown ==> !Admits(After(FRESH, c, events), c, now))
    ensures FailuresSince(events) < c.threshold ==> Admits(After(FRESH, c, events), c, now)
  {
    BreakerHoldsItsHistory(c, events);
  }

  // ------------------------------------------------------------ spacing

  type Timed = (Event, real)

  function After(b: Breaker, c: Config, events: seq<Timed>): Breaker
    decreases |events|
  {
    if events == [] then b else After(Next(b, c, events[0].0, events[0].1), c, events[1..])
  }

  /** The number of asks let through. */
  function Admitted(b: Breaker, c: Config, events: seq<Timed>): nat
    decreases |events|
  {
    if events == [] then 0
    else
      (if events[0].0.Ask? && Admits(b, c, events[0].1) then 1 else 0) +
      Admitted(Next(b, c, events[0].0, events[0].1), c, events[1..])
  }

  /** The i-th event is an ask let through. */
  predicate AdmittedAt(b: Breaker, c: Config, events: seq<Timed>, i: nat)
    requires i < |events|
  {
    events[i].0.Ask? && Admits(After(b, c, events[..i]), c, events[i].1)
  }

  /** The clock does not run back, and nothing closes the breaker. */
  predicate Unhealed(events: seq<Timed>, start: real)
    decreases |events|
  {
    events == [] ||
    (events[0].1 >= start && !events[0].0.Success? && !events[0].0.Reset? && Unhealed(events[1..], events[0].1))
  }

  /** Tripped, and no ask let through at 't' or later is still unanswered by the cooldown: either its
      probe is out, or the breaker opened again since. */
  predicate ShutSince(b: Breaker, c: Config, t: real) {
    b.failures >= c.threshold && (b.probing || b.openedAt >= t)
  }

  /** While unhealed, an ask let through comes more than the cooldown after what shut the breaker, and
      shuts it again. */
  lemma AdmissionWaits(b: Breaker, c: Config, e: Event, now: real, t: real)
    requires ShutSince(b, c, t) && t <= now && !e.Success? && !e.Reset?
    ensures ShutSince(Next(b, c, e, now), c, t)
    ensures e.Ask? && Admits(b, c, now) ==> now - t > c.cooldown && ShutSince(Next(b, c, e, now), c, now)
  {
  }

  lemma {:induction false} FirstAdmissionWaits(b: Breaker, c: Config, events: seq<Timed>, j: nat, t: real)
    requires ShutSince(b, c, t) && Unhealed(events, t) && j < |events| && AdmittedAt(b, c, events, j)
    ensures events[j].1 - t > c.cooldown
  {
    FirstAdmissionWaitsFrom(b, c, events, j, t, t);
  }

  lemma {:induction false} FirstAdmissionWaitsFrom(b: Breaker, c: Config, events: seq<Timed>, j: nat, t: real, start: real)
    requires ShutSince(b, c, t) && t <= start && Unhealed(events, start) && j < |events| && AdmittedAt(b, c, events, j)
    ensures events[j].1 - t > c.cooldown
    decreases j
  {
    var (e, now) := events[0];
    AdmissionWaits(b, c, e, now, t);
    if j > 0 {
      assert events[..j][0] == events[0] && events[..j][1..] == events[1..][..j - 1];
      FirstAdmissionWaitsFrom(Next(b, c, e, now), c, events[1..], j - 1, t, now);
    }
  }

  /** Once tripped and until a success or a reset, any two calls let through are more than the cooldown
      apart, and each comes more than the cooldown after the breaker opened. */
  lemma {:induction false} AdmissionsAreSpaced(b: Breaker, c: Config, events: seq<Timed>, i: nat, j: nat, start: real)
    requires b.failures >= c.threshold && b.openedAt <= start && Unhealed(events, start)
    requires i < j < |events| && AdmittedAt(b, c, events, i) && AdmittedAt(b, c, events, j)
    ensures events[j].1 - events[i].1 > c.cooldown
    ensures events[i].1 - b.openedAt > c.cooldown
    decreases i
  {
    var (e, now) := events[0];
    var b' := Next(b, c, e, now);
    assert ShutSince(b, c, b.openedAt);
    FirstAdmissionWaitsFrom(b, c, events, i, b.openedAt, start);
    if i == 0 {
      assert events[..0] == [];
      assert events[..j][0] == events[0] && events[..j][1..] == events[1..][..j - 1];
      AdmissionWaits(b, c, e, now, b.openedAt);
      FirstAdmissionWaits(b', c, events[1..], j - 1, now);
    } else {
      assert events[..i][0] == events[0] && events[..i][1..] == events[1..][..i - 1];
      assert events[..j][0] == events[0] && events[..j][1..] == events[1..][..j - 1];
      AdmissionsAreSpaced(b', c, events[1..], i - 1, j - 1, now);
    }
  }

  predicate Within(events: seq<Timed>, end: real) {
    forall i :: 0 <= i < |events| ==> events[i].1 <= end
  }

  /** The time 'n' cooldowns take, one after the other. */
  function Spent(n: nat, cooldown: real): real {
    if n == 0 then 0.0 else Spent(n - 1, cooldown) + cooldown
  }

  lemma OneMoreCooldown(x: real, cooldown: real)
    ensures (x + 1.0) * cooldown == x * cooldown + cooldown
  {
  }

  lemma {:induction false} SpentIsProduct(n: nat, cooldown: real)
    ensures Spent(n, cooldown) == n as real * cooldown
  {
    if n > 0 {
      SpentIsProduct(n - 1, cooldown);
      assert n as real == (n - 1) as real + 1.0;
      OneMoreCooldown((n - 1) as real, cooldown);
    }
  }

  lemma {:induction false} AdmissionsFillTime(b: Breaker, c: Config, events: seq<Timed>, t: real, start: real, end: real)
    requires ShutSince(b, c, t) && t <= start <= end && Unhealed(events, start) && Within(events, end)
    requires 0.0 <= c.cooldown
    ensures Spent(Admitted(b, c, events), c.cooldown) <= end - t
    decreases |events|
  {
    if events != [] {
      var (e, now) := events[0];
      AdmissionWaits(b, c, e, now, t);
      var last := if e.Ask? && Admits(b, c, now) then now else t;
      AdmissionsFillTime(Next(b, c, e, now), c, events[1..], last, now, end);
    }
  }

  lemma {:induction false} AdmissionsFitTheWindow(b: Breaker, c: Config, events: seq<Timed>, start: real, end: real)
    requires b.failures >= c.threshold && start <= end && 0.0 <= c.cooldown
    requires Unhealed(events, start) && Within(events, end)
    ensures var n := Admitted(b, c, events); n > 0 ==> Spent(n - 1, c.cooldown) <= end - start
    decreases |events|
  {
    if events != [] {
      var (e, now) := events[0];
      var b' := Next(b, c, e, now);
      if e.Ask? && Admits(b, c, now) {
        AdmissionsFillTime(b', c, events[1..], now, now, end);
      } else {
        AdmissionsFitTheWindow(b', c, events[1..], now, end);
      }
    }
  }

  /** A window of length T lets at most floor(T / cooldown) + 1 calls through. */
  lemma WindowAdmitsFew(b: Breaker, c: Config, events: seq<Timed>, start: real, end: real)
    requires b.failures >= c.threshold && start <= end && 0.0 < c.cooldown
    requires Unhealed(events, start) && Within(events, end)
    ensures Admitted(b, c, events) <= ((end - start) / c.cooldown).Floor + 1
  {
    AdmissionsFitTheWindow(b, c, events, start, end);
    CooldownsWithin(Admitted(b, c, events), c.cooldown, end - start);
  }

  lemma CooldownsWithin(n: nat, cooldown: real, length: real)
    requires 0.0 < cooldown && 0.0 <= length && (n > 0 ==> Spent(n - 1, cooldown) <= length)
    ensures n <= (length / cooldown).Floor + 1
  {
    if n > 0 {
      SpentIsProduct(n - 1, cooldown);
      DividedByCooldown(n - 1, length, cooldown);
    } else {
      assert 0.0 <= length / cooldown;
    }
  }

  lemma Scaled(x: real, y: real, factor: real)
    requires 0.0 < factor
    ensures x > y ==> x * factor > y * factor
  {
    if x > y {
      assert (x - y) * factor > 0.0;
    }
  }

  lemma DividedByCooldown(n: nat, length: real, cooldown: real)
    requires 0.0 < cooldown && n as real * cooldown <= length
    ensures n <= (length / cooldown).Floor
  {
    var q := length / cooldown;
    assert q * cooldown == length;
    Scaled(n as real, q, cooldown);
  }

  /** A probe whose caller never reports keeps the breaker shut for good, however long the wait. */
  lemma {:induction false} AnUnreportedProbeShutsForGood(b: Breaker, c: Config, events: seq<Timed>)
    requires b.failures >= c.threshold && b.probing
    requires forall i :: 0 <= i < |events| ==> events[i].0.Ask?
    ensures Admitted(b, c, events) == 0
    decreases |events|
  {
    if events != [] {
      AnUnreportedProbeShutsForGood(Next(b, c, Ask, events[0].1), c, events[1..]);
    }
  }

  /** The clock does not run back, and is past this at the end. */
  predicate InOrder(events: seq<Timed>, start: real, end: real)
    decreases |events|
  {
    if events == [] then start <= end else start <= events[0].1 && InOrder(events[1..], events[0].1, end)
  }

  /** With no probe out, an ask long enough after the rest is let through, unless one before it was. */
  lemma {:induction false} NoProbeLetsOneThrough(b: Breaker, c: Config, events: seq<Timed>, start: real, end: real, late: real)
    requires !b.probing && b.openedAt <= end && 0.0 <= end && InOrder(events, start, end)
    requires late - end > c.cooldown
    ensures Admitted(b, c, events + [(Ask, late)]) > 0
    decreases |events|
  {
    var all := events + [(Ask, late)];
    if events == [] {
      assert all == [(Ask, late)];
    } else {
      LastsTo(events, start, end);
      assert all[1..] == events[1..] + [(Ask, late)];
      if !(events[0].0.Ask? && Admits(b, c, events[0].1)) {
        NoProbeLetsOneThrough(Next(b, c, events[0].0, events[0].1), c, events[1..], events[0].1, end, late);
      }
    }
  }

  lemma {:induction false} LastsTo(events: seq<Timed>, start: real, end: real)
    requires InOrder(events, start, end)
    ensures start <= end && (events != [] ==> events[0].1 <= end)
    decreases |events|
  {
    if events != [] {
      LastsTo(events[1..], events[0].1, end);
    }
  }

  /** A breaker whose probe is out lets an ask through again, given all the time it needs, exactly when some
      caller has reported, a success, a failure or a reset. */
  lemma {:induction false} OnlyAReportReopens(b: Breaker, c: Config, events: seq<Timed>, start: real, end: real, late: real)
    requires b.failures >= c.threshold && b.probing && b.openedAt <= start && 0.0 <= start
    requires InOrder(events, start, end) && late - end > c.cooldown
    ensures Admitted(b, c, events + [(Ask, late)]) > 0 <==> exists i :: 0 <= i < |events| && !events[i].0.Ask?
    decreases |events|
  {
    LastsTo(events, start, end);
    var all := events + [(Ask, late)];
    if events == [] {
      assert all == [(Ask, late)];
      AnUnreportedProbeShutsForGood(b, c, all);
    } else {
      var (e, now) := events[0];
      var b' := Next(b, c, e, now);
      assert all[0] == events[0] && all[1..] == events[1..] + [(Ask, late)];
      if e.Ask? {
        OnlyAReportReopens(b', c, events[1..], now, end, late);
        assert (exists i :: 0 <= i < |events| && !events[i].0.Ask?) <==>
               exists i :: 0 <= i < |events[1..]| && !events[1..][i].0.Ask? by {
          ReportedLater(events);
        }
      } else {
        NoProbeLetsOneThrough(b', c, events[1..], now, end, late);
      }
    }
  }

  lemma ReportedLater(events: seq<Timed>)
    requires events != [] && events[0].0.Ask?
    ensures (exists i :: 0 <= i < |events| && !events[i].0.Ask?) <==>
            exists i :: 0 <= i < |events[1..]| && !events[1..][i].0.Ask?
  {
    if i :| 0 <= i < |events| && !events[i].0.Ask? {
      assert events[1..][i - 1] == events[i];
    }
    if i :| 0 <= i < |events[1..]| && !events[1..][i].0.Ask? {
      assert events[i + 1] == events[1..][i];
    }
  }

  // ------------------------------------------------------------ a breaker per key

  datatype KeyedEvent = KeyedEvent(key: string, event: Event, at: real)

  function BreakerOf(breakers: map<string, Breaker>, key: string): Breaker {
    if key in breakers then breakers[key] else FRESH
  }

  function KeyedNext(breakers: map<string, Breaker>, c: Config, e: KeyedEvent): map<string, Breaker> {
    breakers[e.key := Next(BreakerOf(breakers, e.key), c, e.event, e.at)]
  }

  class KeyedCircuit {
    const config: Config
    var breakers: map<string, Circuit>

    constructor (config: Config)
      ensures this.config == config && breakers == map[] && Valid()
    {
      this.config := config;
      breakers := map[];
    }

    /** No two keys share a breaker. */
    ghost predicate Valid()
      reads this, breakers.Values
    {
      && (forall k, j :: k in breakers && j in breakers && k != j ==> breakers[k] != breakers[j])
      && (forall k :: k in breakers ==> breakers[k].config == config)
    }

    ghost function Contents(): map<string, Breaker>
      reads this, breakers.Values
    {
      map k | k in breakers :: breakers[k].View()
    }

    /** The key's breaker, made on first use. */
    method Get(key: string) returns (cb: Circuit)
      requires Valid()
      modifies this
      ensures Valid() && key in breakers && breakers[key] == cb
      ensures fresh(breakers.Values - old(breakers.Values))
      ensures forall k :: k in old(breakers) ==> k in breakers && breakers[k] == old(breakers)[k]
      ensures Contents() == old(Contents())[key := BreakerOf(old(Contents()), key)]
    {
      if key !in breakers {
        cb := new Circuit(config);
        breakers := breakers[key := cb];
      } else {
        cb := breakers[key];
      }
    }

    /** A change of the key's own breaker changes no other key's. */
    twostate lemma OnlyItsOwn(key: string)
      requires old(Valid()) && breakers == old(breakers) && key in breakers
      requires forall k :: k in breakers && k != key ==> unchanged(breakers[k])
      ensures Valid() && Contents() == old(Contents())[key := breakers[key].View()]
    {
    }

    method IsOpen(key: string, now: real) returns (blocked: bool)
      requires Valid()
      modifies this, breakers.Values
      ensures Valid() && fresh(breakers.Values - old(breakers.Values))
      ensures blocked <==> !Admits(BreakerOf(old(Contents()), key), config, now)
      ensures Contents() == KeyedNext(old(Contents()), config, KeyedEvent(key, Ask, now))
    {
      var cb := Get(key);
      assert Contents()[key] == cb.View();
      label got:
      blocked := cb.IsOpen(now);
      OnlyItsOwn@got(key);
    }

    method RecordFailure(key: string, now: real)
      requires Valid()
      modifies this, breakers.Values
      ensures Valid() && fresh(breakers.Values - old(breakers.Values))
      ensures Contents() == KeyedNext(old(Contents()), config, KeyedEvent(key, Failure, now))
    {
      var cb := Get(key);
      assert Contents()[key] == cb.View();
      label got:
      cb.RecordFailure(now);
      OnlyItsOwn@got(key);
    }

    method RecordSuccess(key: string, now: real)
      requires Valid()
      modifies this, breakers.Values
      ensures Valid() && fresh(breakers.Values - old(breakers.Values))
      ensures Contents() == KeyedNext(old(Contents()), config, KeyedEvent(key, Success, now))
    {
      var cb := Get(key);
      assert Contents()[key] == cb.View();
      label got:
      cb.RecordSuccess(now);
      OnlyItsOwn@got(key);
    }

    method ResetKey(key: string, now: real)
      requires Valid()
      modifies this, breakers.Values
      ensures Valid() && fresh(breakers.Values - old(breakers.Values))
      ensures Contents() == KeyedNext(old(Contents()), config, KeyedEvent(key, Reset, now))
    {
      var cb := Get(key);
      assert Contents()[key] == cb.View();
      label got:
      cb.ResetBreaker(now);
      OnlyItsOwn@got(key);
    }
  }

  function KeyedAfter(breakers: map<string, Breaker>, c: Config, events: seq<KeyedEvent>): map<string, Breaker>
    decreases |events|
  {
    if events == [] then breakers else KeyedAfter(KeyedNext(breakers, c, events[0]), c, events[1..])
  }

  /** What one key's asks were answered, in order: let through or not. */
  function KeyedAnswers(breakers: map<string, Breaker>, c: Config, events: seq<KeyedEvent>, key: string): seq<bool>
    decreases |events|
  {
    if events == [] then []
    else
      var e := events[0];
      (if e.key == key && e.event.Ask? then [Admits(BreakerOf(breakers, key), c, e.at)] else []) +
      KeyedAnswers(KeyedNext(breakers, c, e), c, events[1..], key)
  }

  function Answers(b: Breaker, c: Config, events: seq<Timed>): seq<bool>
    decreases |events|
  {
    if events == [] then []
    else
      (if events[0].0.Ask? then [Admits(b, c, events[0].1)] else []) +
      Answers(Next(b, c, events[0].0, events[0].1), c, events[1..])
  }

  /** One key's events, alone. */
  function Only(events: seq<KeyedEvent>, key: string): seq<Timed>
    decreases |events|
  {
    if events == [] then []
    else (if events[0].key == key then [(events[0].event, events[0].at)] else []) + Only(events[1..], key)
  }

  /** Seen from one key, a keyed breaker is a single breaker fed that key's events. */
  lemma {:induction false} KeyedIsOnePerKey(breakers: map<string, Breaker>, c: Config, events: seq<KeyedEvent>, key: string)
    ensures KeyedAnswers(breakers, c, events, key) == Answers(BreakerOf(breakers, key), c, Only(events, key))
    ensures BreakerOf(KeyedAfter(breakers, c, events), key) == After(BreakerOf(breakers, key), c, Only(events, key))
    decreases |events|
  {
    if events != [] {
      var e := events[0];
      KeyedIsOnePerKey(KeyedNext(breakers, c, e), c, events[1..], key);
      if e.key == key {
        assert Only(events, key) == [(e.event, e.at)] + Only(events[1..], key);
        assert Only(events, key)[1..] == Only(events[1..], key);
      } else {
        assert Only(events, key) == Only(events[1..], key);
      }
    }
  }

  // ------------------------------------------------------------ backoff

  /** When a peer may be tried again, and the delay that was set. */
  datatype Backoff = Backoff(retryAt: real, delay: real)

  function Min(a: real, b: real): real {
    if a < b then a else b
  }

  function NextDelay(entry: Option<Backoff>, initial: real, maximum: real): real {
    if entry.Some? then Min(entry.value.delay * 2.0, maximum) else initial
  }

  function EntryOf(entries: map<string, Backoff>, key: string): Option<Backoff> {
    if key in entries then Some(entries[key]) else None
  }

  predicate BackedOff(entries: map<string, Backoff>, key: string, now: real) {
    key in entries && now < entries[key].retryAt
  }

  function Pruned(entries: map<string, Backoff>, now: real): map<string, Backoff> {
    map k | k in entries && now < entries[k].retryAt :: entries[k]
  }

  class PeerBackoff {
    const initial: real
    const maximum: real
    var entries: map<string, Backoff>

    constructor (initial: real, maximum: real)
      ensures this.initial == initial && this.maximum == maximum && entries == map[]
    {
      this.initial := initial;
      this.maximum := maximum;
      entries := map[];
    }

    method IsBackedOff(key: string, now: real) returns (r: bool)
      ensures r <==> BackedOff(entries, key, now)
    {
      if key !in entries {
        return false;
      }
      return now < entries[key].retryAt;
    }

    method RecordFailure(key: string, now: real)
      modifies this
      ensures var delay := NextDelay(EntryOf(old(entries), key), initial, maximum);
        entries == old(entries)[key := Backoff(now + delay, delay)]
    {
      var newDelay := initial;
      if key in entries {
        newDelay := Min(entries[key].delay * 2.0, maximum);
      }
      entries := entries[key := Backoff(now + newDelay, newDelay)];
    }

    method RecordSuccess(key: string)
      modifies this
      ensures entries == old(entries) - {key}
    {
      entries := entries - {key};
    }

    /** prune_expired: the expired keys first, then their removal. */
    method PruneExpired(now: real)
      modifies this
      ensures entries == Pruned(old(entries), now)
    {
      var expired := set k | k in entries && now >= entries[k].retryAt;
      ghost var before := entries;
      while expired != {}
        invariant expired <= (set k | k in before && now >= before[k].retryAt)
        invariant entries == map k | k in before && (now < before[k].retryAt || k in expired) :: before[k]
        decreases expired
      {
        var k :| k in expired;
        entries := entries - {k};
        expired := expired - {k};
      }
    }
  }

  /** The delay the n-th failure in a row sets. */
  function DelayAfter(n: nat, initial: real, maximum: real): real
    requires n > 0
  {
    if n == 1 then initial else Min(DelayAfter(n - 1, initial, maximum) * 2.0, maximum)
  }

  /** The initial delay doubled n - 1 times. */
  function Doubled(n: nat, initial: real): real
    requires n > 0
  {
    if n == 1 then initial else Doubled(n - 1, initial) * 2.0
  }

  /** The entries after a key fails at each of these times, with no success and no pruning between. */
  function AfterFailures(entries: map<string, Backoff>, key: string, times: seq<real>, initial: real, maximum: real): map<string, Backoff> {
    if times == [] then entries
    else
      var before, now := AfterFailures(entries, key, times[..|times| - 1], initial, maximum), times[|times| - 1];
      var delay := NextDelay(EntryOf(before, key), initial, maximum);
      before[key := Backoff(now + delay, delay)]
  }

  /** A key's n-th failure in a row backs it off for DelayAfter(n), from when it failed. */
  lemma {:induction false} FailuresInARow(entries: map<string, Backoff>, key: string, times: seq<real>, initial: real, maximum: real)
    requires key !in entries && times != []
    ensures var after := AfterFailures(entries, key, times, initial, maximum);
      && key in after
      && after[key].delay == DelayAfter(|times|, initial, maximum)
      && after[key].retryAt == times[|times| - 1] + after[key].delay
  {
    if |times| > 1 {
      FailuresInARow(entries, key, times[..|times| - 1], initial, maximum);
    } else {
      assert AfterFailures(entries, key, times[..0], initial, maximum) == entries;
    }
  }

  /** A key is backed off from its last failure until the delay it set has passed, and a success ends it. */
  lemma BackedOffForTheDelay(entries: map<string, Backoff>, key: string, times: seq<real>, initial: real, maximum: real, later: real)
    requires key !in entries && times != []
    ensures var after := AfterFailures(entries, key, times, initial, maximum);
      && (BackedOff(after, key, later) <==> later < times[|times| - 1] + DelayAfter(|times|, initial, maximum))
      && !BackedOff(after - {key}, key, later)
  {
    FailuresInARow(entries, key, times, initial, maximum);
  }

  lemma {:induction false} CappedDoubling(n: nat, initial: real, maximum: real)
    requires n > 0 && 0.0 <= initial <= maximum
    ensures DelayAfter(n, initial, maximum) == Min(Doubled(n, initial), maximum)
    ensures 0.0 <= Doubled(n, initial)
  {
    if n > 1 {
      CappedDoubling(n - 1, initial, maximum);
    }
  }

  /** The delays double from the initial one up to the maximum, at every failure, exactly when the
      initial delay is no more than the maximum. */
  lemma DelaysAreCappedDoublings(initial: real, maximum: real)
    requires 0.0 <= initial
    ensures (forall n: nat :: n > 0 ==> DelayAfter(n, initial, maximum) == Min(Doubled(n, initial), maximum)) <==>
            initial <= maximum
  {
    if initial <= maximum {
      forall n: nat | n > 0 ensures DelayAfter(n, initial, maximum) == Min(Doubled(n, initial), maximum) {
        CappedDoubling(n, initial, maximum);
      }
    } else {
      assert DelayAfter(1, initial, maximum) != Min(Doubled(1, initial), maximum);
    }
  }

  /** Pruning never changes whether a key is backed off, now or later; it does forget how far an expired
      key's delay had grown. */
  lemma PruningChangesNoAnswer(entries: map<string, Backoff>, key: string, now: real, later: real, initial: real, maximum: real)
    requires now <= later
    ensures BackedOff(Pruned(entries, now), key, later) <==> BackedOff(entries, key, later)
    ensures key in entries && now >= entries[key].retryAt ==>
      NextDelay(EntryOf(Pruned(entries, now), key), initial, maximum) == initial
  {
  }
}

/** The throttle on error reports: what it emits, and the eviction that keeps it small. */
module ErrorThrottle {
  /** A category and an error's fingerprint. */
  type Key = (string, string)

  const TTL: real := 300.0

  predicate Emits(last: map<Key, real>, key: Key, now: real) {
    !(key in last && now - last[key] < TTL)
  }

  function Evicted(last: map<Key, real>, cutoff: real): map<Key, real> {
    map k | k in last && last[k] >= cutoff :: last[k]
  }

  function Next(last: map<Key, real>, key: Key, now: real): map<Key, real> {
    if Emits(last, key, now) then Evicted(last[key := now], now - TTL * 4.0) else last
  }

  class Throttle {
    var last: map<Key, real>

    constructor ()
      ensures last == map[]
    {
      last := map[];
    }

    /** _should_emit: with the loop over a snapshot of the entries that drops the very old ones. */
    method ShouldEmit(key: Key, now: real) returns (emit: bool)
      modifies this
      ensures emit <==> Emits(old(last), key, now)
      ensures last == Next(old(last), key, now)
    {
      if key in last && now - last[key] < TTL {
        return false;
      }
      last := last[key := now];
      var cutoff := now - TTL * 4.0;
      var items := last;
      var left := items.Keys;
      while left != {}
        invariant left <= items.Keys
        invariant last == map k | k in items && (items[k] >= cutoff || k in left) :: items[k]
        decreases left
      {
        var k :| k in left;
        if items[k] < cutoff {
          last := last - {k};
        }
        left := left - {k};
      }
      return true;
    }
  }

  // ------------------------------------------------------------ against an unbounded history

  datatype Event = Event(key: Key, at: real)

  /** Nothing forgotten: suppressed exactly when the same key was emitted less than five minutes ago. */
  predicate EmitsByHistory(emitted: seq<Event>, key: Key, now: real) {
    forall i :: 0 <= i < |emitted| && emitted[i].key == key ==> now - emitted[i].at >= 300.0
  }

  function HistoryAnswers(emitted: seq<Event>, events: seq<Event>): seq<bool>
    decreases |events|
  {
    if events == [] then []
    else
      var e := events[0];
      var emit := EmitsByHistory(emitted, e.key, e.at);
      [emit] + HistoryAnswers(if emit then emitted + [e] else emitted, events[1..])
  }

  function Answers(last: map<Key, real>, events: seq<Event>): (r: seq<bool>)
    ensures |r| == |events|
    decreases |events|
  {
    if events == [] then []
    else
      var e := events[0];
      [Emits(last, e.key, e.at)] + Answers(Next(last, e.key, e.at), events[1..])
  }

  /** What the throttle remembers after these emissions, and no more. */
  function Remembered(emitted: seq<Event>): map<Key, real> {
    if emitted == [] then map[]
    else
      var last := emitted[|emitted| - 1];
      Evicted(Remembered(emitted[..|emitted| - 1])[last.key := last.at], last.at - TTL * 4.0)
  }

  /** The key's latest emission. */
  predicate Latest(emitted: seq<Event>, i: nat, key: Key) {
    i < |emitted| && emitted[i].key == key && forall j :: i < j < |emitted| ==> emitted[j].key != key
  }

  /** An emission so much later that it evicted this one. */
  predicate Overtaken(emitted: seq<Event>, i: nat)
    requires i < |emitted|
  {
    exists j :: i < j < |emitted| && emitted[j].at - TTL * 4.0 > emitted[i].at
  }

  /** A call decided within the TTL of its key's latest emission, after a call so far ahead of that one that
      it evicted it. */
  predicate Slips(emitted: seq<Event>, e: Event) {
    exists i :: 0 <= i < |emitted| && Latest(emitted, i, e.key) && e.at - emitted[i].at < TTL && Overtaken(emitted, i)
  }

  /** What the history emits of this call. */
  function Emitted(emitted: seq<Event>, e: Event): seq<Event> {
    if EmitsByHistory(emitted, e.key, e.at) then emitted + [e] else emitted
  }

  /** No call of these slips, told from the emissions before it. */
  predicate NoneSlips(emitted: seq<Event>, events: seq<Event>)
    decreases |events|
  {
    events == [] || (!Slips(emitted, events[0]) && NoneSlips(Emitted(emitted, events[0]), events[1..]))
  }

  /** Emissions of one key, in the order they were decided, are at least a TTL apart. */
  predicate Spaced(emitted: seq<Event>) {
    forall i, j :: 0 <= i < j < |emitted| && emitted[i].key == emitted[j].key ==> emitted[j].at - emitted[i].at >= TTL
  }

  lemma LatestOneLater(emitted: seq<Event>, e: Event, i: nat, key: Key)
    requires i < |emitted|
    ensures Latest(emitted + [e], i, key) <==> Latest(emitted, i, key) && e.key != key
    ensures Overtaken(emitted + [e], i) <==> Overtaken(emitted, i) || e.at - TTL * 4.0 > emitted[i].at
  {
    var more := emitted + [e];
    assert more[|emitted|] == e && forall j :: 0 <= j < |emitted| ==> more[j] == emitted[j];
    if Overtaken(emitted, i) {
      var j :| i < j < |emitted| && emitted[j].at - TTL * 4.0 > emitted[i].at;
      assert more[j].at - TTL * 4.0 > more[i].at;
    }
  }

  /** A key is remembered, as it was last emitted, exactly when no later emission evicted it. */
  lemma {:induction false} RemembersTheLatest(emitted: seq<Event>, i: nat, key: Key)
    requires Latest(emitted, i, key)
    ensures key in Remembered(emitted) <==> !Overtaken(emitted, i)
    ensures key in Remembered(emitted) ==> Remembered(emitted)[key] == emitted[i].at
  {
    var init, last := emitted[..|emitted| - 1], emitted[|emitted| - 1];
    assert emitted == init + [last];
    if i < |init| {
      LatestOneLater(init, last, i, key);
      RemembersTheLatest(init, i, key);
    }
  }

  lemma {:induction false} RemembersOnlyEmitted(emitted: seq<Event>, key: Key)
    requires key in Remembered(emitted)
    ensures exists i :: 0 <= i < |emitted| && Latest(emitted, i, key)
  {
    var init, last := emitted[..|emitted| - 1], emitted[|emitted| - 1];
    assert emitted == init + [last];
    if last.key == key {
      assert Latest(emitted, |init|, key);
    } else {
      RemembersOnlyEmitted(init, key);
      var i :| 0 <= i < |init| && Latest(init, i, key);
      LatestOneLater(init, last, i, key);
    }
  }

  lemma {:induction false} SomeLatest(emitted: seq<Event>, i: nat)
    requires i < |emitted|
    ensures exists j :: i <= j < |emitted| && Latest(emitted, j, emitted[i].key)
    decreases |emitted| - i
  {
    if !Latest(emitted, i, emitted[i].key) {
      var j :| i < j < |emitted| && emitted[j].key == emitted[i].key;
      SomeLatest(emitted, j);
    }
  }

  /** A history of emissions at least a TTL apart decides a call by the key's latest alone. */
  lemma LatestDecides(emitted: seq<Event>, i: nat, e: Event)
    requires Spaced(emitted) && Latest(emitted, i, e.key)
    ensures EmitsByHistory(emitted, e.key, e.at) <==> e.at - emitted[i].at >= TTL
  {
  }

  /** On one call the throttle and the history differ exactly when it slips, and then the throttle emits. */
  lemma DifferExactlyWhenItSlips(emitted: seq<Event>, e: Event)
    requires Spaced(emitted)
    ensures (Emits(Remembered(emitted), e.key, e.at) <==> EmitsByHistory(emitted, e.key, e.at)) <==> !Slips(emitted, e)
    ensures Slips(emitted, e) ==> Emits(Remembered(emitted), e.key, e.at)
  {
    if i :| 0 <= i < |emitted| && emitted[i].key == e.key {
      SomeLatest(emitted, i);
      var j :| i <= j < |emitted| && Latest(emitted, j, e.key);
      LatestDecides(emitted, j, e);
      RemembersTheLatest(emitted, j, e.key);
      SlipsByTheLatest(emitted, j, e);
    } else {
      NeverEmitted(emitted, e);
    }
  }

  lemma SlipsByTheLatest(emitted: seq<Event>, i: nat, e: Event)
    requires Latest(emitted, i, e.key)
    ensures Slips(emitted, e) <==> e.at - emitted[i].at < TTL && Overtaken(emitted, i)
  {
    if j :| 0 <= j < |emitted| && Latest(emitted, j, e.key) && e.at - emitted[j].at < TTL && Overtaken(emitted, j) {
      assert j == i;
    }
  }

  /** A key never emitted is emitted, and no call of it slips. */
  lemma NeverEmitted(emitted: seq<Event>, e: Event)
    requires forall i :: 0 <= i < |emitted| ==> emitted[i].key != e.key
    ensures Emits(Remembered(emitted), e.key, e.at) && EmitsByHistory(emitted, e.key, e.at) && !Slips(emitted, e)
  {
    if e.key in Remembered(emitted) {
      RemembersOnlyEmitted(emitted, e.key);
    }
  }

  lemma EmittedStaysSpaced(emitted: seq<Event>, e: Event)
    requires Spaced(emitted)
    ensures Spaced(Emitted(emitted, e))
  {
  }

  /** The throttle goes on from what it remembers of the emissions. */
  lemma RemembersOn(emitted: seq<Event>, e: Event)
    requires Emits(Remembered(emitted), e.key, e.at) <==> EmitsByHistory(emitted, e.key, e.at)
    ensures Next(Remembered(emitted), e.key, e.at) == Remembered(Emitted(emitted, e))
  {
    assert (emitted + [e])[..|emitted|] == emitted;
  }

  lemma {:induction false} SameAnswersExactly(emitted: seq<Event>, events: seq<Event>)
    requires Spaced(emitted)
    ensures Answers(Remembered(emitted), events) == HistoryAnswers(emitted, events) <==> NoneSlips(emitted, events)
    decreases |events|
  {
    if events != [] {
      var e := events[0];
      var answers, expected := Answers(Remembered(emitted), events), HistoryAnswers(emitted, events);
      DifferExactlyWhenItSlips(emitted, e);
      if Slips(emitted, e) {
        assert answers[0] != expected[0];
      } else {
        RemembersOn(emitted, e);
        EmittedStaysSpaced(emitted, e);
        SameAnswersExactly(Emitted(emitted, e), events[1..]);
        assert answers[1..] == Answers(Remembered(Emitted(emitted, e)), events[1..]);
        assert expected[1..] == HistoryAnswers(Emitted(emitted, e), events[1..]);
      }
    }
  }

  /** The throttle with eviction answers every call as one that never forgets exactly when none slips. */
  lemma ForgettingShowsExactlyWhenOneSlips(events: seq<Event>)
    ensures Answers(map[], events) == HistoryAnswers([], events) <==> NoneSlips([], events)
  {
    SameAnswersExactly([], events);
  }

  function Max(a: real, b: real): real {
    if a < b then b else a
  }

  /** The clock is read before the lock is taken, so calls may be decided out of order; none is more than
      three TTLs behind one decided before it. A clock that never runs back is the case without lag. */
  predicate LittleLag(events: seq<Event>, high: real)
    decreases |events|
  {
    events == [] || (events[0].at >= high - TTL * 3.0 && LittleLag(events[1..], Max(high, events[0].at)))
  }

  lemma {:induction false} LittleLagNeverSlips(emitted: seq<Event>, events: seq<Event>, high: real)
    requires LittleLag(events, high) && forall i :: 0 <= i < |emitted| ==> emitted[i].at <= high
    ensures NoneSlips(emitted, events)
    decreases |events|
  {
    if events != [] {
      LittleLagNeverSlips(Emitted(emitted, events[0]), events[1..], Max(high, events[0].at));
    }
  }

  /** So it does when no call is decided more than three TTLs late. */
  lemma ThrottleIsAnUnboundedHistory(events: seq<Event>, start: real)
    requires LittleLag(events, start)
    ensures NoneSlips([], events) && Answers(map[], events) == HistoryAnswers([], events)
  {
    LittleLagNeverSlips([], events, start);
    ForgettingShowsExactlyWhenOneSlips(events);
  }

  /** A call that slips: the entry of a key is evicted by a call far ahead, and a late call emits the key a
      second time within its TTL. */
  lemma ALateCallSlipsThrough(a: Key, b: Key)
    requires a != b
    ensures var events := [Event(a, 0.0), Event(b, 1201.0), Event(a, 1.0)];
      && Answers(map[], events) == [true, true, true]
      && HistoryAnswers([], events) == [true, true, false]
  {
    var e0, e1, e2 := Event(a, 0.0), Event(b, 1201.0), Event(a, 1.0);
    var m1 := Next(map[], a, 0.0);
    assert m1 == map[a := 0.0];
    var m2 := Next(m1, b, 1201.0);
    assert m2 == map[b := 1201.0];
    assert [e0, e1, e2][1..] == [e1, e2] && [e1, e2][1..] == [e2] && [e2][1..] == [];
    assert Answers(m2, [e2]) == [true] + Answers(Next(m2, a, 1.0), []);
    assert Answers(m1, [e1, e2]) == [true] + Answers(m2, [e2]);
    assert Answers(map[], [e0, e1, e2]) == [true] + Answers(m1, [e1, e2]);
    assert [] + [e0] == [e0] && [e0] + [e1] == [e0, e1];
    assert [e0, e1][0] == e0 && !EmitsByHistory([e0, e1], a, 1.0);
    assert HistoryAnswers([e0, e1], [e2]) == [false] + HistoryAnswers([e0, e1], []);
    assert EmitsByHistory([e0], b, 1201.0);
    assert HistoryAnswers([e0], [e1, e2]) == [true] + HistoryAnswers([e0, e1], [e2]);
    assert HistoryAnswers([], [e0, e1, e2]) == [true] + HistoryAnswers([e0], [e1, e2]);
  }

  // ------------------------------------------------------------ spacing and size

  /** The emission of one key, answered so, comes less than a TTL after another before it. */
  predicate TooSoon(answers: seq<bool>, events: seq<Event>, i: nat, j: nat)
    requires |answers| == |events|
  {
    i < j < |events| && answers[i] && answers[j] && events[i].key == events[j].key && events[j].at - events[i].at < TTL
  }

  /** An emission answered so comes less than a TTL after one made before these calls. */
  predicate TooSoonAfter(emitted: seq<Event>, answers: seq<bool>, events: seq<Event>, i: nat, j: nat)
    requires |answers| == |events|
  {
    i < |emitted| && j < |events| && answers[j] && emitted[i].key == events[j].key && events[j].at - emitted[i].at < TTL
  }

  lemma {:induction false} HistoryNeverTooSoonAfter(emitted: seq<Event>, events: seq<Event>, i: nat, j: nat)
    requires |HistoryAnswers(emitted, events)| == |events|
    ensures !TooSoonAfter(emitted, HistoryAnswers(emitted, events), events, i, j)
    decreases j
  {
    var answers := HistoryAnswers(emitted, events);
    if 0 < j < |events| && i < |emitted| {
      var more := Emitted(emitted, events[0]);
      assert answers[1..] == HistoryAnswers(more, events[1..]) && more[i] == emitted[i];
      HistoryNeverTooSoonAfter(more, events[1..], i, j - 1);
    }
  }

  lemma {:induction false} HistoryNeverTooSoon(emitted: seq<Event>, events: seq<Event>, i: nat, j: nat)
    requires |HistoryAnswers(emitted, events)| == |events|
    ensures !TooSoon(HistoryAnswers(emitted, events), events, i, j)
    decreases i
  {
    var answers := HistoryAnswers(emitted, events);
    if i < j < |events| && answers[i] {
      var more := Emitted(emitted, events[0]);
      assert answers[1..] == HistoryAnswers(more, events[1..]);
      if i == 0 {
        assert more[|emitted|] == events[0];
        HistoryNeverTooSoonAfter(more, events[1..], |emitted|, j - 1);
      } else {
        HistoryNeverTooSoon(more, events[1..], i - 1, j - 1);
      }
    }
  }

  /** A call that slips is emitted too soon. */
  lemma {:induction false} ASlipIsTooSoon(emitted: seq<Event>, events: seq<Event>) returns (i: nat, j: nat)
    requires Spaced(emitted) && !NoneSlips(emitted, events)
    ensures var answers := Answers(Remembered(emitted), events);
      TooSoonAfter(emitted, answers, events, i, j) || TooSoon(answers, events, i, j)
    decreases |events|
  {
    var e, answers := events[0], Answers(Remembered(emitted), events);
    DifferExactlyWhenItSlips(emitted, e);
    if Slips(emitted, e) {
      i :| 0 <= i < |emitted| && Latest(emitted, i, e.key) && e.at - emitted[i].at < TTL && Overtaken(emitted, i);
      j := 0;
    } else {
      var more := Emitted(emitted, e);
      RemembersOn(emitted, e);
      EmittedStaysSpaced(emitted, e);
      var i', j' := ASlipIsTooSoon(more, events[1..]);
      assert answers == [Emits(Remembered(emitted), e.key, e.at)] + Answers(Remembered(more), events[1..]);
      i, j := OneCallEarlier(emitted, events, answers, i', j');
    }
  }

  /** What comes too soon after a call comes too soon in the run that starts with it. */
  lemma OneCallEarlier(emitted: seq<Event>, events: seq<Event>, answers: seq<bool>, i': nat, j': nat) returns (i: nat, j: nat)
    requires events != [] && |answers| == |events| && (EmitsByHistory(emitted, events[0].key, events[0].at) ==> answers[0])
    requires TooSoonAfter(Emitted(emitted, events[0]), answers[1..], events[1..], i', j')
             || TooSoon(answers[1..], events[1..], i', j')
    ensures TooSoonAfter(emitted, answers, events, i, j) || TooSoon(answers, events, i, j)
  {
    if TooSoon(answers[1..], events[1..], i', j') {
      i, j := i' + 1, j' + 1;
    } else if i' < |emitted| {
      i, j := i', j' + 1;
    } else {
      i, j := 0, j' + 1;
    }
  }

  /** Emissions of one key, one decided after the other, are all at least a TTL apart exactly when no call
      slips. */
  lemma SpacedExactlyWhenNoneSlips(events: seq<Event>)
    ensures (forall i, j :: !TooSoon(Answers(map[], events), events, i, j)) <==> NoneSlips([], events)
  {
    ForgettingShowsExactlyWhenOneSlips(events);
    if NoneSlips([], events) {
      forall i, j ensures !TooSoon(Answers(map[], events), events, i, j) {
        HistoryNeverTooSoon([], events, i, j);
      }
    } else {
      var i, j := ASlipIsTooSoon([], events);
      assert TooSoon(Answers(map[], events), events, i, j);
    }
  }

  /** So they are when no call is decided more than three TTLs late. */
  lemma EmissionsAreSpaced(events: seq<Event>, start: real, i: nat, j: nat)
    requires LittleLag(events, start) && i < j < |events| && events[i].key == events[j].key
    requires Answers(map[], events)[i] && Answers(map[], events)[j]
    ensures events[j].at - events[i].at >= TTL
  {
    ThrottleIsAnUnboundedHistory(events, start);
    SpacedExactlyWhenNoneSlips(events);
    assert !TooSoon(Answers(map[], events), events, i, j);
  }

  /** After an emission nothing older than four TTLs is kept, and a key is kept exactly when it is the one
      emitted or was emitted less than that ago. */
  lemma EmissionDropsTheOld(last: map<Key, real>, key: Key, now: real)
    requires Emits(last, key, now)
    ensures var next := Next(last, key, now);
      && (forall k :: k in next ==> now - next[k] <= TTL * 4.0)
      && next.Keys == {key} + (set k | k in last && now - last[k] <= TTL * 4.0)
      && (forall k :: k in next && k != key ==> next[k] == last[k])
  {
  }
}

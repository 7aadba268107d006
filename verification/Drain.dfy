/** drainPending: what one call does to the counters and the parked queue. */
module Draining {
  import opened Integers
  import opened UpdateTypes
  import opened SequenceCounters

  datatype Drained = Drained(counters: Counters, left: seq<Parked>, emitted: seq<Item>, dropped: seq<Item>)

  /** One pass over the queue, oldest first. */
  function Scan(c: Counters, rest: seq<Parked>): Drained
    decreases |rest|
  {
    if rest == [] then Drained(c, [], [], [])
    else
      var item := rest[0].item;
      match c.Verdict(item)
      case Gap =>
        var r := Scan(c, rest[1..]);
        r.(left := [rest[0]] + r.left)
      case Duplicate =>
        var r := Scan(c, rest[1..]);
        r.(dropped := [item] + r.dropped)
      case Apply =>
        var r := Scan(c.Advance(item.channelId, item.pts), rest[1..]);
        r.(emitted := [item] + r.emitted)
  }

  lemma {:induction false} ScanShrinks(c: Counters, rest: seq<Parked>)
    ensures |Scan(c, rest).left| + |Scan(c, rest).emitted| + |Scan(c, rest).dropped| == |rest|
    decreases |rest|
  {
    if rest != [] {
      var item := rest[0].item;
      ScanShrinks(if c.Verdict(item) == Apply then c.Advance(item.channelId, item.pts) else c, rest[1..]);
    }
  }

  function After(emitted: seq<Item>, dropped: seq<Item>, r: Drained): Drained {
    r.(emitted := emitted + r.emitted, dropped := dropped + r.dropped)
  }

  /** Passes until one takes nothing out of the queue. */
  function Drain(c: Counters, pending: seq<Parked>): Drained
    decreases |pending|
  {
    var r := Scan(c, pending);
    ScanShrinks(c, pending);
    if |r.left| == |pending| then r
    else After(r.emitted, r.dropped, Drain(r.counters, r.left))
  }

  ghost predicate AllGaps(c: Counters, pending: seq<Parked>) {
    forall i :: 0 <= i < |pending| ==> c.Verdict(pending[i].item) == Gap
  }

  lemma {:induction false} IdleScan(c: Counters, rest: seq<Parked>)
    requires |Scan(c, rest).left| == |rest|
    ensures AllGaps(c, rest) && Scan(c, rest) == Drained(c, rest, [], [])
  {
    if rest != [] {
      var item := rest[0].item;
      if c.Verdict(item) == Apply {
        ScanShrinks(c.Advance(item.channelId, item.pts), rest[1..]);
      } else {
        ScanShrinks(c, rest[1..]);
      }
      IdleScan(c, rest[1..]);
      assert rest == [rest[0]] + rest[1..];
    }
  }

  lemma {:induction false} GapsScan(c: Counters, rest: seq<Parked>)
    requires AllGaps(c, rest)
    ensures Scan(c, rest) == Drained(c, rest, [], [])
  {
    if rest != [] {
      assert AllGaps(c, rest[1..]) by {
        assert forall i :: 0 <= i < |rest[1..]| ==> rest[1..][i] == rest[i + 1];
      }
      GapsScan(c, rest[1..]);
      assert rest == [rest[0]] + rest[1..];
    }
  }

  /** Draining ends at a fixpoint: nothing it leaves is applicable or old, and a second drain
      does nothing. */
  lemma {:induction false} DrainReachesFixpoint(c: Counters, pending: seq<Parked>)
    ensures var r := Drain(c, pending);
            AllGaps(r.counters, r.left) && Drain(r.counters, r.left) == Drained(r.counters, r.left, [], [])
    decreases |pending|
  {
    var r := Scan(c, pending);
    if |r.left| == |pending| {
      IdleScan(c, pending);
    } else {
      ScanShrinks(c, pending);
      DrainReachesFixpoint(r.counters, r.left);
    }
  }


  lemma {:induction false} ScanPartition(c: Counters, rest: seq<Parked>)
    ensures var r := Scan(c, rest);
            ItemsOf(rest) == ItemsOf(r.left) + multiset(r.emitted) + multiset(r.dropped)
    decreases |rest|
  {
    if rest != [] {
      var item := rest[0].item;
      match c.Verdict(item)
      case Gap => ScanPartition(c, rest[1..]);
      case Duplicate => ScanPartition(c, rest[1..]);
      case Apply => ScanPartition(c.Advance(item.channelId, item.pts), rest[1..]);
    }
  }

  /** Nothing is lost and nothing is duplicated: the queue is exactly what is left, what was
      emitted and what was dropped as already applied. */
  lemma {:induction false} DrainPartition(c: Counters, pending: seq<Parked>)
    ensures var r := Drain(c, pending);
            ItemsOf(pending) == ItemsOf(r.left) + multiset(r.emitted) + multiset(r.dropped)
            && |r.left| <= |pending|
    decreases |pending|
  {
    var r := Scan(c, pending);
    ScanPartition(c, pending);
    ScanShrinks(c, pending);
    if |r.left| != |pending| {
      var s := Drain(r.counters, r.left);
      DrainPartition(r.counters, r.left);
      assert multiset(r.emitted + s.emitted) == multiset(r.emitted) + multiset(s.emitted);
      assert multiset(r.dropped + s.dropped) == multiset(r.dropped) + multiset(s.dropped);
    }
  }

  /** `items` applied in order from `c`, each in sequence when its turn comes. */
  ghost predicate InSequence(c: Counters, items: seq<Item>)
    decreases |items|
  {
    items == [] ||
    (c.Verdict(items[0]) == Apply && InSequence(c.Advance(items[0].channelId, items[0].pts), items[1..]))
  }

  function AdvanceAll(c: Counters, items: seq<Item>): Counters
    decreases |items|
  {
    if items == [] then c else AdvanceAll(c.Advance(items[0].channelId, items[0].pts), items[1..])
  }

  lemma {:induction false} InSequenceAppend(c: Counters, a: seq<Item>, b: seq<Item>)
    requires InSequence(c, a) && InSequence(AdvanceAll(c, a), b)
    ensures InSequence(c, a + b) && AdvanceAll(c, a + b) == AdvanceAll(AdvanceAll(c, a), b)
    decreases |a|
  {
    if a == [] {
      assert a + b == b;
    } else {
      assert (a + b)[1..] == a[1..] + b;
      InSequenceAppend(c.Advance(a[0].channelId, a[0].pts), a[1..], b);
    }
  }

  lemma {:induction false} ScanInSequence(c: Counters, rest: seq<Parked>)
    ensures var r := Scan(c, rest); InSequence(c, r.emitted) && r.counters == AdvanceAll(c, r.emitted)
    decreases |rest|
  {
    if rest != [] {
      var item := rest[0].item;
      match c.Verdict(item)
      case Gap => ScanInSequence(c, rest[1..]);
      case Duplicate => ScanInSequence(c, rest[1..]);
      case Apply =>
        var d := c.Advance(item.channelId, item.pts);
        ScanInSequence(d, rest[1..]);
        var s := Scan(d, rest[1..]);
        assert ([item] + s.emitted)[1..] == s.emitted;
    }
  }

  /** What a drain emits is a sequence of in-order applications from the counters it started
      with to the counters it ends with. */
  lemma {:induction false} DrainInSequence(c: Counters, pending: seq<Parked>)
    ensures var r := Drain(c, pending); InSequence(c, r.emitted) && r.counters == AdvanceAll(c, r.emitted)
    decreases |pending|
  {
    var r := Scan(c, pending);
    ScanInSequence(c, pending);
    ScanShrinks(c, pending);
    if |r.left| != |pending| {
      DrainInSequence(r.counters, r.left);
      InSequenceAppend(c, r.emitted, Drain(r.counters, r.left).emitted);
    }
  }

  ghost predicate NotBehind(a: Counters, b: Counters) {
    forall ch {:trigger b.Local(ch)} :: a.Local(ch) <= b.Local(ch)
  }

  ghost predicate Behind(c: Counters, items: seq<Item>) {
    forall i :: 0 <= i < |items| ==> items[i].pts <= c.Local(items[i].channelId)
  }

  lemma BehindLater(a: Counters, b: Counters, items: seq<Item>)
    requires Behind(a, items) && NotBehind(a, b)
    ensures Behind(b, items)
  {
    forall i | 0 <= i < |items| ensures items[i].pts <= b.Local(items[i].channelId) {
      assert a.Local(items[i].channelId) <= b.Local(items[i].channelId);
    }
  }

  lemma {:induction false} ScanSettles(c: Counters, rest: seq<Parked>)
    ensures var r := Scan(c, rest);
            NotBehind(c, r.counters) && Behind(r.counters, r.emitted) && Behind(r.counters, r.dropped)
    decreases |rest|
  {
    if rest != [] {
      var item := rest[0].item;
      if c.Verdict(item) == Apply {
        var d := c.Advance(item.channelId, item.pts);
        ScanSettles(d, rest[1..]);
        assert d.Local(item.channelId) <= Scan(d, rest[1..]).counters.Local(item.channelId);
        assert NotBehind(c, d);
        assert NotBehind(c, Scan(d, rest[1..]).counters) by {
          forall ch ensures c.Local(ch) <= Scan(d, rest[1..]).counters.Local(ch) {
            assert d.Local(ch) <= Scan(d, rest[1..]).counters.Local(ch);
          }
        }
      } else {
        ScanSettles(c, rest[1..]);
        assert c.Local(item.channelId) <= Scan(c, rest[1..]).counters.Local(item.channelId);
      }
    }
  }

  /** No counter goes back in a drain, and everything it took out of the queue ends at or
      below the counter of its sequence. */
  lemma {:induction false} DrainSettles(c: Counters, pending: seq<Parked>)
    ensures var r := Drain(c, pending);
            NotBehind(c, r.counters) && Behind(r.counters, r.emitted) && Behind(r.counters, r.dropped)
    decreases |pending|
  {
    var r := Scan(c, pending);
    ScanSettles(c, pending);
    ScanShrinks(c, pending);
    if |r.left| != |pending| {
      var s := Drain(r.counters, r.left);
      DrainSettles(r.counters, r.left);
      BehindLater(r.counters, s.counters, r.emitted);
      BehindLater(r.counters, s.counters, r.dropped);
      forall ch ensures c.Local(ch) <= s.counters.Local(ch) {
        assert r.counters.Local(ch) <= s.counters.Local(ch);
      }
    }
  }
}

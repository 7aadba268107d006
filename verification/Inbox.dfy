/** The half of the update manager that decides what is handed on: counters, parked queue and
    gap timer, together with the accounts the theorems speak about. */
module UpdateInbox {
  import opened Integers
  import opened UpdateTypes
  import opened Options
  import opened SequenceCounters
  import opened Draining

  /** Where every pts-carrying update that arrived has gone; those still parked are in none of
      the last three. What was emitted is kept in order. */
  datatype Ledger = Ledger(
    received: multiset<Item>,
    emitted: seq<Item>,
    dropped: multiset<Item>,
    discarded: multiset<Item>)

  /** The value a reply last assigned to a sequence's counter, and how much had been emitted, on
      all sequences, by then. A sequence without an entry was last cleared at `floor`. */
  datatype Mark = Mark(value: int32, since: nat)
  datatype Marks = Marks(floor: nat, at: map<int, Mark>)

  function MarkOf(m: Marks, c: int): Mark {
    if c in m.at then m.at[c] else Mark(0, m.floor)
  }

  function From<T>(s: seq<T>, n: nat): seq<T> {
    if n <= |s| then s[n..] else []
  }

  function OfSequence(items: seq<Item>, c: int): seq<Item> {
    if items == [] then []
    else
      var last := items[|items| - 1];
      OfSequence(items[..|items| - 1], c) + (if last.channelId == c then [last] else [])
  }

  /** What has been emitted on one sequence since its counter was last assigned, and the value
      assigned then. */
  datatype Run = Run(anchor: int32, items: seq<Item>)

  function RunOf(b: Inbox, c: int): Run {
    var m := MarkOf(b.marks, c);
    Run(m.value, OfSequence(From(b.ledger.emitted, m.since), c))
  }

  function Unexpired(ps: seq<Parked>, tick: nat): seq<Parked> {
    if ps == [] then []
    else (if tick - ps[0].parkedAt < 1 then [ps[0]] else []) + Unexpired(ps[1..], tick)
  }

  function Expired(ps: seq<Parked>, tick: nat): seq<Parked> {
    if ps == [] then []
    else (if tick - ps[0].parkedAt < 1 then [] else [ps[0]]) + Expired(ps[1..], tick)
  }

  function WithoutChannel(ps: seq<Parked>, c: int): seq<Parked> {
    if ps == [] then []
    else (if ps[0].item.channelId != c then [ps[0]] else []) + WithoutChannel(ps[1..], c)
  }

  function OfChannel(ps: seq<Parked>, c: int): seq<Parked> {
    if ps == [] then []
    else (if ps[0].item.channelId != c then [] else [ps[0]]) + OfChannel(ps[1..], c)
  }

  datatype Inbox = Inbox(
    counters: Counters,
    pending: seq<Parked>,
    timerActive: bool,
    tick: nat,
    ledger: Ledger,
    marks: Marks)
  {
    function Receive(i: Item): Inbox {
      this.(ledger := ledger.(received := ledger.received + multiset{i}))
    }

    /** The queue is dropped whole, with the newcomer, once it is full. */
    function Park(i: Item): Inbox {
      if |pending| >= MAX_PENDING then
        this.(pending := [], ledger := ledger.(discarded := ledger.discarded + ItemsOf(pending) + multiset{i}))
      else
        this.(pending := pending + [Parked(i, tick)], timerActive := true)
    }

    function Accept(i: Item): Inbox {
      this.(counters := counters.Advance(i.channelId, i.pts),
            ledger := ledger.(emitted := ledger.emitted + [i]))
    }

    function DropDuplicate(i: Item): Inbox {
      this.(ledger := ledger.(dropped := ledger.dropped + multiset{i}))
    }

    function DrainPending(): Inbox {
      if pending == [] then this
      else
        var r := Drain(counters, pending);
        this.(counters := r.counters,
              pending := r.left,
              timerActive := timerActive && r.left != [],
              ledger := ledger.(emitted := ledger.emitted + r.emitted, dropped := ledger.dropped + multiset(r.dropped)))
    }

    function DrainEmits(): seq<Item> {
      Drain(counters, pending).emitted
    }

    /** Leaves only `kept` of the queue, `gone` being the rest. */
    function Keep(kept: seq<Parked>, gone: seq<Parked>): Inbox {
      this.(pending := kept,
            timerActive := timerActive && kept != [],
            ledger := ledger.(discarded := ledger.discarded + ItemsOf(gone)))
    }

    function Tick(): Inbox {
      this.(tick := tick + 1)
    }

    function Expires(): bool {
      Expired(pending, tick) != []
    }

    function ExpirePending(): Inbox {
      if Expires() then Keep(Unexpired(pending, tick), Expired(pending, tick)) else this
    }

    function DropPending(c: int): Inbox {
      Keep(WithoutChannel(pending, c), OfChannel(pending, c))
    }

    function ClearPending(): Inbox {
      Keep([], pending)
    }

    /** Installs counters in which only sequence `c` may have been assigned. */
    function Assign(to: Counters, c: int): Inbox {
      this.(counters := to, marks := marks.(at := marks.at[c := Mark(to.Local(c), |ledger.emitted|)]))
    }

    function ForgetChannel(c: int): Inbox {
      Assign(counters.ForgetChannel(c), c)
    }

    function ClearChannels(): Inbox {
      this.(counters := counters.ClearChannels(), marks := Marks(|ledger.emitted|, map[0 := MarkOf(marks, 0)]))
    }

    function Clear(): Inbox {
      this.(counters := CLEARED, marks := Marks(|ledger.emitted|, map[]))
    }

    /** A counter moved on the word of a reply rather than of an emitted update. */
    function AdvanceByReply(c: int, p: int32): Inbox {
      if p > counters.Local(c) then Assign(counters.Advance(c, p), c) else this
    }
  }

  /** The inbox built around stored counters. */
  function Restored(c: Counters): Inbox {
    Inbox(c, [], false, 0,
          Ledger(multiset{}, [], multiset{}, multiset{}),
          Marks(0, (map k | k in c.channels && k != 0 :: Mark(c.channels[k], 0))[0 := Mark(c.pts, 0)]))
  }

  // --- the parked queue ---------------------------------------------------------------------

  /** The queue is bounded, watched by the timer, and holds nothing that could be applied. */
  ghost predicate QueueOk(b: Inbox) {
    && |b.pending| <= MAX_PENDING
    && (b.pending != [] ==> b.timerActive)
    && (forall i :: 0 <= i < |b.pending| ==> b.pending[i].parkedAt <= b.tick)
    && (b.counters.valid ==> AllGaps(b.counters, b.pending))
  }

  lemma {:induction false} SurvivorsComeFromQueue(c: Counters, rest: seq<Parked>)
    ensures forall p :: p in Scan(c, rest).left ==> p in rest
    decreases |rest|
  {
    if rest != [] {
      var item := rest[0].item;
      SurvivorsComeFromQueue(if c.Verdict(item) == Apply then c.Advance(item.channelId, item.pts) else c, rest[1..]);
    }
  }

  lemma {:induction false} LeftoversComeFromQueue(c: Counters, pending: seq<Parked>)
    ensures forall p :: p in Drain(c, pending).left ==> p in pending
    decreases |pending|
  {
    SurvivorsComeFromQueue(c, pending);
    ScanShrinks(c, pending);
    var r := Scan(c, pending);
    if |r.left| != |pending| {
      LeftoversComeFromQueue(r.counters, r.left);
    }
  }

  lemma {:induction false} UnexpiredSplit(ps: seq<Parked>, tick: nat)
    ensures forall p :: p in Unexpired(ps, tick) ==> p in ps
    ensures |Unexpired(ps, tick)| + |Expired(ps, tick)| == |ps|
    ensures ItemsOf(ps) == ItemsOf(Unexpired(ps, tick)) + ItemsOf(Expired(ps, tick))
  {
    if ps != [] {
      UnexpiredSplit(ps[1..], tick);
      if tick - ps[0].parkedAt < 1 {
        SingletonItems(ps[0], Unexpired(ps[1..], tick));
        assert Expired(ps, tick) == Expired(ps[1..], tick);
      } else {
        SingletonItems(ps[0], Expired(ps[1..], tick));
        assert Unexpired(ps, tick) == Unexpired(ps[1..], tick);
      }
    }
  }

  lemma {:induction false} ChannelSplit(ps: seq<Parked>, c: int)
    ensures forall p :: p in WithoutChannel(ps, c) ==> p in ps && p.item.channelId != c
    ensures |WithoutChannel(ps, c)| + |OfChannel(ps, c)| == |ps|
    ensures ItemsOf(ps) == ItemsOf(WithoutChannel(ps, c)) + ItemsOf(OfChannel(ps, c))
  {
    if ps != [] {
      ChannelSplit(ps[1..], c);
      if ps[0].item.channelId != c {
        SingletonItems(ps[0], WithoutChannel(ps[1..], c));
        assert OfChannel(ps, c) == OfChannel(ps[1..], c);
      } else {
        SingletonItems(ps[0], OfChannel(ps[1..], c));
        assert WithoutChannel(ps, c) == WithoutChannel(ps[1..], c);
      }
    }
  }

  lemma SingletonItems(p: Parked, ps: seq<Parked>)
    ensures ItemsOf([p] + ps) == multiset{p.item} + ItemsOf(ps)
  {
    assert ([p] + ps)[1..] == ps;
  }

  lemma {:induction false} ItemsOfAppend(ps: seq<Parked>, p: Parked)
    ensures ItemsOf(ps + [p]) == ItemsOf(ps) + multiset{p.item}
  {
    if ps != [] {
      assert (ps + [p])[1..] == ps[1..] + [p];
      ItemsOfAppend(ps[1..], p);
    }
  }

  lemma {:induction false} ItemsOfContains(ps: seq<Parked>, k: nat)
    requires k < |ps|
    ensures ps[k].item in ItemsOf(ps)
  {
    if k > 0 { ItemsOfContains(ps[1..], k - 1); }
  }

  lemma {:induction false} ItemsOfWitness(ps: seq<Parked>, i: Item)
    requires i in ItemsOf(ps)
    ensures exists k :: 0 <= k < |ps| && ps[k].item == i
  {
    if ps[0].item != i {
      ItemsOfWitness(ps[1..], i);
      var k :| 0 <= k < |ps[1..]| && ps[1..][k].item == i;
      assert ps[k + 1].item == i;
    }
  }

  lemma GapsOfPart(c: Counters, whole: seq<Parked>, part: seq<Parked>)
    requires AllGaps(c, whole) && forall p :: p in part ==> p in whole
    ensures AllGaps(c, part)
  {
    forall i | 0 <= i < |part| ensures c.Verdict(part[i].item) == Gap { assert part[i] in whole; }
  }

  /** A drain restores the queue invariant from any counters whatever: this is what lets a
      reply assign a counter unconditionally. */
  lemma DrainRestoresQueue(b: Inbox)
    requires QueueOk(b.(counters := b.counters.(valid := false)))
    ensures QueueOk(b.DrainPending()) && AllGaps(b.DrainPending().counters, b.DrainPending().pending)
  {
    if b.pending != [] {
      DrainReachesFixpoint(b.counters, b.pending);
      LeftoversComeFromQueue(b.counters, b.pending);
      DrainPartition(b.counters, b.pending);
      var left := b.DrainPending().pending;
      forall i | 0 <= i < |left| ensures left[i].parkedAt <= b.tick { assert left[i] in b.pending; }
    }
  }

  lemma KeepKeepsQueue(b: Inbox, kept: seq<Parked>, gone: seq<Parked>)
    requires QueueOk(b) && |kept| <= |b.pending| && forall p :: p in kept ==> p in b.pending
    ensures QueueOk(b.Keep(kept, gone))
  {
    forall i | 0 <= i < |kept| ensures kept[i].parkedAt <= b.tick { assert kept[i] in b.pending; }
    if b.counters.valid { GapsOfPart(b.counters, b.pending, kept); }
  }

  /** Parking keeps the queue invariant when there was no verdict or the verdict was a gap. */
  lemma ParkKeepsQueue(b: Inbox, i: Item)
    requires QueueOk(b) && (b.counters.valid ==> b.counters.Verdict(i) == Gap)
    ensures QueueOk(b.Park(i))
  {
  }

  lemma DropKeepsQueue(b: Inbox, c: int)
    requires QueueOk(b)
    ensures QueueOk(b.DropPending(c)) && QueueOk(b.ExpirePending()) && QueueOk(b.ClearPending())
  {
    ChannelSplit(b.pending, c);
    UnexpiredSplit(b.pending, b.tick);
    KeepKeepsQueue(b, WithoutChannel(b.pending, c), OfChannel(b.pending, c));
    KeepKeepsQueue(b, Unexpired(b.pending, b.tick), Expired(b.pending, b.tick));
  }

  /** One gap tick empties the queue, whatever was parked and whenever. */
  lemma {:induction false} NothingOutlivesATick(ps: seq<Parked>, tick: nat)
    requires forall i :: 0 <= i < |ps| ==> ps[i].parkedAt <= tick
    ensures Unexpired(ps, tick + 1) == []
  {
    if ps != [] { NothingOutlivesATick(ps[1..], tick); }
  }

  // --- the ledger ---------------------------------------------------------------------------

  /** An item is the reading of its own update. */
  ghost predicate WellRead(i: Item) {
    i.update.pts == Some(i.pts) && i.ptsCount == i.update.ptsCount && i.channelId == ChannelIdOf(i.update)
  }

  /** Every update received is in exactly one place, counted with multiplicity. */
  ghost predicate LedgerOk(b: Inbox) {
    && b.ledger.received == multiset(b.ledger.emitted) + b.ledger.dropped + b.ledger.discarded + ItemsOf(b.pending)
    && (forall i :: i in b.ledger.received ==> WellRead(i))
  }

  lemma ParkKeepsLedger(b: Inbox, i: Item)
    requires LedgerOk(b) && WellRead(i)
    ensures LedgerOk(b.Receive(i).Park(i))
  {
    var l := b.ledger;
    ItemsOfAppend(b.pending, Parked(i, b.tick));
    OneMoreCounted(multiset(l.emitted) + l.dropped, l.discarded, ItemsOf(b.pending), i);
    assert ItemsOf([]) == multiset{};
    hide WellRead, ItemsOf;
  }

  lemma OneMoreCounted(settled: multiset<Item>, discarded: multiset<Item>, waiting: multiset<Item>, i: Item)
    ensures settled + discarded + waiting + multiset{i} == settled + discarded + (waiting + multiset{i})
    ensures settled + discarded + waiting + multiset{i}
              == settled + (discarded + waiting + multiset{i}) + multiset{}
  {
  }

  lemma SettleKeepsLedger(b: Inbox, i: Item)
    requires LedgerOk(b) && WellRead(i)
    ensures LedgerOk(b.Receive(i).Accept(i)) && LedgerOk(b.Receive(i).DropDuplicate(i))
  {
    hide WellRead, ItemsOf, Counters.Advance;
  }

  lemma DrainKeepsLedger(b: Inbox)
    requires LedgerOk(b)
    ensures LedgerOk(b.DrainPending())
  {
    DrainPartition(b.counters, b.pending);
  }

  lemma KeepKeepsLedger(b: Inbox, kept: seq<Parked>, gone: seq<Parked>)
    requires LedgerOk(b) && ItemsOf(b.pending) == ItemsOf(kept) + ItemsOf(gone)
    ensures LedgerOk(b.Keep(kept, gone))
  {
  }

  lemma DropKeepsLedger(b: Inbox, c: int)
    requires LedgerOk(b)
    ensures LedgerOk(b.DropPending(c)) && LedgerOk(b.ExpirePending()) && LedgerOk(b.ClearPending())
  {
    ChannelSplit(b.pending, c);
    KeepKeepsLedger(b, WithoutChannel(b.pending, c), OfChannel(b.pending, c));
    UnexpiredSplit(b.pending, b.tick);
    KeepKeepsLedger(b, Unexpired(b.pending, b.tick), Expired(b.pending, b.tick));
    KeepKeepsLedger(b, [], b.pending);
  }

  // --- the runs -----------------------------------------------------------------------------

  /** An update as a server numbers it. */
  ghost predicate Sane(i: Item) {
    i.pts >= 1 && i.ptsCount >= 1
  }

  function EndOf(r: Run): int {
    if r.items == [] then r.anchor else r.items[|r.items| - 1].pts
  }

  /** Each item starts where the one before it ended; only a sequence that was never polled
      may start anywhere. */
  ghost predicate Linked(r: Run) {
    && (r.items != [] ==> r.anchor == 0 || r.anchor + r.items[0].ptsCount == r.items[0].pts)
    && (forall k :: 0 < k < |r.items| ==> r.items[k - 1].pts + r.items[k].ptsCount == r.items[k].pts)
  }

  ghost predicate RunOk(b: Inbox, c: int) {
    var r := RunOf(b, c);
    && MarkOf(b.marks, c).since <= |b.ledger.emitted|
    && Linked(r)
    && EndOf(r) == b.counters.Local(c)
    && (forall k :: 0 <= k < |r.items| ==>
          r.items[k].channelId == c && Sane(r.items[k]) && r.items[k] in b.ledger.received)
  }

  /** The server numbers the updates of this sequence. */
  ghost predicate SaneOn(b: Inbox, c: int) {
    forall i :: i in b.ledger.received && i.channelId == c ==> Sane(i)
  }

  /** The run of every sequence that the server numbers is a chain that ends at the sequence's
      counter. */
  ghost predicate RunsOk(b: Inbox) {
    forall c :: SaneOn(b, c) ==> RunOk(b, c)
  }

  lemma OfSequenceSnoc(items: seq<Item>, i: Item, c: int)
    ensures OfSequence(items + [i], c) == OfSequence(items, c) + (if i.channelId == c then [i] else [])
  {
    assert (items + [i])[..|items|] == items;
  }

  lemma RunOfAccept(b: Inbox, i: Item, c: int)
    requires MarkOf(b.marks, c).since <= |b.ledger.emitted|
    ensures RunOf(b.Accept(i), c).anchor == RunOf(b, c).anchor
    ensures RunOf(b.Accept(i), c).items == RunOf(b, c).items + (if i.channelId == c then [i] else [])
  {
    var n := MarkOf(b.marks, c).since;
    assert From(b.ledger.emitted + [i], n) == From(b.ledger.emitted, n) + [i];
    OfSequenceSnoc(From(b.ledger.emitted, n), i, c);
  }

  /** Linking one more update that was in sequence. */
  lemma AcceptKeepsRun(b: Inbox, i: Item, c: int)
    requires RunOk(b, c) && b.counters.Verdict(i) == Apply
    requires i.channelId == c ==> Sane(i) && i in b.ledger.received
    ensures RunOk(b.Accept(i), c)
  {
    var r, longer := RunOf(b, c), RunOf(b.Accept(i), c);
    RunOfAccept(b, i, c);
    AcceptShape(b, i, c);
    hide *;
    if c == i.channelId {
      ItemsStay(b, b.Accept(i), c, i);
      AppliesNext(b.counters, i);
      RunIsLinked(b, c);
      LinkOneMore(r, longer, i);
      RunFromParts(b.Accept(i), c);
    } else {
      SameRun(b, b.Accept(i), c);
    }
  }

  lemma AcceptShape(b: Inbox, i: Item, c: int)
    ensures var a := b.Accept(i);
            && a.marks == b.marks && a.ledger.received == b.ledger.received
            && a.ledger.emitted == b.ledger.emitted + [i]
            && a.counters.Local(c) == if i.channelId == c && i.pts > b.counters.Local(c) then i.pts
                                      else b.counters.Local(c)
  {
    AdvanceMonotone(b.counters, i.channelId, i.pts, c);
  }

  ghost predicate ItemsOk(b: Inbox, c: int) {
    && MarkOf(b.marks, c).since <= |b.ledger.emitted|
    && forall k :: 0 <= k < |RunOf(b, c).items| ==>
         var i := RunOf(b, c).items[k]; i.channelId == c && Sane(i) && i in b.ledger.received
  }

  lemma RunIsLinked(b: Inbox, c: int)
    requires RunOk(b, c)
    ensures var r := RunOf(b, c);
            && Linked(r) && EndOf(r) == b.counters.Local(c)
            && (EndOf(r) == 0 ==> r.items == [] && r.anchor == 0)
  {
    hide Linked, Counters.Local, MarkOf;
  }

  lemma ItemsStay(b: Inbox, after: Inbox, c: int, i: Item)
    requires RunOk(b, c) && after.marks == b.marks && after.ledger.received == b.ledger.received
    requires after.ledger.emitted == b.ledger.emitted + [i] && RunOf(after, c).items == RunOf(b, c).items + [i]
    requires i.channelId == c && Sane(i) && i in b.ledger.received
    ensures ItemsOk(after, c)
  {
    hide RunOf, Linked, EndOf, MarkOf, Counters.Local, Sane;
  }

  lemma RunFromParts(b: Inbox, c: int)
    requires ItemsOk(b, c) && Linked(RunOf(b, c)) && EndOf(RunOf(b, c)) == b.counters.Local(c)
    ensures RunOk(b, c)
  {
    hide RunOf, Linked, EndOf, MarkOf, Counters.Local, Sane;
  }

  lemma SameRun(b: Inbox, after: Inbox, c: int)
    requires RunOk(b, c) && after.marks == b.marks && after.ledger.received == b.ledger.received
    requires |after.ledger.emitted| >= |b.ledger.emitted| && after.counters.Local(c) == b.counters.Local(c)
    requires RunOf(after, c).anchor == RunOf(b, c).anchor && RunOf(after, c).items == RunOf(b, c).items
    ensures RunOk(after, c)
  {
    hide RunOf, Linked, EndOf, MarkOf, Counters.Local, Sane;
  }

  /** An update that a server numbers applies where its interval starts at the counter. */
  lemma AppliesNext(c: Counters, i: Item)
    requires c.Verdict(i) == Apply && Sane(i)
    ensures var here := c.Local(i.channelId); i.pts > here && (here != 0 ==> here + i.ptsCount == i.pts)
  {
    var here := c.Local(i.channelId);
    if here != 0 { PositiveWrapIsExact(here + i.ptsCount); }
  }

  lemma LinkOneMore(r: Run, longer: Run, i: Item)
    requires Linked(r) && longer.anchor == r.anchor && longer.items == r.items + [i]
    requires EndOf(r) + i.ptsCount == i.pts || (r.items == [] && r.anchor == 0)
    ensures Linked(longer) && EndOf(longer) == i.pts
  {
  }

  lemma AcceptKeepsRuns(b: Inbox, i: Item)
    requires RunsOk(b) && b.counters.Verdict(i) == Apply && i in b.ledger.received
    ensures RunsOk(b.Accept(i))
  {
    forall c | SaneOn(b.Accept(i), c) ensures RunOk(b.Accept(i), c) {
      assert SaneOn(b, c);
      AcceptKeepsRun(b, i, c);
    }
  }

  function AcceptAll(b: Inbox, items: seq<Item>): Inbox
    decreases |items|
  {
    if items == [] then b else AcceptAll(b.Accept(items[0]), items[1..])
  }

  lemma {:induction false} AcceptAllShape(b: Inbox, items: seq<Item>)
    ensures AcceptAll(b, items) == b.(counters := AdvanceAll(b.counters, items),
                                      ledger := b.ledger.(emitted := b.ledger.emitted + items))
    decreases |items|
  {
    if items != [] {
      AcceptAllShape(b.Accept(items[0]), items[1..]);
      assert b.ledger.emitted + [items[0]] + items[1..] == b.ledger.emitted + items;
    } else {
      assert b.ledger.emitted + [] == b.ledger.emitted;
    }
  }

  lemma {:induction false} AcceptAllKeepsRuns(b: Inbox, items: seq<Item>)
    requires RunsOk(b) && InSequence(b.counters, items)
    requires forall k :: 0 <= k < |items| ==> items[k] in b.ledger.received
    ensures RunsOk(AcceptAll(b, items))
    decreases |items|
  {
    if items != [] {
      AcceptKeepsRuns(b, items[0]);
      assert forall k :: 0 <= k < |items[1..]| ==> items[1..][k] == items[k + 1];
      AcceptAllKeepsRuns(b.Accept(items[0]), items[1..]);
    }
  }

  /** A run depends on what was emitted and on the local values, and on nothing that is parked or
      counted elsewhere. */
  lemma RunsDependOn(a: Inbox, b: Inbox)
    requires RunsOk(a) && a.marks == b.marks && a.ledger.emitted == b.ledger.emitted
    requires a.ledger.received <= b.ledger.received
    requires forall c :: a.counters.Local(c) == b.counters.Local(c)
    ensures RunsOk(b)
  {
    forall c | SaneOn(b, c) ensures RunOk(b, c) {
      assert SaneOn(a, c) by {
        forall i | i in a.ledger.received && i.channelId == c ensures Sane(i) { assert i in b.ledger.received; }
      }
      assert RunOk(a, c);
      var r := RunOf(a, c);
      forall k | 0 <= k < |r.items| ensures r.items[k] in b.ledger.received { assert r.items[k] in a.ledger.received; }
    }
  }

  lemma DrainKeepsRuns(b: Inbox)
    requires RunsOk(b) && LedgerOk(b)
    ensures RunsOk(b.DrainPending())
  {
    if b.pending != [] {
      var r := Drain(b.counters, b.pending);
      DrainInSequence(b.counters, b.pending);
      DrainPartition(b.counters, b.pending);
      forall k | 0 <= k < |r.emitted| ensures r.emitted[k] in b.ledger.received {
        assert r.emitted[k] in multiset(r.emitted);
      }
      AcceptAllKeepsRuns(b, r.emitted);
      AcceptAllShape(b, r.emitted);
      RunsDependOn(AcceptAll(b, r.emitted), b.DrainPending());
    }
  }

  /** Assigning one counter starts that sequence's run afresh and leaves the others alone. */
  lemma AssignKeepsRuns(b: Inbox, to: Counters, c: int)
    requires RunsOk(b) && forall d :: d != c ==> to.Local(d) == b.counters.Local(d)
    ensures RunsOk(b.Assign(to, c))
  {
    forall d | SaneOn(b.Assign(to, c), d) ensures RunOk(b.Assign(to, c), d) {
      assert SaneOn(b, d);
      assert RunOk(b, d);
    }
  }

  lemma ClearingKeepsRuns(b: Inbox)
    requires RunsOk(b)
    ensures RunsOk(b.Clear()) && RunsOk(b.ClearChannels())
  {
    forall c | SaneOn(b.ClearChannels(), c) ensures RunOk(b.ClearChannels(), c) {
      if c == 0 {
        assert SaneOn(b, 0);
        assert RunOk(b, 0);
      }
    }
  }

  /** Everything the inbox keeps through every operation. */
  ghost predicate InboxOk(b: Inbox) {
    QueueOk(b) && LedgerOk(b) && RunsOk(b)
  }

  lemma RestoredOk(c: Counters)
    ensures InboxOk(Restored(c))
  {
    var b := Restored(c);
    forall d ensures RunOk(b, d) { }
  }
}

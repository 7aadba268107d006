/** Delivery: what the client is told of one sequence is a contiguous stretch of the server's log. */
module UpdateDelivery {
  import opened Integers
  import opened UpdateTypes
  import opened Options
  import opened SequenceCounters
  import opened Draining
  import opened UpdateInbox
  import opened UpdateAsks
  import opened UpdatePipeline
  import opened UpdateSafety
  import opened UpdateArrivals
  import opened UpdateLosses
  import opened UpdateDispatches

  /** The server's log of sequence `c` from the value `start`: each update advances the
      sequence by its pts_count, which is at least one. */
  ghost predicate Numbered(log: seq<Update>, c: int, start: int) {
    start >= 1 && forall k :: 0 <= k < |log| ==> Entry(log, c, start, k)
  }

  ghost predicate Entry(log: seq<Update>, c: int, start: int, k: nat)
    requires k < |log|
  {
    && log[k].pts.Some? && ChannelIdOf(log[k]) == c && log[k].ptsCount >= 1
    && log[k].pts.value == PtsAfter(log, start, k) + log[k].ptsCount
  }

  /** The value of the sequence after the first `k` entries. */
  function PtsAfter(log: seq<Update>, start: int, k: nat): int
    requires k <= |log|
  {
    if k == 0 then start else if log[k - 1].pts.Some? then log[k - 1].pts.value else 0
  }

  lemma {:induction false} PtsGrows(log: seq<Update>, c: int, start: int, j: nat, k: nat)
    requires Numbered(log, c, start) && j <= k <= |log|
    ensures PtsAfter(log, start, j) + (k - j) <= PtsAfter(log, start, k)
    decreases k - j
  {
    if j < k {
      PtsGrows(log, c, start, j, k - 1);
      assert Entry(log, c, start, k - 1);
    }
  }

  /** Positions in the log are told apart by their pts. */
  lemma SamePtsSamePosition(log: seq<Update>, c: int, start: int, j: nat, k: nat)
    requires Numbered(log, c, start) && j <= |log| && k <= |log| && PtsAfter(log, start, j) == PtsAfter(log, start, k)
    ensures j == k
  {
    if j <= k { PtsGrows(log, c, start, j, k); } else { PtsGrows(log, c, start, k, j); }
  }

  ghost predicate FromLog(items: seq<Item>, log: seq<Update>) {
    forall k :: 0 <= k < |items| ==> items[k].update in log && WellRead(items[k])
  }

  /** `items` are the entries of the log from position `a`, in order and each once. */
  ghost predicate RunFrom(items: seq<Item>, log: seq<Update>, a: nat) {
    a + |items| <= |log| && forall k :: 0 <= k < |items| ==> items[k].update == log[a + k]
  }

  lemma NextInLog(log: seq<Update>, c: int, start: int, a: nat, last: Item)
    requires Numbered(log, c, start) && a <= |log| && last.update in log && WellRead(last)
    requires PtsAfter(log, start, a) + last.ptsCount == last.pts
    ensures a < |log| && last.update == log[a] && last.pts == PtsAfter(log, start, a + 1)
  {
    var t: nat :| t < |log| && log[t] == last.update;
    assert Entry(log, c, start, t);
    SamePtsSamePosition(log, c, start, t, a);
  }

  /** A chain of log entries is a contiguous run of the log. It starts where the anchor says,
      or anywhere when the sequence had never been polled. */
  lemma {:induction false} ChainIsContiguous(log: seq<Update>, c: int, start: int, anchor: int32, items: seq<Item>)
      returns (a: nat)
    requires Numbered(log, c, start) && Linked(Run(anchor, items)) && FromLog(items, log)
    requires anchor == 0 || exists k: nat :: k <= |log| && PtsAfter(log, start, k) == anchor
    requires items != [] || anchor != 0
    ensures RunFrom(items, log, a)
    ensures anchor != 0 ==> PtsAfter(log, start, a) == anchor
    ensures EndOf(Run(anchor, items)) == PtsAfter(log, start, a + |items|)
    decreases |items|
  {
    if items == [] {
      a :| a <= |log| && PtsAfter(log, start, a) == anchor;
    } else if |items| == 1 && anchor == 0 {
      a := AdoptedFromLog(log, c, start, items[0]);
    } else {
      hide Linked, EndOf, Entry;
      var n := |items| - 1;
      LinkedPrefix(anchor, items);
      a := ChainIsContiguous(log, c, start, anchor, items[..n]);
      PtsGrows(log, c, start, 0, a + n);
      NextInLog(log, c, start, a + n, items[n]);
      RunFromMore(items, log, a);
    }
  }

  lemma AdoptedFromLog(log: seq<Update>, c: int, start: int, first: Item) returns (a: nat)
    requires Numbered(log, c, start) && first.update in log && WellRead(first)
    ensures a < |log| && log[a] == first.update && first.pts == PtsAfter(log, start, a + 1)
  {
    a :| a < |log| && log[a] == first.update;
    assert Entry(log, c, start, a);
  }

  lemma RunFromMore(items: seq<Item>, log: seq<Update>, a: nat)
    requires items != [] && RunFrom(items[..|items| - 1], log, a)
    requires a + |items| <= |log| && items[|items| - 1].update == log[a + |items| - 1]
    ensures RunFrom(items, log, a)
  {
    forall k | 0 <= k < |items| ensures items[k].update == log[a + k] {
      if k < |items| - 1 { assert items[..|items| - 1][k].update == log[a + k]; }
    }
  }

  lemma LinkedPrefix(anchor: int32, items: seq<Item>)
    requires items != [] && Linked(Run(anchor, items)) && (|items| > 1 || anchor != 0)
    ensures Linked(Run(anchor, items[..|items| - 1]))
    ensures var before := EndOf(Run(anchor, items[..|items| - 1])); var last := items[|items| - 1];
            before + last.ptsCount == last.pts && EndOf(Run(anchor, items)) == last.pts
  {
  }

  /** What there is of sequence `c` among the items is in the log. */
  ghost predicate AmongLog(items: multiset<Item>, log: seq<Update>, c: int) {
    forall i :: i in items && i.channelId == c ==> i.update in log
  }

  /** And numbered as a server does. */
  ghost predicate SaneAmong(items: multiset<Item>, c: int) {
    forall i :: i in items && i.channelId == c ==> Sane(i)
  }

  /** The counter's last assignment, if any, was to a position in the log. */
  ghost predicate AnchoredIn(b: Inbox, log: seq<Update>, c: int, start: int) {
    MarkOf(b.marks, c).value == 0 || exists k: nat :: k <= |log| && PtsAfter(log, start, k) == MarkOf(b.marks, c).value
  }

  /** The sequence's run is the log from position `a` on, and the counter where the run ends. */
  ghost predicate RunStands(b: Inbox, c: int, log: seq<Update>, start: int, a: nat) {
    var r := RunOf(b, c);
    && RunFrom(r.items, log, a)
    && (r.anchor != 0 ==> PtsAfter(log, start, a) == r.anchor)
    && b.counters.Local(c) == PtsAfter(log, start, a + |r.items|)
  }

  /** What is known of a run in a state that keeps the invariant. */
  lemma RunFacts(b: Inbox, c: int, log: seq<Update>)
    requires InboxOk(b) && SaneOn(b, c) && AmongLog(b.ledger.received, log, c)
    ensures var r := RunOf(b, c);
            && Linked(r) && EndOf(r) == b.counters.Local(c) && r.anchor == MarkOf(b.marks, c).value
            && FromLog(r.items, log)
  {
    assert RunOk(b, c);
    var r := RunOf(b, c);
    forall k | 0 <= k < |r.items| ensures r.items[k].update in log && WellRead(r.items[k]) {
      assert r.items[k] in b.ledger.received;
    }
  }

  lemma RunIsContiguous(v: View, c: int, log: seq<Update>, start: int) returns (a: nat)
    requires Ok(v) && SaneOn(v.inbox, c)
    requires Numbered(log, c, start) && AmongLog(v.inbox.ledger.received, log, c) && AnchoredIn(v.inbox, log, c, start)
    requires v.inbox.counters.Local(c) != 0
    ensures RunStands(v.inbox, c, log, start, a)
  {
    OkInbox(v);
    RunFacts(v.inbox, c, log);
    hide Ok, InboxOk, SaneOn, AmongLog, Numbered, RunOf, Linked, FromLog, MarkOf, Counters.Local;
    var r := RunOf(v.inbox, c);
    EmptyRunEnds(r);
    a := ChainIsContiguous(log, c, start, r.anchor, r.items);
  }

  lemma EmptyRunEnds(r: Run)
    ensures r.items == [] ==> EndOf(r) == r.anchor
  {
  }

  lemma CarriedFromLog(us: seq<Update>, items: seq<Item>, log: seq<Update>, a: nat)
    requires Carries(us, items) && RunFrom(items, log, a)
    ensures |us| == |items| && a + |us| <= |log| && us == log[a..a + |us|]
  {
  }

  lemma AnchorOfRun(b: Inbox, c: int)
    ensures RunOf(b, c).anchor == MarkOf(b.marks, c).value
  {
  }

  /** What the client was told of the sequence since its counter was last assigned is the log from
      position `a` on, each entry once and in order: `a` is where the assignment put the counter,
      and the last entry told is where the counter is. */
  ghost predicate ToldFrom(v: View, c: int, log: seq<Update>, start: int, a: nat) {
    var told := HandedSince(v, c);
    && a + |told| <= |log| && told == log[a..a + |told|]
    && (MarkOf(v.inbox.marks, c).value != 0 ==> PtsAfter(log, start, a) == MarkOf(v.inbox.marks, c).value)
    && v.inbox.counters.Local(c) == PtsAfter(log, start, a + |told|)
  }

  /** What was told is the run. */
  lemma ToldIsRun(v: View, c: int, log: seq<Update>, start: int, a: nat)
    requires Told(v) && LedgerOk(v.inbox) && RunStands(v.inbox, c, log, start, a)
    ensures ToldFrom(v, c, log, start, a)
    ensures |HandedSince(v, c)| == |RunOf(v.inbox, c).items|
  {
    hide Told, LedgerOk, HandedSince, PtsAfter, RunOf, RunFrom, Carries, MarkOf, Counters.Local;
    HandedSinceIsRun(v, c);
    AnchorOfRun(v.inbox, c);
    CarriedFromLog(HandedSince(v, c), RunOf(v.inbox, c).items, log, a);
  }

  lemma TellingIsContiguous(v: View, c: int, log: seq<Update>, start: int) returns (a: nat)
    requires Ok(v) && Told(v) && SaneOn(v.inbox, c)
    requires Numbered(log, c, start) && AmongLog(v.inbox.ledger.received, log, c) && AnchoredIn(v.inbox, log, c, start)
    requires v.inbox.counters.Local(c) != 0
    ensures ToldFrom(v, c, log, start, a)
    ensures RunStands(v.inbox, c, log, start, a) && |HandedSince(v, c)| == |RunOf(v.inbox, c).items|
  {
    hide *;
    a := RunIsContiguous(v, c, log, start);
    LedgerIsOk(v);
    ToldIsRun(v, c, log, start, a);
  }

  /** Delivery is contiguous. Over every run whose pushes are, as far as sequence `c` goes, out of
      the server's log -- gaps, duplicates, overflows, expiries, differences, resets, renames and
      disconnects included -- what the client was told of it since its counter was last assigned
      is exactly a contiguous stretch of the log, in order and each entry once; it starts where
      the assignment put the counter, and ends where the counter is. */
  lemma DeliveryIsContiguous(stored: Counters, ids: nat -> int, es: seq<Event>, c: int, log: seq<Update>, start: int)
    returns (a: nat)
    requires Fresh(ids) && Numbered(log, c, start)
    requires SaneAmong(AllOffered(Started(stored, ids), es), c)
             && AmongLog(AllOffered(Started(stored, ids), es), log, c)
    requires var b := Steps(Started(stored, ids), es).inbox; AnchoredIn(b, log, c, start) && b.counters.Local(c) != 0
    ensures ToldFrom(Steps(Started(stored, ids), es), c, log, start, a)
  {
    ReachedOk(stored, ids, es);
    ReachedReceived(stored, ids, es, c, log);
    hide *;
    a := TellingIsContiguous(Steps(Started(stored, ids), es), c, log, start);
  }

  lemma ReachedReceived(stored: Counters, ids: nat -> int, es: seq<Event>, c: int, log: seq<Update>)
    requires SaneAmong(AllOffered(Started(stored, ids), es), c)
             && AmongLog(AllOffered(Started(stored, ids), es), log, c)
    ensures var b := Steps(Started(stored, ids), es).inbox; SaneOn(b, c) && AmongLog(b.ledger.received, log, c)
  {
    hide Steps, AllOffered;
    StepsReceive(Started(stored, ids), es);
    StartedEmpty(stored, ids);
  }

  lemma ReachedOk(stored: Counters, ids: nat -> int, es: seq<Event>)
    requires Fresh(ids)
    ensures Ok(Steps(Started(stored, ids), es)) && Told(Steps(Started(stored, ids), es))
  {
    var v := Started(stored, ids);
    StartedOk(stored, ids);
    StepsKeepOk(v, es);
    StepsKeepTold(v, es);
  }

  // --- completeness -------------------------------------------------------------------------

  ghost predicate NoneOf(us: seq<Update>, c: int) {
    c == 0 || forall k :: 0 <= k < |us| && us[k].pts.Some? ==> ChannelIdOf(us[k]) != c
  }

  ghost predicate CalmDifference(d: Difference, c: int) {
    match d.kind
    case DifferenceFull => c != 0 && NoneOf(d.otherUpdates, c)
    case DifferenceSlice => c != 0 && NoneOf(d.otherUpdates, c)
    case DifferenceTooLong => false
    case _ => true
  }

  ghost predicate CalmChannelDifference(d: ChannelDifference, channel: int, c: int) {
    match d.kind
    case ChannelEmpty => channel != c
    case ChannelFull => channel != c && NoneOf(d.otherUpdates, c)
    case ChannelTooLong => channel != c
    case _ => true
  }

  /** The event assigns nothing to the counter of sequence `c`: everything but the replies that
      do, and those too when they answer nothing, or only other sequences. */
  ghost predicate Calm(v: View, e: Event, c: int) {
    match e
    case StateReply(s, id) => s.None? || c != 0 || id == 0 || id != v.asks.stateRequest
    case DifferenceReply(d, id) => id == 0 || id != v.asks.differenceRequest || CalmDifference(d, c)
    case ChannelDifferenceReply(d, id) => id in v.asks.inFlight ==> CalmChannelDifference(d, v.asks.inFlight[id], c)
    case AffectedReply(p, n, id) =>
      id in v.asks.affected ==> v.asks.affected[id] != c || v.inbox.counters.Check(c, p, n) != Apply
    case RpcFailure(err, id) =>
      if id == v.asks.stateRequest then true
      else if id == v.asks.differenceRequest then !err.PersistentTimestamp?
      else id in v.asks.inFlight && err.ChannelUnreachable? ==> v.asks.inFlight[id] != c
    case _ => true
  }

  ghost predicate CalmRun(v: View, es: seq<Event>, c: int)
    decreases |es|
  {
    es == [] || (Calm(v, es[0], c) && CalmRun(Step(v, es[0]), es[1..], c))
  }

  /** Everything emitted or dropped of the sequence lies at or below its counter. */
  ghost predicate Settled(b: Inbox, c: int) {
    forall i :: (i in b.ledger.emitted || i in b.ledger.dropped) && i.channelId == c ==> i.pts <= b.counters.Local(c)
  }

  /** How an inbox may move between two states with no assignment to `c` in between. */
  ghost predicate Moved(a: Inbox, b: Inbox, c: int) {
    && (a.counters.valid ==> b.counters.valid)
    && a.counters.Local(c) <= b.counters.Local(c)
    && (Settled(a, c) ==> Settled(b, c))
    && MarkOf(b.marks, c) == MarkOf(a.marks, c)
  }

  lemma MovedTrans(x: Inbox, y: Inbox, z: Inbox, c: int)
    requires Moved(x, y, c) && Moved(y, z, c)
    ensures Moved(x, z, c)
  {
  }

  lemma StillMoved(a: Inbox, b: Inbox, c: int)
    requires a.counters.valid ==> b.counters.valid
    requires MarkOf(b.marks, c) == MarkOf(a.marks, c) && a.counters.Local(c) == b.counters.Local(c)
    requires a.ledger.emitted == b.ledger.emitted && a.ledger.dropped == b.ledger.dropped
    ensures Moved(a, b, c)
  {
  }

  lemma AcceptMoved(b: Inbox, i: Item, c: int)
    requires b.counters.Verdict(i) == Apply
    ensures Moved(b, b.Accept(i), c)
  {
    AdvanceMonotone(b.counters, i.channelId, i.pts, c);
  }

  lemma DropMoved(b: Inbox, i: Item, c: int)
    requires b.counters.Verdict(i) == Duplicate
    ensures Moved(b, b.DropDuplicate(i), c)
  {
  }

  lemma {:induction false} AdvanceAllKeepsValidity(c: Counters, items: seq<Item>)
    ensures AdvanceAll(c, items).valid == c.valid
    decreases |items|
  {
    if items != [] { AdvanceAllKeepsValidity(c.Advance(items[0].channelId, items[0].pts), items[1..]); }
  }

  lemma DrainMoved(b: Inbox, c: int)
    ensures Moved(b, b.DrainPending(), c)
  {
    if b.pending != [] {
      var r := Drain(b.counters, b.pending);
      var d := b.DrainPending();
      DrainSettles(b.counters, b.pending);
      DrainInSequence(b.counters, b.pending);
      AdvanceAllKeepsValidity(b.counters, r.emitted);
      assert b.counters.Local(c) <= d.counters.Local(c);
      hide Drain;
      if Settled(b, c) {
        forall i | (i in d.ledger.emitted || i in d.ledger.dropped) && i.channelId == c
            ensures i.pts <= d.counters.Local(c) {
          if i in r.emitted {
            var k :| 0 <= k < |r.emitted| && r.emitted[k] == i;
          } else if i in multiset(r.dropped) {
            var k :| 0 <= k < |r.dropped| && r.dropped[k] == i;
          }
        }
      }
    }
  }

  // --- ingress ------------------------------------------------------------------------------

  lemma ApplyItemMoved(v: View, i: Item, c: int)
    ensures Moved(v.inbox, v.ApplyItem(i).inbox, c)
  {
    hide Moved;
    var b := v.inbox;
    var got := b.Receive(i);
    var w := v.ApplyItem(i).inbox;
    StillMoved(b, got, c);
    if b.counters.valid && b.counters.Verdict(i) == Apply {
      AcceptMoved(got, i, c);
      DrainMoved(got.Accept(i), c);
      MovedTrans(got, got.Accept(i), w, c);
    } else if b.counters.valid && b.counters.Verdict(i) == Duplicate {
      DropMoved(got, i, c);
    } else {
      StillMoved(got, got.Park(i), c);
      assert w == got.Park(i);
    }
    MovedTrans(b, got, w, c);
  }

  lemma ApplyOneMoved(v: View, u: Update, users: seq<int>, chats: seq<Chat>, date: int32, messageId: int,
                      shortForm: bool, c: int)
    ensures Moved(v.inbox, v.ApplyOne(u, users, chats, date, messageId, shortForm).inbox, c)
  {
    if u.tooLong || u.pts.None? {
      StillMoved(v.inbox, v.ApplyOne(u, users, chats, date, messageId, shortForm).inbox, c);
    } else {
      ApplyItemMoved(v, MakeItem(u, users, chats, date, messageId, shortForm), c);
    }
  }

  lemma {:induction false} ApplyAllMoved(v: View, list: seq<Update>, users: seq<int>, chats: seq<Chat>,
                                         date: int32, messageId: int, c: int)
    ensures Moved(v.inbox, v.ApplyAll(list, users, chats, date, messageId).inbox, c)
    decreases |list|
  {
    if list == [] {
      StillMoved(v.inbox, v.inbox, c);
    } else {
      var w := v.ApplyOne(list[0], users, chats, date, messageId, false);
      ApplyOneMoved(v, list[0], users, chats, date, messageId, false, c);
      ApplyAllMoved(w, list[1..], users, chats, date, messageId, c);
      MovedTrans(v.inbox, w.inbox, v.ApplyAll(list, users, chats, date, messageId).inbox, c);
    }
  }

  lemma ProcessUpdatesMoved(v: View, u: Container, messageId: int, c: int)
    ensures Moved(v.inbox, v.ProcessUpdates(u, messageId).inbox, c)
  {
    hide Moved;
    var r := v.(asks := v.asks.RememberChats(u.chats));
    var was := v.inbox.counters;
    var dated := r.SetCounters(was.SetDate(u.date));
    var counted := r.SetCounters(was.AdvanceSeq(u.seqEnd, u.date));
    var w := v.ProcessUpdates(u, messageId);
    StillMoved(v.inbox, v.inbox, c);
    StillMoved(v.inbox, dated.inbox, c);
    StillMoved(v.inbox, counted.inbox, c);
    match u.kind
    case TooLong =>
    case UnknownContainer =>
    case ShortForm => ApplyOneMoved(r, u.body, [], [], u.date, messageId, true, c);
    case Short =>
      ApplyOneMoved(dated, u.body, [], [], u.date, messageId, false, c);
      MovedTrans(v.inbox, dated.inbox, w.inbox, c);
    case Batch =>
      match was.CheckSeq(u.seqStart, u.seqEnd)
      case SeqDuplicate =>
      case SeqGap =>
      case SeqApply =>
        ApplyAllMoved(counted, u.list, u.users, u.chats, u.date, messageId, c);
        MovedTrans(v.inbox, counted.inbox, w.inbox, c);
      case SeqIgnore =>
        ApplyAllMoved(dated, u.list, u.users, u.chats, u.date, messageId, c);
        MovedTrans(v.inbox, dated.inbox, w.inbox, c);
  }

  // --- replies ------------------------------------------------------------------------------

  /** Assigning another sequence's counter. */
  lemma AssignMoved(b: Inbox, to: Counters, d: int, c: int)
    requires c != d && to.Local(c) == b.counters.Local(c) && (b.counters.valid ==> to.valid)
    ensures Moved(b, b.Assign(to, d), c)
  {
  }

  lemma {:induction false} OthersMoved(v: View, updates: seq<Update>, users: seq<int>, chats: seq<Chat>,
                                       date: int32, c: int)
    requires NoneOf(updates, c)
    ensures Moved(v.inbox, v.TellOthers(updates, users, chats, date).inbox, c)
    decreases |updates|
  {
    hide Moved;
    if updates == [] {
      StillMoved(v.inbox, v.inbox, c);
    } else {
      var u := updates[0];
      var w := v.TellOther(u, users, chats, date);
      if u.pts.Some? && ChannelIdOf(u) != 0 && u.pts.value > v.inbox.counters.Local(ChannelIdOf(u)) {
        AssignMoved(v.inbox, v.inbox.counters.Advance(ChannelIdOf(u), u.pts.value), ChannelIdOf(u), c);
      } else {
        StillMoved(v.inbox, w.inbox, c);
      }
      assert NoneOf(updates[1..], c) by {
        assert forall k :: 0 <= k < |updates[1..]| ==> updates[1..][k] == updates[k + 1];
      }
      OthersMoved(w, updates[1..], users, chats, date, c);
      MovedTrans(v.inbox, w.inbox, v.TellOthers(updates, users, chats, date).inbox, c);
    }
  }

  lemma BodyMoved(v: View, messages: seq<Message>, others: seq<Update>, users: seq<int>, chats: seq<Chat>, c: int)
    requires NoneOf(others, c)
    ensures Moved(v.inbox, v.ApplyDifferenceBody(messages, others, users, chats).inbox, c)
  {
    hide Moved, NoneOf;
    var r := v.(asks := v.asks.RememberChats(chats));
    var date := v.inbox.counters.date;
    MessagesOnlyTell(r, messages, users, chats, date);
    OthersMoved(r.TellMessages(messages, users, chats, date), others, users, chats, date, c);
  }

  lemma AdoptMoved(v: View, d: Difference, c: int)
    requires c != 0 && NoneOf(d.otherUpdates, c)
    ensures Moved(v.inbox, v.AdoptDifference(d).inbox, c)
  {
    hide Moved, NoneOf;
    BodyMoved(v, d.newMessages, d.otherUpdates, d.users, d.chats, c);
    var w := v.ApplyDifferenceBody(d.newMessages, d.otherUpdates, d.users, d.chats).inbox;
    var to := w.counters.Reset(if d.intermediate.Some? then d.intermediate.value else d.state);
    AssignMoved(w, to, 0, c);
    DrainMoved(w.Assign(to, 0), c);
    MovedTrans(v.inbox, w, w.Assign(to, 0), c);
    MovedTrans(v.inbox, w.Assign(to, 0), v.AdoptDifference(d).inbox, c);
  }

  lemma SetChannelMoved(b: Inbox, channel: int, p: int32, c: int)
    requires c != channel
    ensures Moved(b, b.Assign(b.counters.SetChannelPts(channel, p), channel), c)
  {
    AssignMoved(b, b.counters.SetChannelPts(channel, p), channel, c);
  }

  lemma ThenDrained(a: Inbox, b: Inbox, c: int)
    requires Moved(a, b, c)
    ensures Moved(a, b.DrainPending(), c)
  {
    hide Moved;
    DrainMoved(b, c);
    MovedTrans(a, b, b.DrainPending(), c);
  }

  lemma DifferenceMoved(v: View, d: Difference, id: int, c: int)
    requires Calm(v, DifferenceReply(d, id), c)
    ensures Moved(v.inbox, v.HandleDifference(d, id).inbox, c)
  {
    hide Moved, NoneOf;
    StillMoved(v.inbox, v.inbox, c);
    if v.asks.differenceRequest != 0 && v.asks.differenceRequest == id {
      var r := v.(asks := v.asks.(differenceRequest := 0));
      match d.kind
      case DifferenceEmpty =>
        var w := v.inbox.(counters := v.inbox.counters.AdvanceSeq(d.seqNo, d.date));
        StillMoved(v.inbox, w, c);
        ThenDrained(v.inbox, w, c);
      case DifferenceFull => AdoptMoved(r, d, c);
      case DifferenceSlice => AdoptMoved(r, d, c);
      case _ =>
    }
  }

  lemma ChannelDifferenceMoved(v: View, d: ChannelDifference, id: int, c: int)
    requires Calm(v, ChannelDifferenceReply(d, id), c)
    ensures Moved(v.inbox, v.HandleChannelDifference(d, id).inbox, c)
  {
    hide Moved, NoneOf;
    StillMoved(v.inbox, v.inbox, c);
    if id in v.asks.inFlight {
      var channel := v.asks.inFlight[id];
      var r := v.(asks := v.asks.Release(id));
      match d.kind
      case ChannelEmpty =>
        SetChannelMoved(v.inbox, channel, d.pts, c);
        ThenDrained(v.inbox, r.SetChannelPts(channel, d.pts).inbox, c);
      case ChannelFull =>
        BodyMoved(r, d.newMessages, d.otherUpdates, d.users, d.chats, c);
        var w := r.ApplyDifferenceBody(d.newMessages, d.otherUpdates, d.users, d.chats);
        SetChannelMoved(w.inbox, channel, d.pts, c);
        MovedTrans(v.inbox, w.inbox, w.SetChannelPts(channel, d.pts).inbox, c);
        ThenDrained(v.inbox, w.SetChannelPts(channel, d.pts).inbox, c);
      case ChannelTooLong =>
        var w := v.inbox.Assign(v.inbox.counters.SetChannelPts(channel, d.dialogPts), channel);
        SetChannelMoved(v.inbox, channel, d.dialogPts, c);
        StillMoved(w, w.DropPending(channel), c);
        MovedTrans(v.inbox, w, w.DropPending(channel), c);
        ThenDrained(v.inbox, w.DropPending(channel), c);
      case ChannelUnknown => ThenDrained(v.inbox, v.inbox, c);
      case ChannelUnreadable =>
    }
  }

  lemma AffectedMoved(v: View, p: int32, n: int32, id: int, c: int)
    requires Calm(v, AffectedReply(p, n, id), c)
    ensures Moved(v.inbox, v.HandleAffected(p, n, id).inbox, c)
  {
    hide Moved;
    StillMoved(v.inbox, v.inbox, c);
    if id in v.asks.affected {
      var channel := v.asks.affected[id];
      if v.inbox.counters.Check(channel, p, n) == Apply {
        if p > v.inbox.counters.Local(channel) {
          AssignMoved(v.inbox, v.inbox.counters.Advance(channel, p), channel, c);
        }
        ThenDrained(v.inbox, v.inbox.AdvanceByReply(channel, p), c);
      }
    }
  }

  lemma FailureMoved(v: View, err: RpcError, id: int, c: int)
    requires Calm(v, RpcFailure(err, id), c)
    ensures Moved(v.inbox, v.HandleRpcError(err, id).inbox, c)
  {
    hide Moved;
    StillMoved(v.inbox, v.inbox, c);
    if v.asks.stateRequest != id && v.asks.differenceRequest != id && id in v.asks.inFlight && err.ChannelUnreachable? {
      var channel := v.asks.inFlight[id];
      var w := v.inbox.ForgetChannel(channel);
      AssignMoved(v.inbox, v.inbox.counters.ForgetChannel(channel), channel, c);
      StillMoved(w, w.DropPending(channel), c);
      MovedTrans(v.inbox, w, w.DropPending(channel), c);
    }
  }

  lemma CalmStepMoved(v: View, e: Event, c: int)
    requires Calm(v, e, c)
    ensures Moved(v.inbox, Step(v, e).inbox, c)
  {
    hide Moved;
    match e
    case Pushed(u, id) => ProcessUpdatesMoved(v, u, id, c);
    case StateReply(s, id) =>
      StillMoved(v.inbox, v.inbox, c);
      if s.Some? && id != 0 && id == v.asks.stateRequest {
        var to := v.inbox.counters.Reset(s.value);
        AssignMoved(v.inbox, to, 0, c);
        ThenDrained(v.inbox, v.inbox.Assign(to, 0), c);
      }
    case DifferenceReply(d, id) => DifferenceMoved(v, d, id, c);
    case ChannelDifferenceReply(d, id) => ChannelDifferenceMoved(v, d, id, c);
    case AffectedReply(p, n, id) => AffectedMoved(v, p, n, id, c);
    case RpcFailure(err, id) => FailureMoved(v, err, id, c);
    case TimerFired(ours) => StillMoved(v.inbox, Step(v, e).inbox, c);
    case _ => StillMoved(v.inbox, v.inbox, c);
  }

  lemma {:induction false} CalmRunMoved(v: View, es: seq<Event>, c: int)
    requires CalmRun(v, es, c)
    ensures Moved(v.inbox, Steps(v, es).inbox, c)
    decreases |es|
  {
    hide Moved, Calm, Step;
    if es == [] {
      StillMoved(v.inbox, v.inbox, c);
    } else {
      CalmStepMoved(v, es[0], c);
      CalmRunMoved(Step(v, es[0]), es[1..], c);
      MovedTrans(v.inbox, Step(v, es[0]).inbox, Steps(v, es).inbox, c);
    }
  }

  // --- what has arrived ---------------------------------------------------------------------

  ghost predicate Arrived(items: multiset<Item>, u: Update) {
    exists i :: i in items && i.update == u
  }

  ghost predicate AllArrived(items: multiset<Item>, log: seq<Update>, k: nat, m: nat)
    requires m <= |log|
  {
    forall j :: k <= j < m ==> Arrived(items, log[j])
  }

  ghost predicate NoneDiscarded(b: Inbox, c: int) {
    forall i :: i in b.ledger.discarded ==> i.channelId != c
  }

  lemma ParkedHaveGaps(b: Inbox, i: Item)
    requires AllGaps(b.counters, b.pending) && i in ItemsOf(b.pending)
    ensures b.counters.Verdict(i) == Gap
  {
    ItemsOfWitness(b.pending, i);
    var k :| 0 <= k < |b.pending| && b.pending[k].item == i;
    assert b.counters.Verdict(b.pending[k].item) == Gap;
  }

  /** What has been received and not emitted, dropped or discarded cannot be the next entry. */
  lemma NextEntryNotHeld(b: Inbox, c: int, u: Update)
    requires InboxOk(b) && b.counters.valid && Settled(b, c) && NoneDiscarded(b, c)
    requires u.pts.Some? && ChannelIdOf(u) == c && u.ptsCount >= 1
    requires b.counters.Local(c) + u.ptsCount == u.pts.value
    ensures !Arrived(b.ledger.received, u)
  {
    assert AllGaps(b.counters, b.pending);
    assert b.ledger.received == multiset(b.ledger.emitted) + b.ledger.dropped + b.ledger.discarded + ItemsOf(b.pending);
    assert forall i :: i in b.ledger.received ==> WellRead(i);
    hide QueueOk, LedgerOk, RunsOk, AllGaps;
    forall i | i in b.ledger.received ensures i.update != u {
      if i in ItemsOf(b.pending) {
        ParkedHaveGaps(b, i);
        NextHasNoGap(b.counters, c, i, u);
      } else if i.channelId == c {
        PastIsNotNext(b.counters, c, i, u);
      }
    }
  }

  lemma PastIsNotNext(counters: Counters, c: int, i: Item, u: Update)
    requires WellRead(i) && i.pts <= counters.Local(c)
    requires u.pts.Some? && u.ptsCount >= 1 && counters.Local(c) + u.ptsCount == u.pts.value
    ensures i.update != u
  {
  }

  lemma NextHasNoGap(counters: Counters, c: int, i: Item, u: Update)
    requires WellRead(i) && counters.Verdict(i) == Gap
    requires u.pts.Some? && ChannelIdOf(u) == c && u.ptsCount >= 1
    requires counters.Local(c) + u.ptsCount == u.pts.value
    ensures i.update != u
  {
  }

  /** Everything handed on was received, and what was received so far decides how far the run
      has come. */
  lemma RunReachesWhatArrived(b: Inbox, c: int, log: seq<Update>, start: int, k0: nat, k: nat, m: nat)
    requires InboxOk(b) && SaneOn(b, c) && b.counters.valid && Settled(b, c) && NoneDiscarded(b, c)
    requires Numbered(log, c, start) && k0 <= k <= |log| && m <= |log| && k0 <= m
    requires RunFrom(RunOf(b, c).items, log, k0) && k == k0 + |RunOf(b, c).items|
    requires b.counters.Local(c) == PtsAfter(log, start, k)
    ensures k >= m <==> AllArrived(b.ledger.received, log, k0, m)
  {
    if k >= m {
      assert RunOk(b, c);
      hide QueueOk, LedgerOk, RunsOk, Linked, RunOf;
      var items := RunOf(b, c).items;
      forall j | k0 <= j < m ensures Arrived(b.ledger.received, log[j]) {
        var i := items[j - k0];
        assert i.update == log[k0 + (j - k0)];
        assert i in b.ledger.received && i.update == log[j];
      }
    } else {
      assert Entry(log, c, start, k);
      NextEntryNotHeld(b, c, log[k]);
    }
  }

  /** Delivery is complete, whatever the order of arrival. Start from a valid state standing at
      position `k0` of the log of `c`, with nothing of `c` received so far, and let any run
      follow that assigns nothing to `c` and discards nothing of it. Then what the client was
      told of `c` is log[k0..k], and `k` reaches `m` exactly when every entry from k0 up to m
      was in some push that passed the seq test, in whatever permutation and with whatever
      repetition. */
  lemma DeliveryIsComplete(v: View, es: seq<Event>, c: int, log: seq<Update>, start: int, k0: nat, m: nat)
      returns (k: nat)
    requires Ok(v) && Told(v) && v.inbox.counters.valid
    requires forall i :: i in v.inbox.ledger.received ==> i.channelId != c
    requires CalmRun(v, es, c)
    requires Numbered(log, c, start) && k0 <= m <= |log| && v.inbox.counters.Local(c) == PtsAfter(log, start, k0)
    requires AmongLog(AllOffered(v, es), log, c) && SaneAmong(AllOffered(v, es), c)
    requires forall i :: i in AllDiscarded(v, es) ==> i.channelId != c
    ensures k0 <= k <= |log| && HandedSince(Steps(v, es), c) == log[k0..k]
    ensures Steps(v, es).inbox.counters.Local(c) == PtsAfter(log, start, k)
    ensures k >= m <==> AllArrived(AllOffered(v, es), log, k0, m)
  {
    StepsKeepOk(v, es);
    StepsKeepTold(v, es);
    UntouchedRun(v.inbox, c);
    CalmRunMoved(v, es, c);
    OnlyOffered(v, es, c, log);
    OnlyDiscarded(v, es, c);
    hide Ok, Told, Numbered, AmongLog, SaneOn, Settled, Steps, CalmRun, AllArrived, NoneDiscarded, HandedSince,
         AllOffered;
    k := CompleteAt(Steps(v, es), c, log, start, k0, m);
    SameArrivals(Steps(v, es), AllOffered(v, es), v.inbox.ledger.received, c, log, start, k0, m);
  }

  /** Of the sequence, what was received is what the run offered. */
  lemma OnlyOffered(v: View, es: seq<Event>, c: int, log: seq<Update>)
    requires forall i :: i in v.inbox.ledger.received ==> i.channelId != c
    requires AmongLog(AllOffered(v, es), log, c) && SaneAmong(AllOffered(v, es), c)
    ensures var b := Steps(v, es).inbox;
            && AmongLog(b.ledger.received, log, c) && SaneOn(b, c)
            && b.ledger.received == v.inbox.ledger.received + AllOffered(v, es)
  {
    hide Steps, AllOffered;
    StepsReceive(v, es);
  }

  lemma OnlyDiscarded(v: View, es: seq<Event>, c: int)
    requires Ok(v) && forall i :: i in v.inbox.ledger.received ==> i.channelId != c
    requires forall i :: i in AllDiscarded(v, es) ==> i.channelId != c
    ensures NoneDiscarded(Steps(v, es).inbox, c)
  {
    StepsDiscard(v, es);
    OkLedger(v);
    hide Steps, AllDiscarded, Ok;
    forall i | i in Steps(v, es).inbox.ledger.discarded ensures i.channelId != c {
      assert i in v.inbox.ledger.discarded || i in AllDiscarded(v, es);
      assert i in v.inbox.ledger.discarded ==> i in v.inbox.ledger.received;
    }
  }

  lemma SameArrivals(w: View, offered: multiset<Item>, earlier: multiset<Item>, c: int, log: seq<Update>,
                     start: int, k: nat, m: nat)
    requires Ok(w) && Numbered(log, c, start) && m <= |log|
    requires w.inbox.ledger.received == earlier + offered && forall i :: i in earlier ==> i.channelId != c
    ensures AllArrived(w.inbox.ledger.received, log, k, m) <==> AllArrived(offered, log, k, m)
  {
    forall j | k <= j < m ensures Arrived(w.inbox.ledger.received, log[j]) <==> Arrived(offered, log[j]) {
      assert Entry(log, c, start, j);
      EarlierElsewhere(w, earlier, c, log[j]);
      if Arrived(w.inbox.ledger.received, log[j]) {
        var i :| i in w.inbox.ledger.received && i.update == log[j];
        assert i in offered;
      }
      if Arrived(offered, log[j]) {
        var i :| i in offered && i.update == log[j];
        assert i in w.inbox.ledger.received;
      }
    }
  }

  lemma EarlierElsewhere(w: View, earlier: multiset<Item>, c: int, u: Update)
    requires Ok(w) && earlier <= w.inbox.ledger.received && ChannelIdOf(u) == c
    requires forall i :: i in earlier ==> i.channelId != c
    ensures forall i :: i in earlier ==> i.update != u
  {
    forall i | i in earlier ensures i.update != u { assert i in w.inbox.ledger.received && WellRead(i); }
  }

  /** Nothing received of a sequence: its run is empty and stands at its counter. */
  lemma UntouchedRun(b: Inbox, c: int)
    requires InboxOk(b) && forall i :: i in b.ledger.received ==> i.channelId != c
    ensures Settled(b, c) && MarkOf(b.marks, c).value == b.counters.Local(c)
  {
    assert SaneOn(b, c);
    assert RunOk(b, c);
    EmittedWereReceived(b);
    EmptyWithout(RunOf(b, c).items, b.ledger.received, c);
  }

  lemma EmittedWereReceived(b: Inbox)
    requires LedgerOk(b)
    ensures forall i :: i in b.ledger.emitted || i in b.ledger.dropped ==> i in b.ledger.received
  {
    assert forall i :: i in b.ledger.emitted ==> i in multiset(b.ledger.emitted);
  }

  lemma EmptyWithout(items: seq<Item>, received: multiset<Item>, c: int)
    requires forall k :: 0 <= k < |items| ==> items[k].channelId == c && items[k] in received
    requires forall i :: i in received ==> i.channelId != c
    ensures items == []
  {
    assert |items| > 0 ==> items[0].channelId == c;
  }

  lemma CompleteAt(w: View, c: int, log: seq<Update>, start: int, k0: nat, m: nat) returns (k: nat)
    requires Ok(w) && Told(w) && w.inbox.counters.valid && Settled(w.inbox, c)
    requires SaneOn(w.inbox, c) && NoneDiscarded(w.inbox, c)
    requires Numbered(log, c, start) && AmongLog(w.inbox.ledger.received, log, c) && k0 <= m <= |log|
    requires MarkOf(w.inbox.marks, c).value == PtsAfter(log, start, k0) <= w.inbox.counters.Local(c)
    ensures k0 <= k <= |log| && HandedSince(w, c) == log[k0..k]
    ensures w.inbox.counters.Local(c) == PtsAfter(log, start, k)
    ensures k >= m <==> AllArrived(w.inbox.ledger.received, log, k0, m)
  {
    hide *;
    PositiveAt(log, c, start, k0);
    AnchoredAt(w.inbox, log, c, start, k0);
    OkInbox(w);
    var a := TellingIsContiguous(w, c, log, start);
    WhatWasTold(w, c, log, start, a);
    RunFromStands(w.inbox, c, log, start, a);
    SamePtsSamePosition(log, c, start, a, k0);
    k := k0 + |HandedSince(w, c)|;
    RunReachesWhatArrived(w.inbox, c, log, start, k0, k, m);
  }

  lemma RunFromStands(b: Inbox, c: int, log: seq<Update>, start: int, a: nat)
    requires RunStands(b, c, log, start, a)
    ensures RunFrom(RunOf(b, c).items, log, a)
  {
  }

  lemma WhatWasTold(v: View, c: int, log: seq<Update>, start: int, a: nat)
    requires ToldFrom(v, c, log, start, a)
    ensures var told := HandedSince(v, c);
            && a + |told| <= |log| && told == log[a..a + |told|]
            && (MarkOf(v.inbox.marks, c).value != 0 ==> PtsAfter(log, start, a) == MarkOf(v.inbox.marks, c).value)
            && v.inbox.counters.Local(c) == PtsAfter(log, start, a + |told|)
  {
  }

  lemma AnchoredAt(b: Inbox, log: seq<Update>, c: int, start: int, k: nat)
    requires k <= |log| && PtsAfter(log, start, k) == MarkOf(b.marks, c).value
    ensures AnchoredIn(b, log, c, start)
  {
  }

  lemma PositiveAt(log: seq<Update>, c: int, start: int, k: nat)
    requires Numbered(log, c, start) && k <= |log|
    ensures PtsAfter(log, start, k) >= 1
  {
    PtsGrows(log, c, start, 0, k);
  }

  lemma OkInbox(v: View)
    requires Ok(v)
    ensures InboxOk(v.inbox)
  {
  }
}

/** What a pushed update can come to other than being told: old and dropped, or discarded for a
    refetch; and which events do which. */
module UpdateLosses {
  import opened Integers
  import opened Options
  import opened UpdateTypes
  import opened SequenceCounters
  import opened Draining
  import opened UpdateInbox
  import opened UpdateAsks
  import opened UpdatePipeline
  import opened UpdateSafety
  import opened UpdateArrivals

  // --- discarded ----------------------------------------------------------------------------

  /** The update cannot be applied now, and there is no room for it to wait. */
  predicate Overflows(v: View, u: Update) {
    && !u.tooLong && u.pts.Some? && |v.inbox.pending| >= MAX_PENDING
    && (v.inbox.counters.valid ==> v.inbox.counters.Check(ChannelIdOf(u), u.pts.value, u.ptsCount) == Gap)
  }

  /** A channel's notice that there is too much to tell discards what waits of that channel; an
      update that overflows the queue discards all that waits, and itself. */
  function DiscardedByOne(v: View, u: Update, users: seq<int>, chats: seq<Chat>, date: int32, messageId: int,
                          shortForm: bool)
    : multiset<Item>
  {
    if u.tooLong then ItemsOf(OfChannel(v.inbox.pending, ChannelIdOf(u)))
    else if Overflows(v, u) then
      ItemsOf(v.inbox.pending) + multiset{MakeItem(u, users, chats, date, messageId, shortForm)}
    else multiset{}
  }

  function DiscardedByAll(v: View, list: seq<Update>, users: seq<int>, chats: seq<Chat>, date: int32,
                          messageId: int): multiset<Item>
    decreases |list|
  {
    if list == [] then multiset{}
    else
      DiscardedByOne(v, list[0], users, chats, date, messageId, false)
      + DiscardedByAll(v.ApplyOne(list[0], users, chats, date, messageId, false),
                       list[1..], users, chats, date, messageId)
  }

  /** The state in which a container's updates are begun: the date told, and the seq if it has one. */
  function Opened(v: View, u: Container): View {
    var r := v.(asks := v.asks.RememberChats(u.chats));
    var c := v.inbox.counters;
    if u.kind == Batch && c.CheckSeq(u.seqStart, u.seqEnd) == SeqApply
        then r.SetCounters(c.AdvanceSeq(u.seqEnd, u.date))
    else if u.kind == ShortForm then r
    else r.SetCounters(c.SetDate(u.date))
  }

  function DiscardedByPush(v: View, u: Container, messageId: int): multiset<Item> {
    var o := Opened(v, u);
    match u.kind
    case Short => DiscardedByOne(o, u.body, [], [], u.date, messageId, false)
    case ShortForm => DiscardedByOne(o, u.body, [], [], u.date, messageId, true)
    case Batch =>
      if FailsSeqTest(v.inbox.counters, u) then multiset{}
      else DiscardedByAll(o, u.list, u.users, u.chats, u.date, messageId)
    case _ => multiset{}
  }

  /** What an event discards: nothing but overflows, notices that there is too much to tell, gap
      ticks, and the errors that give a sequence up. */
  function DiscardedBy(v: View, e: Event): multiset<Item> {
    var waiting := v.inbox.pending;
    match e
    case Pushed(u, id) => DiscardedByPush(v, u, id)
    case TimerFired(ours) => if ours then ItemsOf(waiting) else multiset{}
    case DifferenceReply(d, id) =>
      if id != 0 && id == v.asks.differenceRequest && d.kind == DifferenceTooLong then ItemsOf(waiting) else multiset{}
    case ChannelDifferenceReply(d, id) =>
      if id in v.asks.inFlight && d.kind == ChannelTooLong then ItemsOf(OfChannel(waiting, v.asks.inFlight[id]))
      else multiset{}
    case RpcFailure(err, id) =>
      if id == v.asks.stateRequest then multiset{}
      else if id == v.asks.differenceRequest then (if err.PersistentTimestamp? then ItemsOf(waiting) else multiset{})
      else if id in v.asks.inFlight && err.ChannelUnreachable? then ItemsOf(OfChannel(waiting, v.asks.inFlight[id]))
      else multiset{}
    case _ => multiset{}
  }

  lemma HeldDiscards(v: View, i: Item)
    requires v.inbox.counters.valid ==> v.inbox.counters.Verdict(i) == Gap
    ensures v.ApplyItem(i).inbox.ledger.discarded == v.inbox.ledger.discarded
              + (if |v.inbox.pending| >= MAX_PENDING then ItemsOf(v.inbox.pending) + multiset{i} else multiset{})
  {
    HeldItemIsParked(v, i);
  }

  lemma SettledDiscards(v: View, i: Item)
    requires v.inbox.counters.valid && v.inbox.counters.Verdict(i) != Gap
    ensures v.ApplyItem(i).inbox.ledger.discarded == v.inbox.ledger.discarded
  {
    hide Drain;
  }

  lemma ApplyOneDiscards(v: View, u: Update, users: seq<int>, chats: seq<Chat>, date: int32, messageId: int,
                         shortForm: bool)
    ensures v.ApplyOne(u, users, chats, date, messageId, shortForm).inbox.ledger.discarded
              == v.inbox.ledger.discarded + DiscardedByOne(v, u, users, chats, date, messageId, shortForm)
  {
    if !u.tooLong && u.pts.Some? {
      var i := MakeItem(u, users, chats, date, messageId, shortForm);
      hide View.ApplyItem, ItemsOf;
      if v.inbox.counters.valid && v.inbox.counters.Verdict(i) != Gap {
        SettledDiscards(v, i);
      } else {
        HeldDiscards(v, i);
      }
    }
  }

  lemma {:induction false} ApplyAllDiscards(v: View, list: seq<Update>, users: seq<int>, chats: seq<Chat>,
                                            date: int32, messageId: int)
    ensures v.ApplyAll(list, users, chats, date, messageId).inbox.ledger.discarded
              == v.inbox.ledger.discarded + DiscardedByAll(v, list, users, chats, date, messageId)
    decreases |list|
  {
    hide DiscardedByOne;
    if list != [] {
      ApplyOneDiscards(v, list[0], users, chats, date, messageId, false);
      ApplyAllDiscards(v.ApplyOne(list[0], users, chats, date, messageId, false), list[1..], users, chats, date,
                       messageId);
    }
  }

  lemma PushIsOpened(v: View, u: Container, messageId: int)
    ensures var w := v.ProcessUpdates(u, messageId); var o := Opened(v, u);
            match u.kind
            case Short => w == o.ApplyOne(u.body, [], [], u.date, messageId, false)
            case ShortForm => w == o.ApplyOne(u.body, [], [], u.date, messageId, true)
            case Batch =>
              if FailsSeqTest(v.inbox.counters, u) then w.inbox == v.inbox && w.out == v.out
              else w == o.ApplyAll(u.list, u.users, u.chats, u.date, messageId)
            case _ => w.inbox == v.inbox && w.out == v.out
    ensures var o := Opened(v, u);
            o.inbox.ledger == v.inbox.ledger && o.inbox.pending == v.inbox.pending && o.out == v.out
  {
  }

  lemma PushDiscards(v: View, u: Container, messageId: int)
    ensures v.ProcessUpdates(u, messageId).inbox.ledger.discarded
              == v.inbox.ledger.discarded + DiscardedByPush(v, u, messageId)
  {
    hide DiscardedByOne, DiscardedByAll, Opened;
    PushIsOpened(v, u, messageId);
    ApplyOneDiscards(Opened(v, u), u.body, [], [], u.date, messageId, u.kind == ShortForm);
    ApplyAllDiscards(Opened(v, u), u.list, u.users, u.chats, u.date, messageId);
  }

  lemma DifferenceDiscards(v: View, d: Difference, id: int)
    ensures v.HandleDifference(d, id).inbox.ledger.discarded
              == v.inbox.ledger.discarded + DiscardedBy(v, DifferenceReply(d, id))
  {
    hide Drain, ItemsOf;
    BodyReceivesNothing(v.(asks := v.asks.(differenceRequest := 0)), d.newMessages, d.otherUpdates, d.users, d.chats);
  }

  lemma ChannelDifferenceDiscards(v: View, d: ChannelDifference, id: int)
    ensures v.HandleChannelDifference(d, id).inbox.ledger.discarded
              == v.inbox.ledger.discarded + DiscardedBy(v, ChannelDifferenceReply(d, id))
  {
    hide View.DrainPending, View.Pump, View.ApplyDifferenceBody, ItemsOf, OfChannel, WithoutChannel;
    if id in v.asks.inFlight {
      var channel := v.asks.inFlight[id];
      var r := v.(asks := v.asks.Release(id));
      var w := r.ApplyDifferenceBody(d.newMessages, d.otherUpdates, d.users, d.chats);
      BodyReceivesNothing(r, d.newMessages, d.otherUpdates, d.users, d.chats);
      var told := w.SetChannelPts(channel, d.pts);
      var reset := r.(asks := r.asks.RememberChats(d.chats)).SetChannelPts(channel, d.dialogPts);
      PumpDiscardsNone(r);
      SettlingDiscardsNone(r);
      SettlingDiscardsNone(r.SetChannelPts(channel, d.pts));
      SettlingDiscardsNone(if d.final then told else told.(asks := told.asks.Requeue(channel)));
      SettlingDiscardsNone(reset.(inbox := reset.inbox.DropPending(channel)).Tell(ChannelResetOut(channel)));
    }
  }

  lemma PumpDiscardsNone(v: View)
    ensures v.Pump().inbox == v.inbox
  {
  }

  lemma SettlingDiscardsNone(v: View)
    ensures v.DrainPending().Pump().inbox.ledger.discarded == v.inbox.ledger.discarded
  {
    hide Drain;
  }

  /** Every event adds to what was discarded exactly what it discards. */
  lemma StepDiscards(v: View, e: Event)
    requires Ok(v)
    ensures Step(v, e).inbox.ledger.discarded == v.inbox.ledger.discarded + DiscardedBy(v, e)
  {
    hide Drain, ItemsOf, OfChannel, WithoutChannel, DiscardedByPush, View.HandleRpcError, View.HandleAffected,
         View.ProcessUpdates, View.HandleState, View.HandleDifference, View.HandleChannelDifference, View.TimerEvent;
    match e
    case Pushed(u, id) => PushDiscards(v, u, id);
    case DifferenceReply(d, id) => DifferenceDiscards(v, d, id);
    case ChannelDifferenceReply(d, id) => ChannelDifferenceDiscards(v, d, id);
    case TimerFired(ours) => TickDiscards(v, ours);
    case StateReply(s, id) => StateDiscards(v, s, id);
    case AffectedReply(p, n, id) => AffectedDiscards(v, p, n, id);
    case RpcFailure(err, id) => ErrorDiscards(v, err, id);
    case _ =>
  }

  lemma TickDiscards(v: View, ours: bool)
    requires Ok(v)
    ensures v.TimerEvent(ours).inbox.ledger.discarded == v.inbox.ledger.discarded + DiscardedBy(v, TimerFired(ours))
  {
    hide ItemsOf;
    TickEmptiesInbox(v.inbox);
  }

  lemma StateDiscards(v: View, s: Option<StateValues>, id: int)
    ensures v.HandleState(s, id).inbox.ledger.discarded == v.inbox.ledger.discarded
  {
    hide Drain;
  }

  lemma AffectedDiscards(v: View, p: int32, n: int32, id: int)
    ensures v.HandleAffected(p, n, id).inbox.ledger.discarded == v.inbox.ledger.discarded
  {
    hide Drain;
  }

  lemma ErrorDiscards(v: View, err: RpcError, id: int)
    ensures v.HandleRpcError(err, id).inbox.ledger.discarded
            == v.inbox.ledger.discarded + DiscardedBy(v, RpcFailure(err, id))
  {
    hide ItemsOf, OfChannel, WithoutChannel, Asks.Pump;
  }

  function AllDiscarded(v: View, es: seq<Event>): multiset<Item>
    decreases |es|
  {
    if es == [] then multiset{} else DiscardedBy(v, es[0]) + AllDiscarded(Step(v, es[0]), es[1..])
  }

  lemma {:induction false} StepsDiscard(v: View, es: seq<Event>)
    requires Ok(v)
    ensures Steps(v, es).inbox.ledger.discarded == v.inbox.ledger.discarded + AllDiscarded(v, es)
    decreases |es|
  {
    hide Step, DiscardedBy, Ok;
    if es != [] {
      StepDiscards(v, es[0]);
      StepKeepsOk(v, es[0]);
      StepsDiscard(Step(v, es[0]), es[1..]);
    }
  }

  // --- dropped ------------------------------------------------------------------------------

  /** Whatever was dropped on the way from a to b is at or below its counter in b. */
  ghost predicate DropsOld(a: Inbox, b: Inbox) {
    && a.ledger.dropped <= b.ledger.dropped
    && forall i :: b.ledger.dropped[i] > a.ledger.dropped[i] ==> i.pts <= b.counters.Local(i.channelId)
  }

  lemma DropsNone(a: Inbox, b: Inbox)
    requires b.ledger.dropped == a.ledger.dropped
    ensures DropsOld(a, b)
  {
  }

  lemma DropsThenAdvances(a: Inbox, b: Inbox, c: Inbox)
    requires DropsOld(a, b) && DropsOld(b, c) && NotBehind(b.counters, c.counters)
    ensures DropsOld(a, c)
  {
    forall i | c.ledger.dropped[i] > a.ledger.dropped[i] ensures i.pts <= c.counters.Local(i.channelId) {
      assert b.counters.Local(i.channelId) <= c.counters.Local(i.channelId);
    }
  }

  lemma DrainDropsOld(a: Inbox)
    ensures DropsOld(a, a.DrainPending()) && NotBehind(a.counters, a.DrainPending().counters)
  {
    if a.pending != [] {
      var r := Drain(a.counters, a.pending);
      DrainSettles(a.counters, a.pending);
      hide Drain;
      forall i | a.DrainPending().ledger.dropped[i] > a.ledger.dropped[i]
          ensures i.pts <= r.counters.Local(i.channelId) {
        assert i in multiset(r.dropped);
        var k :| 0 <= k < |r.dropped| && r.dropped[k] == i;
      }
    }
  }

  /** Whatever led up to a drain, if it dropped nothing. */
  lemma EndsInDrain(a: Inbox, b: Inbox)
    requires b.ledger.dropped == a.ledger.dropped
    ensures DropsOld(a, b.DrainPending())
  {
    DrainDropsOld(b);
  }

  lemma ApplyItemDropsOld(v: View, i: Item)
    ensures DropsOld(v.inbox, v.ApplyItem(i).inbox) && NotBehind(v.inbox.counters, v.ApplyItem(i).inbox.counters)
  {
    var b := v.inbox;
    var w := v.ApplyItem(i).inbox;
    if b.counters.valid && b.counters.Verdict(i) == Apply {
      var accepted := b.Receive(i).Accept(i);
      EndsInDrain(b, accepted);
      DrainDropsOld(accepted);
      AdvancesForward(b.counters, i.channelId, i.pts);
      ForwardTwice(b.counters, accepted.counters, w.counters);
    }
  }

  lemma AdvancesForward(c: Counters, channel: int, p: int32)
    ensures NotBehind(c, c.Advance(channel, p))
  {
    forall ch ensures c.Local(ch) <= c.Advance(channel, p).Local(ch) { AdvanceMonotone(c, channel, p, ch); }
  }

  lemma ForwardTwice(a: Counters, b: Counters, c: Counters)
    requires NotBehind(a, b) && NotBehind(b, c)
    ensures NotBehind(a, c)
  {
    forall ch ensures a.Local(ch) <= c.Local(ch) { assert a.Local(ch) <= b.Local(ch) <= c.Local(ch); }
  }

  lemma ApplyOneDropsOld(v: View, u: Update, users: seq<int>, chats: seq<Chat>, date: int32, messageId: int,
                         shortForm: bool)
    ensures var w := v.ApplyOne(u, users, chats, date, messageId, shortForm);
            DropsOld(v.inbox, w.inbox) && NotBehind(v.inbox.counters, w.inbox.counters)
  {
    if !u.tooLong && u.pts.Some? { ApplyItemDropsOld(v, MakeItem(u, users, chats, date, messageId, shortForm)); }
  }

  lemma {:induction false} ApplyAllDropsOld(v: View, list: seq<Update>, users: seq<int>, chats: seq<Chat>,
                                            date: int32, messageId: int)
    ensures var w := v.ApplyAll(list, users, chats, date, messageId);
            DropsOld(v.inbox, w.inbox) && NotBehind(v.inbox.counters, w.inbox.counters)
    decreases |list|
  {
    if list != [] {
      var one := v.ApplyOne(list[0], users, chats, date, messageId, false);
      var w := v.ApplyAll(list, users, chats, date, messageId);
      ApplyOneDropsOld(v, list[0], users, chats, date, messageId, false);
      ApplyAllDropsOld(one, list[1..], users, chats, date, messageId);
      hide DropsOld, NotBehind;
      DropsThenAdvances(v.inbox, one.inbox, w.inbox);
      ForwardTwice(v.inbox.counters, one.inbox.counters, w.inbox.counters);
    }
  }

  lemma PushDropsOld(v: View, u: Container, messageId: int)
    ensures DropsOld(v.inbox, v.ProcessUpdates(u, messageId).inbox)
  {
    hide Opened;
    var o := Opened(v, u);
    PushIsOpened(v, u, messageId);
    ApplyOneDropsOld(o, u.body, [], [], u.date, messageId, u.kind == ShortForm);
    ApplyAllDropsOld(o, u.list, u.users, u.chats, u.date, messageId);
  }

  lemma DifferenceDropsOld(v: View, d: Difference, id: int)
    ensures DropsOld(v.inbox, v.HandleDifference(d, id).inbox)
  {
    hide DropsOld, Drain;
    var r := v.(asks := v.asks.(differenceRequest := 0));
    var w := r.ApplyDifferenceBody(d.newMessages, d.otherUpdates, d.users, d.chats).inbox;
    BodyReceivesNothing(r, d.newMessages, d.otherUpdates, d.users, d.chats);
    EndsInDrain(v.inbox, w.Assign(w.counters.Reset(if d.intermediate.Some? then d.intermediate.value else d.state), 0));
    EndsInDrain(v.inbox, v.inbox.(counters := v.inbox.counters.AdvanceSeq(d.seqNo, d.date)));
    DropsNone(v.inbox, v.inbox);
    DropsNone(v.inbox, r.JumpTo(d.pts).inbox);
  }

  lemma ChannelDifferenceDropsOld(v: View, d: ChannelDifference, id: int)
    ensures DropsOld(v.inbox, v.HandleChannelDifference(d, id).inbox)
  {
    hide DropsOld, Drain, OfChannel, WithoutChannel;
    DropsNone(v.inbox, v.inbox);
    if id in v.asks.inFlight {
      var channel := v.asks.inFlight[id];
      var r := v.(asks := v.asks.Release(id));
      var w := r.ApplyDifferenceBody(d.newMessages, d.otherUpdates, d.users, d.chats);
      BodyReceivesNothing(r, d.newMessages, d.otherUpdates, d.users, d.chats);
      EndsInDrain(v.inbox, v.inbox);
      EndsInDrain(v.inbox, r.SetChannelPts(channel, d.pts).inbox);
      EndsInDrain(v.inbox, w.SetChannelPts(channel, d.pts).inbox);
      EndsInDrain(v.inbox, r.SetChannelPts(channel, d.dialogPts).inbox.DropPending(channel));
    }
  }

  /** No event drops an update that is not at or below its sequence's counter. */
  lemma StepDropsOld(v: View, e: Event)
    ensures DropsOld(v.inbox, Step(v, e).inbox)
  {
    hide DropsOld, Drain, OfChannel, WithoutChannel;
    DropsNone(v.inbox, v.inbox);
    match e
    case Pushed(u, id) => PushDropsOld(v, u, id);
    case StateReply(s, id) =>
      if s.Some? { EndsInDrain(v.inbox, v.inbox.Assign(v.inbox.counters.Reset(s.value), 0)); }
    case DifferenceReply(d, id) => DifferenceDropsOld(v, d, id);
    case ChannelDifferenceReply(d, id) => ChannelDifferenceDropsOld(v, d, id);
    case AffectedReply(p, n, id) =>
      if id in v.asks.affected { EndsInDrain(v.inbox, v.inbox.AdvanceByReply(v.asks.affected[id], p)); }
    case _ => DropsNone(v.inbox, Step(v, e).inbox);
  }

  // --- overflow -----------------------------------------------------------------------------

  predicate Outstanding(a: Asks) {
    a.stateRequest != 0 || a.differenceRequest != 0
  }

  /** The updates of a container that are taken up one after another. */
  function TakenUp(v: View, u: Container): seq<Update> {
    match u.kind
    case Short => [u.body]
    case ShortForm => [u.body]
    case Batch => if FailsSeqTest(v.inbox.counters, u) then [] else u.list
    case _ => []
  }

  /** The state in which the k-th of them is. */
  function Before(v: View, u: Container, messageId: int, k: nat): View
    requires k < |TakenUp(v, u)|
  {
    if u.kind == Batch then Opened(v, u).ApplyAll(u.list[..k], u.users, u.chats, u.date, messageId) else Opened(v, u)
  }

  lemma RequestsStay(a: Asks, c: Counters)
    ensures Outstanding(a) ==> Outstanding(a.RequestState()) && Outstanding(a.RequestDifference(c))
  {
  }

  lemma HeldKeepsOutstanding(v: View, i: Item)
    requires v.inbox.counters.valid ==> v.inbox.counters.Verdict(i) == Gap
    ensures Outstanding(v.asks) ==> Outstanding(v.ApplyItem(i).asks)
  {
    var a, c := v.asks, v.inbox.counters;
    HeldItemAsks(v, i);
    RequestsStay(a, c);
    RequestsStay(a.RequestDifference(c), c);
    EnqueueKeepsRequests(a, c, i.channelId);
    EnqueueKeepsRequests(a.RequestDifference(c), c, i.channelId);
    hide View.ApplyItem, Asks.RequestDifference, Asks.Enqueue, Asks.RequestState;
  }

  lemma SettledKeepsAsks(v: View, i: Item)
    requires v.inbox.counters.valid && v.inbox.counters.Verdict(i) != Gap
    ensures v.ApplyItem(i).asks == v.asks
  {
    hide Drain;
  }

  lemma ApplyOneKeepsOutstanding(v: View, u: Update, users: seq<int>, chats: seq<Chat>, date: int32,
                                 messageId: int, shortForm: bool)
    ensures Outstanding(v.asks) ==> Outstanding(v.ApplyOne(u, users, chats, date, messageId, shortForm).asks)
  {
    EnqueueKeepsRequests(v.asks, v.inbox.counters, ChannelIdOf(u));
    if !u.tooLong && u.pts.Some? {
      var i := MakeItem(u, users, chats, date, messageId, shortForm);
      hide View.ApplyItem;
      if v.inbox.counters.valid && v.inbox.counters.Verdict(i) != Gap {
        SettledKeepsAsks(v, i);
      } else {
        HeldKeepsOutstanding(v, i);
      }
    }
  }

  lemma {:induction false} ApplyAllKeepsOutstanding(v: View, list: seq<Update>, users: seq<int>, chats: seq<Chat>,
                                                    date: int32, messageId: int)
    ensures Outstanding(v.asks) ==> Outstanding(v.ApplyAll(list, users, chats, date, messageId).asks)
    decreases |list|
  {
    hide Outstanding;
    if list != [] {
      ApplyOneKeepsOutstanding(v, list[0], users, chats, date, messageId, false);
      ApplyAllKeepsOutstanding(v.ApplyOne(list[0], users, chats, date, messageId, false), list[1..], users, chats,
                               date, messageId);
    }
  }

  lemma {:induction false} ApplyAllInParts(v: View, list: seq<Update>, k: nat, users: seq<int>, chats: seq<Chat>,
                                           date: int32, messageId: int)
    requires k <= |list|
    ensures v.ApplyAll(list, users, chats, date, messageId)
              == v.ApplyAll(list[..k], users, chats, date, messageId).ApplyAll(list[k..], users, chats, date, messageId)
    decreases |list|
  {
    if k == 0 {
      assert list[..0] == [] && list[0..] == list;
    } else {
      ApplyAllInParts(v.ApplyOne(list[0], users, chats, date, messageId, false), list[1..], k - 1, users, chats,
                      date, messageId);
      assert list[..k][1..] == list[1..][..k - 1] && list[k..] == list[1..][k - 1..] && list[..k][0] == list[0];
    }
  }

  lemma OverflowLeavesOutstanding(v: View, u: Update, users: seq<int>, chats: seq<Chat>, date: int32,
                                  messageId: int, shortForm: bool)
    requires Ok(v) && Overflows(v, u)
    ensures var w := v.ApplyOne(u, users, chats, date, messageId, shortForm);
            && Outstanding(w.asks) && w.inbox.pending == []
            && w.inbox.ledger.discarded == v.inbox.ledger.discarded + ItemsOf(v.inbox.pending)
                                           + multiset{MakeItem(u, users, chats, date, messageId, shortForm)}
  {
    OverflowRefetches(v, MakeItem(u, users, chats, date, messageId, shortForm));
  }

  lemma BatchOverflow(o: View, list: seq<Update>, k: nat, users: seq<int>, chats: seq<Chat>, date: int32,
                      messageId: int)
    requires Ok(o) && k < |list| && Overflows(o.ApplyAll(list[..k], users, chats, date, messageId), list[k])
    ensures var w := o.ApplyAll(list, users, chats, date, messageId);
            && Outstanding(w.asks)
            && ItemsOf(o.ApplyAll(list[..k], users, chats, date, messageId).inbox.pending) <= w.inbox.ledger.discarded
  {
    hide Outstanding, Ok, Overflows;
    ApplyAllInParts(o, list, k, users, chats, date, messageId);
    ApplyAllKeepsOk(o, list[..k], users, chats, date, messageId);
    var before := o.ApplyAll(list[..k], users, chats, date, messageId);
    OverflowLeavesOutstanding(before, list[k], users, chats, date, messageId, false);
    var after := before.ApplyOne(list[k], users, chats, date, messageId, false);
    ApplyAllKeepsOutstanding(after, list[k..][1..], users, chats, date, messageId);
    ApplyAllDiscards(after, list[k..][1..], users, chats, date, messageId);
    assert list[k..][0] == list[k];
  }

  /** Any push, of any container, in which any update overflows the queue: what waited is discarded,
      and a request for the state or the difference is outstanding when the push is done. */
  lemma PushOverflowRefetches(v: View, u: Container, messageId: int, k: nat)
    requires Ok(v) && k < |TakenUp(v, u)| && Overflows(Before(v, u, messageId, k), TakenUp(v, u)[k])
    ensures var w := Step(v, Pushed(u, messageId));
            && ItemsOf(Before(v, u, messageId, k).inbox.pending) <= w.inbox.ledger.discarded
            && Outstanding(w.asks)
  {
    OpenedOk(v, u);
    PushIsOpened(v, u, messageId);
    hide Ok, Opened, Outstanding, Overflows;
    if u.kind == Batch {
      BatchOverflow(Opened(v, u), u.list, k, u.users, u.chats, u.date, messageId);
    } else {
      OverflowLeavesOutstanding(Opened(v, u), u.body, [], [], u.date, messageId, u.kind == ShortForm);
    }
  }

  lemma OpenedOk(v: View, u: Container)
    requires Ok(v)
    ensures Ok(Opened(v, u))
  {
    hide InboxOk, AsksOk;
    RememberKeepsAsks(v.asks, u.chats);
    SameLocalsKeepsOk(v.inbox, v.inbox.counters.AdvanceSeq(u.seqEnd, u.date));
    SameLocalsKeepsOk(v.inbox, v.inbox.counters.SetDate(u.date));
  }
}

/** What counts as received is what was pushed. */
module UpdateArrivals {
  import opened Integers
  import opened Options
  import opened UpdateTypes
  import opened SequenceCounters
  import opened Draining
  import opened UpdateInbox
  import opened UpdateAsks
  import opened UpdatePipeline
  import opened UpdateSafety

  /** The updates of a list that carry a pts, as they are read. */
  function ItemsIn(list: seq<Update>, users: seq<int>, chats: seq<Chat>, date: int32, messageId: int,
                   shortForm: bool): multiset<Item>
    decreases |list|
  {
    if list == [] then multiset{}
    else
      var u := list[0];
      (if u.tooLong || u.pts.None? then multiset{}
       else multiset{Item(u, users, chats, messageId, ChannelIdOf(u), u.pts.value, u.ptsCount, date, shortForm)})
      + ItemsIn(list[1..], users, chats, date, messageId, shortForm)
  }

  /** All that a container carries of them. */
  function CarriedBy(u: Container, messageId: int): multiset<Item> {
    match u.kind
    case Short => ItemsIn([u.body], [], [], u.date, messageId, false)
    case ShortForm => ItemsIn([u.body], [], [], u.date, messageId, true)
    case Batch => ItemsIn(u.list, u.users, u.chats, u.date, messageId, false)
    case _ => multiset{}
  }

  /** The container does not follow on the last one by its seq: it is old, or one is missing. */
  predicate FailsSeqTest(c: Counters, u: Container) {
    u.kind == Batch && (var s := c.CheckSeq(u.seqStart, u.seqEnd); s == SeqDuplicate || s == SeqGap)
  }

  /** What an event offers to the pipeline. */
  function Offered(c: Counters, e: Event): multiset<Item> {
    if e.Pushed? && !FailsSeqTest(c, e.updates) then CarriedBy(e.updates, e.messageId) else multiset{}
  }

  // --- ingress ------------------------------------------------------------------------------

  lemma ApplyItemReceives(v: View, i: Item)
    ensures v.ApplyItem(i).inbox.ledger.received == v.inbox.ledger.received + multiset{i}
  {
  }

  lemma ApplyOneReceives(v: View, u: Update, users: seq<int>, chats: seq<Chat>, date: int32, messageId: int,
                         shortForm: bool)
    ensures v.ApplyOne(u, users, chats, date, messageId, shortForm).inbox.ledger.received
              == v.inbox.ledger.received + ItemsIn([u], users, chats, date, messageId, shortForm)
  {
    assert [u][1..] == [];
    if !u.tooLong && u.pts.Some? {
      ApplyItemReceives(v, MakeItem(u, users, chats, date, messageId, shortForm));
    }
  }

  lemma {:induction false} ApplyAllReceives(v: View, list: seq<Update>, users: seq<int>, chats: seq<Chat>,
                                            date: int32, messageId: int)
    ensures v.ApplyAll(list, users, chats, date, messageId).inbox.ledger.received
              == v.inbox.ledger.received + ItemsIn(list, users, chats, date, messageId, false)
    decreases |list|
  {
    if list != [] {
      ApplyOneReceives(v, list[0], users, chats, date, messageId, false);
      assert [list[0]][1..] == [];
      ApplyAllReceives(v.ApplyOne(list[0], users, chats, date, messageId, false), list[1..], users, chats, date,
                       messageId);
    }
  }

  lemma PushReceives(v: View, u: Container, messageId: int)
    ensures v.ProcessUpdates(u, messageId).inbox.ledger.received
              == v.inbox.ledger.received + Offered(v.inbox.counters, Pushed(u, messageId))
  {
    hide ItemsIn;
    var r := v.(asks := v.asks.RememberChats(u.chats));
    var c := v.inbox.counters;
    match u.kind
    case Short => ApplyOneReceives(r.SetCounters(c.SetDate(u.date)), u.body, [], [], u.date, messageId, false);
    case ShortForm => ApplyOneReceives(r, u.body, [], [], u.date, messageId, true);
    case Batch =>
      ApplyAllReceives(r.SetCounters(c.SetDate(u.date)), u.list, u.users, u.chats, u.date, messageId);
      ApplyAllReceives(r.SetCounters(c.AdvanceSeq(u.seqEnd, u.date)), u.list, u.users, u.chats, u.date, messageId);
    case _ =>
  }

  // --- replies ------------------------------------------------------------------------------

  lemma {:induction false} OthersReceiveNothing(v: View, updates: seq<Update>, users: seq<int>, chats: seq<Chat>,
                                                date: int32)
    ensures v.TellOthers(updates, users, chats, date).inbox.ledger == v.inbox.ledger
    decreases |updates|
  {
    if updates != [] {
      OthersReceiveNothing(v.TellOther(updates[0], users, chats, date), updates[1..], users, chats, date);
    }
  }

  lemma BodyReceivesNothing(v: View, messages: seq<Message>, others: seq<Update>, users: seq<int>, chats: seq<Chat>)
    ensures v.ApplyDifferenceBody(messages, others, users, chats).inbox.ledger == v.inbox.ledger
  {
    var r := v.(asks := v.asks.RememberChats(chats));
    var date := v.inbox.counters.date;
    MessagesOnlyTell(r, messages, users, chats, date);
    OthersReceiveNothing(r.TellMessages(messages, users, chats, date), others, users, chats, date);
  }

  lemma DifferenceReceivesNothing(v: View, d: Difference, id: int)
    ensures v.HandleDifference(d, id).inbox.ledger.received == v.inbox.ledger.received
  {
    BodyReceivesNothing(v.(asks := v.asks.(differenceRequest := 0)), d.newMessages, d.otherUpdates, d.users, d.chats);
  }

  /** Every channel difference ends so. */
  lemma DrainAndPumpReceiveNothing(v: View)
    ensures v.DrainPending().Pump().inbox.ledger.received == v.inbox.ledger.received
  {
  }

  lemma ChannelDifferenceReceivesNothing(v: View, d: ChannelDifference, id: int)
    ensures v.HandleChannelDifference(d, id).inbox.ledger.received == v.inbox.ledger.received
  {
    BodyReceivesNothing(v.(asks := v.asks.Release(id)), d.newMessages, d.otherUpdates, d.users, d.chats);
    forall u: View ensures u.DrainPending().Pump().inbox.ledger.received == u.inbox.ledger.received {
      DrainAndPumpReceiveNothing(u);
    }
    hide View.DrainPending, View.ApplyDifferenceBody, Asks.Release;
  }

  /** Every event adds to what was received exactly what it offers. */
  lemma StepReceives(v: View, e: Event)
    ensures Step(v, e).inbox.ledger.received == v.inbox.ledger.received + Offered(v.inbox.counters, e)
  {
    hide CarriedBy;
    match e
    case Pushed(u, id) => PushReceives(v, u, id);
    case DifferenceReply(d, id) => DifferenceReceivesNothing(v, d, id);
    case ChannelDifferenceReply(d, id) => ChannelDifferenceReceivesNothing(v, d, id);
    case _ =>
  }

  /** So a pushed update reaches no account exactly when its container fails the seq test: then it
      is neither told nor parked nor counted, whatever its pts. */
  lemma UnaccountedIff(v: View, u: Container, messageId: int)
    requires CarriedBy(u, messageId) != multiset{}
    ensures Step(v, Pushed(u, messageId)).inbox.ledger.received == v.inbox.ledger.received <==>
              FailsSeqTest(v.inbox.counters, u)
    ensures FailsSeqTest(v.inbox.counters, u) ==>
              var w := Step(v, Pushed(u, messageId)); w.inbox == v.inbox && w.out == v.out
  {
    hide Step;
    StepReceives(v, Pushed(u, messageId));
    FailedPush(v, u, messageId);
    var more := CarriedBy(u, messageId);
    var i :| i in more;
    assert (v.inbox.ledger.received + more)[i] > v.inbox.ledger.received[i];
  }

  lemma FailedPush(v: View, u: Container, messageId: int)
    ensures FailsSeqTest(v.inbox.counters, u) ==>
              var w := Step(v, Pushed(u, messageId)); w.inbox == v.inbox && w.out == v.out
  {
  }

  // --- runs ---------------------------------------------------------------------------------

  /** All that the pushes of a run offer. */
  function AllOffered(v: View, es: seq<Event>): multiset<Item>
    decreases |es|
  {
    if es == [] then multiset{} else Offered(v.inbox.counters, es[0]) + AllOffered(Step(v, es[0]), es[1..])
  }

  lemma {:induction false} StepsReceive(v: View, es: seq<Event>)
    ensures Steps(v, es).inbox.ledger.received == v.inbox.ledger.received + AllOffered(v, es)
    decreases |es|
  {
    hide Step, Offered;
    if es != [] {
      StepReceives(v, es[0]);
      StepsReceive(Step(v, es[0]), es[1..]);
    }
  }
}

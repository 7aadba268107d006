/** What every entry point of the update manager keeps, and what follows for every run. */
module UpdateSafety {
  import opened Integers
  import opened UpdateTypes
  import opened Options
  import opened SequenceCounters
  import opened Draining
  import opened UpdateInbox
  import opened UpdateAsks
  import opened UpdatePipeline

  ghost predicate Ok(v: View) {
    InboxOk(v.inbox) && AsksOk(v.asks)
  }

  /** The inbox while a reply is being taken in: a counter may have moved past parked updates,
      which the drain at the end of the reply puts right. */
  ghost predicate WeakOk(b: Inbox) {
    QueueOk(b.(counters := b.counters.(valid := false))) && LedgerOk(b) && RunsOk(b)
  }

  lemma OkIsWeak(b: Inbox)
    requires InboxOk(b)
    ensures WeakOk(b)
  {
  }

  /** Changes to the asking half that touch neither polls nor waiting channels. */
  lemma QuieterKeepsAsks(a: Asks, b: Asks)
    requires AsksOk(a) && a.ids == b.ids && a.issued <= b.issued && a.inFlight == b.inFlight && a.queue == b.queue
    requires b.stateRequest == 0 || b.stateRequest == a.stateRequest
    requires b.differenceRequest == 0 || b.differenceRequest == a.differenceRequest
    ensures AsksOk(b)
  {
    IdsKept(a, b);
  }

  lemma DrainKeepsOk(b: Inbox)
    requires WeakOk(b)
    ensures InboxOk(b.DrainPending())
  {
    DrainRestoresQueue(b);
    DrainKeepsLedger(b);
    DrainKeepsRuns(b);
  }

  lemma DropKeepsOk(b: Inbox, c: int)
    requires InboxOk(b)
    ensures InboxOk(b.DropPending(c)) && InboxOk(b.ExpirePending()) && InboxOk(b.ClearPending())
  {
    DropKeepsQueue(b, c);
    DropKeepsLedger(b, c);
    RunsDependOn(b, b.DropPending(c));
    RunsDependOn(b, b.ExpirePending());
    RunsDependOn(b, b.ClearPending());
  }

  lemma DropKeepsWeakOk(b: Inbox, c: int)
    requires WeakOk(b)
    ensures WeakOk(b.DropPending(c))
  {
    DropKeepsQueue(b.(counters := b.counters.(valid := false)), c);
    DropKeepsLedger(b, c);
    RunsDependOn(b, b.DropPending(c));
  }

  lemma ReceiveKeepsRuns(b: Inbox, i: Item)
    requires RunsOk(b)
    ensures RunsOk(b.Receive(i))
  {
    RunsDependOn(b, b.Receive(i));
  }

  lemma ParkKeepsOk(b: Inbox, i: Item)
    requires InboxOk(b) && WellRead(i) && (b.counters.valid ==> b.counters.Verdict(i) == Gap)
    ensures InboxOk(b.Receive(i).Park(i))
  {
    assert QueueOk(b.Receive(i).Park(i)) by { ParkKeepsQueue(b.Receive(i), i); }
    assert LedgerOk(b.Receive(i).Park(i)) by { ParkKeepsLedger(b, i); }
    assert RunsOk(b.Receive(i).Park(i)) by { RunsDependOn(b, b.Receive(i).Park(i)); }
  }

  lemma AcceptKeepsWeakOk(b: Inbox, i: Item)
    requires InboxOk(b) && WellRead(i) && b.counters.Verdict(i) == Apply
    ensures WeakOk(b.Receive(i).Accept(i))
  {
    SettleKeepsLedger(b, i);
    ReceiveKeepsRuns(b, i);
    AcceptKeepsRuns(b.Receive(i), i);
  }

  lemma DuplicateKeepsOk(b: Inbox, i: Item)
    requires InboxOk(b) && WellRead(i)
    ensures InboxOk(b.Receive(i).DropDuplicate(i))
  {
    SettleKeepsLedger(b, i);
    RunsDependOn(b, b.Receive(i).DropDuplicate(i));
  }

  lemma SameLocalsKeepsOk(b: Inbox, c: Counters)
    requires InboxOk(b) && c.valid == b.counters.valid && forall k :: c.Local(k) == b.counters.Local(k)
    ensures InboxOk(b.(counters := c))
  {
    hide RunsOk, LedgerOk;
    RunsDependOn(b, b.(counters := c));
    LedgerIgnoresCounters(b, c);
    if c.valid {
      forall i | 0 <= i < |b.pending| ensures c.Verdict(b.pending[i].item) == Gap {
        assert b.counters.Verdict(b.pending[i].item) == Gap;
      }
    }
  }

  lemma LedgerIgnoresCounters(b: Inbox, c: Counters)
    ensures LedgerOk(b.(counters := c)) == LedgerOk(b)
  {
  }

  lemma AssignKeepsWeakOk(b: Inbox, to: Counters, c: int)
    requires WeakOk(b) && forall d :: d != c ==> to.Local(d) == b.counters.Local(d)
    ensures WeakOk(b.Assign(to, c))
  {
    AssignKeepsRuns(b, to, c);
  }

  // --- ingress ------------------------------------------------------------------------------

  lemma ParkingAsksKeepOk(a: Asks, c: Counters, i: Item)
    requires AsksOk(a)
    ensures AsksOk(a.RequestState()) && AsksOk(a.RequestDifference(c)) && AsksOk(a.RequestDifference(c).RequestState())
    ensures AsksOk(a.RequestDifference(c).RequestDifference(c))
    ensures AsksOk(a.Enqueue(c, i.channelId)) && AsksOk(a.RequestDifference(c).Enqueue(c, i.channelId))
    ensures Busy(a) ==> Busy(a.Enqueue(c, i.channelId)) && Busy(a.RequestDifference(c).Enqueue(c, i.channelId))
  {
    RequestKeepsAsks(a, c);
    RequestKeepsAsks(a.RequestDifference(c), c);
    EnqueueKeepsAsks(a, c, i.channelId);
    EnqueueKeepsAsks(a.RequestDifference(c), c, i.channelId);
  }

  lemma HeldItemKeepsOk(v: View, i: Item)
    requires Ok(v) && WellRead(i) && (v.inbox.counters.valid ==> v.inbox.counters.Verdict(i) == Gap)
    ensures Ok(v.ApplyItem(i)) && (Busy(v.asks) ==> Busy(v.ApplyItem(i).asks))
  {
    hide InboxOk, AsksOk, WeakOk;
    ParkKeepsOk(v.inbox, i);
    HeldItemIsParked(v, i);
    ParkingAsksKeepOk(v.asks, v.inbox.counters, i);
    hide Busy;
    HeldItemAsks(v, i);
  }

  lemma HeldItemIsParked(v: View, i: Item)
    requires v.inbox.counters.valid ==> v.inbox.counters.Verdict(i) == Gap
    ensures v.ApplyItem(i).inbox == v.inbox.Receive(i).Park(i)
  {
  }

  lemma HeldItemAsks(v: View, i: Item)
    requires v.inbox.counters.valid ==> v.inbox.counters.Verdict(i) == Gap
    ensures var a, c, w := v.asks, v.inbox.counters, v.ApplyItem(i).asks;
            || w == a.RequestState() || w == a.RequestDifference(c) || w == a.RequestDifference(c).RequestState()
            || w == a.RequestDifference(c).RequestDifference(c)
            || w == a.Enqueue(c, i.channelId) || w == a.RequestDifference(c).Enqueue(c, i.channelId)
  {
  }

  lemma ApplyItemKeepsOk(v: View, i: Item)
    requires Ok(v) && WellRead(i)
    ensures Ok(v.ApplyItem(i)) && (Busy(v.asks) ==> Busy(v.ApplyItem(i).asks))
  {
    hide InboxOk, AsksOk, WeakOk;
    var b := v.inbox;
    if !b.counters.valid || b.counters.Verdict(i) == Gap {
      HeldItemKeepsOk(v, i);
    } else if b.counters.Verdict(i) == Apply {
      AcceptKeepsWeakOk(b, i);
      DrainKeepsOk(b.Receive(i).Accept(i));
      assert v.ApplyItem(i).inbox == b.Receive(i).Accept(i).DrainPending();
    } else {
      DuplicateKeepsOk(b, i);
    }
  }

  lemma ApplyOneKeepsOk(v: View, u: Update, users: seq<int>, chats: seq<Chat>, date: int32, messageId: int,
                        shortForm: bool)
    requires Ok(v)
    ensures var w := v.ApplyOne(u, users, chats, date, messageId, shortForm); Ok(w) && (Busy(v.asks) ==> Busy(w.asks))
  {
    if u.tooLong {
      DropKeepsOk(v.inbox, ChannelIdOf(u));
      EnqueueKeepsAsks(v.asks, v.inbox.counters, ChannelIdOf(u));
    } else if u.pts.Some? {
      ApplyItemKeepsOk(v, MakeItem(u, users, chats, date, messageId, shortForm));
    }
  }

  lemma {:induction false} ApplyAllKeepsOk(v: View, list: seq<Update>, users: seq<int>, chats: seq<Chat>,
                                           date: int32, messageId: int)
    requires Ok(v)
    ensures var w := v.ApplyAll(list, users, chats, date, messageId); Ok(w) && (Busy(v.asks) ==> Busy(w.asks))
    decreases |list|
  {
    if list != [] {
      ApplyOneKeepsOk(v, list[0], users, chats, date, messageId, false);
      ApplyAllKeepsOk(v.ApplyOne(list[0], users, chats, date, messageId, false), list[1..], users, chats, date,
                      messageId);
    }
  }

  lemma RememberKeepsAsks(a: Asks, chats: seq<Chat>)
    requires AsksOk(a)
    ensures AsksOk(a.RememberChats(chats))
  {
    IdsKept(a, a.RememberChats(chats));
  }

  lemma BatchKeepsOk(v: View, u: Container, messageId: int)
    requires Ok(v) && u.kind == Batch
    ensures var w := v.ProcessUpdates(u, messageId); Ok(w) && (Busy(v.asks) ==> Busy(w.asks))
  {
    hide InboxOk, AsksOk, WeakOk;
    RememberKeepsAsks(v.asks, u.chats);
    var r := v.(asks := v.asks.RememberChats(u.chats));
    var c := v.inbox.counters;
    match c.CheckSeq(u.seqStart, u.seqEnd)
    case SeqDuplicate =>
    case SeqGap => RequestKeepsAsks(r.asks, c);
    case SeqApply =>
      SameLocalsKeepsOk(v.inbox, c.AdvanceSeq(u.seqEnd, u.date));
      ApplyAllKeepsOk(r.SetCounters(c.AdvanceSeq(u.seqEnd, u.date)), u.list, u.users, u.chats, u.date, messageId);
    case SeqIgnore =>
      SameLocalsKeepsOk(v.inbox, c.SetDate(u.date));
      ApplyAllKeepsOk(r.SetCounters(c.SetDate(u.date)), u.list, u.users, u.chats, u.date, messageId);
  }

  lemma ProcessUpdatesKeepsOk(v: View, u: Container, messageId: int)
    requires Ok(v)
    ensures var w := v.ProcessUpdates(u, messageId); Ok(w) && (Busy(v.asks) ==> Busy(w.asks))
  {
    hide InboxOk, AsksOk, WeakOk;
    RememberKeepsAsks(v.asks, u.chats);
    var r := v.(asks := v.asks.RememberChats(u.chats));
    var c := v.inbox.counters;
    match u.kind
    case TooLong => RequestKeepsAsks(r.asks, c);
    case Short =>
      SameLocalsKeepsOk(v.inbox, c.SetDate(u.date));
      ApplyOneKeepsOk(r.SetCounters(c.SetDate(u.date)), u.body, [], [], u.date, messageId, false);
    case ShortForm => ApplyOneKeepsOk(r, u.body, [], [], u.date, messageId, true);
    case UnknownContainer =>
    case Batch => BatchKeepsOk(v, u, messageId);
  }

  // --- replies ------------------------------------------------------------------------------

  lemma {:induction false} MessagesOnlyTell(v: View, messages: seq<Message>, users: seq<int>, chats: seq<Chat>,
                                            date: int32)
    ensures var w := v.TellMessages(messages, users, chats, date); w.inbox == v.inbox && w.asks == v.asks
    decreases |messages|
  {
    if messages != [] {
      MessagesOnlyTell(v.Tell(RecoveredOut(WrapNewMessage(messages[0]), users, chats, date)), messages[1..], users,
                       chats, date);
    }
  }

  lemma AdvanceByReplyKeepsWeakOk(b: Inbox, c: int, p: int32)
    requires WeakOk(b)
    ensures WeakOk(b.AdvanceByReply(c, p))
  {
    AssignKeepsWeakOk(b, b.counters.Advance(c, p), c);
  }

  lemma {:induction false} OthersKeepWeakOk(v: View, updates: seq<Update>, users: seq<int>, chats: seq<Chat>,
                                            date: int32)
    requires WeakOk(v.inbox)
    ensures var w := v.TellOthers(updates, users, chats, date); WeakOk(w.inbox) && w.asks == v.asks
    decreases |updates|
  {
    if updates != [] {
      var u := updates[0];
      if u.pts.Some? { AdvanceByReplyKeepsWeakOk(v.inbox, ChannelIdOf(u), u.pts.value); }
      OthersKeepWeakOk(v.TellOther(u, users, chats, date), updates[1..], users, chats, date);
    }
  }

  lemma BodyKeepsWeakOk(v: View, messages: seq<Message>, others: seq<Update>, users: seq<int>, chats: seq<Chat>)
    requires WeakOk(v.inbox)
    ensures var w := v.ApplyDifferenceBody(messages, others, users, chats);
            WeakOk(w.inbox) && w.asks == v.asks.RememberChats(chats)
  {
    var r := v.(asks := v.asks.RememberChats(chats));
    var date := v.inbox.counters.date;
    MessagesOnlyTell(r, messages, users, chats, date);
    OthersKeepWeakOk(r.TellMessages(messages, users, chats, date), others, users, chats, date);
  }

  lemma HandleStateKeepsOk(v: View, reply: Option<StateValues>, messageId: int)
    requires Ok(v)
    ensures var w := v.HandleState(reply, messageId); Ok(w) && (Busy(v.asks) ==> Busy(w.asks))
  {
    hide InboxOk, AsksOk, WeakOk;
    QuieterKeepsAsks(v.asks, v.asks.(stateRequest := 0));
    OkIsWeak(v.inbox);
    if reply.Some? {
      var c := v.inbox.counters.Reset(reply.value);
      AssignKeepsWeakOk(v.inbox, c, 0);
      DrainKeepsOk(v.inbox.Assign(c, 0));
    }
  }

  lemma AdoptKeepsOk(v: View, d: Difference)
    requires Ok(v)
    ensures var w := v.AdoptDifference(d); Ok(w) && (Busy(v.asks) ==> Busy(w.asks))
  {
    hide InboxOk, AsksOk, WeakOk;
    OkIsWeak(v.inbox);
    BodyKeepsWeakOk(v, d.newMessages, d.otherUpdates, d.users, d.chats);
    RememberKeepsAsks(v.asks, d.chats);
    var w := v.ApplyDifferenceBody(d.newMessages, d.otherUpdates, d.users, d.chats);
    var state := if d.intermediate.Some? then d.intermediate.value else d.state;
    AssignKeepsWeakOk(w.inbox, w.inbox.counters.Reset(state), 0);
    DrainKeepsOk(w.inbox.Assign(w.inbox.counters.Reset(state), 0));
  }

  lemma JumpInboxKeepsOk(b: Inbox, p: int32)
    requires InboxOk(b)
    ensures InboxOk(b.ClearPending().Assign(b.counters.SetPts(p), 0).ClearChannels())
  {
    DropKeepsOk(b, 0);
    AssignKeepsRuns(b.ClearPending(), b.counters.SetPts(p), 0);
    ClearingKeepsRuns(b.ClearPending().Assign(b.counters.SetPts(p), 0));
  }

  lemma EmptyQueueKeepsAsks(a: Asks)
    requires AsksOk(a)
    ensures AsksOk(a.(queue := []))
  {
    IdsKept(a, a.(queue := []));
  }

  lemma JumpKeepsOk(v: View, p: int32)
    requires Ok(v)
    ensures var w := v.JumpTo(p); Ok(w) && Busy(w.asks)
  {
    hide InboxOk, AsksOk, WeakOk;
    JumpInboxKeepsOk(v.inbox, p);
    EmptyQueueKeepsAsks(v.asks);
  }

  lemma HandleDifferenceKeepsOk(v: View, d: Difference, messageId: int)
    requires Ok(v)
    ensures var w := v.HandleDifference(d, messageId); Ok(w) && (Busy(v.asks) ==> Busy(w.asks))
  {
    hide InboxOk, AsksOk, WeakOk;
    var r := v.(asks := v.asks.(differenceRequest := 0));
    QuieterKeepsAsks(v.asks, r.asks);
    if v.asks.differenceRequest != 0 && v.asks.differenceRequest == messageId {
      match d.kind
      case DifferenceUnreadable => RequestKeepsAsks(r.asks, r.inbox.counters);
      case DifferenceEmpty =>
        SameLocalsKeepsOk(v.inbox, v.inbox.counters.AdvanceSeq(d.seqNo, d.date));
        OkIsWeak(v.inbox.(counters := v.inbox.counters.AdvanceSeq(d.seqNo, d.date)));
        DrainKeepsOk(v.inbox.(counters := v.inbox.counters.AdvanceSeq(d.seqNo, d.date)));
      case DifferenceFull => AdoptKeepsOk(r, d);
      case DifferenceSlice =>
        AdoptKeepsOk(r, d);
        RequestKeepsAsks(r.AdoptDifference(d).asks, r.AdoptDifference(d).inbox.counters);
      case DifferenceTooLong => JumpKeepsOk(r, d.pts);
      case DifferenceUnknown =>
    }
  }

  lemma SetChannelPtsKeepsWeakOk(b: Inbox, channel: int, p: int32)
    requires WeakOk(b)
    ensures WeakOk(b.Assign(b.counters.SetChannelPts(channel, p), channel))
  {
    AssignKeepsWeakOk(b, b.counters.SetChannelPts(channel, p), channel);
  }

  /** Every way a channel difference ends: drained and pumped. */
  lemma SettleAndPump(v: View)
    requires WeakOk(v.inbox) && AsksOk(v.asks)
    ensures Ok(v.DrainPending().Pump()) && Busy(v.DrainPending().Pump().asks)
  {
    hide InboxOk, AsksOk, WeakOk;
    DrainKeepsOk(v.inbox);
    PumpFillsSlots(v.asks, v.DrainPending().inbox.counters);
  }

  lemma HandleChannelDifferenceKeepsOk(v: View, d: ChannelDifference, messageId: int)
    requires Ok(v)
    ensures var w := v.HandleChannelDifference(d, messageId); Ok(w) && (Busy(v.asks) ==> Busy(w.asks))
  {
    hide InboxOk, AsksOk, WeakOk;
    if messageId in v.asks.inFlight {
      var channel := v.asks.inFlight[messageId];
      ReleaseKeepsAsks(v.asks, messageId);
      OkIsWeak(v.inbox);
      var r := v.(asks := v.asks.Release(messageId));
      match d.kind
      case ChannelUnreadable => PumpFillsSlots(r.asks, r.inbox.counters);
      case ChannelEmpty =>
        SetChannelPtsKeepsWeakOk(r.inbox, channel, d.pts);
        SettleAndPump(r.SetChannelPts(channel, d.pts));
      case ChannelFull =>
        BodyKeepsWeakOk(r, d.newMessages, d.otherUpdates, d.users, d.chats);
        RememberKeepsAsks(r.asks, d.chats);
        var body := r.ApplyDifferenceBody(d.newMessages, d.otherUpdates, d.users, d.chats);
        SetChannelPtsKeepsWeakOk(body.inbox, channel, d.pts);
        var told := body.SetChannelPts(channel, d.pts);
        RequeueKeepsAsks(told.asks, channel);
        SettleAndPump(told);
        SettleAndPump(told.(asks := told.asks.Requeue(channel)));
      case ChannelTooLong =>
        RememberKeepsAsks(r.asks, d.chats);
        SetChannelPtsKeepsWeakOk(r.inbox, channel, d.dialogPts);
        var w := r.(asks := r.asks.RememberChats(d.chats)).SetChannelPts(channel, d.dialogPts);
        DropKeepsWeakOk(w.inbox, channel);
        SettleAndPump(w.(inbox := w.inbox.DropPending(channel)).Tell(ChannelResetOut(channel)));
      case ChannelUnknown => SettleAndPump(r);
    }
  }

  lemma AffectedInboxKeepsOk(b: Inbox, channel: int, p: int32)
    requires InboxOk(b)
    ensures InboxOk(b.AdvanceByReply(channel, p).DrainPending())
  {
    hide InboxOk, AsksOk, WeakOk;
    OkIsWeak(b);
    AdvanceByReplyKeepsWeakOk(b, channel, p);
    DrainKeepsOk(b.AdvanceByReply(channel, p));
  }

  lemma HandleAffectedKeepsOk(v: View, p: int32, count: int32, messageId: int)
    requires Ok(v)
    ensures var w := v.HandleAffected(p, count, messageId); Ok(w) && (Busy(v.asks) ==> Busy(w.asks))
  {
    hide InboxOk, AsksOk, WeakOk;
    if messageId in v.asks.affected {
      var channel := v.asks.affected[messageId];
      var a := v.asks.(affected := v.asks.affected - {messageId});
      QuieterKeepsAsks(v.asks, a);
      match v.inbox.counters.Check(channel, p, count)
      case Apply => AffectedInboxKeepsOk(v.inbox, channel, p);
      case Duplicate =>
      case Gap =>
        RequestKeepsAsks(a, v.inbox.counters);
        EnqueueKeepsAsks(a, v.inbox.counters, channel);
    }
  }

  lemma StartOverKeepsOk(b: Inbox)
    requires InboxOk(b)
    ensures InboxOk(b.ClearPending().Clear())
  {
    DropKeepsOk(b, 0);
    ClearingKeepsRuns(b.ClearPending());
  }

  lemma ForgetStrandsNothing(b: Inbox, channel: int)
    requires InboxOk(b) && channel != 0 && b.counters.valid
    ensures AllGaps(b.counters.ForgetChannel(channel), WithoutChannel(b.pending, channel))
  {
    ChannelSplit(b.pending, channel);
    var left := WithoutChannel(b.pending, channel);
    hide WithoutChannel, OfChannel, LedgerOk, RunsOk;
    forall i | 0 <= i < |left| ensures b.counters.ForgetChannel(channel).Verdict(left[i].item) == Gap {
      assert left[i] in b.pending && left[i].item.channelId != channel;
      assert b.counters.Verdict(left[i].item) == Gap;
      ForgettingElsewhere(b.counters, channel, left[i].item);
    }
  }

  lemma ForgettingElsewhere(c: Counters, channel: int, i: Item)
    requires channel != 0 && i.channelId != channel
    ensures c.ForgetChannel(channel).Verdict(i) == c.Verdict(i)
  {
  }

  lemma WeakAndSettledIsOk(b: Inbox)
    requires WeakOk(b) && (b.counters.valid ==> AllGaps(b.counters, b.pending))
    ensures InboxOk(b)
  {
  }

  lemma ForgetKeepsOk(b: Inbox, channel: int)
    requires InboxOk(b) && channel != 0
    ensures InboxOk(b.ForgetChannel(channel).DropPending(channel))
  {
    hide InboxOk, AsksOk, WeakOk;
    assert WeakOk(b.ForgetChannel(channel).DropPending(channel)) by {
      OkIsWeak(b);
      AssignKeepsWeakOk(b, b.counters.ForgetChannel(channel), channel);
      DropKeepsWeakOk(b.ForgetChannel(channel), channel);
    }
    if b.counters.valid { ForgetStrandsNothing(b, channel); }
    WeakAndSettledIsOk(b.ForgetChannel(channel).DropPending(channel));
  }

  lemma HandleRpcErrorKeepsOk(v: View, e: RpcError, messageId: int)
    requires Ok(v)
    ensures var w := v.HandleRpcError(e, messageId); Ok(w) && (Busy(v.asks) ==> Busy(w.asks))
  {
    hide InboxOk, AsksOk, WeakOk;
    if v.asks.stateRequest == messageId {
      QuieterKeepsAsks(v.asks, v.asks.(stateRequest := 0));
    } else if v.asks.differenceRequest == messageId {
      var a := v.asks.(differenceRequest := 0);
      QuieterKeepsAsks(v.asks, a);
      StartOverKeepsOk(v.inbox);
      RequestKeepsAsks(a, v.inbox.counters);
    } else if messageId in v.asks.inFlight {
      var channel := v.asks.inFlight[messageId];
      ReleaseKeepsAsks(v.asks, messageId);
      var a := v.asks.Release(messageId);
      QuieterKeepsAsks(a, a.ForgetHash(channel));
      ForgetKeepsOk(v.inbox, channel);
      PumpFillsSlots(a, v.inbox.counters);
      PumpFillsSlots(a.ForgetHash(channel), v.inbox.ForgetChannel(channel).DropPending(channel).counters);
    }
  }

  // --- every run ----------------------------------------------------------------------------

  lemma TimerKeepsOk(v: View, ours: bool)
    requires Ok(v)
    ensures Ok(v.TimerEvent(ours)) && (Busy(v.asks) ==> Busy(v.TimerEvent(ours).asks))
  {
    var ticked := v.inbox.Tick();
    RunsDependOn(v.inbox, ticked);
    DropKeepsOk(ticked, 0);
    RequestKeepsAsks(v.asks, ticked.counters);
  }

  /** No event whatever breaks the invariant, and none but a disconnect leaves a channel
      waiting beside a free slot. */
  lemma StepKeepsOk(v: View, e: Event)
    requires Ok(v)
    ensures Ok(Step(v, e))
    ensures Busy(v.asks) && !e.SessionDisconnected? ==> Busy(Step(v, e).asks)
  {
    hide InboxOk, AsksOk, WeakOk;
    match e
    case Pushed(u, id) => ProcessUpdatesKeepsOk(v, u, id);
    case StateReply(s, id) => HandleStateKeepsOk(v, s, id);
    case DifferenceReply(d, id) => HandleDifferenceKeepsOk(v, d, id);
    case ChannelDifferenceReply(d, id) => HandleChannelDifferenceKeepsOk(v, d, id);
    case AffectedReply(p, n, id) => HandleAffectedKeepsOk(v, p, n, id);
    case RpcFailure(err, id) => HandleRpcErrorKeepsOk(v, err, id);
    case AffectedExpected(id, c) => QuieterKeepsAsks(v.asks, v.asks.ExpectAffected(id, c));
    case SessionAuthorized => RequestKeepsAsks(v.asks, v.inbox.counters);
    case SessionInitialized(a) => RequestKeepsAsks(v.asks, v.inbox.counters);
    case SessionDisconnected => DisconnectKeepsAsks(v.asks);
    case Renamed(oldMsg) =>
      QuieterKeepsAsks(v.asks, v.asks.Draw());
      if oldMsg != 0 { RenameKeepsAsks(v.asks, oldMsg); }
    case OtherSend => QuieterKeepsAsks(v.asks, v.asks.Draw());
    case TimerFired(ours) => TimerKeepsOk(v, ours);
  }

  lemma StartedOk(c: Counters, ids: nat -> int)
    requires Fresh(ids)
    ensures Ok(Started(c, ids)) && Busy(Started(c, ids).asks)
  {
    RestoredOk(c);
  }

  lemma {:induction false} StepsKeepOk(v: View, es: seq<Event>)
    requires Ok(v)
    ensures Ok(Steps(v, es))
    ensures Busy(v.asks) && (forall k :: 0 <= k < |es| ==> !es[k].SessionDisconnected?) ==> Busy(Steps(v, es).asks)
    decreases |es|
  {
    if es != [] {
      StepKeepsOk(v, es[0]);
      StepsKeepOk(Step(v, es[0]), es[1..]);
    }
  }

  /** In every state a run from a stored state can reach: the parked queue is bounded, watched
      by the timer, and strands nothing that could be applied once the state is valid. */
  lemma NothingIsStranded(c: Counters, ids: nat -> int, es: seq<Event>)
    requires Fresh(ids)
    ensures var b := Steps(Started(c, ids), es).inbox;
            && |b.pending| <= MAX_PENDING
            && (b.pending != [] ==> b.timerActive)
            && (b.counters.valid ==> forall i :: 0 <= i < |b.pending| ==> b.counters.Verdict(b.pending[i].item) == Gap)
  {
    StartedOk(c, ids);
    StepsKeepOk(Started(c, ids), es);
  }

  /** In every reachable state at most ten channels are polled and none is polled or waiting
      twice; and unless the connection was lost, one waits only while all ten slots are taken. */
  lemma PollsAreScheduled(c: Counters, ids: nat -> int, es: seq<Event>)
    requires Fresh(ids)
    ensures var a := Steps(Started(c, ids), es).asks;
            && |a.inFlight| <= MAX_CHANNEL_POLLS
            && (forall k, l :: k in a.inFlight && l in a.inFlight && k != l ==> a.inFlight[k] != a.inFlight[l])
            && (forall i, j :: 0 <= i < j < |a.queue| ==> a.queue[i] != a.queue[j])
            && (forall k :: k in a.inFlight ==> a.inFlight[k] !in a.queue)
            && ((forall k :: 0 <= k < |es| ==> !es[k].SessionDisconnected?) && a.queue != []
                ==> |a.inFlight| == MAX_CHANNEL_POLLS)
  {
    StartedOk(c, ids);
    StepsKeepOk(Started(c, ids), es);
  }

  /** A disconnect strands the waiting channels exactly when there are any: it frees every slot
      and pumps none. */
  lemma DisconnectStrandsWaiters(v: View)
    requires Ok(v)
    ensures Busy(Step(v, SessionDisconnected).asks) <==> v.asks.queue == []
  {
    DisconnectKeepsAsks(v.asks);
  }

  lemma TickEmptiesInbox(b: Inbox)
    requires QueueOk(b)
    ensures var t := b.Tick().ExpirePending();
            && t.pending == [] && t.ledger.discarded == b.ledger.discarded + ItemsOf(b.pending)
            && (b.pending != [] ==> !t.timerActive && b.Tick().Expires())
  {
    NothingOutlivesATick(b.pending, b.tick);
    UnexpiredSplit(b.pending, b.tick + 1);
  }

  lemma RequestLeavesOneOutstanding(a: Asks, c: Counters)
    requires AsksOk(a)
    ensures var b := a.RequestDifference(c); b.stateRequest != 0 || b.differenceRequest != 0
  {
    NextIdIsNew(a);
  }

  /** Each gap tick empties the queue, and whenever it discards anything a request for the
      state or the difference is outstanding afterwards. */
  lemma GapTickRefetches(v: View)
    requires Ok(v)
    ensures var w := Step(v, TimerFired(true));
            && w.inbox.pending == []
            && w.inbox.ledger.discarded == v.inbox.ledger.discarded + ItemsOf(v.inbox.pending)
            && (v.inbox.pending != []
                ==> !w.inbox.timerActive && (w.asks.stateRequest != 0 || w.asks.differenceRequest != 0))
  {
    hide AsksOk;
    TickEmptiesInbox(v.inbox);
    RequestLeavesOneOutstanding(v.asks, v.inbox.Tick().ExpirePending().counters);
  }

  lemma PumpKeepsRequests(a: Asks, c: Counters)
    ensures a.Pump(c).stateRequest == a.stateRequest && a.Pump(c).differenceRequest == a.differenceRequest
    decreases |a.queue|
  {
    if a.queue != [] && |a.inFlight| < MAX_CHANNEL_POLLS {
      PumpKeepsRequests(a.(queue := a.queue[1..]).RequestChannelDifference(c, a.queue[0]), c);
    }
  }

  lemma EnqueueKeepsRequests(a: Asks, c: Counters, channel: int)
    ensures var b := a.Enqueue(c, channel);
            b.stateRequest == a.stateRequest && b.differenceRequest == a.differenceRequest
  {
    PumpKeepsRequests(a.(queue := a.queue + [channel]), c);
  }

  /** The same when an update that has to wait finds the queue full: all that waits and the update
      itself are discarded, and a request for the state or the difference is outstanding. */
  lemma OverflowRefetches(v: View, i: Item)
    requires Ok(v) && |v.inbox.pending| >= MAX_PENDING
    requires v.inbox.counters.valid ==> v.inbox.counters.Verdict(i) == Gap
    ensures var w := v.ApplyItem(i);
            && w.inbox.pending == []
            && w.inbox.ledger.discarded == v.inbox.ledger.discarded + ItemsOf(v.inbox.pending) + multiset{i}
            && (w.asks.stateRequest != 0 || w.asks.differenceRequest != 0)
  {
    var c := v.inbox.counters;
    HeldItemIsParked(v, i);
    RequestLeavesOneOutstanding(v.asks, c);
    EnqueueKeepsRequests(v.asks.RequestDifference(c), c, i.channelId);
  }
}

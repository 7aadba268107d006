/** libkg/tgupdates as a function from states to states, one function per entry point. */
module UpdatePipeline {
  import opened Integers
  import opened UpdateTypes
  import opened Options
  import opened SequenceCounters
  import opened Draining
  import opened UpdateInbox
  import opened UpdateAsks

  function MakeItem(u: Update, users: seq<int>, chats: seq<Chat>, date: int32, messageId: int, shortForm: bool): Item
    requires u.pts.Some?
  {
    Item(u, users, chats, messageId, ChannelIdOf(u), u.pts.value, u.ptsCount, date, shortForm)
  }

  datatype View = View(inbox: Inbox, asks: Asks, out: seq<Dispatch>) {

    // --- pieces -----------------------------------------------------------------------------

    function Tell(d: Dispatch): View {
      this.(out := out + [d])
    }

    function Publish(): View {
      var c := inbox.counters;
      Tell(StateOut(c.pts, c.qts, c.date, c.seqNo))
    }

    function DrainPending(): View {
      this.(inbox := inbox.DrainPending(), out := out + Emissions(inbox.DrainEmits()))
    }

    function RequestState(): View {
      this.(asks := asks.RequestState())
    }

    function RequestDifference(): View {
      this.(asks := asks.RequestDifference(inbox.counters))
    }

    function Enqueue(channel: int): View {
      this.(asks := asks.Enqueue(inbox.counters, channel))
    }

    function Pump(): View {
      this.(asks := asks.Pump(inbox.counters))
    }

    function Park(i: Item): View {
      var after := this.(inbox := inbox.Park(i));
      if |inbox.pending| >= MAX_PENDING then after.RequestDifference() else after
    }

    function SetCounters(c: Counters): View {
      this.(inbox := inbox.(counters := c))
    }

    // --- ingress ----------------------------------------------------------------------------

    function ApplyOne(u: Update, users: seq<int>, chats: seq<Chat>, date: int32, messageId: int,
                      shortForm: bool): View {
      var channel := ChannelIdOf(u);
      if u.tooLong then
        this.(inbox := inbox.DropPending(channel)).Enqueue(channel)
      else if u.pts.None? then
        Tell(if shortForm then MessageOut(u, messageId) else UpdateOut(u, users, chats, date))
      else
        ApplyItem(MakeItem(u, users, chats, date, messageId, shortForm))
    }

    function ApplyItem(i: Item): View {
      var got := this.(inbox := inbox.Receive(i));
      if !inbox.counters.valid then got.Park(i).RequestState()
      else
        match inbox.counters.Verdict(i)
        case Apply =>
          var told := got.(inbox := got.inbox.Accept(i)).Tell(Emission(i));
          (if i.channelId == 0 then told.Publish() else told).DrainPending()
        case Duplicate =>
          got.(inbox := got.inbox.DropDuplicate(i))
        case Gap =>
          var parked := got.Park(i);
          if i.channelId != 0 then parked.Enqueue(i.channelId) else parked.RequestDifference()
    }

    function ApplyAll(list: seq<Update>, users: seq<int>, chats: seq<Chat>, date: int32, messageId: int): View
      decreases |list|
    {
      if list == [] then this
      else ApplyOne(list[0], users, chats, date, messageId, false).ApplyAll(list[1..], users, chats, date, messageId)
    }

    function ProcessUpdates(u: Container, messageId: int): View {
      var v := this.(asks := asks.RememberChats(u.chats));
      match u.kind
      case TooLong => v.RequestDifference()
      case Short =>
        v.SetCounters(inbox.counters.SetDate(u.date)).ApplyOne(u.body, [], [], u.date, messageId, false)
      case Batch =>
        (match inbox.counters.CheckSeq(u.seqStart, u.seqEnd)
         case SeqDuplicate => v
         case SeqGap => v.RequestDifference()
         case SeqApply =>
           v.SetCounters(inbox.counters.AdvanceSeq(u.seqEnd, u.date))
           .ApplyAll(u.list, u.users, u.chats, u.date, messageId)
         case SeqIgnore =>
           v.SetCounters(inbox.counters.SetDate(u.date)).ApplyAll(u.list, u.users, u.chats, u.date, messageId))
      case ShortForm => v.ApplyOne(u.body, [], [], u.date, messageId, true)
      case UnknownContainer => v
    }

    // --- lifecycle --------------------------------------------------------------------------

    function Authorized(): View {
      if inbox.counters.valid then RequestDifference() else RequestState()
    }

    function Initialized(isAuthorized: bool): View {
      if isAuthorized then Authorized() else this
    }

    function Disconnected(): View {
      this.(asks := asks.Disconnected())
    }

    function MessageChanged(oldMsg: int, newMsg: int): View {
      this.(asks := asks.MessageChanged(oldMsg, newMsg))
    }

    function TimerEvent(ours: bool): View {
      if !ours then this
      else
        var ticked := inbox.Tick();
        var v := this.(inbox := ticked.ExpirePending());
        if ticked.Expires() then v.RequestDifference() else v
    }

    // --- replies ----------------------------------------------------------------------------

    function HandleState(reply: Option<StateValues>, messageId: int): View {
      if asks.stateRequest == 0 || asks.stateRequest != messageId then this
      else
        var v := this.(asks := asks.(stateRequest := 0));
        if reply.None? then v
        else
          v.(inbox := inbox.Assign(inbox.counters.Reset(reply.value), 0)).Publish().DrainPending()
    }

    function TellMessages(messages: seq<Message>, users: seq<int>, chats: seq<Chat>, date: int32): View
      decreases |messages|
    {
      if messages == [] then this
      else
        Tell(RecoveredOut(WrapNewMessage(messages[0]), users, chats, date))
        .TellMessages(messages[1..], users, chats, date)
    }

    function TellOther(u: Update, users: seq<int>, chats: seq<Chat>, date: int32): View {
      var v :=
        if u.pts.Some? && ChannelIdOf(u) != 0 then this.(inbox := inbox.AdvanceByReply(ChannelIdOf(u), u.pts.value))
        else this;
      v.Tell(RecoveredOut(u, users, chats, date))
    }

    function TellOthers(updates: seq<Update>, users: seq<int>, chats: seq<Chat>, date: int32): View
      decreases |updates|
    {
      if updates == [] then this
      else TellOther(updates[0], users, chats, date).TellOthers(updates[1..], users, chats, date)
    }

    function ApplyDifferenceBody(messages: seq<Message>, others: seq<Update>, users: seq<int>, chats: seq<Chat>): View {
      var date := inbox.counters.date;
      this.(asks := asks.RememberChats(chats))
      .TellMessages(messages, users, chats, date)
      .TellOthers(others, users, chats, date)
    }

    function HandleDifference(d: Difference, messageId: int): View {
      if asks.differenceRequest == 0 || asks.differenceRequest != messageId then this
      else
        var v := this.(asks := asks.(differenceRequest := 0));
        match d.kind
        case DifferenceUnreadable => v.RequestState()
        case DifferenceEmpty => v.SetCounters(inbox.counters.AdvanceSeq(d.seqNo, d.date)).DrainPending()
        case DifferenceFull => v.AdoptDifference(d)
        case DifferenceSlice => v.AdoptDifference(d).RequestDifference()
        case DifferenceTooLong => v.JumpTo(d.pts)
        case DifferenceUnknown => v
    }

    function JumpTo(p: int32): View {
      var cleared := inbox.ClearPending();
      View(cleared.Assign(cleared.counters.SetPts(p), 0).ClearChannels(), asks.(queue := []), out).Tell(ResetOut)
    }

    function AdoptDifference(d: Difference): View {
      var v := ApplyDifferenceBody(d.newMessages, d.otherUpdates, d.users, d.chats);
      var state := if d.intermediate.Some? then d.intermediate.value else d.state;
      v.(inbox := v.inbox.Assign(v.inbox.counters.Reset(state), 0)).Publish().DrainPending()
    }

    function SetChannelPts(channel: int, p: int32): View {
      this.(inbox := inbox.Assign(inbox.counters.SetChannelPts(channel, p), channel))
    }

    function HandleChannelDifference(d: ChannelDifference, messageId: int): View {
      if messageId !in asks.inFlight then this
      else
        var channel := asks.inFlight[messageId];
        var v := this.(asks := asks.Release(messageId));
        match d.kind
        case ChannelUnreadable => v.Pump()
        case ChannelEmpty => v.SetChannelPts(channel, d.pts).DrainPending().Pump()
        case ChannelFull =>
          var told := v.ApplyDifferenceBody(d.newMessages, d.otherUpdates, d.users, d.chats)
                      .SetChannelPts(channel, d.pts);
          (if d.final then told else told.(asks := told.asks.Requeue(channel))).DrainPending().Pump()
        case ChannelTooLong =>
          var w := v.(asks := v.asks.RememberChats(d.chats)).SetChannelPts(channel, d.dialogPts);
          w.(inbox := w.inbox.DropPending(channel)).Tell(ChannelResetOut(channel)).DrainPending().Pump()
        case ChannelUnknown => v.DrainPending().Pump()
    }

    function HandleAffected(p: int32, count: int32, messageId: int): View {
      if messageId !in asks.affected then this
      else
        var channel := asks.affected[messageId];
        var v := this.(asks := asks.(affected := asks.affected - {messageId}));
        match inbox.counters.Check(channel, p, count)
        case Apply =>
          var moved := v.(inbox := inbox.AdvanceByReply(channel, p));
          (if channel == 0 then moved.Publish() else moved).DrainPending()
        case Duplicate => v
        case Gap => if channel == 0 then v.RequestDifference() else v.Enqueue(channel)
    }

    function HandleRpcError(e: RpcError, messageId: int): View {
      if asks.stateRequest == messageId then
        this.(asks := asks.(stateRequest := 0))
      else if asks.differenceRequest == messageId then
        var v := this.(asks := asks.(differenceRequest := 0));
        if e.PersistentTimestamp? then v.(inbox := inbox.ClearPending().Clear()).RequestState() else v
      else if messageId in asks.inFlight then
        var channel := asks.inFlight[messageId];
        var v := this.(asks := asks.Release(messageId));
        (if e.ChannelUnreachable? then
           v.(inbox := inbox.ForgetChannel(channel).DropPending(channel), asks := v.asks.ForgetHash(channel))
         else v).Pump()
      else this
    }
  }

  datatype Event =
    | Pushed(updates: Container, messageId: int)
    | StateReply(state: Option<StateValues>, messageId: int)
    | DifferenceReply(difference: Difference, messageId: int)
    | ChannelDifferenceReply(channelDifference: ChannelDifference, messageId: int)
    | AffectedReply(pts: int32, ptsCount: int32, messageId: int)
    | RpcFailure(error: RpcError, messageId: int)
    | AffectedExpected(messageId: int, channel: int)
    | SessionAuthorized
    | SessionInitialized(isAuthorized: bool)
    | SessionDisconnected
    | Renamed(oldMsg: int)
    | OtherSend
    | TimerFired(ours: bool)

  /** The transport never announces the rename of id 0 (libkg/tgtransport.cpp:1509). */
  function Step(v: View, e: Event): View {
    match e
    case Pushed(u, id) => v.ProcessUpdates(u, id)
    case StateReply(s, id) => v.HandleState(s, id)
    case DifferenceReply(d, id) => v.HandleDifference(d, id)
    case ChannelDifferenceReply(d, id) => v.HandleChannelDifference(d, id)
    case AffectedReply(p, n, id) => v.HandleAffected(p, n, id)
    case RpcFailure(err, id) => v.HandleRpcError(err, id)
    case AffectedExpected(id, c) => v.(asks := v.asks.ExpectAffected(id, c))
    case SessionAuthorized => v.Authorized()
    case SessionInitialized(a) => v.Initialized(a)
    case SessionDisconnected => v.Disconnected()
    case Renamed(oldMsg) =>
      var drawn := v.(asks := v.asks.Draw());
      if oldMsg == 0 then drawn else drawn.MessageChanged(oldMsg, v.asks.ids(v.asks.issued))
    case OtherSend => v.(asks := v.asks.Draw())
    case TimerFired(ours) => v.TimerEvent(ours)
  }

  function Steps(v: View, es: seq<Event>): View
    decreases |es|
  {
    if es == [] then v else Steps(Step(v, es[0]), es[1..])
  }

  function Started(c: Counters, ids: nat -> int): View {
    View(Restored(c), Asks(ids, 0, [], 0, 0, map[], [], map[], map[]), [])
  }
}

/** Which replies are answers: correlation of replies with requests across whole runs. */
module UpdateReplies {
  import opened Integers
  import opened UpdateTypes
  import opened Options
  import opened SequenceCounters
  import opened UpdateInbox
  import opened UpdateAsks
  import opened UpdatePipeline
  import opened UpdateSafety

  predicate IsReply(e: Event) {
    e.StateReply? || e.DifferenceReply? || e.ChannelDifferenceReply? || e.RpcFailure?
  }

  /** `e` names a request that is outstanding, of the kind it replies to. No request has id 0. */
  predicate Answers(v: View, e: Event)
    requires IsReply(e)
  {
    e.messageId != 0 && Taken(v, e)
  }

  /** The handler takes `e` for an answer. */
  predicate Taken(v: View, e: Event)
    requires IsReply(e)
  {
    var id := e.messageId;
    match e
    case StateReply(_, _) => id != 0 && id == v.asks.stateRequest
    case DifferenceReply(_, _) => id != 0 && id == v.asks.differenceRequest
    case ChannelDifferenceReply(_, _) => id in v.asks.inFlight
    case RpcFailure(_, _) => id == v.asks.stateRequest || id == v.asks.differenceRequest || id in v.asks.inFlight
  }

  /** `id` is not outstanding and will not be drawn again: a consumed id, an id renamed away, or
      one from an earlier run. */
  ghost predicate Spent(a: Asks, id: int) {
    !Live(a, id) && (forall i: nat :: i >= a.issued ==> a.ids(i) != id)
  }

  /** Whatever is outstanding in `b` was outstanding in `a` or has been drawn since. */
  ghost predicate OnlyDrawn(a: Asks, b: Asks) {
    && a.ids == b.ids && a.issued <= b.issued
    && (forall id :: Live(b, id) ==> Live(a, id) || Drawn(a, b, id))
  }

  ghost predicate Drawn(a: Asks, b: Asks, id: int) {
    exists i: nat :: a.issued <= i < b.issued && a.ids(i) == id
  }

  lemma SpentStaysSpent(a: Asks, b: Asks, id: int)
    requires Spent(a, id) && OnlyDrawn(a, b)
    ensures Spent(b, id)
  {
  }

  lemma OnlyDrawnTrans(a: Asks, b: Asks, c: Asks)
    requires OnlyDrawn(a, b) && OnlyDrawn(b, c)
    ensures OnlyDrawn(a, c)
  {
    forall id | Live(c, id) ensures Live(a, id) || Drawn(a, c, id) {
      if Drawn(b, c, id) {
        var i: nat :| b.issued <= i < c.issued && b.ids(i) == id;
        assert a.ids(i) == id;
      } else if Drawn(a, b, id) {
        var i: nat :| a.issued <= i < b.issued && a.ids(i) == id;
        assert a.ids(i) == id;
      }
    }
  }

  lemma DrawnNow(a: Asks, b: Asks)
    requires a.ids == b.ids && a.issued < b.issued
    ensures Drawn(a, b, a.ids(a.issued))
  {
  }

  lemma RequestsDraw(a: Asks, c: Counters)
    ensures OnlyDrawn(a, a.RequestState()) && OnlyDrawn(a, a.RequestDifference(c))
  {
    if a.stateRequest == 0 { DrawnNow(a, a.RequestState()); }
    if c.valid && a.differenceRequest == 0 { DrawnNow(a, a.RequestDifference(c)); }
  }

  lemma {:induction false} PumpDraws(a: Asks, c: Counters)
    ensures OnlyDrawn(a, a.Pump(c))
    decreases |a.queue|
  {
    if a.queue != [] && |a.inFlight| < MAX_CHANNEL_POLLS {
      var b := a.(queue := a.queue[1..]).RequestChannelDifference(c, a.queue[0]);
      if a.queue[0] in a.accessHash { DrawnNow(a, b); }
      PumpDraws(b, c);
      OnlyDrawnTrans(a, b, a.Pump(c));
    }
  }

  lemma EnqueueDraws(a: Asks, c: Counters, channel: int)
    ensures OnlyDrawn(a, a.Enqueue(c, channel))
  {
    PumpDraws(a.(queue := a.queue + [channel]), c);
  }

  lemma ParkDraws(v: View, i: Item)
    ensures OnlyDrawn(v.asks, v.Park(i).asks)
  {
    RequestsDraw(v.asks, v.inbox.counters);
  }

  lemma ApplyItemDraws(v: View, i: Item)
    ensures OnlyDrawn(v.asks, v.ApplyItem(i).asks)
  {
    var parked := v.(inbox := v.inbox.Receive(i)).Park(i);
    ParkDraws(v.(inbox := v.inbox.Receive(i)), i);
    RequestsDraw(parked.asks, parked.inbox.counters);
    EnqueueDraws(parked.asks, parked.inbox.counters, i.channelId);
    OnlyDrawnTrans(v.asks, parked.asks, parked.RequestState().asks);
    OnlyDrawnTrans(v.asks, parked.asks, parked.RequestDifference().asks);
    OnlyDrawnTrans(v.asks, parked.asks, parked.Enqueue(i.channelId).asks);
  }

  lemma ApplyOneDraws(v: View, u: Update, users: seq<int>, chats: seq<Chat>, date: int32, messageId: int,
                      shortForm: bool)
    ensures OnlyDrawn(v.asks, v.ApplyOne(u, users, chats, date, messageId, shortForm).asks)
  {
    if u.tooLong {
      EnqueueDraws(v.asks, v.inbox.counters, ChannelIdOf(u));
    } else if u.pts.Some? {
      ApplyItemDraws(v, MakeItem(u, users, chats, date, messageId, shortForm));
    }
  }

  lemma {:induction false} ApplyAllDraws(v: View, list: seq<Update>, users: seq<int>, chats: seq<Chat>,
                                         date: int32, messageId: int)
    ensures OnlyDrawn(v.asks, v.ApplyAll(list, users, chats, date, messageId).asks)
    decreases |list|
  {
    if list != [] {
      var w := v.ApplyOne(list[0], users, chats, date, messageId, false);
      ApplyOneDraws(v, list[0], users, chats, date, messageId, false);
      ApplyAllDraws(w, list[1..], users, chats, date, messageId);
      OnlyDrawnTrans(v.asks, w.asks, v.ApplyAll(list, users, chats, date, messageId).asks);
    }
  }

  lemma ProcessUpdatesDraws(v: View, u: Container, messageId: int)
    ensures OnlyDrawn(v.asks, v.ProcessUpdates(u, messageId).asks)
  {
    var r := v.(asks := v.asks.RememberChats(u.chats));
    var w := v.ProcessUpdates(u, messageId);
    var c := v.inbox.counters;
    assert OnlyDrawn(r.asks, w.asks) by {
      match u.kind
      case TooLong => RequestsDraw(r.asks, c);
      case Short => ApplyOneDraws(r.SetCounters(c.SetDate(u.date)), u.body, [], [], u.date, messageId, false);
      case ShortForm => ApplyOneDraws(r, u.body, [], [], u.date, messageId, true);
      case UnknownContainer =>
      case Batch =>
        RequestsDraw(r.asks, c);
        ApplyAllDraws(r.SetCounters(c.AdvanceSeq(u.seqEnd, u.date)), u.list, u.users, u.chats, u.date, messageId);
        ApplyAllDraws(r.SetCounters(c.SetDate(u.date)), u.list, u.users, u.chats, u.date, messageId);
    }
    OnlyDrawnTrans(v.asks, r.asks, w.asks);
  }

  lemma BodyAsks(v: View, messages: seq<Message>, others: seq<Update>, users: seq<int>, chats: seq<Chat>)
    ensures v.ApplyDifferenceBody(messages, others, users, chats).asks == v.asks.RememberChats(chats)
  {
    var r := v.(asks := v.asks.RememberChats(chats));
    var date := v.inbox.counters.date;
    MessagesOnlyTell(r, messages, users, chats, date);
    OthersOnlyInbox(r.TellMessages(messages, users, chats, date), others, users, chats, date);
  }

  lemma {:induction false} OthersOnlyInbox(v: View, updates: seq<Update>, users: seq<int>, chats: seq<Chat>,
                                           date: int32)
    ensures v.TellOthers(updates, users, chats, date).asks == v.asks
    decreases |updates|
  {
    if updates != [] { OthersOnlyInbox(v.TellOther(updates[0], users, chats, date), updates[1..], users, chats, date); }
  }

  /** Giving up ids draws none. */
  lemma ReleasedDraws(a: Asks, b: Asks)
    requires a.ids == b.ids && a.issued == b.issued
    requires b.stateRequest == 0 || b.stateRequest == a.stateRequest
    requires b.differenceRequest == 0 || b.differenceRequest == a.differenceRequest
    requires forall k :: k in b.inFlight ==> k in a.inFlight
    ensures OnlyDrawn(a, b)
  {
  }

  /** The asking half with only the answered id given up. */
  function Surrendered(v: View, e: Event): Asks
    requires IsReply(e)
  {
    match e
    case StateReply(_, id) => v.asks.(stateRequest := 0)
    case DifferenceReply(_, id) => v.asks.(differenceRequest := 0)
    case ChannelDifferenceReply(_, id) => v.asks.Release(id)
    case RpcFailure(_, id) =>
      if id == v.asks.stateRequest then v.asks.(stateRequest := 0)
      else if id == v.asks.differenceRequest then v.asks.(differenceRequest := 0)
      else v.asks.Release(id)
  }

  lemma DifferenceAnswerDraws(v: View, d: Difference, id: int)
    requires id != 0 && id == v.asks.differenceRequest
    ensures OnlyDrawn(v.asks.(differenceRequest := 0), v.HandleDifference(d, id).asks)
  {
    var a := v.asks.(differenceRequest := 0);
    var r := v.(asks := a);
    RequestsDraw(a, r.inbox.counters);
    ReleasedDraws(a, r.JumpTo(d.pts).asks);
    ReleasedDraws(a, a);
    BodyAsks(r, d.newMessages, d.otherUpdates, d.users, d.chats);
    var adopted := r.AdoptDifference(d);
    ReleasedDraws(a, adopted.asks);
    RequestsDraw(adopted.asks, adopted.inbox.counters);
    OnlyDrawnTrans(a, adopted.asks, adopted.RequestDifference().asks);
  }

  lemma ChannelAnswerDraws(v: View, d: ChannelDifference, id: int)
    requires id in v.asks.inFlight
    ensures OnlyDrawn(v.asks.Release(id), v.HandleChannelDifference(d, id).asks)
  {
    var a := v.asks.Release(id);
    var w := v.HandleChannelDifference(d, id);
    BodyAsks(v.(asks := a), d.newMessages, d.otherUpdates, d.users, d.chats);
    var before: Asks :=
      if d.kind == ChannelFull then
        (if d.final then a.RememberChats(d.chats) else a.RememberChats(d.chats).Requeue(v.asks.inFlight[id]))
      else if d.kind == ChannelTooLong then a.RememberChats(d.chats)
      else a;
    ReleasedDraws(a, before);
    PumpDraws(before, w.inbox.counters);
    OnlyDrawnTrans(a, before, w.asks);
  }

  lemma ErrorAnswerDraws(v: View, err: RpcError, id: int)
    requires Taken(v, RpcFailure(err, id))
    ensures OnlyDrawn(Surrendered(v, RpcFailure(err, id)), v.HandleRpcError(err, id).asks)
  {
    var a := Surrendered(v, RpcFailure(err, id));
    var w := v.HandleRpcError(err, id);
    ReleasedDraws(a, a);
    RequestsDraw(a, v.inbox.counters);
    if id in v.asks.inFlight {
      var b := if err.ChannelUnreachable? then a.ForgetHash(v.asks.inFlight[id]) else a;
      ReleasedDraws(a, b);
      PumpDraws(b, w.inbox.counters);
      OnlyDrawnTrans(a, b, b.Pump(w.inbox.counters));
    }
  }

  /** Past giving up its own id, handling an answer only draws. */
  lemma AnswerDraws(v: View, e: Event)
    requires IsReply(e) && Taken(v, e)
    ensures OnlyDrawn(Surrendered(v, e), Step(v, e).asks)
  {
    match e
    case StateReply(s, id) => ReleasedDraws(Surrendered(v, e), Step(v, e).asks);
    case DifferenceReply(d, id) => DifferenceAnswerDraws(v, d, id);
    case ChannelDifferenceReply(d, id) => ChannelAnswerDraws(v, d, id);
    case RpcFailure(err, id) => ErrorAnswerDraws(v, err, id);
  }

  lemma ReplyDraws(v: View, e: Event)
    requires IsReply(e)
    ensures OnlyDrawn(v.asks, Step(v, e).asks)
  {
    if Taken(v, e) {
      AnswerDraws(v, e);
      ReleasedDraws(v.asks, Surrendered(v, e));
      OnlyDrawnTrans(v.asks, Surrendered(v, e), Step(v, e).asks);
    } else {
      UntakenIgnored(v, e);
    }
  }

  lemma UntakenIgnored(v: View, e: Event)
    requires IsReply(e) && !Taken(v, e)
    ensures Step(v, e) == v
  {
  }

  lemma HandleAffectedDraws(v: View, p: int32, count: int32, messageId: int)
    ensures OnlyDrawn(v.asks, v.HandleAffected(p, count, messageId).asks)
  {
    var a := v.asks.(affected := v.asks.affected - {messageId});
    ReleasedDraws(v.asks, v.asks);
    ReleasedDraws(v.asks, a);
    if messageId in v.asks.affected {
      RequestsDraw(a, v.inbox.counters);
      EnqueueDraws(a, v.inbox.counters, v.asks.affected[messageId]);
      OnlyDrawnTrans(v.asks, a, a.RequestDifference(v.inbox.counters));
      OnlyDrawnTrans(v.asks, a, a.Enqueue(v.inbox.counters, v.asks.affected[messageId]));
    }
  }

  /** No event makes an id outstanding that is not newly drawn. */
  lemma StepDraws(v: View, e: Event)
    ensures OnlyDrawn(v.asks, Step(v, e).asks)
  {
    if IsReply(e) {
      ReplyDraws(v, e);
      return;
    }
    match e
    case Pushed(u, id) => ProcessUpdatesDraws(v, u, id);
    case AffectedReply(p, n, id) => HandleAffectedDraws(v, p, n, id);
    case AffectedExpected(id, c) => ReleasedDraws(v.asks, Step(v, e).asks);
    case SessionAuthorized => RequestsDraw(v.asks, v.inbox.counters);
    case SessionInitialized(a) => RequestsDraw(v.asks, v.inbox.counters);
    case SessionDisconnected => ReleasedDraws(v.asks, Step(v, e).asks);
    case Renamed(oldMsg) => DrawnNow(v.asks, Step(v, e).asks);
    case OtherSend =>
    case TimerFired(ours) => RequestsDraw(v.asks, v.inbox.Tick().ExpirePending().counters);
  }

  lemma {:induction false} SpentForever(v: View, es: seq<Event>, id: int)
    requires Spent(v.asks, id)
    ensures Spent(Steps(v, es).asks, id)
    decreases |es|
  {
    if es != [] {
      StepDraws(v, es[0]);
      SpentStaysSpent(v.asks, Step(v, es[0]).asks, id);
      SpentForever(Step(v, es[0]), es[1..], id);
    }
  }

  /** No poll is ever in flight under id 0. */
  lemma NoPollAtZero(v: View)
    requires Ok(v)
    ensures 0 !in v.asks.inFlight
  {
    assert 0 in v.asks.inFlight ==> Live(v.asks, 0);
  }

  /** In every reachable state a reply that does not answer an outstanding request changes nothing
      at all, unless it is an error under id 0. */
  lemma UnansweringReplyIgnored(v: View, e: Event)
    requires Ok(v) && IsReply(e) && !Answers(v, e) && (e.RpcFailure? ==> e.messageId != 0)
    ensures Step(v, e) == v
  {
    NoPollAtZero(v);
    UntakenIgnored(v, e);
  }

  /** The error handler takes a request id of 0, which stands for no request, for a request that
      was made. A PERSISTENT_TIMESTAMP error under id 0 then wipes the counters, exactly when the
      state is being asked for, the difference is not, and there is something to wipe; any other
      error under id 0 changes nothing. */
  lemma ZeroIdErrorWipesIff(v: View, err: RpcError)
    requires Ok(v)
    ensures var mistaken := v.asks.stateRequest != 0 && v.asks.differenceRequest == 0 && err.PersistentTimestamp?;
            var w := Step(v, RpcFailure(err, 0));
            && (!mistaken ==> w == v)
            && (mistaken ==> w.inbox.counters == CLEARED && w.inbox.pending == [])
            && (w.inbox.counters != v.inbox.counters <==> mistaken && v.inbox.counters != CLEARED)
  {
    NoPollAtZero(v);
  }

  /** One run that comes to it: after a difference that could not be read the state is asked for
      again, and an error that names no request undoes all the client knew. */
  lemma ZeroIdErrorHappens(c: Counters, ids: nat -> int, d: Difference)
    requires Fresh(ids) && c.valid && c.pts != 0 && d.kind == DifferenceUnreadable
    ensures var v := Steps(Started(c, ids), [SessionAuthorized, DifferenceReply(d, ids(0))]);
            && !Answers(v, RpcFailure(PersistentTimestamp, 0))
            && v.inbox.counters == c
            && Step(v, RpcFailure(PersistentTimestamp, 0)).inbox.counters == CLEARED != c
  {
    var es := [SessionAuthorized, DifferenceReply(d, ids(0))];
    var v := Step(Step(Started(c, ids), es[0]), es[1]);
    assert es[1..] == [es[1]] && es[1..][1..] == [];
    assert Steps(Started(c, ids), es) == Steps(Step(Started(c, ids), es[0]), es[1..]) == v;
    StartedOk(c, ids);
    StepsKeepOk(Started(c, ids), es);
    assert ids(0) != 0 && ids(1) != 0;
    ZeroIdErrorWipesIff(v, PersistentTimestamp);
  }

  lemma AnswerSpendsId(v: View, e: Event)
    requires Ok(v) && IsReply(e) && Answers(v, e)
    ensures Spent(Step(v, e).asks, e.messageId)
  {
    var id := e.messageId;
    assert Live(v.asks, id) && Issued(v.asks, id);
    var k: nat :| k < v.asks.issued && v.asks.ids(k) == id;
    var a := Surrendered(v, e);
    assert Spent(a, id) by {
      forall i: nat | i >= a.issued ensures a.ids(i) != id { assert i != k; }
    }
    AnswerDraws(v, e);
    SpentStaysSpent(a, Step(v, e).asks, id);
  }

  /** Each request is consumed at most once: after a reply or error has answered under an id,
      no later reply or error under that id does anything, over any run whatever -- renames,
      re-deliveries, disconnects and new requests included. */
  lemma RequestConsumedOnce(v: View, answer: Event, es: seq<Event>, again: Event)
    requires Ok(v) && IsReply(answer) && Answers(v, answer)
    requires IsReply(again) && again.messageId == answer.messageId
    ensures var later := Steps(Step(v, answer), es); Step(later, again) == later
  {
    AnswerSpendsId(v, answer);
    SpentForever(Step(v, answer), es, answer.messageId);
    UntakenIgnored(Steps(Step(v, answer), es), again);
  }

  /** A reply to a request of an earlier run never does anything: its id is not outstanding and
      the client will not draw it. */
  lemma EarlierRunIgnored(c: Counters, ids: nat -> int, es: seq<Event>, late: Event)
    requires Fresh(ids) && IsReply(late) && late.messageId != 0 && forall i: nat :: ids(i) != late.messageId
    ensures var v := Steps(Started(c, ids), es); Step(v, late) == v
  {
    SpentForever(Started(c, ids), es, late.messageId);
    UntakenIgnored(Steps(Started(c, ids), es), late);
  }

  function UnderId(e: Event, id: int): Event
    requires IsReply(e)
  {
    match e
    case StateReply(s, _) => StateReply(s, id)
    case DifferenceReply(d, _) => DifferenceReply(d, id)
    case ChannelDifferenceReply(d, _) => ChannelDifferenceReply(d, id)
    case RpcFailure(err, _) => RpcFailure(err, id)
  }

  /** A rename moves the right to answer: what answered under the old id answers under the new
      one and only there, for the whole of the rest of the run under the old id. */
  lemma RenameMovesAnswer(v: View, e: Event, es: seq<Event>)
    requires Ok(v) && IsReply(e) && Answers(v, e)
    ensures var w := Step(v, Renamed(e.messageId));
            && Answers(w, UnderId(e, v.asks.ids(v.asks.issued)))
            && Step(Steps(w, es), e) == Steps(w, es)
  {
    var id := e.messageId;
    var w := Step(v, Renamed(id));
    RenameKeepsAsks(v.asks, id);
    assert Live(v.asks, id) && Issued(v.asks, id);
    var k: nat :| k < v.asks.issued && v.asks.ids(k) == id;
    assert Spent(w.asks, id) by {
      forall i: nat | i >= w.asks.issued ensures w.asks.ids(i) != id { assert i != k; }
    }
    SpentForever(w, es, id);
    UntakenIgnored(Steps(w, es), e);
  }

  lemma {:induction false} PumpKeepsAffected(a: Asks, c: Counters)
    ensures a.Pump(c).affected == a.affected
    decreases |a.queue|
  {
    if a.queue != [] && |a.inFlight| < MAX_CHANNEL_POLLS {
      PumpKeepsAffected(a.(queue := a.queue[1..]).RequestChannelDifference(c, a.queue[0]), c);
    }
  }

  /** An expected reply is taken off the table, and any other changes nothing. */
  lemma AffectedReplyTaken(v: View, p: int32, count: int32, id: int)
    ensures id in v.asks.affected ==> id !in v.HandleAffected(p, count, id).asks.affected
    ensures id !in v.asks.affected ==> v.HandleAffected(p, count, id) == v
  {
    hide Asks.Pump, Inbox.DrainPending;
    if id in v.asks.affected {
      var a := v.asks.(affected := v.asks.affected - {id});
      PumpKeepsAffected(a.(queue := a.queue + [v.asks.affected[id]]), v.inbox.counters);
    }
  }

  /** The table of expected affected-messages replies is not renamed: after a rename the reply,
      which arrives under the new id, is lost exactly when that id was not itself expected. */
  lemma AffectedReplyLostByRename(v: View, oldMsg: int, p: int32, count: int32)
    requires oldMsg in v.asks.affected && oldMsg != 0
    ensures var newMsg := v.asks.ids(v.asks.issued); var w := Step(v, Renamed(oldMsg));
            && w.asks.affected == v.asks.affected
            && (Step(w, AffectedReply(p, count, newMsg)) == w <==> newMsg !in v.asks.affected)
  {
    hide View.HandleAffected;
    AffectedReplyTaken(Step(v, Renamed(oldMsg)), p, count, v.asks.ids(v.asks.issued));
  }
}

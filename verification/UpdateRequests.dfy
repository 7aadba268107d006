/** What the client sends: requests that are current when they are made, each under the id it is
    then expected under. */
module UpdateRequests {
  import opened Integers
  import opened Options
  import opened UpdateTypes
  import opened SequenceCounters
  import opened UpdateInbox
  import opened UpdateAsks
  import opened UpdatePipeline
  import opened UpdateSafety
  import opened UpdateArrivals
  import opened UpdateLosses

  /** The request says where the sequences stand, with 1 for a date or qts of 0, and its answer is
      expected under its id. */
  ghost predicate Current(a: Asks, c: Counters, s: Sent) {
    && s.id != 0
    && match s.request
       case GetState => a.stateRequest == s.id
       case GetDifference(p, d, q) =>
         && a.differenceRequest == s.id && c.valid
         && p == c.pts && d == (if c.date == 0 then 1 else c.date) && q == (if c.qts == 0 then 1 else c.qts)
       case GetChannelDifference(channel, hash, p, limit) =>
         && s.id in a.inFlight && a.inFlight[s.id] == channel
         && channel in a.accessHash && a.accessHash[channel] == hash
         && p == (if channel in c.channels then c.channels[channel] else 0) && limit == 100
  }

  ghost predicate Expects(a: Asks, id: int) {
    id == a.stateRequest || id == a.differenceRequest || id in a.inFlight
  }

  ghost predicate SentSince(a: Asks, b: Asks, id: int) {
    exists k :: |a.sent| <= k < |b.sent| && b.sent[k].id == id
  }

  /** From a to b only current requests were sent, and only answers to them are newly expected. */
  ghost predicate Sends(a: Asks, b: Asks, c: Counters) {
    && |a.sent| <= |b.sent| && b.sent[..|a.sent|] == a.sent
    && (forall k :: |a.sent| <= k < |b.sent| ==> Current(b, c, b.sent[k]))
    && (forall id :: Expects(b, id) ==> Expects(a, id) || id == 0 || SentSince(a, b, id))
  }

  /** The same, with nothing given up on the way. */
  ghost predicate Adds(a: Asks, b: Asks, c: Counters) {
    && Sends(a, b, c)
    && b.accessHash == a.accessHash
    && (a.stateRequest != 0 ==> b.stateRequest == a.stateRequest)
    && (a.differenceRequest != 0 ==> b.differenceRequest == a.differenceRequest)
    && (forall id :: id in a.inFlight ==> id in b.inFlight && b.inFlight[id] == a.inFlight[id])
  }

  /** The ids still to be drawn are new. */
  ghost predicate Ready(a: Asks) {
    && Fresh(a.ids)
    && forall n: nat :: n >= a.issued ==> a.ids(n) !in a.inFlight
  }

  lemma OkReady(a: Asks)
    requires AsksOk(a)
    ensures Ready(a)
  {
    forall n: nat | n >= a.issued ensures a.ids(n) !in a.inFlight {
      assert Live(a, a.ids(n)) ==> Issued(a, a.ids(n));
    }
  }

  lemma AddsTwice(a: Asks, b: Asks, d: Asks, c: Counters)
    requires Adds(a, b, c) && Adds(b, d, c)
    ensures Adds(a, d, c)
  {
    assert d.sent[..|a.sent|] == d.sent[..|b.sent|][..|a.sent|];
    forall k | |a.sent| <= k < |d.sent| ensures Current(d, c, d.sent[k]) {
      if k < |b.sent| {
        assert d.sent[k] == d.sent[..|b.sent|][k];
        assert Current(b, c, b.sent[k]);
      }
    }
    forall id | Expects(d, id) && id != 0 ensures Expects(a, id) || SentSince(a, d, id) {
      if !Expects(a, id) && Expects(b, id) {
        var k :| |a.sent| <= k < |b.sent| && b.sent[k].id == id;
        assert d.sent[k] == d.sent[..|b.sent|][k];
      } else if !Expects(a, id) {
        var k :| |b.sent| <= k < |d.sent| && d.sent[k].id == id;
      }
    }
  }

  lemma AddsNothing(a: Asks, b: Asks, c: Counters)
    requires b.sent == a.sent && b.accessHash == a.accessHash && b.inFlight == a.inFlight
    requires b.stateRequest == a.stateRequest && b.differenceRequest == a.differenceRequest
    ensures Adds(a, b, c)
  {
  }

  lemma OneSent(a: Asks, b: Asks, c: Counters, s: Sent)
    requires b.sent == a.sent + [s] && Current(b, c, s) && b.accessHash == a.accessHash
    requires a.stateRequest != 0 ==> b.stateRequest == a.stateRequest
    requires a.differenceRequest != 0 ==> b.differenceRequest == a.differenceRequest
    requires forall id :: id in a.inFlight ==> id in b.inFlight && b.inFlight[id] == a.inFlight[id]
    requires forall id :: Expects(b, id) ==> Expects(a, id) || id == s.id
    ensures Adds(a, b, c)
  {
    assert b.sent[|a.sent|] == s;
  }

  // --- one request --------------------------------------------------------------------------

  lemma StateSends(a: Asks, c: Counters)
    requires Ready(a)
    ensures Adds(a, a.RequestState(), c) && Ready(a.RequestState())
  {
    if a.stateRequest != 0 { AddsNothing(a, a, c); }
    else { OneSent(a, a.RequestState(), c, Sent(a.ids(a.issued), GetState)); }
  }

  lemma DifferenceSends(a: Asks, c: Counters)
    requires Ready(a)
    ensures Adds(a, a.RequestDifference(c), c) && Ready(a.RequestDifference(c))
  {
    StateSends(a, c);
    AddsNothing(a, a, c);
    if c.valid && a.differenceRequest == 0 {
      var b := a.RequestDifference(c);
      OneSent(a, b, c, b.sent[|a.sent|]);
    }
  }

  lemma PollSends(a: Asks, c: Counters, channel: int)
    requires Ready(a)
    ensures Adds(a, a.RequestChannelDifference(c, channel), c) && Ready(a.RequestChannelDifference(c, channel))
  {
    AddsNothing(a, a, c);
    if channel in a.accessHash {
      var b := a.RequestChannelDifference(c, channel);
      assert a.ids(a.issued) !in a.inFlight;
      OneSent(a, b, c, b.sent[|a.sent|]);
    }
  }

  lemma {:induction false} PumpSends(a: Asks, c: Counters)
    requires Ready(a)
    ensures Adds(a, a.Pump(c), c) && Ready(a.Pump(c))
    decreases |a.queue|
  {
    hide Adds, Asks.RequestChannelDifference;
    AddsNothing(a, a, c);
    if a.queue != [] && |a.inFlight| < MAX_CHANNEL_POLLS {
      var p := a.(queue := a.queue[1..]);
      AddsNothing(a, p, c);
      PollSends(p, c, a.queue[0]);
      var b := p.RequestChannelDifference(c, a.queue[0]);
      ShorterQueue(p, c, a.queue[0]);
      AddsTwice(a, p, b, c);
      PumpSends(b, c);
      AddsTwice(a, b, a.Pump(c), c);
    }
  }

  lemma ShorterQueue(a: Asks, c: Counters, channel: int)
    ensures a.RequestChannelDifference(c, channel).queue == a.queue
  {
  }

  lemma EnqueueSends(a: Asks, c: Counters, channel: int)
    requires Ready(a)
    ensures Adds(a, a.Enqueue(c, channel), c) && Ready(a.Enqueue(c, channel))
  {
    hide Adds, Asks.Pump;
    AddsNothing(a, a, c);
    var q := a.Requeue(channel);
    AddsNothing(a, q, c);
    PumpSends(q, c);
    AddsTwice(a, q, q.Pump(c), c);
  }

  // --- one update ---------------------------------------------------------------------------

  lemma HeldSends(v: View, i: Item)
    requires Ready(v.asks) && (v.inbox.counters.valid ==> v.inbox.counters.Verdict(i) == Gap)
    ensures var w := v.ApplyItem(i); w.inbox.counters == v.inbox.counters && Adds(v.asks, w.asks, w.inbox.counters)
  {
    hide Adds, Asks.RequestState, Asks.RequestDifference, Asks.Enqueue, Ready;
    var c := v.inbox.counters;
    var parked := v.(inbox := v.inbox.Receive(i)).Park(i).asks;
    AddsNothing(v.asks, v.asks, c);
    DifferenceSends(v.asks, c);
    assert parked == v.asks || parked == v.asks.RequestDifference(c);
    StateSends(parked, c);
    DifferenceSends(parked, c);
    EnqueueSends(parked, c, i.channelId);
    AddsTwice(v.asks, parked, parked.RequestState(), c);
    AddsTwice(v.asks, parked, parked.RequestDifference(c), c);
    AddsTwice(v.asks, parked, parked.Enqueue(c, i.channelId), c);
  }

  lemma OneUpdateSends(v: View, u: Update, users: seq<int>, chats: seq<Chat>, date: int32, messageId: int,
                       shortForm: bool)
    requires Ready(v.asks)
    ensures var w := v.ApplyOne(u, users, chats, date, messageId, shortForm);
            Adds(v.asks, w.asks, w.inbox.counters)
  {
    hide Adds, Asks.Enqueue;
    AddsNothing(v.asks, v.asks, v.ApplyOne(u, users, chats, date, messageId, shortForm).inbox.counters);
    EnqueueSends(v.asks, v.inbox.counters, ChannelIdOf(u));
    if !u.tooLong && u.pts.Some? {
      var i := MakeItem(u, users, chats, date, messageId, shortForm);
      if v.inbox.counters.valid && v.inbox.counters.Verdict(i) != Gap {
        SettledKeepsAsks(v, i);
      } else {
        HeldSends(v, i);
      }
    }
  }

  /** Of every update of a push: what is sent because of it is current when it has been taken in. */
  lemma PushSends(v: View, u: Container, messageId: int, k: nat)
    requires Ok(v) && k < |TakenUp(v, u)|
    ensures var b := Before(v, u, messageId, k);
            var w := if u.kind == Batch
                     then b.ApplyOne(u.list[k], u.users, u.chats, u.date, messageId, false)
                     else b.ApplyOne(u.body, [], [], u.date, messageId, u.kind == ShortForm);
            Sends(b.asks, w.asks, w.inbox.counters)
  {
    OpenedOk(v, u);
    hide Ok, Opened, Sends, View.ApplyOne, Ready;
    var b := Before(v, u, messageId, k);
    if u.kind == Batch { ApplyAllKeepsOk(Opened(v, u), u.list[..k], u.users, u.chats, u.date, messageId); }
    OkAsks(b);
    OkReady(b.asks);
    if u.kind == Batch {
      OneUpdateSends(b, u.list[k], u.users, u.chats, u.date, messageId, false);
    } else {
      OneUpdateSends(b, u.body, [], [], u.date, messageId, u.kind == ShortForm);
    }
  }

  lemma OkAsks(v: View)
    requires Ok(v)
    ensures AsksOk(v.asks)
  {
  }

  // --- other events -------------------------------------------------------------------------

  /** What an event gives up before it sends. */
  lemma GivenUp(a: Asks, b: Asks, d: Asks, c: Counters)
    requires Adds(b, d, c) && b.sent == a.sent
    requires forall id :: Expects(b, id) ==> Expects(a, id) || id == 0
    ensures Sends(a, d, c)
  {
    forall id | Expects(d, id) && id != 0 ensures Expects(a, id) || SentSince(a, d, id) {
      if !Expects(b, id) {
        var k :| |b.sent| <= k < |d.sent| && d.sent[k].id == id;
      }
    }
  }

  lemma ReadyWithout(a: Asks, b: Asks)
    requires Ready(a) && b.ids == a.ids && b.issued == a.issued && b.inFlight.Keys <= a.inFlight.Keys
    ensures Ready(b)
  {
    forall n: nat | n >= b.issued ensures b.ids(n) !in b.inFlight { assert a.ids(n) !in a.inFlight; }
  }

  lemma BodyAsks(v: View, messages: seq<Message>, others: seq<Update>, users: seq<int>, chats: seq<Chat>)
    ensures v.ApplyDifferenceBody(messages, others, users, chats).asks == v.asks.RememberChats(chats)
  {
    var r := v.(asks := v.asks.RememberChats(chats));
    MessagesOnlyTell(r, messages, users, chats, v.inbox.counters.date);
    OthersAsk(r.TellMessages(messages, users, chats, v.inbox.counters.date), others, users, chats,
              v.inbox.counters.date);
  }

  lemma {:induction false} OthersAsk(v: View, others: seq<Update>, users: seq<int>, chats: seq<Chat>, date: int32)
    ensures v.TellOthers(others, users, chats, date).asks == v.asks
    decreases |others|
  {
    if others != [] { OthersAsk(v.TellOther(others[0], users, chats, date), others[1..], users, chats, date); }
  }

  lemma DifferenceReplySends(v: View, d: Difference, id: int)
    requires Ready(v.asks)
    ensures var w := v.HandleDifference(d, id); Sends(v.asks, w.asks, w.inbox.counters)
  {
    hide Sends, Adds, Asks.RequestState, Asks.RequestDifference, View.DrainPending, View.ApplyDifferenceBody, Ready;
    var w := v.HandleDifference(d, id);
    var c := w.inbox.counters;
    var a := v.asks.(differenceRequest := 0);
    if v.asks.differenceRequest == 0 || v.asks.differenceRequest != id {
      AddsNothing(v.asks, v.asks, c);
      GivenUp(v.asks, v.asks, v.asks, c);
    } else {
      BodyAsks(v.(asks := a), d.newMessages, d.otherUpdates, d.users, d.chats);
      var known := a.RememberChats(d.chats);
      DrainKeepsAsks(v);
      ReadyWithout(v.asks, a);
      ReadyWithout(v.asks, known);
      StateSends(a, c);
      DifferenceSends(known, c);
      AddsNothing(a, a, c);
      AddsNothing(a, a.(queue := []), c);
      AddsNothing(known, known, c);
      match d.kind
      case DifferenceUnreadable => GivenUp(v.asks, a, w.asks, c);
      case DifferenceFull => GivenUp(v.asks, known, w.asks, c);
      case DifferenceSlice => GivenUp(v.asks, known, w.asks, c);
      case _ => GivenUp(v.asks, a, w.asks, c);
    }
  }

  lemma ChannelReplySends(v: View, d: ChannelDifference, id: int)
    requires Ready(v.asks)
    ensures var w := v.HandleChannelDifference(d, id); Sends(v.asks, w.asks, w.inbox.counters)
  {
    hide Sends, Adds, Asks.Pump, View.DrainPending, View.ApplyDifferenceBody, Ready;
    var w := v.HandleChannelDifference(d, id);
    var c := w.inbox.counters;
    if id !in v.asks.inFlight {
      AddsNothing(v.asks, v.asks, c);
      GivenUp(v.asks, v.asks, v.asks, c);
    } else {
      var a := v.asks.Release(id);
      BodyAsks(v.(asks := a), d.newMessages, d.otherUpdates, d.users, d.chats);
      var known := a.RememberChats(d.chats);
      var again := known.Requeue(v.asks.inFlight[id]);
      ReadyWithout(v.asks, a);
      ReadyWithout(v.asks, known);
      ReadyWithout(v.asks, again);
      DrainKeepsAsks(v);
      match d.kind
      case ChannelFull =>
        var from := if d.final then known else again;
        PumpSends(from, c);
        GivenUp(v.asks, from, w.asks, c);
      case ChannelTooLong =>
        PumpSends(known, c);
        GivenUp(v.asks, known, w.asks, c);
      case _ =>
        PumpSends(a, c);
        GivenUp(v.asks, a, w.asks, c);
    }
  }

  lemma DrainKeepsAsks(v: View)
    ensures forall u: View :: u.DrainPending().asks == u.asks
  {
  }

  lemma ErrorSends(v: View, e: RpcError, id: int)
    requires Ready(v.asks)
    ensures var w := v.HandleRpcError(e, id); Sends(v.asks, w.asks, w.inbox.counters)
  {
    hide Sends, Adds, Asks.Pump, Asks.RequestState, Ready;
    var w := v.HandleRpcError(e, id);
    var c := w.inbox.counters;
    var noState, noDifference := v.asks.(stateRequest := 0), v.asks.(differenceRequest := 0);
    var freed := v.asks.Release(id);
    var lost := freed.ForgetHash(if id in v.asks.inFlight then v.asks.inFlight[id] else 0);
    AddsNothing(v.asks, v.asks, c);
    AddsNothing(noState, noState, c);
    AddsNothing(noDifference, noDifference, c);
    ReadyWithout(v.asks, noDifference);
    ReadyWithout(v.asks, freed);
    ReadyWithout(v.asks, lost);
    StateSends(noDifference, c);
    if v.asks.stateRequest == id {
      GivenUp(v.asks, noState, w.asks, c);
    } else if v.asks.differenceRequest == id {
      GivenUp(v.asks, noDifference, w.asks, c);
    } else if id in v.asks.inFlight {
      var from := if e.ChannelUnreachable? then lost else freed;
      PumpSends(from, c);
      GivenUp(v.asks, from, w.asks, c);
    } else {
      GivenUp(v.asks, v.asks, w.asks, c);
    }
  }

  lemma AffectedSends(v: View, p: int32, n: int32, id: int)
    requires Ready(v.asks)
    ensures var w := v.HandleAffected(p, n, id); Sends(v.asks, w.asks, w.inbox.counters)
  {
    hide Sends, Adds, Asks.RequestDifference, Asks.Enqueue, Ready, View.DrainPending, Counters.Check;
    var w := v.HandleAffected(p, n, id);
    var c := w.inbox.counters;
    var a := v.asks.(affected := v.asks.affected - {id});
    DrainKeepsAsks(v);
    ReadyWithout(v.asks, a);
    AddsNothing(v.asks, v.asks, c);
    AddsNothing(a, a, c);
    DifferenceSends(a, c);
    if id in v.asks.affected {
      EnqueueSends(a, c, v.asks.affected[id]);
      GivenUp(v.asks, a, w.asks, c);
    } else {
      GivenUp(v.asks, v.asks, w.asks, c);
    }
  }

  lemma OtherSends(v: View, e: Event)
    requires Ready(v.asks)
    requires e.StateReply? || e.AffectedExpected? || e.SessionAuthorized? || e.SessionInitialized?
             || e.SessionDisconnected? || e.OtherSend? || e.TimerFired?
    ensures var w := Step(v, e); Sends(v.asks, w.asks, w.inbox.counters)
  {
    hide Sends, Adds, Asks.RequestDifference, Asks.RequestState, Ready, View.DrainPending;
    var w := Step(v, e);
    var c := w.inbox.counters;
    var noState := v.asks.(stateRequest := 0);
    DrainKeepsAsks(v);
    AddsNothing(v.asks, v.asks, c);
    AddsNothing(noState, noState, c);
    DifferenceSends(v.asks, c);
    StateSends(v.asks, c);
    match e
    case StateReply(s, id) => GivenUp(v.asks, if Answers(v, id) then noState else v.asks, w.asks, c);
    case SessionDisconnected =>
      AddsNothing(w.asks, w.asks, c);
      GivenUp(v.asks, w.asks, w.asks, c);
    case AffectedExpected(_, _) =>
      AddsNothing(v.asks, w.asks, c);
      GivenUp(v.asks, v.asks, w.asks, c);
    case OtherSend =>
      AddsNothing(v.asks, w.asks, c);
      GivenUp(v.asks, v.asks, w.asks, c);
    case _ => GivenUp(v.asks, v.asks, w.asks, c);
  }

  predicate Answers(v: View, id: int) {
    v.asks.stateRequest != 0 && v.asks.stateRequest == id
  }

  /** Of every other event but a rename, which only moves what is expected: what it sends is
      current in the state it leaves. */
  lemma StepSends(v: View, e: Event)
    requires Ok(v) && !e.Pushed? && !e.Renamed?
    ensures var w := Step(v, e); Sends(v.asks, w.asks, w.inbox.counters)
  {
    OkAsks(v);
    OkReady(v.asks);
    hide Ready, Sends, Step;
    match e
    case DifferenceReply(d, id) => DifferenceReplySends(v, d, id); StepIs(v, e);
    case ChannelDifferenceReply(d, id) => ChannelReplySends(v, d, id); StepIs(v, e);
    case AffectedReply(p, n, id) => AffectedSends(v, p, n, id); StepIs(v, e);
    case RpcFailure(err, id) => ErrorSends(v, err, id); StepIs(v, e);
    case _ => OtherSends(v, e);
  }

  lemma StepIs(v: View, e: Event)
    ensures match e
            case DifferenceReply(d, id) => Step(v, e) == v.HandleDifference(d, id)
            case ChannelDifferenceReply(d, id) => Step(v, e) == v.HandleChannelDifference(d, id)
            case AffectedReply(p, n, id) => Step(v, e) == v.HandleAffected(p, n, id)
            case RpcFailure(err, id) => Step(v, e) == v.HandleRpcError(err, id)
            case _ => true
  {
  }
}

/** What replies and pushes make of the counters that no update carries, and where a reply puts a
    sequence. */
module UpdateAssignments {
  import opened Integers
  import opened Options
  import opened UpdateTypes
  import opened SequenceCounters
  import opened Draining
  import opened UpdateInbox
  import opened UpdateAsks
  import opened UpdatePipeline
  import opened UpdateSafety
  import opened UpdateArrivals
  import opened UpdateLosses
  import opened UpdateTellings
  import opened UpdateRequests

  // --- frames -------------------------------------------------------------------------------

  /** The counters that no sequence moves. */
  predicate SameRest(a: Counters, b: Counters) {
    b.qts == a.qts && b.date == a.date && b.seqNo == a.seqNo && b.valid == a.valid
  }

  lemma {:induction false} ScanKeepsRest(c: Counters, ps: seq<Parked>)
    ensures SameRest(c, Scan(c, ps).counters)
    decreases |ps|
  {
    if ps != [] {
      var i := ps[0].item;
      ScanKeepsRest(if c.Verdict(i) == Apply then c.Advance(i.channelId, i.pts) else c, ps[1..]);
    }
  }

  lemma {:induction false} DrainKeepsRest(c: Counters, ps: seq<Parked>)
    ensures SameRest(c, Drain(c, ps).counters)
    decreases |ps|
  {
    hide Scan;
    var r := Scan(c, ps);
    ScanShrinks(c, ps);
    ScanKeepsRest(c, ps);
    if |r.left| != |ps| { DrainKeepsRest(r.counters, r.left); }
  }

  /** Where a drain may lead: marks and the rest stay, no sequence goes back. */
  ghost predicate Onward(a: Inbox, b: Inbox) {
    && b.marks == a.marks && SameRest(a.counters, b.counters)
    && forall c :: b.counters.Local(c) >= a.counters.Local(c)
  }

  lemma DrainOnward(v: View)
    ensures Onward(v.inbox, v.DrainPending().inbox)
  {
    DrainKeepsRest(v.inbox.counters, v.inbox.pending);
    DrainSettles(v.inbox.counters, v.inbox.pending);
  }

  // --- replies ------------------------------------------------------------------------------

  /** What the other updates of a difference do on the way: every channel among them is at least
      where its update says. */
  lemma {:induction false} OthersAdvance(v: View, others: seq<Update>, users: seq<int>, chats: seq<Chat>, date: int32)
    ensures var w := v.TellOthers(others, users, chats, date);
            && SameRest(v.inbox.counters, w.inbox.counters) && w.inbox.counters.pts == v.inbox.counters.pts
            && w.inbox.ledger == v.inbox.ledger
            && (forall c :: w.inbox.counters.Local(c) >= v.inbox.counters.Local(c))
            && forall k :: 0 <= k < |others| && others[k].pts.Some? && ChannelIdOf(others[k]) != 0 ==>
                 w.inbox.counters.Local(ChannelIdOf(others[k])) >= others[k].pts.value
    decreases |others|
  {
    if others != [] {
      var one := v.TellOther(others[0], users, chats, date);
      OthersAdvance(one, others[1..], users, chats, date);
      var w := v.TellOthers(others, users, chats, date);
      forall k | 0 <= k < |others| && others[k].pts.Some? && ChannelIdOf(others[k]) != 0
        ensures w.inbox.counters.Local(ChannelIdOf(others[k])) >= others[k].pts.value {
        if k > 0 { assert others[k] == others[1..][k - 1]; }
      }
    }
  }

  ghost predicate OthersReached(c: Counters, others: seq<Update>) {
    forall k :: 0 <= k < |others| && others[k].pts.Some? && ChannelIdOf(others[k]) != 0 ==>
      c.Local(ChannelIdOf(others[k])) >= others[k].pts.value
  }

  lemma BodyAdvances(v: View, messages: seq<Message>, others: seq<Update>, users: seq<int>, chats: seq<Chat>)
    ensures var w := v.ApplyDifferenceBody(messages, others, users, chats);
            && SameRest(v.inbox.counters, w.inbox.counters) && w.inbox.ledger == v.inbox.ledger
            && OthersReached(w.inbox.counters, others)
  {
    var r := v.(asks := v.asks.RememberChats(chats));
    var date := v.inbox.counters.date;
    MessagesTell(r, messages, users, chats, date);
    OthersAdvance(r.TellMessages(messages, users, chats, date), others, users, chats, date);
  }

  /** The common sequence stands where the reply put it, and drained updates alone took it on. */
  ghost predicate PutAt(v: View, w: View, s: StateValues) {
    && w.inbox.counters.valid && w.inbox.counters.qts == s.qts && w.inbox.counters.date == s.date
    && w.inbox.counters.seqNo == s.seqNo && w.inbox.counters.pts >= s.pts
    && MarkOf(w.inbox.marks, 0) == Mark(s.pts, |v.inbox.ledger.emitted|)
  }

  /** An answered state request. */
  lemma StateAssigns(v: View, s: StateValues, id: int)
    requires id != 0 && id == v.asks.stateRequest
    ensures PutAt(v, Step(v, StateReply(Some(s), id)), s)
  {
    var r := v.(asks := v.asks.(stateRequest := 0), inbox := v.inbox.Assign(v.inbox.counters.Reset(s), 0)).Publish();
    DrainOnward(r);
    assert r.DrainPending().inbox.counters.Local(0) >= r.inbox.counters.Local(0);
    hide View.DrainPending;
  }

  /** An answered difference, full or partial: to the state it carries, or the intermediate one;
      and each channel update in it brings its channel up. */
  lemma DifferenceAssigns(v: View, d: Difference, id: int)
    requires id != 0 && id == v.asks.differenceRequest && (d.kind == DifferenceFull || d.kind == DifferenceSlice)
    ensures var w := Step(v, DifferenceReply(d, id));
            && PutAt(v, w, if d.intermediate.Some? then d.intermediate.value else d.state)
            && OthersReached(w.inbox.counters, d.otherUpdates)
  {
    var a := v.(asks := v.asks.(differenceRequest := 0));
    BodyAdvances(a, d.newMessages, d.otherUpdates, d.users, d.chats);
    var b := a.ApplyDifferenceBody(d.newMessages, d.otherUpdates, d.users, d.chats);
    var s := if d.intermediate.Some? then d.intermediate.value else d.state;
    hide View.ApplyDifferenceBody;
    var r := b.(inbox := b.inbox.Assign(b.inbox.counters.Reset(s), 0)).Publish();
    DrainOnward(r);
    assert r.DrainPending().inbox.counters.Local(0) >= r.inbox.counters.Local(0);
    hide View.DrainPending;
    forall k | 0 <= k < |d.otherUpdates| && d.otherUpdates[k].pts.Some? && ChannelIdOf(d.otherUpdates[k]) != 0
      ensures r.DrainPending().inbox.counters.Local(ChannelIdOf(d.otherUpdates[k])) >= d.otherUpdates[k].pts.value {
      var c := ChannelIdOf(d.otherUpdates[k]);
      assert r.inbox.counters.Local(c) == b.inbox.counters.Local(c);
    }
  }

  /** An empty difference moves seq and date forward, and assigns nothing. */
  lemma EmptyDifferenceAdvances(v: View, d: Difference, id: int)
    requires id != 0 && id == v.asks.differenceRequest && d.kind == DifferenceEmpty
    ensures var c, w := v.inbox.counters, Step(v, DifferenceReply(d, id));
            && w.inbox.counters.seqNo == (if d.seqNo > c.seqNo then d.seqNo else c.seqNo)
            && w.inbox.counters.date == (if d.date > c.date then d.date else c.date)
            && w.inbox.counters.qts == c.qts && w.inbox.counters.valid == c.valid && w.inbox.marks == v.inbox.marks
  {
    DrainOnward(v.(asks := v.asks.(differenceRequest := 0)).SetCounters(v.inbox.counters.AdvanceSeq(d.seqNo, d.date)));
    hide View.DrainPending;
  }

  /** A difference too long to tell: the common pts is the one it names, no channel is known, and
      nothing waits any more, neither updates nor channels. */
  lemma TooLongAssigns(v: View, d: Difference, id: int)
    requires id != 0 && id == v.asks.differenceRequest && d.kind == DifferenceTooLong
    ensures var c, w := v.inbox.counters, Step(v, DifferenceReply(d, id));
            && w.inbox.counters == Counters(d.pts, c.qts, c.date, c.seqNo, true, map[])
            && w.inbox.pending == [] && w.asks.queue == [] && MarkOf(w.inbox.marks, 0).value == d.pts
  {
  }

  /** A channel stands where the reply put it, and drained updates alone took it on. The common
      counters stay. */
  ghost predicate ChannelPutAt(a: Inbox, b: Inbox, channel: int, p: int32) {
    && MarkOf(b.marks, channel) == Mark(p, |a.ledger.emitted|)
    && b.counters.Local(channel) >= p && SameRest(a.counters, b.counters)
  }

  /** What ends the handling of every channel difference. */
  lemma SettledPutAt(v: View, w: View, channel: int, p: int32)
    requires channel != 0 && w.inbox.marks == v.SetChannelPts(channel, p).inbox.marks
    requires w.inbox.counters == v.SetChannelPts(channel, p).inbox.counters
    ensures ChannelPutAt(v.inbox, w.DrainPending().Pump().inbox, channel, p)
  {
    SetAt(v, channel, p);
    DrainFrom(w, channel);
    PumpKeepsInbox(w.DrainPending());
    hide View.DrainPending, View.Pump, View.SetChannelPts;
  }

  lemma FullAssigns(v: View, d: ChannelDifference, channel: int)
    requires channel != 0
    ensures var told := v.ApplyDifferenceBody(d.newMessages, d.otherUpdates, d.users, d.chats)
                        .SetChannelPts(channel, d.pts);
            ChannelPutAt(v.inbox, (if d.final then told else told.(asks := told.asks.Requeue(channel)))
                                  .DrainPending().Pump().inbox, channel, d.pts)
  {
    BodyAdvances(v, d.newMessages, d.otherUpdates, d.users, d.chats);
    var b := v.ApplyDifferenceBody(d.newMessages, d.otherUpdates, d.users, d.chats);
    hide View.ApplyDifferenceBody, View.DrainPending, View.Pump;
    var told := b.SetChannelPts(channel, d.pts);
    SettledPutAt(b, if d.final then told else told.(asks := told.asks.Requeue(channel)), channel, d.pts);
  }

  lemma JumpAssigns(v: View, d: ChannelDifference, channel: int)
    requires channel != 0
    ensures var w := v.(asks := v.asks.RememberChats(d.chats)).SetChannelPts(channel, d.dialogPts);
            ChannelPutAt(v.inbox, w.(inbox := w.inbox.DropPending(channel)).Tell(ChannelResetOut(channel))
                                  .DrainPending().Pump().inbox, channel, d.dialogPts)
  {
    hide View.DrainPending, View.Pump, WithoutChannel, OfChannel, ItemsOf;
    var w := v.(asks := v.asks.RememberChats(d.chats)).SetChannelPts(channel, d.dialogPts);
    SettledPutAt(v, w.(inbox := w.inbox.DropPending(channel)).Tell(ChannelResetOut(channel)), channel, d.dialogPts);
  }

  /** A channel's difference: to the pts it names, or of a channel too long to tell to its
      dialog's. */
  lemma ChannelAssigns(v: View, d: ChannelDifference, id: int)
    requires id in v.asks.inFlight && d.kind in {ChannelEmpty, ChannelFull, ChannelTooLong}
    requires v.asks.inFlight[id] != 0
    ensures ChannelPutAt(v.inbox, Step(v, ChannelDifferenceReply(d, id)).inbox, v.asks.inFlight[id],
                         if d.kind == ChannelTooLong then d.dialogPts else d.pts)
  {
    var channel := v.asks.inFlight[id];
    var a := v.(asks := v.asks.Release(id));
    hide View.ApplyDifferenceBody, View.DrainPending, View.SetChannelPts, View.Pump, ChannelPutAt, Inbox.DropPending;
    match d.kind
    case ChannelEmpty => SettledPutAt(a, a.SetChannelPts(channel, d.pts), channel, d.pts);
    case ChannelFull => FullAssigns(a, d, channel);
    case ChannelTooLong => JumpAssigns(a, d, channel);
  }

  lemma PumpKeepsInbox(v: View)
    ensures v.Pump().inbox == v.inbox
  {
  }

  lemma SetAt(v: View, channel: int, p: int32)
    requires channel != 0
    ensures var w := v.SetChannelPts(channel, p);
            && MarkOf(w.inbox.marks, channel) == Mark(p, |v.inbox.ledger.emitted|)
            && w.inbox.counters.Local(channel) == p && SameRest(v.inbox.counters, w.inbox.counters)
    ensures forall a: Asks :: v.(asks := a).SetChannelPts(channel, p).inbox == v.SetChannelPts(channel, p).inbox
  {
  }

  lemma DrainFrom(v: View, c: int)
    ensures var w := v.DrainPending();
            && w.inbox.marks == v.inbox.marks && SameRest(v.inbox.counters, w.inbox.counters)
            && w.inbox.counters.Local(c) >= v.inbox.counters.Local(c)
  {
    hide View.DrainPending;
    DrainOnward(v);
  }

  /** A pts in a reply that applies takes its sequence at least there. */
  lemma AffectedAdvances(v: View, p: int32, n: int32, id: int)
    requires id in v.asks.affected && v.inbox.counters.Check(v.asks.affected[id], p, n) == Apply
    ensures var w := Step(v, AffectedReply(p, n, id));
            && w.inbox.counters.Local(v.asks.affected[id]) >= p && SameRest(v.inbox.counters, w.inbox.counters)
            && id !in w.asks.affected
  {
    var channel := v.asks.affected[id];
    var moved := v.(asks := v.asks.(affected := v.asks.affected - {id}),
                    inbox := v.inbox.AdvanceByReply(channel, p));
    var r := if channel == 0 then moved.Publish() else moved;
    DrainOnward(r);
    assert r.inbox.counters.Local(channel) >= p;
    assert r.DrainPending().inbox.counters.Local(channel) >= r.inbox.counters.Local(channel);
    hide View.DrainPending;
  }

  /** An error: the state is forgotten, whole, when its timestamp is refused, and a channel when it
      cannot be reached; any other error forgets nothing. */
  lemma ErrorForgets(v: View, e: RpcError, id: int)
    requires AsksOk(v.asks) && id != v.asks.stateRequest
    ensures var w := Step(v, RpcFailure(e, id));
            && (id == v.asks.differenceRequest && e.PersistentTimestamp? ==>
                  w.inbox.counters == CLEARED && w.inbox.pending == [] && w.asks.stateRequest != 0)
            && (id != v.asks.differenceRequest && id in v.asks.inFlight && e.ChannelUnreachable? ==>
                  var channel := v.asks.inFlight[id];
                  && w.inbox.counters == v.inbox.counters.(channels := v.inbox.counters.channels - {channel})
                  && forall k :: 0 <= k < |w.inbox.pending| ==> w.inbox.pending[k].item.channelId != channel)
            && (e.OtherError? ==> w.inbox == v.inbox)
  {
    hide Asks.Pump;
    if id in v.asks.inFlight { NoneLeft(v.inbox.pending, v.asks.inFlight[id]); }
  }

  lemma {:induction false} NoneLeft(ps: seq<Parked>, c: int)
    ensures forall k :: 0 <= k < |WithoutChannel(ps, c)| ==> WithoutChannel(ps, c)[k].item.channelId != c
  {
    if ps != [] { NoneLeft(ps[1..], c); }
  }

  /** A channel whose difference was not the last one is polled again or waits, as long as its hash
      is known; after a final one it does neither. */
  lemma PolledAgainIff(v: View, d: ChannelDifference, id: int)
    requires Ok(v) && id in v.asks.inFlight && d.kind == ChannelFull
    ensures var channel, w := v.asks.inFlight[id], Step(v, ChannelDifferenceReply(d, id));
            && (d.final ==> !Attended(w.asks, channel))
            && (!d.final && channel in w.asks.accessHash ==> Attended(w.asks, channel))
  {
    var channel := v.asks.inFlight[id];
    var a := v.(asks := v.asks.Release(id));
    var known := a.asks.RememberChats(d.chats);
    var again := known.Requeue(channel);
    OkAsks(v);
    ReleaseKeepsAsks(v.asks, id);
    RememberKeepsAsks(a.asks, d.chats);
    BodyAsks(a, d.newMessages, d.otherUpdates, d.users, d.chats);
    DrainKeepsAsks(v);
    var w := Step(v, ChannelDifferenceReply(d, id));
    hide View.ApplyDifferenceBody, View.DrainPending, Asks.Pump, AsksOk;
    var c := w.inbox.counters;
    if d.final {
      assert w.asks == known.Pump(c);
      PumpAttends(known, c, channel);
    } else {
      assert w.asks == again.Pump(c);
      RequeueKeepsAsks(known, channel);
      PumpAttends(again, c, channel);
      assert channel in again.queue by { assert again.queue[|known.queue|] == channel; }
      PumpKeepsHashes(again, c);
    }
  }

  lemma {:induction false} PumpKeepsHashes(a: Asks, c: Counters)
    ensures a.Pump(c).accessHash == a.accessHash
    decreases |a.queue|
  {
    if a.queue != [] && |a.inFlight| < MAX_CHANNEL_POLLS {
      PumpKeepsHashes(a.(queue := a.queue[1..]).RequestChannelDifference(c, a.queue[0]), c);
    }
  }

  // --- pushes -------------------------------------------------------------------------------

  lemma ItemKeepsRest(v: View, i: Item)
    ensures SameRest(v.inbox.counters, v.ApplyItem(i).inbox.counters)
  {
    var got := v.(inbox := v.inbox.Receive(i));
    var told := got.(inbox := got.inbox.Accept(i)).Tell(Emission(i));
    DrainOnward(if i.channelId == 0 then told.Publish() else told);
    hide View.DrainPending;
  }

  lemma {:induction false} AllKeepRest(v: View, list: seq<Update>, users: seq<int>, chats: seq<Chat>, date: int32,
                                       messageId: int)
    ensures SameRest(v.inbox.counters, v.ApplyAll(list, users, chats, date, messageId).inbox.counters)
    decreases |list|
  {
    hide View.ApplyOne;
    if list != [] {
      OneKeepsRest(v, list[0], users, chats, date, messageId, false);
      AllKeepRest(v.ApplyOne(list[0], users, chats, date, messageId, false), list[1..], users, chats, date, messageId);
    }
  }

  lemma OneKeepsRest(v: View, u: Update, users: seq<int>, chats: seq<Chat>, date: int32, messageId: int,
                     shortForm: bool)
    ensures SameRest(v.inbox.counters, v.ApplyOne(u, users, chats, date, messageId, shortForm).inbox.counters)
  {
    hide View.ApplyItem;
    if !u.tooLong && u.pts.Some? { ItemKeepsRest(v, MakeItem(u, users, chats, date, messageId, shortForm)); }
  }

  /** A push moves date and seq forward, and only forward: date with every container that is not in
      the short form and passes the seq test, seq with one that the test lets apply. */
  lemma PushMovesSeq(v: View, u: Container, messageId: int)
    ensures var c, w := v.inbox.counters, Step(v, Pushed(u, messageId)).inbox.counters;
            var taken := u.kind == Short || (u.kind == Batch && !FailsSeqTest(c, u));
            && w.qts == c.qts && w.valid == c.valid
            && w.date == (if taken && u.date > c.date then u.date else c.date)
            && w.seqNo == (if taken && u.kind == Batch && u.seqEnd != 0 && u.seqEnd > c.seqNo then u.seqEnd
                           else c.seqNo)
  {
    PushIsOpened(v, u, messageId);
    var o := Opened(v, u);
    hide View.ApplyOne, View.ApplyAll;
    OneKeepsRest(o, u.body, [], [], u.date, messageId, false);
    OneKeepsRest(o, u.body, [], [], u.date, messageId, true);
    AllKeepRest(o, u.list, u.users, u.chats, u.date, messageId);
    hide View.ProcessUpdates;
  }

  /** One update pushed alone, with a pts and a valid state: told at once if it applies, and with the
      state it leads to if it is of the common sequence, before whatever waited for it; and
      nothing is told if it is old or ahead. */
  lemma SinglePushTells(v: View, u: Container, messageId: int)
    requires Ok(v) && v.inbox.counters.valid && (u.kind == Short || u.kind == ShortForm)
    requires !u.body.tooLong && u.body.pts.Some?
    ensures var channel, p := ChannelIdOf(u.body), u.body.pts.value;
            var c, out := v.inbox.counters, Step(v, Pushed(u, messageId)).out;
            var date := if u.kind == Short && u.date > c.date then u.date else c.date;
            var push := if u.kind == ShortForm then MessageOut(u.body, messageId)
                        else UpdateOut(u.body, [], [], u.date);
            && (c.Check(channel, p, u.body.ptsCount) == Apply ==>
                  Opens(v.out, out, if channel != 0 then [push]
                                    else [push, StateOut(if p > c.pts then p else c.pts, c.qts, date, c.seqNo)]))
            && (c.Check(channel, p, u.body.ptsCount) != Apply ==> out == v.out)
  {
    PushIsOpened(v, u, messageId);
    OpenedOk(v, u);
    var o := Opened(v, u);
    var i := MakeItem(u.body, [], [], u.date, messageId, u.kind == ShortForm);
    OkWaiting(o);
    SameLocalsVerdict(v.inbox.counters, o.inbox.counters, i);
    hide View.ProcessUpdates, View.ApplyItem, Opens, Ok, Counters.Check;
    SettledItemTells(o, i);
  }

  lemma SettledItemTells(v: View, i: Item)
    requires Waiting(v.inbox.pending) && v.inbox.counters.valid
    ensures var c := v.inbox.counters; var out := v.ApplyItem(i).out;
            && (c.Verdict(i) == Apply ==>
                  Opens(v.out, out, if i.channelId != 0 then [Emission(i)]
                                    else [Emission(i),
                                          StateOut(if i.pts > c.pts then i.pts else c.pts, c.qts, c.date, c.seqNo)]))
            && (c.Verdict(i) != Apply ==> out == v.out)
  {
    hide View.DrainPending, Opens, Counters.Verdict;
    if v.inbox.counters.Verdict(i) == Apply {
      var got := v.(inbox := v.inbox.Receive(i));
      var told := got.(inbox := got.inbox.Accept(i)).Tell(Emission(i));
      var c := told.inbox.counters;
      if i.channelId == 0 {
        DrainOpens(told.Publish(), v.out, [Emission(i), StateOut(c.pts, c.qts, c.date, c.seqNo)]);
      } else {
        DrainOpens(told, v.out, [Emission(i)]);
      }
    }
  }

  lemma SameLocalsVerdict(a: Counters, b: Counters, i: Item)
    requires b == a.(date := b.date)
    ensures b.Verdict(i) == a.Check(i.channelId, i.pts, i.ptsCount)
  {
  }
}

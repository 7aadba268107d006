/** libkg/tgupdatesstate and libkg/tgupdates in their own form: two objects that change in
    place, each method proved to take the abstract state where the pipeline's functions say. */
module UpdateObjects {
  import opened Integers
  import opened UpdateTypes
  import opened Options
  import opened SequenceCounters
  import opened Draining
  import opened UpdateInbox
  import opened UpdateAsks
  import opened UpdatePipeline

  class UpdatesState {
    var pts: int32
    var qts: int32
    var date: int32
    var seqNo: int32
    var valid: bool
    var channelPts: map<int, int32>

    ghost function V(): Counters
      reads this
    {
      Counters(pts, qts, date, seqNo, valid, channelPts)
    }

    constructor (stored: Stored)
      ensures V() == Load(stored)
    {
      pts, qts, date, seqNo := stored.pts, stored.qts, stored.date, stored.seqNo;
      valid := stored.pts != 0;
      channelPts := map k | k in stored.channels && stored.channels[k] != 0 :: stored.channels[k];
    }

    function Check(channelId: int, p: int32, ptsCount: int32): (v: Verdict)
      reads this
      ensures v == V().Check(channelId, p, ptsCount)
    {
      var local: int32 := if channelId != 0 then (if channelId in channelPts then channelPts[channelId] else 0)
          else pts;
      if local == 0 then Apply
      else if Wrap32(local + ptsCount) == p then Apply
      else if p <= local then Duplicate
      else Gap
    }

    function CheckSeq(seqStart: int32, seqEnd: int32): (v: SeqVerdict)
      reads this
      ensures v == V().CheckSeq(seqStart, seqEnd)
    {
      if seqEnd == 0 then SeqIgnore
      else
        var start := if seqStart == 0 then seqEnd else seqStart;
        if Wrap32(seqNo + 1) == start then SeqApply
        else if start <= seqNo then SeqDuplicate
        else SeqGap
    }

    method Reset(v: StateValues)
      modifies this
      ensures V() == old(V()).Reset(v)
    {
      pts, qts, date, seqNo := v.pts, v.qts, v.date, v.seqNo;
      valid := true;
    }

    method Clear()
      modifies this
      ensures V() == CLEARED
    {
      pts, qts, date, seqNo := 0, 0, 0, 0;
      valid := false;
      channelPts := map[];
    }

    method SetPts(p: int32)
      modifies this
      ensures V() == old(V()).SetPts(p)
    {
      pts := p;
      valid := true;
    }

    method SetQts(q: int32)
      modifies this
      ensures V() == old(V()).SetQts(q)
    {
      if q > qts { qts := q; }
    }

    method SetDate(d: int32)
      modifies this
      ensures V() == old(V()).SetDate(d)
    {
      if d > date { date := d; }
    }

    method SetChannelPts(channelId: int, p: int32)
      modifies this
      ensures V() == old(V()).SetChannelPts(channelId, p)
    {
      channelPts := channelPts[channelId := p];
    }

    method ForgetChannel(channelId: int)
      modifies this
      ensures V() == old(V()).ForgetChannel(channelId)
    {
      channelPts := channelPts - {channelId};
    }

    method ClearChannels()
      modifies this
      ensures V() == old(V()).ClearChannels()
    {
      channelPts := map[];
    }

    method Advance(channelId: int, p: int32)
      modifies this
      ensures V() == old(V()).Advance(channelId, p)
    {
      if channelId != 0 {
        if p > (if channelId in channelPts then channelPts[channelId] else 0) {
          channelPts := channelPts[channelId := p];
        }
        return;
      }
      if p > pts { pts := p; }
    }

    method AdvanceSeq(s: int32, d: int32)
      modifies this
      ensures V() == old(V()).AdvanceSeq(s, d)
    {
      if s > seqNo { seqNo := s; }
      SetDate(d);
    }
  }

  /** A pass that has come as far as `kept`, with `r` for the rest of it. */
  function Resumed(kept: seq<Parked>, emitted: seq<Item>, dropped: seq<Item>, r: Drained): Drained {
    Drained(r.counters, kept + r.left, emitted + r.emitted, dropped + r.dropped)
  }

  /** Stepping over an item that stays. */
  lemma ResumeOver(c: Counters, ps: seq<Parked>, i: nat, e: seq<Item>, d: seq<Item>)
    requires i < |ps| && c.Verdict(ps[i].item) == Gap
    ensures Resumed(ps[..i], e, d, Scan(c, ps[i..])) == Resumed(ps[..i + 1], e, d, Scan(c, ps[i + 1..]))
  {
    assert ps[i..][0] == ps[i] && ps[i..][1..] == ps[i + 1..];
    var left := Scan(c, ps[i + 1..]).left;
    assert ps[..i] + ([ps[i]] + left) == ps[..i + 1] + left;
  }

  /** Taking an item out and stepping back. */
  lemma ResumeTaking(c: Counters, ps: seq<Parked>, i: nat, e: seq<Item>, d: seq<Item>)
    requires i < |ps| && c.Verdict(ps[i].item) != Gap
    ensures var item := ps[i].item; var qs := ps[..i] + ps[i + 1..];
            Resumed(ps[..i], e, d, Scan(c, ps[i..]))
              == if c.Verdict(item) == Apply
                 then Resumed(qs[..i], e + [item], d, Scan(c.Advance(item.channelId, item.pts), qs[i..]))
                 else Resumed(qs[..i], e, d + [item], Scan(c, qs[i..]))
  {
    var item := ps[i].item;
    var qs := ps[..i] + ps[i + 1..];
    assert ps[i..][0] == ps[i] && ps[i..][1..] == ps[i + 1..];
    assert qs[..i] == ps[..i] && qs[i..] == ps[i + 1..];
    var r := Scan(if c.Verdict(item) == Apply then c.Advance(item.channelId, item.pts) else c, ps[i + 1..]);
    assert e + ([item] + r.emitted) == e + [item] + r.emitted;
    assert d + ([item] + r.dropped) == d + [item] + r.dropped;
  }

  /** The same two steps for the filtering loops: `kept` stands for the tail filter's result. */
  lemma FilterOver(ps: seq<Parked>, i: nat, tail: seq<Parked>)
    requires i < |ps|
    ensures ps[i..] == [ps[i]] + ps[i + 1..] && ps[..i] + ([ps[i]] + tail) == ps[..i + 1] + tail
  {
  }

  lemma FilterTaking(ps: seq<Parked>, i: nat, gone: seq<Parked>, tail: seq<Parked>)
    requires i < |ps|
    ensures var qs := ps[..i] + ps[i + 1..]; qs[..i] == ps[..i] && qs[i..] == ps[i + 1..]
    ensures ps[i..] == [ps[i]] + ps[i + 1..] && gone + ([ps[i]] + tail) == gone + [ps[i]] + tail
  {
  }

  lemma ExpiryHead(p: Parked, rest: seq<Parked>, tick: nat)
    ensures Unexpired([p] + rest, tick)
            == (if tick - p.parkedAt < 1 then [p] + Unexpired(rest, tick) else Unexpired(rest, tick))
    ensures Expired([p] + rest, tick)
            == (if tick - p.parkedAt < 1 then Expired(rest, tick) else [p] + Expired(rest, tick))
  {
    assert ([p] + rest)[1..] == rest;
  }

  lemma ChannelHead(p: Parked, rest: seq<Parked>, c: int)
    ensures WithoutChannel([p] + rest, c)
            == (if p.item.channelId != c then [p] + WithoutChannel(rest, c) else WithoutChannel(rest, c))
    ensures OfChannel([p] + rest, c) == (if p.item.channelId != c then OfChannel(rest, c) else [p] + OfChannel(rest, c))
  {
    assert ([p] + rest)[1..] == rest;
  }

  /** One turn of the expiry loop as a fact about its queue. */
  lemma ExpiryTurn(ps: seq<Parked>, i: nat, tick: nat, gone: seq<Parked>)
    requires i < |ps|
    ensures var qs := ps[..i] + ps[i + 1..]; var young := tick - ps[i].parkedAt < 1;
            && ps[..i] + Unexpired(ps[i..], tick)
               == (if young then ps[..i + 1] + Unexpired(ps[i + 1..], tick) else qs[..i] + Unexpired(qs[i..], tick))
            && gone + Expired(ps[i..], tick)
               == (if young then gone + Expired(ps[i + 1..], tick) else gone + [ps[i]] + Expired(qs[i..], tick))
  {
    ExpiryHead(ps[i], ps[i + 1..], tick);
    FilterOver(ps, i, Unexpired(ps[i + 1..], tick));
    FilterTaking(ps, i, gone, Expired(ps[i + 1..], tick));
  }

  lemma AfterTwice(e1: seq<Item>, d1: seq<Item>, e2: seq<Item>, d2: seq<Item>, r: Drained)
    ensures After(e1, d1, After(e2, d2, r)) == After(e1 + e2, d1 + d2, r)
  {
    assert e1 + (e2 + r.emitted) == e1 + e2 + r.emitted;
    assert d1 + (d2 + r.dropped) == d1 + d2 + r.dropped;
  }

  class UpdatesManager {
    const state: UpdatesState
    var stateRequestId: int
    var differenceRequestId: int
    var channelRequestId: map<int, int>
    var affectedChannel: map<int, int>
    var channelQueue: seq<int>
    var channelAccessHash: map<int, int>
    var pending: seq<Parked>
    var gapTimerActive: bool
    var tick: nat

    // The client: the ids it hands out, and an account of what it was asked and told.
    const ids: nat -> int
    var issued: nat
    ghost var sent: seq<Sent>
    ghost var out: seq<Dispatch>
    ghost var ledger: Ledger
    ghost var marks: Marks

    ghost function V(): View
      reads this, state
    {
      View(Inbox(state.V(), pending, gapTimerActive, tick, ledger, marks),
           Asks(ids, issued, sent, stateRequestId, differenceRequestId, channelRequestId,
                channelQueue, channelAccessHash,
                affectedChannel),
           out)
    }

    constructor (stored: Stored, ids: nat -> int)
      ensures V() == Started(Load(stored), ids)
      ensures fresh(state)
    {
      state := new UpdatesState(stored);
      this.ids := ids;
      stateRequestId, differenceRequestId := 0, 0;
      channelRequestId, affectedChannel, channelAccessHash := map[], map[], map[];
      channelQueue, pending, gapTimerActive, tick, issued := [], [], false, 0, 0;
      sent, out := [], [];
      ledger := Restored(Load(stored)).ledger;
      marks := Restored(Load(stored)).marks;
    }

    // --- the client -------------------------------------------------------------------------

    method Send(r: Request) returns (messageId: int)
      modifies this
      ensures V() == old(V()).(asks := old(V()).asks.Send(r)) && messageId == ids(old(issued))
    {
      messageId := ids(issued);
      issued := issued + 1;
      sent := sent + [Sent(messageId, r)];
    }

    method Dispatch(d: Dispatch)
      modifies this
      ensures V() == old(V()).Tell(d)
    {
      out := out + [d];
    }

    method PublishState()
      modifies this
      ensures V() == old(V()).Publish()
    {
      Dispatch(StateOut(state.pts, state.qts, state.date, state.seqNo));
    }

    // --- requests ---------------------------------------------------------------------------

    method RequestState()
      modifies this
      ensures V() == old(V()).RequestState()
    {
      if stateRequestId != 0 { return; }
      stateRequestId := Send(GetState);
    }

    method RequestDifference()
      modifies this
      ensures V() == old(V()).RequestDifference()
    {
      if !state.valid {
        RequestState();
        return;
      }
      if differenceRequestId != 0 { return; }
      differenceRequestId := Send(GetDifference(state.pts,
                                                if state.date != 0 then state.date else 1,
                                                if state.qts != 0 then state.qts else 1));
    }

    method RequestChannelDifference(channelId: int)
      modifies this
      ensures V() == old(V()).(asks := old(V()).asks.RequestChannelDifference(state.V(), channelId))
    {
      if channelId !in channelAccessHash { return; }
      var messageId := Send(GetChannelDifference(channelId, channelAccessHash[channelId],
                                                 if channelId in state.channelPts
                                                 then state.channelPts[channelId] else 0,
                                                 DIFFERENCE_LIMIT));
      if messageId != 0 {
        channelRequestId := channelRequestId[messageId := channelId];
      }
    }

    method PumpChannelQueue()
      modifies this
      ensures V() == old(V()).Pump()
    {
      while channelQueue != [] && |channelRequestId| < MAX_CHANNEL_POLLS
        invariant V().Pump() == old(V()).Pump()
        decreases |channelQueue|
      {
        var channelId := channelQueue[0];
        channelQueue := channelQueue[1..];
        RequestChannelDifference(channelId);
      }
    }

    method EnqueueChannel(channelId: int)
      modifies this
      ensures V() == old(V()).Enqueue(channelId)
    {
      if channelId == 0 { return; }
      if channelId in channelRequestId.Values || channelId in channelQueue { return; }
      channelQueue := channelQueue + [channelId];
      PumpChannelQueue();
    }

    method RememberChats(chats: seq<Chat>)
      modifies this
      ensures V() == old(V()).(asks := old(V()).asks.RememberChats(chats))
    {
      for i := 0 to |chats|
        invariant V() == old(V()).(asks := old(V()).asks.(accessHash := channelAccessHash))
        invariant Remember(channelAccessHash, chats[i..]) == Remember(old(channelAccessHash), chats)
      {
        var chat := chats[i];
        assert chats[i..][1..] == chats[i + 1..];
        if !chat.isChannel { continue; }
        if chat.accessHash.None? { continue; }
        channelAccessHash := channelAccessHash[chat.id := chat.accessHash.value];
      }
    }

    // --- the pending queue ------------------------------------------------------------------

    method Park(item: Item)
      modifies this
      ensures V() == old(V()).Park(item)
    {
      if |pending| >= MAX_PENDING {
        ledger := ledger.(discarded := ledger.discarded + ItemsOf(pending) + multiset{item});
        pending := [];
        RequestDifference();
        return;
      }
      pending := pending + [Parked(item, tick)];
      if !gapTimerActive {
        gapTimerActive := true;
      }
    }

    method EmitOne(item: Item)
      modifies this
      ensures V() == old(V()).Tell(Emission(item))
    {
      if item.shortForm {
        Dispatch(MessageOut(item.update, item.messageId));
        return;
      }
      Dispatch(UpdateOut(item.update, item.users, item.chats, item.date));
    }

    /** `emitted` and `dropped` have left the queue since the state `from`. */
    ghost predicate Took(from: View, emitted: seq<Item>, dropped: seq<Item>)
      reads this, state
    {
      && V().asks == from.asks
      && gapTimerActive == from.inbox.timerActive && tick == from.inbox.tick
      && out == from.out + Emissions(emitted)
      && marks == from.inbox.marks
      && ledger == from.inbox.ledger.(emitted := from.inbox.ledger.emitted + emitted,
                                      dropped := from.inbox.ledger.dropped + multiset(dropped))
    }

    method EmitParked(item: Item, ghost from: View, ghost e: seq<Item>, ghost d: seq<Item>)
      requires Took(from, e, d)
      modifies this, state
      ensures Took(from, e + [item], d) && pending == old(pending)
      ensures state.V() == old(state.V()).Advance(item.channelId, item.pts)
    {
      hide Emissions, Counters.Advance;
      state.Advance(item.channelId, item.pts);
      EmitOne(item);
      ledger := ledger.(emitted := ledger.emitted + [item]);
      EmissionsAppend(e, item);
      assert from.inbox.ledger.emitted + (e + [item]) == from.inbox.ledger.emitted + e + [item];
    }

    method DropParked(item: Item, ghost from: View, ghost e: seq<Item>, ghost d: seq<Item>)
      requires Took(from, e, d)
      modifies this
      ensures Took(from, e, d + [item]) && pending == old(pending) && state.V() == old(state.V())
    {
      ledger := ledger.(dropped := ledger.dropped + multiset{item});
      assert multiset(d + [item]) == multiset(d) + multiset{item};
    }

    /** One turn of the pass: either steps over the item at `i` or takes it and stays. */
    method Visit(i: nat, ghost from: View, ghost e: seq<Item>, ghost d: seq<Item>)
      returns (next: nat, taken: bool, ghost e1: seq<Item>, ghost d1: seq<Item>)
      requires i < |pending| && Took(from, e, d)
      modifies this, state
      ensures Took(from, e1, d1) && next <= |pending|
      ensures if taken then next == i && |pending| == |old(pending)| - 1 else next == i + 1 && pending == old(pending)
      ensures Resumed(old(pending[..i]), e, d, Scan(old(state.V()), old(pending[i..])))
                == Resumed(pending[..next], e1, d1, Scan(state.V(), pending[next..]))
    {
      var item := pending[i].item;
      var verdict := state.Check(item.channelId, item.pts, item.ptsCount);
      if verdict == Gap {
        ResumeOver(state.V(), pending, i, e, d);
        return i + 1, false, e, d;
      }
      ResumeTaking(state.V(), pending, i, e, d);
      pending := pending[..i] + pending[i + 1..];
      if verdict == Duplicate {
        DropParked(item, from, e, d);
        return i, true, e, d + [item];
      }
      EmitParked(item, from, e, d);
      return i, true, e + [item], d;
    }

    /** One pass over the queue, stepping back after each item it takes. */
    method DrainPass(ghost from: View, ghost e: seq<Item>, ghost d: seq<Item>)
      returns (progress: bool, ghost e1: seq<Item>, ghost d1: seq<Item>)
      requires Took(from, e, d)
      modifies this, state
      ensures Took(from, e1, d1)
      ensures var r := Scan(old(state.V()), old(pending));
              && state.V() == r.counters && pending == r.left && e1 == e + r.emitted && d1 == d + r.dropped
              && progress == (|r.left| < |old(pending)|)
    {
      progress := false;
      e1, d1 := e, d;
      ghost var c0, p0 := state.V(), pending;
      var i := 0;
      assert pending[..0] == [] && pending[0..] == pending;
      while i < |pending|
        invariant 0 <= i <= |pending| <= |p0|
        invariant progress == (|pending| < |p0|)
        invariant Took(from, e1, d1)
        invariant Resumed([], e, d, Scan(c0, p0)) == Resumed(pending[..i], e1, d1, Scan(state.V(), pending[i..]))
        decreases |pending| - i
      {
        var taken;
        i, taken, e1, d1 := Visit(i, from, e1, d1);
        progress := progress || taken;
      }
      assert pending[..i] + [] == pending && pending[i..] == [] && e1 + [] == e1 && d1 + [] == d1;
      assert [] + Scan(c0, p0).left == Scan(c0, p0).left;
    }

    /** Passes until one makes no progress. */
    method DrainPasses()
      returns (ghost e: seq<Item>, ghost d: seq<Item>)
      modifies this, state
      ensures Took(old(V()), e, d)
      ensures Drain(old(state.V()), old(pending)) == Drained(state.V(), pending, e, d)
    {
      ghost var from := V();
      e, d := [], [];
      var progress := true;
      while progress
        invariant Took(from, e, d)
        invariant progress ==> Drain(from.inbox.counters, from.inbox.pending) == After(e, d, Drain(state.V(), pending))
        invariant !progress ==> Drain(from.inbox.counters, from.inbox.pending) == Drained(state.V(), pending, e, d)
        decreases |pending|, progress
      {
        ghost var r := Scan(state.V(), pending);
        ScanShrinks(state.V(), pending);
        ghost var e1, d1 := e, d;
        progress, e, d := DrainPass(from, e1, d1);
        AfterTwice(e1, d1, r.emitted, r.dropped, Drain(r.counters, r.left));
      }
    }

    method DrainPending()
      modifies this, state
      ensures V() == old(V()).DrainPending()
    {
      if pending == [] { return; }
      ghost var e, d := DrainPasses();
      if pending == [] {
        gapTimerActive := false;
      }
    }

    /** Removes in place whatever was parked before this tick. */
    method RemoveExpired() returns (expired: bool, ghost gone: seq<Parked>)
      modifies this`pending
      ensures pending == Unexpired(old(pending), tick) && gone == Expired(old(pending), tick)
      ensures expired == (gone != []) && (!expired ==> pending == old(pending))
    {
      ghost var was := pending;
      expired, gone := false, [];
      var i := 0;
      assert pending[0..] == pending;
      while i < |pending|
        invariant 0 <= i <= |pending|
        invariant Unexpired(was, tick) == pending[..i] + Unexpired(pending[i..], tick)
        invariant Expired(was, tick) == gone + Expired(pending[i..], tick)
        invariant expired == (gone != [])
        invariant !expired ==> pending == was
        decreases |pending| - i
      {
        ExpiryTurn(pending, i, tick, gone);
        if tick - pending[i].parkedAt < 1 {
          i := i + 1;
          continue;
        }
        gone := gone + [pending[i]];
        pending := pending[..i] + pending[i + 1..];
        expired := true;
      }
      assert pending[..i] + [] == pending && pending[i..] == [] && gone + [] == gone;
    }

    method ExpirePending()
      modifies this
      ensures V() == (var v := old(V()).(inbox := old(V()).inbox.ExpirePending());
                      if old(V()).inbox.Expires() then v.RequestDifference() else v)
    {
      ghost var gone;
      var expired;
      expired, gone := RemoveExpired();
      if !expired { return; }
      ledger := ledger.(discarded := ledger.discarded + ItemsOf(gone));
      ghost var was := V();
      RequestDifference();
      assert V() == was.(asks := was.asks.RequestDifference(was.inbox.counters));
      if pending == [] {
        gapTimerActive := false;
      }
    }

    /** Removes in place whatever belongs to a channel. */
    method RemoveChannel(channelId: int) returns (ghost gone: seq<Parked>)
      modifies this`pending
      ensures pending == WithoutChannel(old(pending), channelId) && gone == OfChannel(old(pending), channelId)
    {
      ghost var was := pending;
      gone := [];
      var i := 0;
      assert pending[0..] == pending;
      while i < |pending|
        invariant 0 <= i <= |pending|
        invariant WithoutChannel(was, channelId) == pending[..i] + WithoutChannel(pending[i..], channelId)
        invariant OfChannel(was, channelId) == gone + OfChannel(pending[i..], channelId)
        decreases |pending| - i
      {
        ChannelHead(pending[i], pending[i + 1..], channelId);
        if pending[i].item.channelId != channelId {
          FilterOver(pending, i, WithoutChannel(pending[i + 1..], channelId));
          i := i + 1;
          continue;
        }
        FilterTaking(pending, i, gone, OfChannel(pending[i + 1..], channelId));
        gone := gone + [pending[i]];
        pending := pending[..i] + pending[i + 1..];
      }
      assert pending[..i] + [] == pending && pending[i..] == [] && gone + [] == gone;
    }

    method DropPending(channelId: int)
      modifies this
      ensures V() == old(V()).(inbox := old(V()).inbox.DropPending(channelId))
    {
      ghost var gone := RemoveChannel(channelId);
      ledger := ledger.(discarded := ledger.discarded + ItemsOf(gone));
      if pending == [] {
        gapTimerActive := false;
      }
    }

    method ClearPending()
      modifies this
      ensures V() == old(V()).(inbox := old(V()).inbox.ClearPending())
    {
      ledger := ledger.(discarded := ledger.discarded + ItemsOf(pending));
      pending := [];
      gapTimerActive := false;
    }

    method TimerEvent(ours: bool)
      modifies this
      ensures V() == old(V()).TimerEvent(ours)
    {
      if !ours { return; }
      tick := tick + 1;
      ExpirePending();
    }

    // --- ingress ----------------------------------------------------------------------------

    method ApplyOne(update: Update, users: seq<int>, chats: seq<Chat>, date: int32, messageId: int, shortForm: bool)
      modifies this, state
      ensures V() == old(V()).ApplyOne(update, users, chats, date, messageId, shortForm)
    {
      var channelId := ChannelIdOf(update);
      if update.tooLong {
        DropPending(channelId);
        EnqueueChannel(channelId);
        return;
      }
      if update.pts.None? {
        Dispatch(if shortForm then MessageOut(update, messageId) else UpdateOut(update, users, chats, date));
        return;
      }
      var item := Item(update, users, chats, messageId, channelId, update.pts.value, update.ptsCount, date, shortForm);
      ledger := ledger.(received := ledger.received + multiset{item});
      if !state.valid {
        Park(item);
        RequestState();
        return;
      }
      match state.Check(channelId, item.pts, item.ptsCount) {
        case Apply =>
          state.Advance(channelId, item.pts);
          ledger := ledger.(emitted := ledger.emitted + [item]);
          EmitOne(item);
          if channelId == 0 { PublishState(); }
          DrainPending();
        case Duplicate =>
          ledger := ledger.(dropped := ledger.dropped + multiset{item});
        case Gap =>
          Park(item);
          if channelId != 0 {
            EnqueueChannel(channelId);
          } else {
            RequestDifference();
          }
      }
    }

    method ApplyList(list: seq<Update>, users: seq<int>, chats: seq<Chat>, date: int32, messageId: int)
      modifies this, state
      ensures V() == old(V()).ApplyAll(list, users, chats, date, messageId)
    {
      assert list[0..] == list;
      for i := 0 to |list|
        invariant V().ApplyAll(list[i..], users, chats, date, messageId)
                  == old(V()).ApplyAll(list, users, chats, date, messageId)
      {
        assert list[i..][0] == list[i] && list[i..][1..] == list[i + 1..];
        ApplyOne(list[i], users, chats, date, messageId, false);
      }
      assert list[|list|..] == [];
    }

    method ProcessUpdates(u: Container, messageId: int)
      modifies this, state
      ensures V() == old(V()).ProcessUpdates(u, messageId)
    {
      RememberChats(u.chats);
      match u.kind {
        case TooLong =>
          RequestDifference();
        case Short =>
          state.SetDate(u.date);
          ApplyOne(u.body, [], [], u.date, messageId, false);
        case Batch =>
          match state.CheckSeq(u.seqStart, u.seqEnd) {
            case SeqDuplicate => return;
            case SeqGap =>
              RequestDifference();
              return;
            case SeqApply => state.AdvanceSeq(u.seqEnd, u.date);
            case SeqIgnore => state.SetDate(u.date);
          }
          ApplyList(u.list, u.users, u.chats, u.date, messageId);
        case ShortForm =>
          ApplyOne(u.body, [], [], u.date, messageId, true);
        case UnknownContainer =>
      }
    }

    // --- lifecycle --------------------------------------------------------------------------

    method Authorized()
      modifies this
      ensures V() == old(V()).Authorized()
    {
      if !state.valid {
        RequestState();
        return;
      }
      RequestDifference();
    }

    method Initialized(isAuthorized: bool)
      modifies this
      ensures V() == old(V()).Initialized(isAuthorized)
    {
      if !isAuthorized { return; }
      if state.valid {
        RequestDifference();
      } else {
        RequestState();
      }
    }

    method Disconnected()
      modifies this
      ensures V() == old(V()).Disconnected()
    {
      stateRequestId := 0;
      differenceRequestId := 0;
      channelRequestId := map[];
    }

    method MessageChanged(oldMsg: int, newMsg: int)
      modifies this
      ensures V() == old(V()).MessageChanged(oldMsg, newMsg)
    {
      if stateRequestId == oldMsg { stateRequestId := newMsg; }
      if differenceRequestId == oldMsg { differenceRequestId := newMsg; }
      if oldMsg in channelRequestId {
        var channelId := channelRequestId[oldMsg];
        channelRequestId := (channelRequestId - {oldMsg})[newMsg := channelId];
      }
    }

    // --- replies ----------------------------------------------------------------------------

    ghost method Assigned(channelId: int)
      modifies this`marks
      ensures marks == old(marks).(at := old(marks).at[channelId := Mark(state.V().Local(channelId), |ledger.emitted|)])
    {
      marks := marks.(at := marks.at[channelId := Mark(state.V().Local(channelId), |ledger.emitted|)]);
    }

    method HandleState(reply: Option<StateValues>, messageId: int) returns (claimed: bool)
      modifies this, state
      ensures V() == old(V()).HandleState(reply, messageId) && claimed
    {
      if stateRequestId == 0 || stateRequestId != messageId { return true; }
      stateRequestId := 0;
      if reply.None? { return true; }
      state.Reset(reply.value);
      Assigned(0);
      PublishState();
      DrainPending();
      return true;
    }

    method ApplyDifferenceBody(messages: seq<Message>, others: seq<Update>, users: seq<int>, chats: seq<Chat>)
      modifies this, state
      ensures V() == old(V()).ApplyDifferenceBody(messages, others, users, chats)
    {
      RememberChats(chats);
      var date := state.date;
      ghost var from := V();
      assert messages[0..] == messages;
      for i := 0 to |messages|
        invariant V().TellMessages(messages[i..], users, chats, date) == from.TellMessages(messages, users, chats, date)
      {
        assert messages[i..][0] == messages[i] && messages[i..][1..] == messages[i + 1..];
        Dispatch(RecoveredOut(WrapNewMessage(messages[i]), users, chats, date));
      }
      assert messages[|messages|..] == [];
      ghost var told := V();
      assert others[0..] == others;
      for i := 0 to |others|
        invariant V().TellOthers(others[i..], users, chats, date) == told.TellOthers(others, users, chats, date)
      {
        assert others[i..][0] == others[i] && others[i..][1..] == others[i + 1..];
        TellOther(others[i], users, chats, date);
      }
      assert others[|others|..] == [];
    }

    method AdvanceByReply(channelId: int, p: int32)
      modifies this, state
      ensures V() == old(V()).(inbox := old(V()).inbox.AdvanceByReply(channelId, p))
    {
      ghost var moves := p > state.V().Local(channelId);
      state.Advance(channelId, p);
      if moves { Assigned(channelId); }
    }

    method TellOther(update: Update, users: seq<int>, chats: seq<Chat>, date: int32)
      modifies this, state
      ensures V() == old(V()).TellOther(update, users, chats, date)
    {
      if update.pts.Some? {
        var updateChannel := ChannelIdOf(update);
        if updateChannel != 0 {
          AdvanceByReply(updateChannel, update.pts.value);
        }
      }
      Dispatch(RecoveredOut(update, users, chats, date));
    }

    method AdoptDifference(d: Difference)
      modifies this, state
      ensures V() == old(V()).AdoptDifference(d)
    {
      ApplyDifferenceBody(d.newMessages, d.otherUpdates, d.users, d.chats);
      var newState := if d.intermediate.Some? then d.intermediate.value else d.state;
      state.Reset(newState);
      Assigned(0);
      PublishState();
      DrainPending();
    }

    method JumpTo(p: int32)
      modifies this, state
      ensures V() == old(V()).JumpTo(p)
    {
      ClearPending();
      state.SetPts(p);
      state.ClearChannels();
      marks := Marks(|ledger.emitted|, map[0 := Mark(p, |ledger.emitted|)]);
      channelQueue := [];
      Dispatch(ResetOut);
    }

    method HandleDifference(d: Difference, messageId: int) returns (claimed: bool)
      modifies this, state
      ensures V() == old(V()).HandleDifference(d, messageId) && claimed
    {
      if differenceRequestId == 0 || differenceRequestId != messageId { return true; }
      differenceRequestId := 0;
      match d.kind {
        case DifferenceUnreadable =>
          RequestState();
        case DifferenceEmpty =>
          state.AdvanceSeq(d.seqNo, d.date);
          DrainPending();
        case DifferenceFull =>
          AdoptDifference(d);
        case DifferenceSlice =>
          AdoptDifference(d);
          RequestDifference();
        case DifferenceTooLong =>
          JumpTo(d.pts);
        case DifferenceUnknown =>
      }
      return true;
    }

    method SetChannelPts(channelId: int, p: int32)
      modifies this, state
      ensures V() == old(V()).SetChannelPts(channelId, p)
    {
      state.SetChannelPts(channelId, p);
      Assigned(channelId);
    }

    method HandleChannelDifference(d: ChannelDifference, messageId: int) returns (claimed: bool)
      modifies this, state
      ensures V() == old(V()).HandleChannelDifference(d, messageId) && claimed
    {
      if messageId !in channelRequestId { return true; }
      var channelId := channelRequestId[messageId];
      channelRequestId := channelRequestId - {messageId};
      match d.kind {
        case ChannelUnreadable =>
          PumpChannelQueue();
          return true;
        case ChannelEmpty =>
          SetChannelPts(channelId, d.pts);
        case ChannelFull =>
          ApplyDifferenceBody(d.newMessages, d.otherUpdates, d.users, d.chats);
          SetChannelPts(channelId, d.pts);
          if !d.final {
            channelQueue := channelQueue + [channelId];
          }
        case ChannelTooLong =>
          RememberChats(d.chats);
          SetChannelPts(channelId, d.dialogPts);
          DropPending(channelId);
          Dispatch(ChannelResetOut(channelId));
        case ChannelUnknown =>
      }
      DrainPending();
      PumpChannelQueue();
      return true;
    }

    method ExpectAffected(messageId: int, channelId: int)
      modifies this
      ensures V() == old(V()).(asks := old(V()).asks.ExpectAffected(messageId, channelId))
    {
      if messageId != 0 {
        affectedChannel := affectedChannel[messageId := channelId];
      }
    }

    method HandleAffected(p: int32, ptsCount: int32, messageId: int) returns (claimed: bool)
      modifies this, state
      ensures V() == old(V()).HandleAffected(p, ptsCount, messageId)
      ensures claimed == (messageId in old(affectedChannel))
    {
      if messageId !in affectedChannel { return false; }
      var channelId := affectedChannel[messageId];
      affectedChannel := affectedChannel - {messageId};
      match state.Check(channelId, p, ptsCount) {
        case Apply =>
          AdvanceByReply(channelId, p);
          if channelId == 0 { PublishState(); }
          DrainPending();
        case Duplicate =>
        case Gap =>
          if channelId == 0 {
            RequestDifference();
          } else {
            EnqueueChannel(channelId);
          }
      }
      return true;
    }

    method StartOver()
      modifies this, state
      ensures V() == old(V()).(inbox := old(V()).inbox.ClearPending().Clear()).RequestState()
    {
      state.Clear();
      marks := Marks(|ledger.emitted|, map[]);
      ClearPending();
      RequestState();
    }

    method ForgetChannel(channelId: int)
      modifies this, state
      ensures V() == old(V()).(inbox := old(V()).inbox.ForgetChannel(channelId).DropPending(channelId),
                               asks := old(V()).asks.ForgetHash(channelId))
    {
      state.ForgetChannel(channelId);
      Assigned(channelId);
      channelAccessHash := channelAccessHash - {channelId};
      DropPending(channelId);
    }

    method HandleRpcError(e: RpcError, messageId: int) returns (claimed: bool)
      modifies this, state
      ensures V() == old(V()).HandleRpcError(e, messageId)
      ensures claimed == (messageId == old(stateRequestId) || messageId == old(differenceRequestId)
                          || messageId in old(channelRequestId))
    {
      if stateRequestId == messageId {
        stateRequestId := 0;
        return true;
      }
      if differenceRequestId == messageId {
        differenceRequestId := 0;
        if e.PersistentTimestamp? {
          StartOver();
        }
        return true;
      }
      if messageId in channelRequestId {
        var channelId := channelRequestId[messageId];
        channelRequestId := channelRequestId - {messageId};
        if e.ChannelUnreachable? {
          ForgetChannel(channelId);
        }
        PumpChannelQueue();
        return true;
      }
      return false;
    }
  }
}

/** What the client is told is what the accounts say was emitted. */
module UpdateDispatches {
  import opened Integers
  import opened Options
  import opened UpdateTypes
  import opened SequenceCounters
  import opened Draining
  import opened UpdateInbox
  import opened UpdateAsks
  import opened UpdatePipeline
  import opened UpdateSafety
  import opened UpdateArrivals
  import opened UpdateLosses

  /** The pushed updates with a pts that the client was told are exactly the emitted ones, in
      the order they were emitted. */
  ghost predicate Told(v: View) {
    HandedOn(v.out) == Emissions(v.inbox.ledger.emitted)
  }

  lemma HandedOnSnoc(out: seq<Dispatch>, d: Dispatch)
    ensures HandedOn(out + [d]) == HandedOn(out) + (if InTurn(d) then [d] else [])
  {
    assert (out + [d])[..|out|] == out;
  }

  lemma {:induction false} EmissionsAt(items: seq<Item>)
    ensures |Emissions(items)| == |items|
    ensures forall k :: 0 <= k < |items| ==> Emissions(items)[k] == Emission(items[k])
  {
    if items != [] { EmissionsAt(items[1..]); }
  }

  // --- pieces -------------------------------------------------------------------------------

  /** Telling something out of turn. */
  lemma AsideKeepsTold(v: View, d: Dispatch)
    requires Told(v) && !InTurn(d)
    ensures Told(v.Tell(d))
  {
    HandedOnSnoc(v.out, d);
    assert HandedOn(v.out) + [] == HandedOn(v.out);
  }

  lemma EmittingKeepsTold(v: View, w: View, i: Item)
    requires Told(v) && InTurn(Emission(i))
    requires w.out == v.out + [Emission(i)] && w.inbox.ledger.emitted == v.inbox.ledger.emitted + [i]
    ensures Told(w)
  {
    HandedOnSnoc(v.out, Emission(i));
    EmissionsAppend(v.inbox.ledger.emitted, i);
  }

  lemma {:induction false} AllEmittingKeepTold(v: View, w: View, items: seq<Item>)
    requires Told(v) && forall k :: 0 <= k < |items| ==> InTurn(Emission(items[k]))
    requires w.out == v.out + Emissions(items) && w.inbox.ledger.emitted == v.inbox.ledger.emitted + items
    ensures Told(w)
    decreases |items|
  {
    if items == [] {
      assert w.out == v.out && w.inbox.ledger.emitted == v.inbox.ledger.emitted;
    } else {
      var n := v.(out := v.out + [Emission(items[0])],
                  inbox := v.inbox.(ledger := v.inbox.ledger.(emitted := v.inbox.ledger.emitted + [items[0]])));
      EmittingKeepsTold(v, n, items[0]);
      assert w.out == n.out + Emissions(items[1..]);
      assert w.inbox.ledger.emitted == n.inbox.ledger.emitted + items[1..];
      AllEmittingKeepTold(n, w, items[1..]);
    }
  }

  lemma WellReadInTurn(i: Item)
    requires WellRead(i)
    ensures InTurn(Emission(i))
  {
  }

  lemma DrainKeepsTold(v: View)
    requires Told(v) && LedgerOk(v.inbox)
    ensures Told(v.DrainPending())
  {
    var b := v.inbox;
    var items := Drain(b.counters, b.pending).emitted;
    DrainPartition(b.counters, b.pending);
    forall k | 0 <= k < |items| ensures InTurn(Emission(items[k])) {
      assert items[k] in multiset(items);
      assert items[k] in b.ledger.received;
      WellReadInTurn(items[k]);
    }
    if b.pending != [] {
      AllEmittingKeepTold(v, v.DrainPending(), items);
    } else {
      assert v.out + [] == v.out;
    }
  }

  // --- ingress ------------------------------------------------------------------------------

  lemma ApplyItemKeepsTold(v: View, i: Item)
    requires Ok(v) && Told(v) && WellRead(i)
    ensures Told(v.ApplyItem(i))
  {
    hide HandedOn, Emissions;
    var b := v.inbox;
    if b.counters.valid && b.counters.Verdict(i) == Apply {
      WellReadInTurn(i);
      var got := v.(inbox := b.Receive(i));
      var told := got.(inbox := got.inbox.Accept(i)).Tell(Emission(i));
      EmittingKeepsTold(v, told, i);
      var c := told.inbox.counters;
      AsideKeepsTold(told, StateOut(c.pts, c.qts, c.date, c.seqNo));
      SettleKeepsLedger(b, i);
      DrainKeepsTold(if i.channelId == 0 then told.Publish() else told);
    }
  }

  lemma ApplyOneKeepsTold(v: View, u: Update, users: seq<int>, chats: seq<Chat>, date: int32, messageId: int,
                          shortForm: bool)
    requires Ok(v) && Told(v)
    ensures Told(v.ApplyOne(u, users, chats, date, messageId, shortForm))
  {
    hide HandedOn, Emissions;
    if u.tooLong {
    } else if u.pts.None? {
      AsideKeepsTold(v, if shortForm then MessageOut(u, messageId) else UpdateOut(u, users, chats, date));
    } else {
      ApplyItemKeepsTold(v, MakeItem(u, users, chats, date, messageId, shortForm));
    }
  }

  lemma {:induction false} ApplyAllKeepsTold(v: View, list: seq<Update>, users: seq<int>, chats: seq<Chat>,
                                             date: int32, messageId: int)
    requires Ok(v) && Told(v)
    ensures Told(v.ApplyAll(list, users, chats, date, messageId))
    decreases |list|
  {
    hide Told, Ok;
    if list != [] {
      ApplyOneKeepsTold(v, list[0], users, chats, date, messageId, false);
      ApplyOneKeepsOk(v, list[0], users, chats, date, messageId, false);
      ApplyAllKeepsTold(v.ApplyOne(list[0], users, chats, date, messageId, false), list[1..], users, chats, date,
                        messageId);
    }
  }

  lemma ProcessUpdatesKeepsTold(v: View, u: Container, messageId: int)
    requires Ok(v) && Told(v)
    ensures Told(v.ProcessUpdates(u, messageId))
  {
    hide HandedOn, Emissions, InboxOk, AsksOk;
    RememberKeepsAsks(v.asks, u.chats);
    var r := v.(asks := v.asks.RememberChats(u.chats));
    var c := v.inbox.counters;
    SameLocalsKeepsOk(v.inbox, c.SetDate(u.date));
    SameLocalsKeepsOk(v.inbox, c.AdvanceSeq(u.seqEnd, u.date));
    match u.kind
    case TooLong =>
    case UnknownContainer =>
    case Short => ApplyOneKeepsTold(r.SetCounters(c.SetDate(u.date)), u.body, [], [], u.date, messageId, false);
    case ShortForm => ApplyOneKeepsTold(r, u.body, [], [], u.date, messageId, true);
    case Batch =>
      ApplyAllKeepsTold(r.SetCounters(c.SetDate(u.date)), u.list, u.users, u.chats, u.date, messageId);
      ApplyAllKeepsTold(r.SetCounters(c.AdvanceSeq(u.seqEnd, u.date)), u.list, u.users, u.chats, u.date, messageId);
  }

  // --- replies ------------------------------------------------------------------------------

  lemma {:induction false} MessagesKeepTold(v: View, messages: seq<Message>, users: seq<int>, chats: seq<Chat>,
                                            date: int32)
    requires Told(v)
    ensures Told(v.TellMessages(messages, users, chats, date))
    decreases |messages|
  {
    hide Told;
    if messages != [] {
      var d := RecoveredOut(WrapNewMessage(messages[0]), users, chats, date);
      AsideKeepsTold(v, d);
      MessagesKeepTold(v.Tell(d), messages[1..], users, chats, date);
    }
  }

  lemma {:induction false} OthersKeepTold(v: View, updates: seq<Update>, users: seq<int>, chats: seq<Chat>, date: int32)
    requires Told(v)
    ensures Told(v.TellOthers(updates, users, chats, date))
    decreases |updates|
  {
    hide HandedOn, Emissions;
    if updates != [] {
      var u := updates[0];
      var moved :=
        if u.pts.Some? && ChannelIdOf(u) != 0 then v.(inbox := v.inbox.AdvanceByReply(ChannelIdOf(u), u.pts.value))
            else v;
      AsideKeepsTold(moved, RecoveredOut(u, users, chats, date));
      OthersKeepTold(v.TellOther(u, users, chats, date), updates[1..], users, chats, date);
    }
  }

  lemma BodyKeepsTold(v: View, messages: seq<Message>, others: seq<Update>, users: seq<int>, chats: seq<Chat>)
    requires Told(v)
    ensures Told(v.ApplyDifferenceBody(messages, others, users, chats))
  {
    hide HandedOn, Emissions;
    var r := v.(asks := v.asks.RememberChats(chats));
    var date := v.inbox.counters.date;
    MessagesKeepTold(r, messages, users, chats, date);
    OthersKeepTold(r.TellMessages(messages, users, chats, date), others, users, chats, date);
  }

  /** Counters assigned, the state told and the queue drained, as most replies end. */
  lemma AssignedKeepsTold(v: View, to: Counters)
    requires Told(v) && LedgerOk(v.inbox)
    ensures Told(v.(inbox := v.inbox.Assign(to, 0)).Publish().DrainPending())
  {
    hide HandedOn, Emissions;
    var w := v.(inbox := v.inbox.Assign(to, 0));
    AsideKeepsTold(w, StateOut(to.pts, to.qts, to.date, to.seqNo));
    DrainKeepsTold(w.Publish());
  }

  lemma WeakLedger(b: Inbox)
    requires WeakOk(b)
    ensures LedgerOk(b)
  {
  }

  /** Only what was told and what was emitted matters. */
  lemma SameKeepsTold(v: View, w: View)
    requires Told(v) && v.out == w.out && v.inbox.ledger.emitted == w.inbox.ledger.emitted
    ensures Told(w)
  {
  }

  lemma AdoptKeepsTold(v: View, d: Difference)
    requires Ok(v) && Told(v)
    ensures Told(v.AdoptDifference(d))
  {
    hide Told, InboxOk, AsksOk, WeakOk, LedgerOk;
    OkIsWeak(v.inbox);
    BodyKeepsWeakOk(v, d.newMessages, d.otherUpdates, d.users, d.chats);
    BodyKeepsTold(v, d.newMessages, d.otherUpdates, d.users, d.chats);
    var w := v.ApplyDifferenceBody(d.newMessages, d.otherUpdates, d.users, d.chats);
    WeakLedger(w.inbox);
    AssignedKeepsTold(w, w.inbox.counters.Reset(if d.intermediate.Some? then d.intermediate.value else d.state));
  }

  lemma HandleDifferenceKeepsTold(v: View, d: Difference, messageId: int)
    requires Ok(v) && Told(v)
    ensures Told(v.HandleDifference(d, messageId))
  {
    hide Told, InboxOk, AsksOk, WeakOk, LedgerOk;
    if v.asks.differenceRequest != 0 && v.asks.differenceRequest == messageId {
      var r := v.(asks := v.asks.(differenceRequest := 0));
      SameKeepsTold(v, r);
      OkIsWeak(v.inbox);
      WeakLedger(v.inbox);
      match d.kind
      case DifferenceUnreadable => SameKeepsTold(r, r.RequestState());
      case DifferenceEmpty =>
        var w := r.SetCounters(v.inbox.counters.AdvanceSeq(d.seqNo, d.date));
        SameKeepsTold(r, w);
        SameLedgerOk(v.inbox, w.inbox);
        DrainKeepsTold(w);
      case DifferenceFull =>
        QuieterKeepsAsks(v.asks, r.asks);
        AdoptKeepsTold(r, d);
      case DifferenceSlice =>
        QuieterKeepsAsks(v.asks, r.asks);
        AdoptKeepsTold(r, d);
        SameKeepsTold(r.AdoptDifference(d), r.AdoptDifference(d).RequestDifference());
      case DifferenceTooLong => JumpKeepsTold(r, d.pts);
      case DifferenceUnknown =>
    }
  }

  lemma SameLedgerOk(a: Inbox, b: Inbox)
    requires LedgerOk(a) && a.ledger == b.ledger && a.pending == b.pending
    ensures LedgerOk(b)
  {
  }

  lemma JumpKeepsTold(v: View, p: int32)
    requires Told(v)
    ensures Told(v.JumpTo(p))
  {
    hide HandedOn, Emissions;
    var cleared := v.inbox.ClearPending();
    AsideKeepsTold(View(cleared.Assign(cleared.counters.SetPts(p), 0).ClearChannels(), v.asks.(queue := []),
                        v.out), ResetOut);
  }

  /** Every way a channel difference ends. */
  lemma SettledKeepsTold(v: View)
    requires Told(v) && WeakOk(v.inbox)
    ensures Told(v.DrainPending().Pump())
  {
    hide Told, WeakOk, LedgerOk;
    WeakLedger(v.inbox);
    DrainKeepsTold(v);
    SameKeepsTold(v.DrainPending(), v.DrainPending().Pump());
  }

  lemma ChannelFullKeepsTold(v: View, d: ChannelDifference, channel: int)
    requires Told(v) && WeakOk(v.inbox)
    ensures var told := v.ApplyDifferenceBody(d.newMessages, d.otherUpdates, d.users, d.chats)
                        .SetChannelPts(channel, d.pts);
            Told((if d.final then told else told.(asks := told.asks.Requeue(channel))).DrainPending().Pump())
  {
    hide Told, WeakOk;
    BodyKeepsWeakOk(v, d.newMessages, d.otherUpdates, d.users, d.chats);
    BodyKeepsTold(v, d.newMessages, d.otherUpdates, d.users, d.chats);
    var w := v.ApplyDifferenceBody(d.newMessages, d.otherUpdates, d.users, d.chats);
    var told := w.SetChannelPts(channel, d.pts);
    SetChannelPtsKeepsWeakOk(w.inbox, channel, d.pts);
    var end := if d.final then told else told.(asks := told.asks.Requeue(channel));
    SameKeepsTold(w, end);
    SettledKeepsTold(end);
  }

  lemma ChannelTooLongKeepsTold(v: View, d: ChannelDifference, channel: int)
    requires Told(v) && WeakOk(v.inbox)
    ensures var w := v.(asks := v.asks.RememberChats(d.chats)).SetChannelPts(channel, d.dialogPts);
            Told(w.(inbox := w.inbox.DropPending(channel)).Tell(ChannelResetOut(channel)).DrainPending().Pump())
  {
    hide Told, WeakOk;
    var w := v.(asks := v.asks.RememberChats(d.chats)).SetChannelPts(channel, d.dialogPts);
    SetChannelPtsKeepsWeakOk(v.inbox, channel, d.dialogPts);
    DropKeepsWeakOk(w.inbox, channel);
    var dropped := w.(inbox := w.inbox.DropPending(channel));
    SameKeepsTold(v, dropped);
    AsideKeepsTold(dropped, ChannelResetOut(channel));
    SettledKeepsTold(dropped.Tell(ChannelResetOut(channel)));
  }

  lemma HandleChannelDifferenceKeepsTold(v: View, d: ChannelDifference, messageId: int)
    requires Ok(v) && Told(v)
    ensures Told(v.HandleChannelDifference(d, messageId))
  {
    hide Told, InboxOk, AsksOk, WeakOk;
    if messageId in v.asks.inFlight {
      var channel := v.asks.inFlight[messageId];
      var r := v.(asks := v.asks.Release(messageId));
      SameKeepsTold(v, r);
      OkIsWeak(v.inbox);
      match d.kind
      case ChannelUnreadable => SameKeepsTold(r, r.Pump());
      case ChannelEmpty =>
        SetChannelPtsKeepsWeakOk(r.inbox, channel, d.pts);
        SameKeepsTold(r, r.SetChannelPts(channel, d.pts));
        SettledKeepsTold(r.SetChannelPts(channel, d.pts));
      case ChannelFull => ChannelFullKeepsTold(r, d, channel);
      case ChannelTooLong => ChannelTooLongKeepsTold(r, d, channel);
      case ChannelUnknown => SettledKeepsTold(r);
    }
  }

  lemma ReplyKeepsLedger(b: Inbox, channel: int, p: int32)
    ensures b.AdvanceByReply(channel, p).ledger == b.ledger && b.AdvanceByReply(channel, p).pending == b.pending
  {
  }

  lemma HandleAffectedKeepsTold(v: View, p: int32, count: int32, messageId: int)
    requires Ok(v) && Told(v)
    ensures Told(v.HandleAffected(p, count, messageId))
  {
    if messageId in v.asks.affected {
      var channel := v.asks.affected[messageId];
      var taken := v.(asks := v.asks.(affected := v.asks.affected - {messageId}));
      var moved := taken.(inbox := v.inbox.AdvanceByReply(channel, p));
      var c := moved.inbox.counters;
      LedgerIsOk(v);
      ReplyKeepsLedger(v.inbox, channel, p);
      LedgerOfSame(v.inbox, moved.inbox);
      hide Told, Ok, LedgerOk, View.DrainPending, Inbox.AdvanceByReply, Asks.RequestDifference, Asks.Enqueue;
      SameKeepsTold(v, taken);
      SameKeepsTold(v, moved);
      AsideKeepsTold(moved, StateOut(c.pts, c.qts, c.date, c.seqNo));
      DrainKeepsTold(if channel == 0 then moved.Publish() else moved);
      SameKeepsTold(v, taken.RequestDifference());
      SameKeepsTold(v, taken.Enqueue(channel));
    }
  }

  lemma LedgerIsOk(v: View)
    requires Ok(v)
    ensures LedgerOk(v.inbox)
  {
  }

  lemma LedgerOfSame(a: Inbox, b: Inbox)
    requires LedgerOk(a) && b.ledger == a.ledger && b.pending == a.pending
    ensures LedgerOk(b)
  {
  }

  lemma StepKeepsTold(v: View, e: Event)
    requires Ok(v) && Told(v)
    ensures Told(Step(v, e))
  {
    hide HandedOn, Emissions, QueueOk, RunsOk, AsksOk;
    match e
    case Pushed(u, id) => ProcessUpdatesKeepsTold(v, u, id);
    case StateReply(s, id) =>
      if s.Some? { AssignedKeepsTold(v.(asks := v.asks.(stateRequest := 0)), v.inbox.counters.Reset(s.value)); }
    case DifferenceReply(d, id) => HandleDifferenceKeepsTold(v, d, id);
    case ChannelDifferenceReply(d, id) => HandleChannelDifferenceKeepsTold(v, d, id);
    case AffectedReply(p, n, id) => HandleAffectedKeepsTold(v, p, n, id);
    case _ =>
  }

  lemma {:induction false} StepsKeepTold(v: View, es: seq<Event>)
    requires Ok(v) && Told(v)
    ensures Told(Steps(v, es))
    decreases |es|
  {
    hide Ok, Told, Step;
    if es != [] {
      StepKeepsTold(v, es[0]);
      StepKeepsOk(v, es[0]);
      StepsKeepTold(Step(v, es[0]), es[1..]);
    }
  }

  /** Over every run, each update with a pts that a push offered is counted once: told, dropped as
      old, discarded by one of the events that do so, or still parked. What was told is what was
      emitted, one for one and in order. */
  lemma EveryUpdateIsAccountedFor(c: Counters, ids: nat -> int, es: seq<Event>)
    requires Fresh(ids)
    ensures var v := Steps(Started(c, ids), es);
            var l := v.inbox.ledger;
            && AllOffered(Started(c, ids), es)
                 == multiset(l.emitted) + l.dropped + AllDiscarded(Started(c, ids), es) + ItemsOf(v.inbox.pending)
            && |HandedOn(v.out)| == |l.emitted|
            && forall k :: 0 <= k < |l.emitted| ==>
                 var i := l.emitted[k];
                 HandedOn(v.out)[k] == if i.shortForm then MessageOut(i.update, i.messageId)
                                       else UpdateOut(i.update, i.users, i.chats, i.date)
  {
    hide Steps, Started, AllOffered, AllDiscarded, Ok, Told;
    StartedOk(c, ids);
    StartedEmpty(c, ids);
    StepsKeepTold(Started(c, ids), es);
    AccountOfRun(Started(c, ids), es);
    ToldAreEmitted(Steps(Started(c, ids), es));
  }

  lemma AccountOfRun(v: View, es: seq<Event>)
    requires Ok(v) && v.inbox.ledger == Ledger(multiset{}, [], multiset{}, multiset{})
    ensures var w := Steps(v, es);
            AllOffered(v, es) == multiset(w.inbox.ledger.emitted) + w.inbox.ledger.dropped
                                 + AllDiscarded(v, es) + ItemsOf(w.inbox.pending)
  {
    hide Steps, AllOffered, AllDiscarded, Ok;
    StepsKeepOk(v, es);
    StepsReceive(v, es);
    StepsDiscard(v, es);
    OkLedger(Steps(v, es));
    assert multiset{} + AllOffered(v, es) == AllOffered(v, es);
    assert multiset{} + AllDiscarded(v, es) == AllDiscarded(v, es);
  }

  lemma ToldAreEmitted(v: View)
    requires Told(v)
    ensures var l := v.inbox.ledger;
            |HandedOn(v.out)| == |l.emitted|
            && forall k :: 0 <= k < |l.emitted| ==>
                 var i := l.emitted[k];
                 HandedOn(v.out)[k] == if i.shortForm then MessageOut(i.update, i.messageId)
                                       else UpdateOut(i.update, i.users, i.chats, i.date)
  {
    hide HandedOn, Emissions;
    EmissionsAt(v.inbox.ledger.emitted);
  }

  lemma StartedEmpty(c: Counters, ids: nat -> int)
    ensures Started(c, ids).inbox.ledger == Ledger(multiset{}, [], multiset{}, multiset{})
    ensures Told(Started(c, ids))
  {
  }

  lemma OkLedger(v: View)
    requires Ok(v)
    ensures var l := v.inbox.ledger;
            l.received == multiset(l.emitted) + l.dropped + l.discarded + ItemsOf(v.inbox.pending)
  {
  }

  // --- one sequence -------------------------------------------------------------------------

  /** What the client was told of one sequence since its counter was last assigned. */
  function HandedSince(v: View, c: int): seq<Update> {
    AllInTurn(v.out);
    UpdatesOn(From(HandedOn(v.out), MarkOf(v.inbox.marks, c).since), c)
  }

  lemma {:induction false} AllInTurn(out: seq<Dispatch>)
    ensures forall k :: 0 <= k < |HandedOn(out)| ==> InTurn(HandedOn(out)[k])
  {
    if out != [] { AllInTurn(out[..|out| - 1]); }
  }

  ghost predicate Carries(us: seq<Update>, items: seq<Item>) {
    |us| == |items| && forall k :: 0 <= k < |us| ==> us[k] == items[k].update
  }

  lemma {:induction false} UpdatesOfItems(ds: seq<Dispatch>, items: seq<Item>, c: int)
    requires |ds| == |items|
    requires forall k :: 0 <= k < |ds| ==> ds[k] == Emission(items[k]) && InTurn(ds[k]) && WellRead(items[k])
    ensures Carries(UpdatesOn(ds, c), OfSequence(items, c))
  {
    if ds != [] {
      var n := |ds| - 1;
      UpdatesOfItems(ds[..n], items[..n], c);
      assert Carried(ds[n]) == items[n].update;
    }
  }

  /** It is the sequence's run. */
  lemma HandedSinceIsRun(v: View, c: int)
    requires Told(v) && LedgerOk(v.inbox)
    ensures Carries(HandedSince(v, c), RunOf(v.inbox, c).items)
  {
    var e, n := v.inbox.ledger.emitted, MarkOf(v.inbox.marks, c).since;
    EmissionsAt(e);
    AllInTurn(v.out);
    var ds, items := From(HandedOn(v.out), n), From(e, n);
    forall k | 0 <= k < |ds| ensures ds[k] == Emission(items[k]) && InTurn(ds[k]) && WellRead(items[k]) {
      assert ds[k] == HandedOn(v.out)[n + k] && items[k] == e[n + k];
      assert e[n + k] in multiset(e);
      assert e[n + k] in v.inbox.ledger.received;
    }
    UpdatesOfItems(ds, items, c);
  }
}

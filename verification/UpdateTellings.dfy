/** Everything else the client is told: the pushed updates without a pts, what a difference
    recovers, and the announcements and resets. */
module UpdateTellings {
  import opened Integers
  import opened Options
  import opened UpdateTypes
  import opened SequenceCounters
  import opened Draining
  import opened UpdateInbox
  import opened UpdateAsks
  import opened UpdatePipeline
  import opened UpdateSafety
  import opened UpdateArrivals
  import opened UpdateLosses

  /** In turn are the pushed updates with a pts; at once those without. */
  datatype Sort = InTurnPush | AtOncePush | Recovery | Announcement | Restart

  function SortOf(d: Dispatch): Sort {
    match d
    case UpdateOut(u, _, _, _) => if u.pts.Some? then InTurnPush else AtOncePush
    case MessageOut(m, _) => if m.pts.Some? then InTurnPush else AtOncePush
    case RecoveredOut(_, _, _, _) => Recovery
    case StateOut(_, _, _, _) => Announcement
    case ResetOut => Restart
    case ChannelResetOut(_) => Restart
  }

  /** The dispatches of one sort, in the order told. */
  function OfSort(out: seq<Dispatch>, s: Sort): seq<Dispatch> {
    if out == [] then []
    else
      var last := out[|out| - 1];
      OfSort(out[..|out| - 1], s) + (if SortOf(last) == s then [last] else [])
  }

  lemma OfSortSnoc(out: seq<Dispatch>, d: Dispatch, s: Sort)
    ensures OfSort(out + [d], s) == OfSort(out, s) + (if SortOf(d) == s then [d] else [])
  {
    assert (out + [d])[..|out|] == out;
  }

  lemma {:induction false} OfSortJoin(a: seq<Dispatch>, b: seq<Dispatch>, s: Sort)
    ensures OfSort(a + b, s) == OfSort(a, s) + OfSort(b, s)
  {
    if b == [] {
      assert a + b == a;
    } else {
      var front, last := b[..|b| - 1], b[|b| - 1];
      assert a + b == (a + front) + [last] && b == front + [last];
      OfSortJoin(a, front, s);
      OfSortSnoc(a + front, last, s);
      OfSortSnoc(front, last, s);
    }
  }

  lemma {:induction false} OfOtherSort(out: seq<Dispatch>, s: Sort)
    requires forall k :: 0 <= k < |out| ==> SortOf(out[k]) != s
    ensures OfSort(out, s) == []
  {
    if out != [] { OfOtherSort(out[..|out| - 1], s); }
  }

  lemma {:induction false} OfOneSort(out: seq<Dispatch>, s: Sort)
    requires forall k :: 0 <= k < |out| ==> SortOf(out[k]) == s
    ensures OfSort(out, s) == out
  {
    if out != [] { OfOneSort(out[..|out| - 1], s); }
  }

  // --- what is owed -------------------------------------------------------------------------

  /** Of a list: every update without a pts, told with what came along with it. */
  function AtOnce(list: seq<Update>, users: seq<int>, chats: seq<Chat>, date: int32): seq<Dispatch>
    decreases |list|
  {
    if list == [] then []
    else
      (if list[0].tooLong || list[0].pts.Some? then [] else [UpdateOut(list[0], users, chats, date)])
      + AtOnce(list[1..], users, chats, date)
  }

  /** Of a container: none if it fails the seq test. */
  function PushedAtOnce(c: Counters, u: Container, messageId: int): seq<Dispatch> {
    match u.kind
    case Short => AtOnce([u.body], [], [], u.date)
    case ShortForm => if u.body.tooLong || u.body.pts.Some? then [] else [MessageOut(u.body, messageId)]
    case Batch => if FailsSeqTest(c, u) then [] else AtOnce(u.list, u.users, u.chats, u.date)
    case _ => []
  }

  /** Of a difference: every message as an update without a pts, then every other update. */
  function Recovered(messages: seq<Message>, others: seq<Update>, users: seq<int>, chats: seq<Chat>, date: int32)
    : seq<Dispatch>
  {
    seq(|messages|, k requires 0 <= k < |messages| =>
      RecoveredOut(Update(false, None, Some(messages[k]), None, 0, messages[k].content), users, chats, date))
    + seq(|others|, k requires 0 <= k < |others| => RecoveredOut(others[k], users, chats, date))
  }

  /** What an event other than a push tells, before whatever it then drains. */
  function Opening(v: View, e: Event): seq<Dispatch> {
    var c := v.inbox.counters;
    match e
    case StateReply(s, id) =>
      if s.Some? && id != 0 && id == v.asks.stateRequest
      then [StateOut(s.value.pts, s.value.qts, s.value.date, s.value.seqNo)] else []
    case DifferenceReply(d, id) =>
      if id == 0 || id != v.asks.differenceRequest then []
      else if d.kind == DifferenceFull || d.kind == DifferenceSlice then
        var s := if d.intermediate.Some? then d.intermediate.value else d.state;
        Recovered(d.newMessages, d.otherUpdates, d.users, d.chats, c.date) + [StateOut(s.pts, s.qts, s.date, s.seqNo)]
      else if d.kind == DifferenceTooLong then [ResetOut]
      else []
    case ChannelDifferenceReply(d, id) =>
      if id !in v.asks.inFlight then []
      else if d.kind == ChannelFull then Recovered(d.newMessages, d.otherUpdates, d.users, d.chats, c.date)
      else if d.kind == ChannelTooLong then [ChannelResetOut(v.asks.inFlight[id])]
      else []
    case AffectedReply(p, n, id) =>
      if id in v.asks.affected && v.asks.affected[id] == 0 && c.Check(0, p, n) == Apply
      then [StateOut(if p > c.pts then p else c.pts, c.qts, c.date, c.seqNo)] else []
    case _ => []
  }

  /** From a on these dispatches were told, and after them updates in turn. */
  ghost predicate Opens(a: seq<Dispatch>, b: seq<Dispatch>, first: seq<Dispatch>) {
    && |a| + |first| <= |b| && b[..|a|] == a && b[|a|..|a| + |first|] == first
    && forall k :: |a| + |first| <= k < |b| ==> SortOf(b[k]) == InTurnPush
  }

  // --- the drain ----------------------------------------------------------------------------

  /** What waits has a pts. */
  ghost predicate Waiting(ps: seq<Parked>) {
    forall i :: i in ItemsOf(ps) ==> i.update.pts.Some?
  }

  lemma OkWaiting(v: View)
    requires Ok(v)
    ensures Waiting(v.inbox.pending)
  {
    forall i | i in ItemsOf(v.inbox.pending) ensures i.update.pts.Some? { assert i in v.inbox.ledger.received; }
  }

  lemma DrainedInTurn(b: Inbox)
    requires Waiting(b.pending)
    ensures forall k :: 0 <= k < |Emissions(b.DrainEmits())| ==> SortOf(Emissions(b.DrainEmits())[k]) == InTurnPush
  {
    DrainPartition(b.counters, b.pending);
    var items := b.DrainEmits();
    EmissionsAre(items);
    forall k | 0 <= k < |items| ensures items[k].update.pts.Some? { assert items[k] in multiset(items); }
  }

  lemma {:induction false} EmissionsAre(items: seq<Item>)
    ensures |Emissions(items)| == |items|
    ensures forall k :: 0 <= k < |items| ==>
              Emissions(items)[k] == (if items[k].shortForm then MessageOut(items[k].update, items[k].messageId)
                                      else UpdateOut(items[k].update, items[k].users, items[k].chats, items[k].date))
  {
    if items != [] { EmissionsAre(items[1..]); }
  }

  lemma DrainOpens(v: View, a: seq<Dispatch>, first: seq<Dispatch>)
    requires Waiting(v.inbox.pending) && v.out == a + first
    ensures Opens(a, v.DrainPending().out, first)
  {
    DrainedInTurn(v.inbox);
    hide Emissions, Drain;
    var more := Emissions(v.inbox.DrainEmits());
    assert v.DrainPending().out == a + first + more;
    forall k | |a| + |first| <= k < |a + first + more| ensures SortOf((a + first + more)[k]) == InTurnPush {
      assert (a + first + more)[k] == more[k - |a| - |first|];
    }
  }

  lemma NothingMore(a: seq<Dispatch>, b: seq<Dispatch>, first: seq<Dispatch>)
    requires b == a + first
    ensures Opens(a, b, first)
  {
  }

  // --- replies ------------------------------------------------------------------------------

  lemma {:induction false} MessagesTell(v: View, messages: seq<Message>, users: seq<int>, chats: seq<Chat>,
                                        date: int32)
    ensures var w := v.TellMessages(messages, users, chats, date);
            w.out == v.out + Recovered(messages, [], users, chats, date)
            && w.inbox == v.inbox && w.asks == v.asks
    decreases |messages|
  {
    if messages == [] {
      assert v.out + Recovered(messages, [], users, chats, date) == v.out;
    } else {
      var d := RecoveredOut(Update(false, None, Some(messages[0]), None, 0, messages[0].content), users, chats, date);
      MessagesTell(v.Tell(d), messages[1..], users, chats, date);
      assert Recovered(messages, [], users, chats, date)
             == [d] + Recovered(messages[1..], [], users, chats, date);
      assert v.out + [d] + Recovered(messages[1..], [], users, chats, date)
             == v.out + ([d] + Recovered(messages[1..], [], users, chats, date));
    }
  }

  lemma {:induction false} OthersTell(v: View, others: seq<Update>, users: seq<int>, chats: seq<Chat>, date: int32)
    ensures var w := v.TellOthers(others, users, chats, date);
            w.out == v.out + Recovered([], others, users, chats, date) && w.inbox.pending == v.inbox.pending
    decreases |others|
  {
    if others == [] {
      assert v.out + Recovered([], others, users, chats, date) == v.out;
    } else {
      var d := RecoveredOut(others[0], users, chats, date);
      OthersTell(v.TellOther(others[0], users, chats, date), others[1..], users, chats, date);
      assert Recovered([], others, users, chats, date) == [d] + Recovered([], others[1..], users, chats, date);
      assert v.out + [d] + Recovered([], others[1..], users, chats, date)
             == v.out + ([d] + Recovered([], others[1..], users, chats, date));
    }
  }

  lemma BodyTells(v: View, messages: seq<Message>, others: seq<Update>, users: seq<int>, chats: seq<Chat>)
    ensures var w := v.ApplyDifferenceBody(messages, others, users, chats);
            w.out == v.out + Recovered(messages, others, users, chats, v.inbox.counters.date)
            && w.inbox.pending == v.inbox.pending
  {
    var date := v.inbox.counters.date;
    var r := v.(asks := v.asks.RememberChats(chats));
    MessagesTell(r, messages, users, chats, date);
    OthersTell(r.TellMessages(messages, users, chats, date), others, users, chats, date);
    var first, second := Recovered(messages, [], users, chats, date), Recovered([], others, users, chats, date);
    assert Recovered(messages, others, users, chats, date) == first + second;
    assert v.out + first + second == v.out + (first + second);
  }

  lemma AdoptTells(v: View, d: Difference)
    requires Waiting(v.inbox.pending)
    ensures var s := if d.intermediate.Some? then d.intermediate.value else d.state;
            Opens(v.out, v.AdoptDifference(d).out,
                  Recovered(d.newMessages, d.otherUpdates, d.users, d.chats, v.inbox.counters.date)
                  + [StateOut(s.pts, s.qts, s.date, s.seqNo)])
  {
    hide View.DrainPending, View.ApplyDifferenceBody, Recovered, Opens;
    BodyTells(v, d.newMessages, d.otherUpdates, d.users, d.chats);
    var w := v.ApplyDifferenceBody(d.newMessages, d.otherUpdates, d.users, d.chats);
    var s := if d.intermediate.Some? then d.intermediate.value else d.state;
    var r := Recovered(d.newMessages, d.otherUpdates, d.users, d.chats, v.inbox.counters.date);
    var told := w.(inbox := w.inbox.Assign(w.inbox.counters.Reset(s), 0)).Publish();
    assert told.out == v.out + r + [StateOut(s.pts, s.qts, s.date, s.seqNo)];
    assert v.out + r + [StateOut(s.pts, s.qts, s.date, s.seqNo)]
           == v.out + (r + [StateOut(s.pts, s.qts, s.date, s.seqNo)]);
    DrainOpens(told, v.out, r + [StateOut(s.pts, s.qts, s.date, s.seqNo)]);
  }

  lemma DifferenceTells(v: View, d: Difference, id: int)
    requires Ok(v)
    ensures Opens(v.out, v.HandleDifference(d, id).out, Opening(v, DifferenceReply(d, id)))
  {
    hide View.DrainPending, View.AdoptDifference, Recovered, Opens;
    OkWaiting(v);
    assert v.out == v.out + [];
    NothingMore(v.out, v.out, []);
    var r := v.(asks := v.asks.(differenceRequest := 0));
    AdoptTells(r, d);
    DrainOpens(r.SetCounters(v.inbox.counters.AdvanceSeq(d.seqNo, d.date)), v.out, []);
    NothingMore(v.out, v.out + [ResetOut], [ResetOut]);
  }

  lemma SettledTells(v: View, a: seq<Dispatch>, first: seq<Dispatch>)
    requires Waiting(v.inbox.pending) && v.out == a + first
    ensures Opens(a, v.DrainPending().Pump().out, first)
  {
    DrainOpens(v, a, first);
    hide View.DrainPending, Opens;
  }

  lemma ChannelDifferenceTells(v: View, d: ChannelDifference, id: int)
    requires Ok(v)
    ensures Opens(v.out, v.HandleChannelDifference(d, id).out, Opening(v, ChannelDifferenceReply(d, id)))
  {
    OkWaiting(v);
    assert v.out == v.out + [];
    NothingMore(v.out, v.out, []);
    if id in v.asks.inFlight {
      var channel := v.asks.inFlight[id];
      var r := v.(asks := v.asks.Release(id));
      BodyTells(r, d.newMessages, d.otherUpdates, d.users, d.chats);
      ChannelSplit(v.inbox.pending, channel);
      var first := Recovered(d.newMessages, d.otherUpdates, d.users, d.chats, v.inbox.counters.date);
      var told := r.ApplyDifferenceBody(d.newMessages, d.otherUpdates, d.users, d.chats).SetChannelPts(channel, d.pts);
      var reset := r.(asks := r.asks.RememberChats(d.chats)).SetChannelPts(channel, d.dialogPts);
      var gone := reset.(inbox := reset.inbox.DropPending(channel)).Tell(ChannelResetOut(channel));
      assert Waiting(gone.inbox.pending);
      hide View.DrainPending, View.ApplyDifferenceBody, Recovered, Opens, Waiting, View.Pump;
      match d.kind
      case ChannelUnreadable => PumpTellsNothing(r);
      case ChannelEmpty => SettledTells(r.SetChannelPts(channel, d.pts), v.out, []);
      case ChannelFull =>
        SettledTells(if d.final then told else told.(asks := told.asks.Requeue(channel)), v.out, first);
      case ChannelTooLong => SettledTells(gone, v.out, [ChannelResetOut(channel)]);
      case ChannelUnknown => SettledTells(r, v.out, []);
    }
  }

  lemma PumpTellsNothing(v: View)
    ensures v.Pump().out == v.out
  {
  }

  lemma StateTells(v: View, s: Option<StateValues>, id: int)
    requires Ok(v)
    ensures Opens(v.out, v.HandleState(s, id).out, Opening(v, StateReply(s, id)))
  {
    OkWaiting(v);
    assert v.out == v.out + [];
    NothingMore(v.out, v.out, []);
    if s.Some? {
      var d := StateOut(s.value.pts, s.value.qts, s.value.date, s.value.seqNo);
      var r := v.(asks := v.asks.(stateRequest := 0),
                  inbox := v.inbox.Assign(v.inbox.counters.Reset(s.value), 0)).Publish();
      hide View.DrainPending, Opens, Waiting;
      DrainOpens(r, v.out, [d]);
    }
  }

  lemma AffectedTells(v: View, p: int32, n: int32, id: int)
    requires Ok(v)
    ensures Opens(v.out, v.HandleAffected(p, n, id).out, Opening(v, AffectedReply(p, n, id)))
  {
    OkWaiting(v);
    assert v.out == v.out + [];
    NothingMore(v.out, v.out, []);
    hide Opens, Waiting, Counters.Check, Asks.RequestDifference, Asks.Enqueue, View.DrainPending;
    if id in v.asks.affected && v.inbox.counters.Check(v.asks.affected[id], p, n) == Apply {
      AppliedReplyTells(v.(asks := v.asks.(affected := v.asks.affected - {id})), v.asks.affected[id], p);
    }
  }

  lemma AppliedReplyTells(v: View, channel: int, p: int32)
    requires Waiting(v.inbox.pending)
    ensures var c := v.inbox.counters;
            var moved := v.(inbox := v.inbox.AdvanceByReply(channel, p));
            Opens(v.out, (if channel == 0 then moved.Publish() else moved).DrainPending().out,
                  if channel == 0 then [StateOut(if p > c.pts then p else c.pts, c.qts, c.date, c.seqNo)] else [])
  {
    MovedByReply(v.inbox, channel, p);
    hide View.DrainPending, Opens, Waiting, Inbox.AdvanceByReply;
    var c := v.inbox.counters;
    var moved := v.(inbox := v.inbox.AdvanceByReply(channel, p));
    assert v.out == v.out + [];
    if channel == 0 {
      DrainOpens(moved.Publish(), v.out, [StateOut(if p > c.pts then p else c.pts, c.qts, c.date, c.seqNo)]);
    } else {
      DrainOpens(moved, v.out, []);
    }
  }

  lemma MovedByReply(b: Inbox, channel: int, p: int32)
    ensures var m := b.AdvanceByReply(channel, p);
            && m.pending == b.pending
            && (channel == 0 ==> m.counters == b.counters.(pts := if p > b.counters.pts then p else b.counters.pts))
  {
  }

  /** Every event that is not a push tells exactly this, and then only what it drains: a full or
      partial difference every message and every other update it recovered, in order, and the
      state it leads to; and nothing else recovers, announces or resets anything. */
  lemma ReplyTells(v: View, e: Event)
    requires Ok(v) && !e.Pushed?
    ensures Opens(v.out, Step(v, e).out, Opening(v, e))
  {
    hide View.DrainPending, Opens, View.HandleState, View.HandleDifference, View.HandleChannelDifference,
         View.HandleAffected;
    NothingMore(v.out, v.out, []);
    assert v.out == v.out + [];
    match e
    case StateReply(s, id) => StateTells(v, s, id);
    case DifferenceReply(d, id) => DifferenceTells(v, d, id);
    case ChannelDifferenceReply(d, id) => ChannelDifferenceTells(v, d, id);
    case AffectedReply(p, n, id) => AffectedTells(v, p, n, id);
    case _ =>
  }

  /** The dispatches after n, by index: one for each message recovered, then one for each other
      update, and no recovery after them. */
  ghost predicate RecoveredFrom(out: seq<Dispatch>, n: nat, messages: seq<Message>, others: seq<Update>,
                                users: seq<int>, chats: seq<Chat>, date: int32) {
    && |out| >= n + |messages| + |others|
    && (forall k :: 0 <= k < |messages| ==>
          out[n + k] == RecoveredOut(Update(false, None, Some(messages[k]), None, 0, messages[k].content),
                                     users, chats, date))
    && (forall k :: 0 <= k < |others| ==> out[n + |messages| + k] == RecoveredOut(others[k], users, chats, date))
    && (forall k :: n + |messages| + |others| <= k < |out| ==> !out[k].RecoveredOut?)
  }

  lemma ByIndex(a: seq<Dispatch>, b: seq<Dispatch>, messages: seq<Message>, others: seq<Update>, users: seq<int>,
                chats: seq<Chat>, date: int32, tail: seq<Dispatch>)
    requires Opens(a, b, Recovered(messages, others, users, chats, date) + tail)
    requires forall k :: 0 <= k < |tail| ==> !tail[k].RecoveredOut?
    ensures RecoveredFrom(b, |a|, messages, others, users, chats, date)
  {
    var r := Recovered(messages, others, users, chats, date);
    var first := r + tail;
    forall k | 0 <= k < |first| ensures b[|a| + k] == first[k] { assert b[|a|..|a| + |first|][k] == b[|a| + k]; }
    forall k | 0 <= k < |messages| ensures b[|a| + k] == r[k] { assert first[k] == r[k]; }
    forall k | 0 <= k < |others| ensures b[|a| + |messages| + k] == RecoveredOut(others[k], users, chats, date) {
      assert first[|messages| + k] == r[|messages| + k];
    }
    forall k | |a| + |r| <= k < |b| ensures !b[k].RecoveredOut? {
      if k < |a| + |first| {
        assert b[|a| + (k - |a|)] == first[k - |a|] == tail[k - |a| - |r|];
      } else {
        assert SortOf(b[k]) == InTurnPush;
      }
    }
  }

  /** The k-th message recovered is the k-th dispatch after what had been told, and the other
      updates follow: of a full or partial difference that answers the one asked for. */
  lemma RecoveredInOrder(v: View, d: Difference, id: int)
    requires Ok(v) && id != 0 && id == v.asks.differenceRequest
    requires d.kind == DifferenceFull || d.kind == DifferenceSlice
    ensures var out := Step(v, DifferenceReply(d, id)).out;
            && |out| >= |v.out| && out[..|v.out|] == v.out
            && RecoveredFrom(out, |v.out|, d.newMessages, d.otherUpdates, d.users, d.chats, v.inbox.counters.date)
  {
    ReplyTells(v, DifferenceReply(d, id));
    var s := if d.intermediate.Some? then d.intermediate.value else d.state;
    hide Step, Recovered, RecoveredFrom;
    ByIndex(v.out, Step(v, DifferenceReply(d, id)).out, d.newMessages, d.otherUpdates, d.users, d.chats,
            v.inbox.counters.date, [StateOut(s.pts, s.qts, s.date, s.seqNo)]);
  }

  /** And of a channel's difference, final or not. */
  lemma ChannelRecoveredInOrder(v: View, d: ChannelDifference, id: int)
    requires Ok(v) && id in v.asks.inFlight && d.kind == ChannelFull
    ensures var out := Step(v, ChannelDifferenceReply(d, id)).out;
            && |out| >= |v.out| && out[..|v.out|] == v.out
            && RecoveredFrom(out, |v.out|, d.newMessages, d.otherUpdates, d.users, d.chats, v.inbox.counters.date)
  {
    ReplyTells(v, ChannelDifferenceReply(d, id));
    hide Step, Recovered, RecoveredFrom;
    var r := Recovered(d.newMessages, d.otherUpdates, d.users, d.chats, v.inbox.counters.date);
    assert r + [] == r;
    ByIndex(v.out, Step(v, ChannelDifferenceReply(d, id)).out, d.newMessages, d.otherUpdates, d.users, d.chats,
            v.inbox.counters.date, []);
  }

  /** No other event recovers anything. */
  lemma NothingElseRecovers(v: View, e: Event)
    requires Ok(v)
    requires e.DifferenceReply? ==> e.messageId == 0 || e.messageId != v.asks.differenceRequest
                                    || (e.difference.kind != DifferenceFull && e.difference.kind != DifferenceSlice)
    requires e.ChannelDifferenceReply? ==> e.messageId !in v.asks.inFlight || e.channelDifference.kind != ChannelFull
    ensures OfSort(Step(v, e).out, Recovery) == OfSort(v.out, Recovery)
  {
    if !e.Pushed? { OfOtherSort(Opening(v, e), Recovery); }
    hide Step, Opening, OfSort, PushedAtOnce;
    StepTells(v, e, Recovery);
  }

  // --- pushes -------------------------------------------------------------------------------

  /** Beside updates in turn and announcements these dispatches were told, all at once. */
  ghost predicate Pushes(a: seq<Dispatch>, b: seq<Dispatch>, aside: seq<Dispatch>) {
    && OfSort(b, AtOncePush) == OfSort(a, AtOncePush) + aside
    && OfSort(b, Recovery) == OfSort(a, Recovery)
    && OfSort(b, Restart) == OfSort(a, Restart)
  }

  lemma PushesMore(a: seq<Dispatch>, more: seq<Dispatch>)
    requires forall k :: 0 <= k < |more| ==> SortOf(more[k]) == InTurnPush || SortOf(more[k]) == Announcement
    ensures Pushes(a, a + more, [])
  {
    OfSortJoin(a, more, AtOncePush);
    OfSortJoin(a, more, Recovery);
    OfSortJoin(a, more, Restart);
    OfOtherSort(more, AtOncePush);
    OfOtherSort(more, Recovery);
    OfOtherSort(more, Restart);
  }

  lemma PushesTwice(a: seq<Dispatch>, b: seq<Dispatch>, c: seq<Dispatch>, first: seq<Dispatch>, second: seq<Dispatch>)
    requires Pushes(a, b, first) && Pushes(b, c, second)
    ensures Pushes(a, c, first + second)
  {
    assert OfSort(a, AtOncePush) + first + second == OfSort(a, AtOncePush) + (first + second);
  }

  lemma OnePush(out: seq<Dispatch>, d: Dispatch)
    requires SortOf(d) == AtOncePush
    ensures Pushes(out, out + [d], [d])
  {
    OfSortSnoc(out, d, AtOncePush);
    OfSortSnoc(out, d, Recovery);
    OfSortSnoc(out, d, Restart);
  }

  lemma ItemTells(v: View, i: Item)
    requires Ok(v) && i.update.pts.Some?
    ensures Pushes(v.out, v.ApplyItem(i).out, [])
  {
    hide Pushes, Emissions, Drain;
    var b := v.inbox;
    PushesMore(v.out, []);
    assert v.out + [] == v.out;
    if b.counters.valid && b.counters.Verdict(i) == Apply {
      OkWaiting(v);
      var got := v.(inbox := b.Receive(i));
      var told := got.(inbox := got.inbox.Accept(i)).Tell(Emission(i));
      var c := told.inbox.counters;
      var published := if i.channelId == 0 then told.Publish() else told;
      var first := [Emission(i)] + if i.channelId == 0 then [StateOut(c.pts, c.qts, c.date, c.seqNo)] else [];
      assert published.out == v.out + first;
      DrainOpens(published, v.out, first);
      hide Opens, View.DrainPending;
      OpensPushes(v.out, published.DrainPending().out, first);
    }
  }

  lemma OpensPushes(a: seq<Dispatch>, b: seq<Dispatch>, first: seq<Dispatch>)
    requires Opens(a, b, first)
    requires forall k :: 0 <= k < |first| ==> SortOf(first[k]) == InTurnPush || SortOf(first[k]) == Announcement
    ensures Pushes(a, b, [])
  {
    var more := b[|a|..];
    assert b == a + more;
    forall k | 0 <= k < |more| ensures SortOf(more[k]) == InTurnPush || SortOf(more[k]) == Announcement {
      assert more[k] == b[|a| + k];
      if k < |first| { assert b[|a|..|a| + |first|][k] == first[k]; }
    }
    hide Pushes, SortOf;
    PushesMore(a, more);
  }

  lemma OneTells(v: View, u: Update, users: seq<int>, chats: seq<Chat>, date: int32, messageId: int, shortForm: bool)
    requires Ok(v)
    ensures Pushes(v.out, v.ApplyOne(u, users, chats, date, messageId, shortForm).out,
                   if u.tooLong || u.pts.Some? then []
                   else if shortForm then [MessageOut(u, messageId)] else [UpdateOut(u, users, chats, date)])
  {
    hide Pushes, View.ApplyItem;
    PushesMore(v.out, []);
    assert v.out + [] == v.out;
    if !u.tooLong {
      if u.pts.None? {
        OnePush(v.out, if shortForm then MessageOut(u, messageId) else UpdateOut(u, users, chats, date));
      } else {
        ItemTells(v, MakeItem(u, users, chats, date, messageId, shortForm));
      }
    }
  }

  lemma {:induction false} AllTell(v: View, list: seq<Update>, users: seq<int>, chats: seq<Chat>, date: int32,
                                   messageId: int)
    requires Ok(v)
    ensures Pushes(v.out, v.ApplyAll(list, users, chats, date, messageId).out, AtOnce(list, users, chats, date))
    decreases |list|
  {
    hide Pushes, Ok, View.ApplyOne;
    if list == [] {
      PushesMore(v.out, []);
      assert v.out + [] == v.out;
    } else {
      var one := v.ApplyOne(list[0], users, chats, date, messageId, false);
      OneTells(v, list[0], users, chats, date, messageId, false);
      ApplyOneKeepsOk(v, list[0], users, chats, date, messageId, false);
      AllTell(one, list[1..], users, chats, date, messageId);
      PushesTwice(v.out, one.out, v.ApplyAll(list, users, chats, date, messageId).out,
                  if list[0].tooLong || list[0].pts.Some? then [] else [UpdateOut(list[0], users, chats, date)],
                  AtOnce(list[1..], users, chats, date));
    }
  }

  /** A push tells, beside updates in turn, exactly the updates without a pts that its container
      carries, one for one and in order; and none if it fails the seq test. */
  lemma PushTells(v: View, u: Container, messageId: int)
    requires Ok(v)
    ensures Pushes(v.out, Step(v, Pushed(u, messageId)).out, PushedAtOnce(v.inbox.counters, u, messageId))
  {
    PushIsOpened(v, u, messageId);
    OpenedOk(v, u);
    hide Ok, Opened, Pushes, View.ProcessUpdates, FailsSeqTest;
    PushesMore(v.out, []);
    assert v.out + [] == v.out;
    match u.kind
    case Short =>
      OneTells(Opened(v, u), u.body, [], [], u.date, messageId, false);
      JustOne(u.body, u.date);
    case ShortForm => OneTells(Opened(v, u), u.body, [], [], u.date, messageId, true);
    case Batch => AllTell(Opened(v, u), u.list, u.users, u.chats, u.date, messageId);
    case _ =>
  }

  lemma JustOne(u: Update, date: int32)
    ensures AtOnce([u], [], [], date) == if u.tooLong || u.pts.Some? then [] else [UpdateOut(u, [], [], date)]
  {
    assert [u][1..] == [];
  }

  // --- runs ---------------------------------------------------------------------------------

  /** What an event owes the client of a sort. */
  function Owed(v: View, e: Event, s: Sort): seq<Dispatch> {
    if e.Pushed? then (if s == AtOncePush then PushedAtOnce(v.inbox.counters, e.updates, e.messageId) else [])
    else OfSort(Opening(v, e), s)
  }

  /** Every event tells of each of these sorts exactly what it owes. */
  lemma StepTells(v: View, e: Event, s: Sort)
    requires Ok(v) && (s == AtOncePush || s == Recovery || s == Restart)
    ensures OfSort(Step(v, e).out, s) == OfSort(v.out, s) + Owed(v, e, s)
  {
    hide Step, Opening, PushedAtOnce;
    if e.Pushed? {
      PushTells(v, e.updates, e.messageId);
    } else {
      ReplyTells(v, e);
      hide Opens;
      OpensOfSort(v.out, Step(v, e).out, Opening(v, e), s);
    }
  }

  lemma OpensOfSort(a: seq<Dispatch>, b: seq<Dispatch>, first: seq<Dispatch>, s: Sort)
    requires Opens(a, b, first) && s != InTurnPush
    ensures OfSort(b, s) == OfSort(a, s) + OfSort(first, s)
  {
    hide OfSort, SortOf;
    var n := |a| + |first|;
    assert b == a + first + b[n..];
    OfSortJoin(a + first, b[n..], s);
    OfSortJoin(a, first, s);
    OfOtherSort(b[n..], s);
  }

  function AllOwed(v: View, es: seq<Event>, s: Sort): seq<Dispatch>
    decreases |es|
  {
    if es == [] then [] else Owed(v, es[0], s) + AllOwed(Step(v, es[0]), es[1..], s)
  }

  /** Over every run the updates without a pts told are those the pushes carried, the recoveries
      those the differences held, the resets those the server ordered: one for one and in order. */
  lemma {:induction false} RunTells(v: View, es: seq<Event>, s: Sort)
    requires Ok(v) && (s == AtOncePush || s == Recovery || s == Restart)
    ensures OfSort(Steps(v, es).out, s) == OfSort(v.out, s) + AllOwed(v, es, s)
    decreases |es|
  {
    hide Ok, Step, Owed;
    if es != [] {
      StepTells(v, es[0], s);
      StepKeepsOk(v, es[0]);
      RunTells(Step(v, es[0]), es[1..], s);
    }
  }
}

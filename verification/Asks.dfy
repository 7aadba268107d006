/** The half of the update manager that asks: outstanding requests, channel polls and the queue
    of channels waiting for a poll. Message ids come from `ids`, which every sender of the
    client shares. */
module UpdateAsks {
  import opened Integers
  import opened UpdateTypes
  import opened Options
  import opened SequenceCounters

  datatype Asks = Asks(
    ids: nat -> int,
    issued: nat,
    sent: seq<Sent>,
    stateRequest: int,
    differenceRequest: int,
    inFlight: map<int, int>,
    queue: seq<int>,
    accessHash: map<int, int>,
    affected: map<int, int>)
  {
    function Send(r: Request): Asks {
      this.(issued := issued + 1, sent := sent + [Sent(ids(issued), r)])
    }

    function RequestState(): Asks {
      if stateRequest != 0 then this
      else Send(GetState).(stateRequest := ids(issued))
    }

    /** A zero date or qts is sent as 1. */
    function RequestDifference(c: Counters): Asks {
      if !c.valid then RequestState()
      else if differenceRequest != 0 then this
      else
        Send(GetDifference(c.pts, if c.date != 0 then c.date else 1, if c.qts != 0 then c.qts else 1))
          .(differenceRequest := ids(issued))
    }

    function RequestChannelDifference(c: Counters, channel: int): Asks {
      if channel !in accessHash then this
      else
        var after := Send(GetChannelDifference(channel, accessHash[channel], c.ChannelPts(channel), DIFFERENCE_LIMIT));
        if ids(issued) != 0 then after.(inFlight := inFlight[ids(issued) := channel]) else after
    }

    function Pump(c: Counters): Asks
      decreases |queue|
    {
      if queue == [] || |inFlight| >= MAX_CHANNEL_POLLS then this
      else this.(queue := queue[1..]).RequestChannelDifference(c, queue[0]).Pump(c)
    }

    function Enqueue(c: Counters, channel: int): Asks {
      if channel == 0 || channel in inFlight.Values || channel in queue then this
      else this.(queue := queue + [channel]).Pump(c)
    }

    function Requeue(channel: int): Asks {
      this.(queue := queue + [channel])
    }

    function RememberChats(chats: seq<Chat>): Asks {
      this.(accessHash := Remember(accessHash, chats))
    }

    function Release(messageId: int): Asks {
      this.(inFlight := inFlight - {messageId})
    }

    function ForgetHash(channel: int): Asks {
      this.(accessHash := accessHash - {channel})
    }

    function Disconnected(): Asks {
      this.(stateRequest := 0, differenceRequest := 0, inFlight := map[])
    }

    function MessageChanged(oldMsg: int, newMsg: int): Asks {
      this.(stateRequest := if stateRequest == oldMsg then newMsg else stateRequest,
            differenceRequest := if differenceRequest == oldMsg then newMsg else differenceRequest,
            inFlight := if oldMsg in inFlight then (inFlight - {oldMsg})[newMsg := inFlight[oldMsg]] else inFlight)
    }

    function ExpectAffected(messageId: int, channel: int): Asks {
      if messageId != 0 then this.(affected := affected[messageId := channel]) else this
    }

    /** An id drawn by some other sender of the client. */
    function Draw(): Asks {
      this.(issued := issued + 1)
    }
  }

  function Remember(known: map<int, int>, chats: seq<Chat>): map<int, int>
    decreases |chats|
  {
    if chats == [] then known
    else
      var chat := chats[0];
      Remember(if chat.isChannel && chat.accessHash.Some? then known[chat.id := chat.accessHash.value] else known,
               chats[1..])
  }

  /** A channel is remembered under the hash of the last chat that names one for it. */
  lemma {:induction false} RememberMeaning(known: map<int, int>, chats: seq<Chat>, channel: int)
    ensures (exists k :: 0 <= k < |chats| && Names(chats[k], channel)) ==>
              exists k :: 0 <= k < |chats| && Names(chats[k], channel)
                          && (forall l :: k < l < |chats| ==> !Names(chats[l], channel))
                          && channel in Remember(known, chats)
                          && Remember(known, chats)[channel] == chats[k].accessHash.value
    ensures (forall k :: 0 <= k < |chats| ==> !Names(chats[k], channel)) ==>
              && (channel in Remember(known, chats) <==> channel in known)
              && (channel in known ==> Remember(known, chats)[channel] == known[channel])
    decreases |chats|
  {
    if chats != [] {
      var chat, rest := chats[0], chats[1..];
      var next := if chat.isChannel && chat.accessHash.Some? then known[chat.id := chat.accessHash.value] else known;
      RememberMeaning(next, rest, channel);
      assert forall k :: 0 <= k < |rest| ==> rest[k] == chats[k + 1];
      if k :| 0 <= k < |rest| && Names(rest[k], channel) {
        var j :| 0 <= j < |rest| && Names(rest[j], channel)
                 && (forall l :: j < l < |rest| ==> !Names(rest[l], channel))
                 && channel in Remember(next, rest) && Remember(next, rest)[channel] == rest[j].accessHash.value;
        forall l | j + 1 < l < |chats| ensures !Names(chats[l], channel) { assert chats[l] == rest[l - 1]; }
        assert Names(chats[j + 1], channel);
      } else if k :| 0 <= k < |chats| && Names(chats[k], channel) {
        assert k == 0;
        forall l | 0 < l < |chats| ensures !Names(chats[l], channel) { assert chats[l] == rest[l - 1]; }
      }
    }
  }

  predicate Names(chat: Chat, channel: int) {
    chat.isChannel && chat.accessHash.Some? && chat.id == channel
  }

  // --- the channel scheduler ----------------------------------------------------------------

  ghost predicate NoRepeats(s: seq<int>) {
    forall i, j :: 0 <= i < j < |s| ==> s[i] != s[j]
  }

  ghost predicate Injective(m: map<int, int>) {
    forall k, l :: k in m && l in m && k != l ==> m[k] != m[l]
  }

  /** A channel is polled or waiting at most once in all, and never the common sequence. */
  ghost predicate ScheduleOk(a: Asks) {
    && |a.inFlight| <= MAX_CHANNEL_POLLS
    && Injective(a.inFlight)
    && NoRepeats(a.queue)
    && (forall k :: k in a.inFlight ==> a.inFlight[k] !in a.queue && a.inFlight[k] != 0)
    && 0 !in a.queue
  }

  /** A channel waits only while every poll slot is taken. */
  ghost predicate Busy(a: Asks) {
    a.queue != [] ==> |a.inFlight| == MAX_CHANNEL_POLLS
  }

  /** Ids are never zero and never drawn twice. */
  ghost predicate Fresh(ids: nat -> int) {
    && (forall i :: ids(i) != 0)
    && (forall i, j :: i != j ==> ids(i) != ids(j))
  }

  ghost predicate Issued(a: Asks, id: int) {
    exists i: nat :: i < a.issued && a.ids(i) == id
  }

  ghost predicate Live(a: Asks, id: int) {
    id != 0 && (id == a.stateRequest || id == a.differenceRequest || id in a.inFlight)
  }

  /** Every outstanding id was issued, and stands for one request only. */
  ghost predicate IdsOk(a: Asks) {
    && Fresh(a.ids)
    && (forall id :: Live(a, id) ==> Issued(a, id))
    && (a.stateRequest != 0 ==> a.stateRequest != a.differenceRequest && a.stateRequest !in a.inFlight)
    && (a.differenceRequest != 0 ==> a.differenceRequest !in a.inFlight)
    && 0 !in a.inFlight
  }

  ghost predicate AsksOk(a: Asks) {
    ScheduleOk(a) && IdsOk(a)
  }

  lemma NextIdIsNew(a: Asks)
    requires IdsOk(a)
    ensures !Live(a, a.ids(a.issued)) && !Issued(a, a.ids(a.issued)) && a.ids(a.issued) != 0
    ensures a.ids(a.issued) !in a.inFlight
  {
  }

  lemma IssuedLater(a: Asks, b: Asks, id: int)
    requires Issued(a, id) && a.ids == b.ids && a.issued <= b.issued
    ensures Issued(b, id)
  {
    var i: nat :| i < a.issued && a.ids(i) == id;
    assert b.ids(i) == id;
  }

  lemma IdsKept(a: Asks, b: Asks)
    requires IdsOk(a) && a.ids == b.ids && a.issued <= b.issued
    requires b.stateRequest == 0 || b.stateRequest == a.stateRequest
    requires b.differenceRequest == 0 || b.differenceRequest == a.differenceRequest
    requires forall k :: k in b.inFlight ==> k in a.inFlight
    ensures IdsOk(b)
  {
    forall id | Live(b, id) ensures Issued(b, id) {
      assert Live(a, id);
      IssuedLater(a, b, id);
    }
  }

  lemma RequestKeepsAsks(a: Asks, c: Counters)
    requires AsksOk(a)
    ensures AsksOk(a.RequestState()) && AsksOk(a.RequestDifference(c))
  {
    NextIdIsNew(a);
    RequestStateIds(a);
    var b := a.RequestDifference(c);
    if c.valid && a.differenceRequest == 0 {
      forall id | Live(b, id) ensures Issued(b, id) {
        if id == a.ids(a.issued) { assert b.ids(a.issued) == id; }
        else { assert Live(a, id); IssuedLater(a, b, id); }
      }
    }
  }

  lemma RequestStateIds(a: Asks)
    requires IdsOk(a)
    ensures IdsOk(a.RequestState())
  {
    NextIdIsNew(a);
    var b := a.RequestState();
    if a.stateRequest == 0 {
      forall id | Live(b, id) ensures Issued(b, id) {
        if id == a.ids(a.issued) { assert b.ids(a.issued) == id; }
        else { assert Live(a, id); IssuedLater(a, b, id); }
      }
    }
  }

  /** Taking the head of the queue and polling it. */
  lemma PollKeepsAsks(a: Asks, c: Counters)
    requires AsksOk(a) && a.queue != [] && |a.inFlight| < MAX_CHANNEL_POLLS
    ensures AsksOk(a.(queue := a.queue[1..]).RequestChannelDifference(c, a.queue[0]))
  {
    NextIdIsNew(a);
    PollKeepsSchedule(a, c);
    hide ScheduleOk;
    var b := a.(queue := a.queue[1..]).RequestChannelDifference(c, a.queue[0]);
    if a.queue[0] in a.accessHash {
      forall id | Live(b, id) ensures Issued(b, id) {
        if id == a.ids(a.issued) { assert b.ids(a.issued) == id; }
        else { assert Live(a, id); IssuedLater(a, b, id); }
      }
    } else {
      IdsKept(a, b);
    }
  }

  lemma PollTakesSlot(a: Asks, c: Counters)
    requires AsksOk(a) && a.queue != []
    ensures var b := a.(queue := a.queue[1..]).RequestChannelDifference(c, a.queue[0]);
            && b.queue == a.queue[1..]
            && |b.inFlight| == |a.inFlight| + if a.queue[0] in a.accessHash then 1 else 0
  {
    NextIdIsNew(a);
    var b := a.(queue := a.queue[1..]).RequestChannelDifference(c, a.queue[0]);
    if a.queue[0] in a.accessHash {
      assert b.inFlight.Keys == a.inFlight.Keys + {a.ids(a.issued)};
      assert |b.inFlight.Keys| == |a.inFlight.Keys| + 1;
    }
  }

  lemma PollKeepsSchedule(a: Asks, c: Counters)
    requires AsksOk(a) && a.queue != [] && |a.inFlight| < MAX_CHANNEL_POLLS
    ensures ScheduleOk(a.(queue := a.queue[1..]).RequestChannelDifference(c, a.queue[0]))
  {
    NextIdIsNew(a);
    PollTakesSlot(a, c);
    hide IdsOk, Issued, Live, ScheduleOk;
    PolledSchedule(a, a.(queue := a.queue[1..]).RequestChannelDifference(c, a.queue[0]), a.ids(a.issued));
  }

  /** The head of the queue, polled under a new id or passed over. */
  lemma PolledSchedule(a: Asks, b: Asks, id: int)
    requires ScheduleOk(a) && a.queue != [] && b.queue == a.queue[1..] && |b.inFlight| <= MAX_CHANNEL_POLLS
    requires b.inFlight == a.inFlight || (id !in a.inFlight && b.inFlight == a.inFlight[id := a.queue[0]])
    ensures ScheduleOk(b)
  {
    assert forall x :: x in b.queue ==> x in a.queue;
    forall k | 0 <= k < |b.queue| ensures b.queue[k] != a.queue[0] { assert a.queue[k + 1] != a.queue[0]; }
  }

  /** Pumping keeps the schedule and leaves no channel waiting beside a free slot. */
  lemma {:induction false} PumpFillsSlots(a: Asks, c: Counters)
    requires AsksOk(a)
    ensures AsksOk(a.Pump(c)) && Busy(a.Pump(c))
    decreases |a.queue|
  {
    if a.queue != [] && |a.inFlight| < MAX_CHANNEL_POLLS {
      PollKeepsAsks(a, c);
      PumpFillsSlots(a.(queue := a.queue[1..]).RequestChannelDifference(c, a.queue[0]), c);
    }
  }

  lemma RequeueKeepsAsks(a: Asks, channel: int)
    requires AsksOk(a) && channel != 0 && channel !in a.inFlight.Values && channel !in a.queue
    ensures AsksOk(a.Requeue(channel))
  {
    IdsKept(a, a.Requeue(channel));
    forall k | k in a.inFlight ensures a.inFlight[k] != channel { assert a.inFlight[k] in a.inFlight.Values; }
  }

  lemma EnqueueKeepsAsks(a: Asks, c: Counters, channel: int)
    requires AsksOk(a)
    ensures AsksOk(a.Enqueue(c, channel)) && (Busy(a) ==> Busy(a.Enqueue(c, channel)))
  {
    if channel != 0 && channel !in a.inFlight.Values && channel !in a.queue {
      RequeueKeepsAsks(a, channel);
      PumpFillsSlots(a.Requeue(channel), c);
    }
  }

  /** The channel has a poll in flight or coming. */
  predicate Attended(a: Asks, channel: int) {
    channel in a.inFlight.Values || channel in a.queue
  }

  lemma {:induction false} PumpAttends(a: Asks, c: Counters, channel: int)
    requires AsksOk(a)
    ensures (channel in a.accessHash && Attended(a, channel)) || channel in a.inFlight.Values
            ==> Attended(a.Pump(c), channel)
    ensures !Attended(a, channel) ==> !Attended(a.Pump(c), channel)
    decreases |a.queue|
  {
    if a.queue != [] && |a.inFlight| < MAX_CHANNEL_POLLS {
      var b := a.(queue := a.queue[1..]).RequestChannelDifference(c, a.queue[0]);
      PollKeepsAsks(a, c);
      PollAttends(a, c, channel);
      PumpAttends(b, c, channel);
    }
  }

  lemma ValueAt<K, V>(m: map<K, V>, x: V) returns (j: K)
    requires x in m.Values
    ensures j in m && m[j] == x
  {
    j :| j in m && m[j] == x;
  }

  lemma ValuesWith(m: map<int, int>, k: int, v: int)
    requires k !in m
    ensures m[k := v].Values == m.Values + {v}
  {
    var n := m[k := v];
    forall x | x in n.Values ensures x in m.Values + {v} {
      var j := ValueAt(n, x);
      assert j != k ==> m[j] == x;
    }
    forall x | x in m.Values ensures x in n.Values {
      var j := ValueAt(m, x);
      assert n[j] == x;
    }
    assert n[k] == v;
  }

  lemma PollAttends(a: Asks, c: Counters, channel: int)
    requires AsksOk(a) && a.queue != []
    ensures var b := a.(queue := a.queue[1..]).RequestChannelDifference(c, a.queue[0]);
            && (channel in a.accessHash && Attended(a, channel) ==> Attended(b, channel))
            && (channel in a.inFlight.Values ==> channel in b.inFlight.Values)
            && (!Attended(a, channel) ==> !Attended(b, channel))
            && (channel == a.queue[0] && channel !in a.accessHash ==> !Attended(b, channel))
            && b.accessHash == a.accessHash
  {
    NextIdIsNew(a);
    var b := a.(queue := a.queue[1..]).RequestChannelDifference(c, a.queue[0]);
    assert forall x :: x in a.queue <==> x == a.queue[0] || x in a.queue[1..];
    if a.queue[0] in a.accessHash {
      ValuesWith(a.inFlight, a.ids(a.issued), a.queue[0]);
    } else {
      assert b.inFlight == a.inFlight;
      if channel == a.queue[0] {
        forall k | 0 <= k < |b.queue| ensures b.queue[k] != channel { assert a.queue[k + 1] != a.queue[0]; }
        forall k | k in a.inFlight ensures a.inFlight[k] != channel { assert a.inFlight[k] !in a.queue; }
      }
    }
  }

  /** How many waiting channels can be polled at all. */
  function Pollable(queue: seq<int>, accessHash: map<int, int>): nat
    decreases |queue|
  {
    if queue == [] then 0 else (if queue[0] in accessHash then 1 else 0) + Pollable(queue[1..], accessHash)
  }

  lemma {:induction false} PollableSnoc(queue: seq<int>, accessHash: map<int, int>, channel: int)
    ensures Pollable(queue + [channel], accessHash)
              == Pollable(queue, accessHash) + if channel in accessHash then 1 else 0
    decreases |queue|
  {
    if queue == [] {
      assert [channel][1..] == [];
    } else {
      assert (queue + [channel])[1..] == queue[1..] + [channel];
      PollableSnoc(queue[1..], accessHash, channel);
    }
  }

  /** The last in the queue, if it cannot be polled, is reached and forgotten exactly when the
      polls before it leave a slot free. */
  lemma {:induction false} PumpReachesLast(a: Asks, c: Counters, channel: int)
    requires AsksOk(a) && a.queue != [] && a.queue[|a.queue| - 1] == channel && channel !in a.accessHash
    ensures !Attended(a.Pump(c), channel) <==> |a.inFlight| + Pollable(a.queue, a.accessHash) < MAX_CHANNEL_POLLS
    decreases |a.queue|
  {
    if |a.inFlight| < MAX_CHANNEL_POLLS {
      var b := a.(queue := a.queue[1..]).RequestChannelDifference(c, a.queue[0]);
      PollKeepsAsks(a, c);
      PollTakesSlot(a, c);
      PollAttends(a, c, channel);
      if b.queue == [] { PumpAttends(b, c, channel); } else { PumpReachesLast(b, c, channel); }
    }
  }

  /** A channel that is queued is polled or waits for a slot, except exactly when its access hash is
      not known and the waiting channels that can be polled leave a slot free: then it is forgotten,
      and its gap has no poll. */
  lemma EnqueueForgetsIff(a: Asks, c: Counters, channel: int)
    requires AsksOk(a) && channel != 0
    ensures !Attended(a.Enqueue(c, channel), channel) <==>
              && !Attended(a, channel) && channel !in a.accessHash
              && |a.inFlight| + Pollable(a.queue, a.accessHash) < MAX_CHANNEL_POLLS
  {
    if !Attended(a, channel) {
      RequeueKeepsAsks(a, channel);
      var r := a.Requeue(channel);
      assert channel in r.queue by { assert r.queue[|a.queue|] == channel; }
      PumpAttends(r, c, channel);
      PollableSnoc(a.queue, a.accessHash, channel);
      if channel !in a.accessHash { PumpReachesLast(r, c, channel); }
    }
  }

  /** An answered poll leaves its channel free to be queued again. */
  lemma ReleaseKeepsAsks(a: Asks, messageId: int)
    requires AsksOk(a) && messageId in a.inFlight
    ensures AsksOk(a.Release(messageId))
    ensures a.inFlight[messageId] !in a.Release(messageId).inFlight.Values && a.inFlight[messageId] !in a.queue
    ensures |a.Release(messageId).inFlight| == |a.inFlight| - 1
    ensures !Live(a.Release(messageId), messageId) && a.inFlight[messageId] != 0
  {
    var b := a.Release(messageId);
    assert b.inFlight.Keys == a.inFlight.Keys - {messageId};
    IdsKept(a, b);
    forall k | k in b.inFlight ensures b.inFlight[k] != a.inFlight[messageId] { assert k in a.inFlight; }
  }

  lemma DisconnectKeepsAsks(a: Asks)
    requires AsksOk(a)
    ensures AsksOk(a.Disconnected())
    ensures Busy(a.Disconnected()) <==> a.queue == []
  {
    IdsKept(a, a.Disconnected());
  }

  /** A rename to a newly drawn id moves the request, whole, to that id. */
  lemma RenameKeepsAsks(a: Asks, oldMsg: int)
    requires AsksOk(a) && oldMsg != 0
    ensures var newMsg := a.ids(a.issued); var b := a.Draw().MessageChanged(oldMsg, newMsg);
            && AsksOk(b) && (Busy(a) ==> Busy(b))
            && !Live(b, oldMsg) && (Live(b, newMsg) <==> Live(a, oldMsg))
            && (forall id :: id != oldMsg && id != newMsg ==> (Live(b, id) <==> Live(a, id)))
  {
    RenameMovesLife(a, oldMsg);
    RenameKeepsSchedule(a, oldMsg);
    RenameKeepsIds(a, oldMsg);
  }

  lemma RenameMovesLife(a: Asks, oldMsg: int)
    requires IdsOk(a) && oldMsg != 0
    ensures var newMsg := a.ids(a.issued); var b := a.Draw().MessageChanged(oldMsg, newMsg);
            && !Live(b, oldMsg) && (Live(b, newMsg) <==> Live(a, oldMsg))
            && (forall id :: id != oldMsg && id != newMsg ==> (Live(b, id) <==> Live(a, id)))
  {
    NextIdIsNew(a);
    assert Live(a, oldMsg) ==> oldMsg != a.ids(a.issued);
    hide Issued, Fresh;
  }

  lemma RenameKeepsSchedule(a: Asks, oldMsg: int)
    requires AsksOk(a) && oldMsg != 0
    ensures var b := a.Draw().MessageChanged(oldMsg, a.ids(a.issued));
            ScheduleOk(b) && |b.inFlight| == |a.inFlight| && b.queue == a.queue
  {
    NextIdIsNew(a);
    hide IdsOk, Issued, Live;
    var newMsg := a.ids(a.issued);
    var b := a.Draw().MessageChanged(oldMsg, newMsg);
    if oldMsg in a.inFlight {
      assert b.inFlight.Keys == a.inFlight.Keys - {oldMsg} + {newMsg};
      assert |b.inFlight.Keys| == |a.inFlight.Keys|;
    }
  }

  lemma RenameKeepsIds(a: Asks, oldMsg: int)
    requires AsksOk(a) && oldMsg != 0
    ensures IdsOk(a.Draw().MessageChanged(oldMsg, a.ids(a.issued)))
  {
    var newMsg := a.ids(a.issued);
    var b := a.Draw().MessageChanged(oldMsg, newMsg);
    NextIdIsNew(a);
    RenameMovesLife(a, oldMsg);
    hide ScheduleOk;
    forall id | Live(b, id) ensures Issued(b, id) {
      if id == newMsg { assert b.ids(a.issued) == id; }
      else { assert Live(a, id); IssuedLater(a, b, id); }
    }
  }
}

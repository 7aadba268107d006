/** Where a request goes when it is sent again, and the ways in which it is not. */
module TransportReplay {
  import opened Integers
  import opened Bytes
  import opened WireTrace
  import opened RequestLedger
  import opened MtTransport
  import opened TransportSafety

  // --- one request --------------------------------------------------------------------------

  /** The request is pending under `id`, and the client was told that this is what `oldId` became. */
  predicate Became(t: Transport, oldId: int64, id: int64, body: bytes) {
    && id in t.desk.pending && t.desk.pending[id] == body
    && (oldId != 0 ==> (oldId, id) in t.renames)
  }

  lemma FlushFrame(w: World, t: Transport)
    ensures var f := Flush(w, t);
            f.desk == t.desk && f.renames == t.renames && f.keyed == t.keyed && f.initialized == t.initialized
            && f.saved == t.saved
  {
    hide AckBody, Issue, Count;
    IssueFrame(t.line, w.clock);
  }

  lemma SentIsPending(w: World, t: Transport, data: bytes, oldId: int64)
    requires t.keyed && data != []
    ensures var (id, after) := SendContent(w, t, data, oldId);
            Became(after, oldId, id, data) && after.line.last == id && after.keyed
  {
    hide Flush, Issue, Count;
    FlushFrame(w, t);
    IssueFrame(Flush(w, t).line, w.clock);
  }

  /** Every pending request stays pending, and no rename is forgotten. */
  ghost predicate Kept(a: Transport, b: Transport) {
    && (forall id :: id in a.desk.pending ==> id in b.desk.pending && b.desk.pending[id] == a.desk.pending[id])
    && (forall r :: r in a.renames ==> r in b.renames)
  }

  lemma KeptTwice(a: Transport, b: Transport, c: Transport)
    requires Kept(a, b) && Kept(b, c)
    ensures Kept(a, c)
  {
  }

  /** So it is as long as the new id is one that no content frame has carried. */
  lemma SentDisturbsNone(w: World, t: Transport, data: bytes, oldId: int64)
    requires t.keyed && Covered(t) && Distinct(SendContent(w, t, data, oldId).1.line.wire)
    ensures var after := SendContent(w, t, data, oldId).1;
            Kept(t, after) && after.keyed
            && after.desk.flood == t.desk.flood && after.desk.migration == t.desk.migration
  {
    hide Flush, Issue, Count, Distinct;
    if data != [] {
      FlushFrame(w, t);
      var f := Flush(w, t);
      FlushExtends(w, t);
      IssueFrame(f.line, w.clock);
      var line := Seal(f.line, w.clock, Packed(w, data), true);
      LastIsNew(f.line.wire, line.wire[|f.line.wire|]);
      forall id | id in t.desk.pending ensures id != line.last { StaysOnWire(t.line, f.line, id); }
    }
  }

  lemma FlushExtends(w: World, t: Transport)
    ensures Extends(t.line, Flush(w, t).line)
  {
    hide AckBody, Issue, Count;
    IssueFrame(t.line, w.clock);
  }

  // --- a content frame and its acknowledgement ----------------------------------------------

  /** A request sent while acknowledgements wait goes out second: the acknowledgement before it
      takes the smaller id and an even number, the request the odd number after it. */
  lemma AcknowledgementGoesFirst(w: World, t: Transport, data: bytes, oldId: int64)
    requires t.keyed && t.initialized && t.acks != [] && data != []
    ensures var l, n := SendContent(w, t, data, oldId).1.line, |t.line.wire|;
            && |l.wire| == n + 2 && l.wire[..n] == t.line.wire
            && l.wire[n].Sealed? && l.wire[n + 1].Sealed?
            && !l.wire[n].content && l.wire[n + 1].content
            && l.wire[n].seqno == Wrap32(2 * t.line.sequence)
            && l.wire[n + 1].seqno == Wrap32(2 * t.line.sequence + 1)
            && (LineOk(t.line) && n + 1 < FRAME_LIMIT ==> l.wire[n].id < l.wire[n + 1].id)
            && l.sequence == Wrap32(t.line.sequence + 1)
            && SendContent(w, t, data, oldId).1.acks == []
  {
    hide AckBody, Issue, Wrap32, Packed, Hold, LineOk;
    AckBodyIsSomething(t.acks);
    IssueFrame(t.line, w.clock);
    var f := Flush(w, t);
    IssueFrame(f.line, w.clock);
    if LineOk(t.line) {
      SealKeepsOk(t.line, w.clock, Packed(w, AckBody(t.acks)), false);
      IssueGrows(f.line, w.clock);
    }
  }

  lemma AckBodyIsSomething(acks: seq<int64>)
    ensures AckBody(acks) != []
  {
  }

  // --- replay -------------------------------------------------------------------------------

  lemma OneIsResent(w: World, t: Transport, shelf: Shelf, key: int64)
    requires t.keyed && Covered(t) && Distinct(ResendOne(w, t, shelf, key).line.wire)
    ensures var after := ResendOne(w, t, shelf, key);
            && Kept(t, after) && after.keyed
            && On(after.desk, shelf) == On(t.desk, shelf) - {key}
            && (Take(On(t.desk, shelf), key) != [] ==>
                  Became(after, key, after.line.last, Take(On(t.desk, shelf), key)))
  {
    hide SendContent, Became, Distinct;
    var taken := t.(desk := Unshelve(t.desk, shelf, key));
    var body := Take(On(t.desk, shelf), key);
    SentDisturbsNone(w, taken, body, key);
    if body != [] { SentIsPending(w, taken, body, key); }
  }

  ghost predicate Arrived(before: Transport, after: Transport, shelf: Shelf, key: int64) {
    Take(On(before.desk, shelf), key) != [] ==>
      exists id :: Became(after, key, id, Take(On(before.desk, shelf), key))
  }

  lemma BecameStays(a: Transport, b: Transport, oldId: int64, id: int64, body: bytes)
    requires Became(a, oldId, id, body) && Kept(a, b)
    ensures Became(b, oldId, id, body)
  {
  }

  function Keys(keys: seq<int64>): set<int64> {
    set i | 0 <= i < |keys| :: keys[i]
  }

  lemma KeysOf(keys: seq<int64>)
    requires keys != []
    ensures Keys(keys) == {keys[0]} + Keys(keys[1..])
  {
    forall i | 0 <= i < |keys[1..]| ensures keys[1..][i] in Keys(keys) { assert keys[1..][i] == keys[i + 1]; }
    forall i | 0 < i < |keys| ensures keys[i] in Keys(keys[1..]) { assert keys[i] == keys[1..][i - 1]; }
  }

  /** Replaying a shelf takes every request on it back to the pending table under an id that the
      client has been told of, disturbs none that is pending, and leaves of the shelf only what
      was not among the keys, as long as no two content frames carry one id. */
  lemma {:induction false} ShelfIsResent(w: World, t: Transport, shelf: Shelf, keys: seq<int64>)
    requires Sound(t) && t.keyed && Covered(t)
    requires forall i, j :: 0 <= i < j < |keys| ==> keys[i] != keys[j]
    requires Distinct(Resend(w, t, shelf, keys).line.wire)
    ensures var after := Resend(w, t, shelf, keys);
            && Kept(t, after)
            && On(after.desk, shelf) == On(t.desk, shelf) - Keys(keys)
            && forall i :: 0 <= i < |keys| ==> Arrived(t, after, shelf, keys[i])
    decreases |keys|
  {
    hide Sound, ResendOne, Became, Covered, Distinct, Kept, Keys;
    if keys == [] {
      KeptSame(t);
      NoKeys();
    } else {
      var one, rest := ResendOne(w, t, shelf, keys[0]), keys[1..];
      var after := Resend(w, t, shelf, keys);
      DistinctOne(w, t, shelf, keys);
      OneIsResent(w, t, shelf, keys[0]);
      ShelfIsResent(w, one, shelf, rest);
      KeptTwice(t, one, after);
      KeysOf(keys);
      if Take(On(t.desk, shelf), keys[0]) != [] {
        BecameStays(one, after, keys[0], one.line.last, Take(On(t.desk, shelf), keys[0]));
      }
      forall i | 1 <= i < |keys| ensures Arrived(t, after, shelf, keys[i]) {
        assert keys[i] == rest[i - 1];
        assert Take(On(one.desk, shelf), keys[i]) == Take(On(t.desk, shelf), keys[i]);
        assert Arrived(one, after, shelf, rest[i - 1]);
      }
    }
  }

  lemma KeptSame(t: Transport)
    ensures Kept(t, t)
  {
  }

  lemma NoKeys()
    ensures Keys([]) == {}
  {
  }

  lemma DistinctOne(w: World, t: Transport, shelf: Shelf, keys: seq<int64>)
    requires Sound(t) && Covered(t) && keys != [] && Distinct(Resend(w, t, shelf, keys).line.wire)
    ensures var one := ResendOne(w, t, shelf, keys[0]); Sound(one) && Covered(one) && Distinct(one.line.wire)
  {
    hide Sound, ResendOne, Covered, Distinct;
    var one := ResendOne(w, t, shelf, keys[0]);
    ResendOneKeeps(w, t, shelf, keys[0]);
    ResendKeeps(w, one, shelf, keys[1..]);
    DistinctPrefix(Resend(w, t, shelf, keys).line.wire, |one.line.wire|);
  }

  /** Resetting the session forgets what is pending and what waits for a migration, but what
      waits out a flood stays, to go out in a session that never asked it. */
  lemma FloodOutlivesReset(w: World, t: Transport, connected: bool)
    ensures var after := Reset(w, t, connected);
            && after.desk.flood == t.desk.flood
            && after.desk.pending == map[] && after.desk.migration == map[] && after.desk.noReplay == {}
            && !after.keyed
  {
    hide Flush, Bodies;
    FlushFrame(w, Save(t));
  }

  // --- what goes wrong ----------------------------------------------------------------------

  lemma CorrectFrame(w: World, t: Transport, code: int32, serverId: int64, session: int64, salt: int64)
    ensures var c := Correct(w, t, code, serverId, session, salt);
            c.desk == t.desk && c.keyed == t.keyed && c.renames == t.renames && c.acks == t.acks
  {
    hide Wrap32, SetBack, WireTrace.Restart;
  }

  lemma SentIsHeld(w: World, t: Transport, data: bytes, oldId: int64)
    requires t.keyed && data != []
    ensures var after := SendContent(w, t, data, oldId).1; after.desk == Hold(t.desk, after.line.last, data)
  {
    hide Flush, Issue, Count, Hold;
    FlushFrame(w, t);
    IssueFrame(Flush(w, t).line, w.clock);
  }

  /** Where a rejected request goes, and nothing else with it. */
  lemma RejectedIsPending(w: World, t: Transport, code: int32, badId: int64, serverId: int64, session: int64,
                          salt: int64)
    requires t.keyed && Take(t.desk.pending, badId) != []
    ensures var after := BadMsg(w, t, code, badId, serverId, session, salt);
            && Became(after, badId, after.line.last, t.desk.pending[badId])
            && after.desk == Hold(t.desk.(pending := t.desk.pending - {badId}), after.line.last, t.desk.pending[badId])
  {
    hide Correct, SendContent, Hold, Became;
    CorrectFrame(w, t, code, serverId, session, salt);
    var c := Save(Correct(w, t, code, serverId, session, salt));
    var taken := c.(desk := c.desk.(pending := c.desk.pending - {badId}));
    SentIsHeld(w, taken, t.desk.pending[badId], badId);
    SentIsPending(w, taken, t.desk.pending[badId], badId);
  }

  /** The id a rejected request will come to: from the code, the clock, the offset, the last id,
      and whether acknowledgements wait to go out before it. */
  function ResentId(w: World, t: Transport, code: int32, serverId: int64): int64 {
    var n := t.line.readings;
    var byClock := code == 16 || code == 17;
    var offset := if byClock then Wrap32(Wrap32(serverId / 0x1_0000_0000) - w.clock(n)) else t.line.offset;
    var first := if byClock then n + 1 else n;
    var last := if code in {16, 17, 32, 33} then 0 else t.line.last;
    var id := NextId(last, w.clock(first) + offset);
    if t.acks != [] && t.initialized then NextId(id, w.clock(first + 1) + offset) else id
  }

  lemma SentUnder(w: World, t: Transport, data: bytes, oldId: int64)
    requires t.keyed && data != []
    ensures var n, l := t.line.readings, t.line;
            SendContent(w, t, data, oldId).1.line.last ==
              if t.acks != [] && t.initialized
              then NextId(NextId(l.last, w.clock(n) + l.offset), w.clock(n + 1) + l.offset)
              else NextId(l.last, w.clock(n) + l.offset)
  {
    hide NextId, Count, AckBody, Hold, Packed;
    AckBodyIsSomething(t.acks);
  }

  lemma ResentUnder(w: World, t: Transport, code: int32, badId: int64, serverId: int64, session: int64, salt: int64)
    requires t.keyed && Take(t.desk.pending, badId) != []
    ensures BadMsg(w, t, code, badId, serverId, session, salt).line.last == ResentId(w, t, code, serverId)
  {
    hide NextId, SendContent, Wrap32;
    var c := Save(Correct(w, t, code, serverId, session, salt));
    SentUnder(w, c.(desk := c.desk.(pending := c.desk.pending - {badId})), t.desk.pending[badId], badId);
  }

  /** A rejection resends its request without touching another exactly when the id it will come
      to is not one that another request is pending under. */
  lemma RejectionOverwritesIff(w: World, t: Transport, code: int32, badId: int64, serverId: int64, session: int64,
                               salt: int64)
    requires t.keyed && Take(t.desk.pending, badId) != []
    ensures BadMsg(w, t, code, badId, serverId, session, salt).desk.lost == t.desk.lost <==>
              Take(t.desk.pending - {badId}, ResentId(w, t, code, serverId)) == []
  {
    hide BadMsg, Hold, Became, ResentId;
    ResentUnder(w, t, code, badId, serverId, session, salt);
    RejectedIsPending(w, t, code, badId, serverId, session, salt);
    HoldLosesIff(t.desk.(pending := t.desk.pending - {badId}), ResentId(w, t, code, serverId), t.desk.pending[badId]);
  }

  lemma RejectionOf(w: World, t: Transport, code: int32, badId: int64, session: int64, s: int)
    requires t.keyed && t.acks == [] && Take(t.desk.pending, badId) != []
    requires code == 32 || code == 33
    requires w.clock(t.line.readings) + t.line.offset == s && Stamp(s) > 0
    ensures var after := BadMsg(w, t, code, badId, 0, session, 0);
            && after.desk == Hold(t.desk.(pending := t.desk.pending - {badId}), Stamp(s), Take(t.desk.pending, badId))
            && after.keyed && after.acks == [] && after.line.readings == t.line.readings + 1
            && after.line.offset == t.line.offset
  {
    hide Stamp, Count, Packed, Hold, Wrap64;
  }

  /** The last id is set back to nothing by every such rejection, so two of them in one second
      come to the same id: the second request takes the place of the first, which is lost. */
  lemma TwoRejectionsInOneSecond(w: World, t: Transport, one: int64, two: int64, session: int64, other: int64, s: int)
    requires t.keyed && t.acks == []
    requires one != two && Take(t.desk.pending, one) != [] && Take(t.desk.pending, two) != []
    requires w.clock(t.line.readings) + t.line.offset == s && w.clock(t.line.readings + 1) + t.line.offset == s
    requires Stamp(s) > 0 && Stamp(s) !in t.desk.pending
    ensures var after := BadMsg(w, BadMsg(w, t, 32, one, 0, session, 0), 32, two, 0, other, 0);
            && after.desk.lost == t.desk.lost + multiset{t.desk.pending[one]}
            && after.desk.pending == (t.desk.pending - {one, two})[Stamp(s) := t.desk.pending[two]]
  {
    hide BadMsg, Stamp;
    RejectionOf(w, t, 32, one, session, s);
    var first := BadMsg(w, t, 32, one, 0, session, 0);
    RejectionOf(w, first, 32, two, other, s);
  }

  /** Two FLOOD_WAIT errors for one request: the second finds it gone from the pending table and
      puts nothing in its place on the shelf. */
  lemma SecondFloodWaitLoses(d: Desk, isMain: bool, id: int64)
    requires id in d.pending && d.pending[id] != [] && id !in d.noReplay
    ensures var twice := OnError(OnError(d, MustWait, isMain, id), MustWait, isMain, id);
            twice.flood == d.flood[id := []] && d.pending[id] in twice.lost
  {
  }

  /** The mark that forbids replay is on an id, and is not moved with the request: once a rejected
      request has its new id, a FLOOD_WAIT drops it exactly when that id happens to be marked. */
  lemma ExclusionIsNotRenamed(w: World, t: Transport, code: int32, badId: int64, serverId: int64, session: int64,
                              salt: int64)
    requires t.keyed && Take(t.desk.pending, badId) != [] && badId in t.desk.noReplay
    ensures var after := BadMsg(w, t, code, badId, serverId, session, salt);
            var id := after.line.last;
            && Became(after, badId, id, t.desk.pending[badId])
            && after.desk.noReplay == t.desk.noReplay
            && (OnError(after.desk, MustWait, t.isMain, id).settled != after.desk.settled <==> id in t.desk.noReplay)
  {
    hide BadMsg;
    RejectedIsPending(w, t, code, badId, serverId, session, salt);
    var after := BadMsg(w, t, code, badId, serverId, session, salt);
    MarkDecides(after.desk, t.isMain, after.line.last);
  }

  lemma MarkDecides(d: Desk, isMain: bool, id: int64)
    requires Take(d.pending, id) != []
    ensures OnError(d, MustWait, isMain, id).settled != d.settled <==> id in d.noReplay
  {
    var b := Take(d.pending, id);
    assert (d.settled + multiset{b})[b] == d.settled[b] + 1;
  }

  lemma FlushKeepsSequence(w: World, t: Transport)
    ensures Flush(w, t).line.sequence == t.line.sequence && Flush(w, t).line.session == t.line.session
  {
    hide Issue, AckBody;
    IssueFrame(t.line, w.clock);
  }

  /** A request's frame: the last written, with the number of the counter and its session. */
  lemma SubmittedFrame(w: World, t: Transport, data: bytes)
    requires t.keyed && data != []
    ensures var wire := Submit(w, t, data).1.line.wire;
            && |wire| > |t.line.wire|
            && IsContent(wire[|wire| - 1]) && wire[|wire| - 1].seqno == Count(t.line.sequence, true).0
            && wire[|wire| - 1].session == t.line.session
            && wire[..|t.line.wire|] == t.line.wire
    ensures var sent := Submit(w, t, data).1;
            && sent.line.sequence == Wrap32(t.line.sequence + 1) && sent.keyed && sent.saved == t.saved
            && sent.line.session == t.line.session
  {
    hide Issue, Body, Hold, Flush, Wrap32;
    var asking := t.(desk := Ask(t.desk, data));
    FlushFrame(w, asking);
    FlushKeepsSequence(w, asking);
    FlushExtends(w, asking);
    IssueFrame(Flush(w, asking).line, w.clock);
  }

  /** The last frame of `again` is content and has number and session of the last of `sent`. */
  predicate TakesNumberAgain(sent: seq<Frame>, again: seq<Frame>) {
    0 < |sent| < |again| &&
    var first, second := again[|sent| - 1], again[|again| - 1];
    && first == sent[|sent| - 1] && IsContent(first) && IsContent(second)
    && first.seqno == second.seqno && first.session == second.session
  }

  /** Reconnecting reads the settings back. A request that goes out after that takes the number
      of the one that went out since they were last written, in the same session. */
  lemma ReconnectingRewinds(w: World, t: Transport, data: bytes, next: bytes)
    requires t.keyed && data != [] && next != [] && t.saved == Save(t).saved
    ensures var sent := Submit(w, t, data).1; TakesNumberAgain(sent.line.wire, Submit(w, Load(sent), next).1.line.wire)
  {
    hide Submit, Count;
    SubmittedFrame(w, t, data);
    SubmittedFrame(w, Load(Submit(w, t, data).1), next);
  }
}

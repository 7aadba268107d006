/** libkg/tgtransport: message ids and sequence numbers, and the trace of frames they number. */
module WireTrace {
  import opened Integers
  import opened Modular
  import opened Bytes

  /** What goes out. A frame remembers the id epoch and the run it was numbered in. */
  datatype Frame =
    | Plain(id: int64, body: bytes, epoch: nat)
    | Sealed(id: int64, seqno: int32, session: int64, salt: int64, body: bytes, content: bool,
             epoch: nat, run: nat)

  /** What a run of frames begins to count from, and the session it is for. */
  datatype Begin = Begin(count: int, session: int64)

  /** The numbering state. An epoch ends where the last id is set back, and a run where the
      content counter is; `runs` says how each so far began, the last being the one under way.
      `readings` counts looks at the clock. */
  datatype Line = Line(
    offset: int32,
    sequence: int32,
    last: int64,
    session: int64,
    salt: int64,
    readings: nat,
    wire: seq<Frame>,
    epoch: nat,
    runs: seq<Begin>)

  /** No stamp is greater, whatever the clock reads. */
  const MAX_STAMP := 0x7FFF_FFFF_F9C0_0000

  /** So many frames can add four to the last id before the 64 bits end. */
  const FRAME_LIMIT := 26_214_399

  // --- numbering ----------------------------------------------------------------------------

  /** (t << 32) | ((t % 1000) << 22) on 64 bits, the remainder with the sign of t. */
  function Stamp(t: int): int64 {
    if t >= 0 then Wrap64(t * 0x1_0000_0000 + t % 1000 * 0x40_0000)
    else if (-t) % 1000 == 0 then Wrap64(t * 0x1_0000_0000)
    else -((-t) % 1000 * 0x40_0000)
  }

  function NextId(last: int64, t: int): int64 {
    if last >= Stamp(t) then Wrap64(last + 4) else Stamp(t)
  }

  lemma StampIsWhole(t: int)
    ensures Stamp(t) % 4 == 0
  {
    hide Wrap64;
    FourTimes(t * 0x1_0000_0000 + t % 1000 * 0x40_0000, t * 0x4000_0000 + t % 1000 * 0x10_0000);
    FourTimes(t * 0x1_0000_0000, t * 0x4000_0000);
    FourTimes(-((-t) % 1000 * 0x40_0000), -((-t) % 1000 * 0x10_0000));
    WrapKeepsFours(t * 0x1_0000_0000 + t % 1000 * 0x40_0000);
    WrapKeepsFours(t * 0x1_0000_0000);
  }

  lemma WrapKeepsFours(x: int)
    requires x % 4 == 0
    ensures Wrap64(x) % 4 == 0
  {
    var q := (x + 0x8000_0000_0000_0000) / 0x1_0000_0000_0000_0000;
    FourTimes(Wrap64(x), x / 4 - 0x4000_0000_0000_0000 * q);
  }

  lemma FourTimes(n: int, m: int)
    requires n == 4 * m
    ensures n % 4 == 0
  {
  }

  /** Between 1970 and 2038 the high half of a stamp is the time and the low half stays below it. */
  lemma StampIsTime(t: int)
    requires 0 <= t < 0x8000_0000
    ensures Stamp(t) / 0x1_0000_0000 == t
  {
  }

  lemma StampBound(t: int)
    ensures Stamp(t) <= MAX_STAMP
  {
    hide Wrap64;
    var m := WrapWords(t, 0);
    var n := WrapWords(t, t % 1000 * 0x40_0000);
  }

  /** The wrap keeps the low 32 bits. */
  lemma WrapWords(t: int, low: int) returns (m: int)
    requires 0 <= low < 0x1_0000_0000
    ensures Wrap64(t * 0x1_0000_0000 + low) == m * 0x1_0000_0000 + low && m < 0x8000_0000
  {
    var q := (t + 0x8000_0000) / 0x1_0000_0000;
    m := t - 0x1_0000_0000 * q;
    var r := (m + 0x8000_0000) * 0x1_0000_0000 + low;
    RemainderIs(t * 0x1_0000_0000 + low + 0x8000_0000_0000_0000, 0x1_0000_0000_0000_0000, q, r);
  }

  /** A new id is greater than the last one unless the counter runs off the end of 64 bits. */
  lemma NextIdGrows(last: int64, t: int)
    ensures NextId(last, t) > last <==> Stamp(t) > last || last < 0x7FFF_FFFF_FFFF_FFFC
    ensures last % 4 == 0 ==> NextId(last, t) % 4 == 0
  {
    StampIsWhole(t);
    if last % 4 == 0 { WrapKeepsFours(last + 4); }
  }

  /** And it is never further up than four for every id since the last stamp. */
  lemma NextIdBound(last: int64, t: int, n: nat)
    requires last <= MAX_STAMP + 4 * n
    ensures NextId(last, t) <= MAX_STAMP + 4 * (n + 1)
  {
    StampBound(t);
  }

  // --- writing ------------------------------------------------------------------------------

  function Issue(l: Line, clock: nat -> int): Line {
    l.(last := NextId(l.last, clock(l.readings) + l.offset), readings := l.readings + 1)
  }

  function Run(l: Line): nat {
    if l.runs == [] then 0 else |l.runs| - 1
  }

  /** The number a frame gets, and the counter after it. */
  function Count(sequence: int32, content: bool): (int32, int32) {
    if content then (Wrap32(sequence * 2 + 1), Wrap32(sequence + 1)) else (Wrap32(sequence * 2), sequence)
  }

  function Seal(l: Line, clock: nat -> int, body: bytes, content: bool): Line {
    var issued := Issue(l, clock);
    var (seqno, sequence) := Count(l.sequence, content);
    issued.(sequence := sequence,
            wire := l.wire + [Sealed(issued.last, seqno, l.session, l.salt, body, content, l.epoch, Run(l))])
  }

  function WritePlain(l: Line, clock: nat -> int, body: bytes): Line {
    var issued := Issue(l, clock);
    issued.(wire := l.wire + [Plain(issued.last, body, l.epoch)])
  }

  function SetBack(l: Line): Line {
    l.(last := 0, epoch := l.epoch + 1)
  }

  function Restart(l: Line, session: int64): Line {
    SetBack(l).(sequence := 0, session := session, runs := l.runs + [Begin(0, session)])
  }

  /** Counters put back to what was saved. */
  function Reload(l: Line, offset: int32, sequence: int32, last: int64, session: int64, salt: int64): Line {
    l.(offset := offset, sequence := sequence, last := last, session := session, salt := salt,
       epoch := l.epoch + 1, runs := l.runs + [Begin(sequence, session)])
  }

  // --- the trace ----------------------------------------------------------------------------

  /** Content frames of a run among the first n. */
  function Contents(wire: seq<Frame>, n: nat, run: nat): nat
    requires n <= |wire|
  {
    if n == 0 then 0
    else
      var f := wire[n - 1];
      Contents(wire, n - 1, run) + (if f.Sealed? && f.content && f.run == run then 1 else 0)
  }

  predicate Earlier(a: Frame, b: Frame) {
    a.epoch == b.epoch ==> a.id < b.id
  }

  predicate Numbered(l: Line, i: nat)
    requires i < |l.wire|
  {
    var f := l.wire[i];
    f.Sealed? ==>
      && f.run < |l.runs|
      && f.seqno == Wrap32(2 * (l.runs[f.run].count + Contents(l.wire, i, f.run)) + if f.content then 1 else 0)
  }

  /** In one epoch ids grow in the order written, for as many frames as the 64 bits have room
      for; all are divisible by four; and every number is twice what its run began with and the
      content frames since, and one more on a content frame. */
  ghost predicate Trace(l: Line) {
    && (forall i, j :: 0 <= i < j < |l.wire| && j < FRAME_LIMIT ==> Earlier(l.wire[i], l.wire[j]))
    && (forall i :: 0 <= i < |l.wire| ==> l.wire[i].id % 4 == 0)
    && (forall i :: 0 <= i < |l.wire| ==> Numbered(l, i))
  }

  /** The counters are where the trace left them. */
  ghost predicate Current(l: Line) {
    && l.runs != [] && l.last % 4 == 0 && l.last <= MAX_STAMP + 4 * |l.wire|
    && (forall i :: 0 <= i < |l.wire| ==> l.wire[i].epoch <= l.epoch)
    && (|l.wire| <= FRAME_LIMIT ==>
          forall i :: 0 <= i < |l.wire| && l.wire[i].epoch == l.epoch ==> l.wire[i].id <= l.last)
    && l.sequence == Wrap32(l.runs[Run(l)].count + Contents(l.wire, |l.wire|, Run(l)))
  }

  ghost predicate LineOk(l: Line) {
    Trace(l) && Current(l)
  }

  lemma {:induction false} ContentsOfPrefix(wire: seq<Frame>, f: Frame, n: nat, run: nat)
    requires n <= |wire|
    ensures Contents(wire + [f], n, run) == Contents(wire, n, run)
  {
    if n > 0 { ContentsOfPrefix(wire, f, n - 1, run); }
  }

  /** No frame belongs to a run that has not begun. */
  lemma {:induction false} NoneOfLaterRun(l: Line, n: nat, run: nat)
    requires Trace(l) && n <= |l.wire| && run >= |l.runs|
    ensures Contents(l.wire, n, run) == 0
  {
    if n > 0 {
      NoneOfLaterRun(l, n - 1, run);
      assert Numbered(l, n - 1);
    }
  }

  lemma WrapTwice(c: int, k: int)
    ensures Wrap32(2 * Wrap32(c) + k) == Wrap32(2 * c + k)
    ensures Wrap32(Wrap32(c) + k) == Wrap32(c + k)
  {
    var m := (Wrap32(c) - c) / 0x1_0000_0000;
    assert Wrap32(c) == c + 0x1_0000_0000 * m;
    Wrap32OfMultiple(2 * c + k, 2 * m);
    Wrap32OfMultiple(c + k, m);
  }

  lemma Wrap32OfMultiple(x: int, m: int)
    ensures Wrap32(x + 0x1_0000_0000 * m) == Wrap32(x)
  {
  }

  /** Issuing an id touches nothing but the id. */
  lemma IssueFrame(l: Line, clock: nat -> int)
    ensures var i := Issue(l, clock); i == l.(last := i.last, readings := i.readings)
  {
  }

  lemma IssueGrows(l: Line, clock: nat -> int)
    requires LineOk(l)
    ensures var i := Issue(l, clock);
            && i.last % 4 == 0 && i.last <= MAX_STAMP + 4 * (|l.wire| + 1)
            && (|l.wire| < FRAME_LIMIT ==> i.last > l.last)
  {
    var t := clock(l.readings) + l.offset;
    NextIdGrows(l.last, t);
    NextIdBound(l.last, t, |l.wire|);
  }

  /** The one step both kinds of frame share: a frame with the newest id of its epoch. */
  lemma AppendKeepsOrder(l: Line, after: Line, f: Frame)
    requires LineOk(l) && after.wire == l.wire + [f] && f.id == after.last && f.epoch == after.epoch == l.epoch
    requires after.last % 4 == 0 && (|l.wire| < FRAME_LIMIT ==> after.last > l.last)
    ensures forall i, j :: 0 <= i < j < |after.wire| && j < FRAME_LIMIT ==> Earlier(after.wire[i], after.wire[j])
    ensures forall i :: 0 <= i < |after.wire| ==> after.wire[i].id % 4 == 0 && after.wire[i].epoch <= after.epoch
    ensures |after.wire| <= FRAME_LIMIT ==>
              forall i :: 0 <= i < |after.wire| && after.wire[i].epoch == after.epoch ==> after.wire[i].id <= after.last
  {
    hide Numbered, Contents;
  }

  lemma NumbersStay(l: Line, after: Line, f: Frame)
    requires Trace(l) && after.wire == l.wire + [f] && after.runs == l.runs
    ensures forall i :: 0 <= i < |l.wire| ==> Numbered(after, i)
  {
    hide Contents, Earlier;
    forall i | 0 <= i < |l.wire| ensures Numbered(after, i) {
      assert Numbered(l, i);
      if l.wire[i].Sealed? { ContentsOfPrefix(l.wire, f, i, l.wire[i].run); }
    }
  }

  lemma SealKeepsOk(l: Line, clock: nat -> int, body: bytes, content: bool)
    requires LineOk(l)
    ensures LineOk(Seal(l, clock, body, content))
  {
    hide Issue, Wrap32, Earlier, Numbered, Contents;
    var after := Seal(l, clock, body, content);
    var f := after.wire[|l.wire|];
    IssueFrame(l, clock);
    IssueGrows(l, clock);
    AppendKeepsOrder(l, after, f);
    NumbersStay(l, after, f);
    SealCounts(l, clock, body, content);
  }

  /** The new frame's number, and the counter after it. */
  lemma SealCounts(l: Line, clock: nat -> int, body: bytes, content: bool)
    requires LineOk(l)
    ensures var after := Seal(l, clock, body, content);
            && Numbered(after, |l.wire|)
            && after.sequence == Wrap32(l.runs[Run(l)].count + Contents(after.wire, |after.wire|, Run(l)))
  {
    hide Issue, Wrap32, Earlier, Trace;
    var after := Seal(l, clock, body, content);
    var f := after.wire[|l.wire|];
    IssueFrame(l, clock);
    ContentsOfPrefix(l.wire, f, |l.wire|, Run(l));
    var c := l.runs[Run(l)].count + Contents(l.wire, |l.wire|, Run(l));
    WrapTwice(c, 1);
    WrapTwice(c, 0);
  }

  lemma PlainKeepsOk(l: Line, clock: nat -> int, body: bytes)
    requires LineOk(l)
    ensures LineOk(WritePlain(l, clock, body))
  {
    hide Issue, Wrap32, Earlier;
    var after := WritePlain(l, clock, body);
    var f := after.wire[|l.wire|];
    IssueFrame(l, clock);
    IssueGrows(l, clock);
    AppendKeepsOrder(l, after, f);
    NumbersStay(l, after, f);
    ContentsOfPrefix(l.wire, f, |l.wire|, Run(l));
  }

  lemma SetBackKeepsOk(l: Line)
    requires LineOk(l)
    ensures LineOk(SetBack(l))
  {
    hide Contents, Earlier, Wrap32;
    forall i | 0 <= i < |l.wire| ensures Numbered(SetBack(l), i) { assert Numbered(l, i); }
  }

  /** A new run may count from anywhere, and a new epoch from any id within bounds. */
  lemma ReloadKeepsOk(l: Line, offset: int32, sequence: int32, last: int64, session: int64, salt: int64)
    requires LineOk(l) && last % 4 == 0 && last <= MAX_STAMP + 4 * |l.wire|
    ensures LineOk(Reload(l, offset, sequence, last, session, salt))
  {
    hide Contents, Earlier;
    var after := Reload(l, offset, sequence, last, session, salt);
    forall i | 0 <= i < |l.wire| ensures Numbered(after, i) { assert Numbered(l, i); }
    NoneOfLaterRun(l, |l.wire|, |l.runs|);
  }

  lemma RestartKeepsOk(l: Line, session: int64)
    requires LineOk(l)
    ensures LineOk(Restart(l, session))
  {
    ReloadKeepsOk(l, l.offset, 0, 0, session, l.salt);
  }

  /** The next content frame after a reload takes the number it would have taken without it
      exactly when the counter read back is the one in use, or half the 32 bits away from it. */
  lemma ReloadContinuesIff(saved: int32, used: int32)
    ensures Count(saved, true).0 == Count(used, true).0 <==>
              saved == used || saved - used == 0x8000_0000 || used - saved == 0x8000_0000
  {
    WrapIsOneTurn(saved * 2 + 1);
    WrapIsOneTurn(used * 2 + 1);
    hide Wrap32;
  }
}

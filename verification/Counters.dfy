/** libkg/tgupdatesstate: the pts/qts/seq bookkeeping as a value. */
module SequenceCounters {
  import opened Integers
  import opened UpdateTypes

  datatype Verdict = Apply | Duplicate | Gap

  datatype SeqVerdict = SeqIgnore | SeqApply | SeqDuplicate | SeqGap

  datatype Counters = Counters(
    pts: int32,
    qts: int32,
    date: int32,
    seqNo: int32,
    valid: bool,
    channels: map<int, int32>)
  {
    function ChannelPts(c: int): int32 {
      if c in channels then channels[c] else 0
    }

    /** The local pts of sequence `c`; 0 is the common sequence. */
    function Local(c: int): int32 {
      if c != 0 then ChannelPts(c) else pts
    }

    function Check(c: int, p: int32, count: int32): Verdict {
      var here := Local(c);
      if here == 0 then Apply
      else if Wrap32(here + count) == p then Apply
      else if p <= here then Duplicate
      else Gap
    }

    function Verdict(i: Item): Verdict {
      Check(i.channelId, i.pts, i.ptsCount)
    }

    function Advance(c: int, p: int32): Counters {
      if c != 0 then
        if p > ChannelPts(c) then this.(channels := channels[c := p]) else this
      else if p > pts then this.(pts := p) else this
    }

    function CheckSeq(seqStart: int32, seqEnd: int32): SeqVerdict {
      if seqEnd == 0 then SeqIgnore
      else
        var start := if seqStart == 0 then seqEnd else seqStart;
        if Wrap32(seqNo + 1) == start then SeqApply
        else if start <= seqNo then SeqDuplicate
        else SeqGap
    }

    function SetDate(d: int32): Counters {
      if d > date then this.(date := d) else this
    }

    function SetQts(q: int32): Counters {
      if q > qts then this.(qts := q) else this
    }

    function AdvanceSeq(s: int32, d: int32): Counters {
      (if s > seqNo then this.(seqNo := s) else this).SetDate(d)
    }

    function Reset(v: StateValues): Counters {
      Counters(v.pts, v.qts, v.date, v.seqNo, true, channels)
    }

    function SetPts(p: int32): Counters {
      this.(pts := p, valid := true)
    }

    function SetChannelPts(c: int, p: int32): Counters {
      this.(channels := channels[c := p])
    }

    function ForgetChannel(c: int): Counters {
      this.(channels := channels - {c})
    }

    function ClearChannels(): Counters {
      this.(channels := map[])
    }
  }

  /** The seq test: a container numbered 0 is never out of order; another applies exactly when it
      starts, or without a start ends, one after the last, a turn of the 32 bits included; and
      else it is old exactly when that is not above the last. */
  lemma SeqVerdictMeaning(c: Counters, seqStart: int32, seqEnd: int32)
    ensures var start := if seqStart == 0 then seqEnd else seqStart; var v := c.CheckSeq(seqStart, seqEnd);
            && (v == SeqIgnore <==> seqEnd == 0)
            && (v == SeqApply <==>
                  seqEnd != 0 && (start == c.seqNo + 1 || (c.seqNo == 0x7FFF_FFFF && start == -0x8000_0000)))
            && (v == SeqDuplicate <==> seqEnd != 0 && start <= c.seqNo && v != SeqApply)
            && (v == SeqGap <==> seqEnd != 0 && start > c.seqNo + 1)
  {
  }

  const CLEARED := Counters(0, 0, 0, 0, false, map[])

  /** The stored form: save() writes every counter, load() drops channels stored as zero and
      takes validity from the common pts. */
  datatype Stored = Stored(pts: int32, qts: int32, date: int32, seqNo: int32, channels: map<int, int32>)

  function Save(c: Counters): Stored {
    Stored(c.pts, c.qts, c.date, c.seqNo, c.channels)
  }

  function Load(s: Stored): Counters {
    Counters(s.pts, s.qts, s.date, s.seqNo, s.pts != 0, map k | k in s.channels && s.channels[k] != 0 :: s.channels[k])
  }

  /** A state survives a restart exactly when its validity agrees with its pts and no channel
      counter is zero; the verdicts survive whatever the channel counters are. */
  lemma RestartKeepsState(c: Counters)
    ensures Load(Save(c)) == c <==> (c.valid <==> c.pts != 0) && (forall k :: k in c.channels ==> c.channels[k] != 0)
    ensures forall i: Item :: Load(Save(c)).Verdict(i) == c.Verdict(i)
  {
    var back := Load(Save(c));
    if (c.valid <==> c.pts != 0) && (forall k :: k in c.channels ==> c.channels[k] != 0) {
      assert back.channels == c.channels;
    }
    if back == c {
      forall k | k in c.channels ensures c.channels[k] != 0 { assert k in back.channels; }
    }
    forall i: Item ensures back.Verdict(i) == c.Verdict(i) {
      assert back.ChannelPts(i.channelId) == c.ChannelPts(i.channelId);
    }
  }

  /** The verdict is a statement about the interval (pts - count, pts] an update covers: it
      applies when that interval starts at the local value, and otherwise it is old when it ends
      at or below it. A sequence at 0 has nothing to be behind and adopts anything. The 32-bit
      sum in the test matches falsely only by wrapping, and for a local value and a count that
      are not negative only a negative pts is matched so. */
  lemma VerdictMeaning(c: Counters, channel: int, p: int32, count: int32)
    ensures var here := c.Local(channel);
            var starts := here == 0 || p - count == here || p - count == here - 0x1_0000_0000
                          || p - count == here + 0x1_0000_0000;
            && (c.Check(channel, p, count) == Apply <==> starts)
            && (c.Check(channel, p, count) == Duplicate <==> !starts && p <= here)
            && (c.Check(channel, p, count) == Gap <==> !starts && p > here)
    ensures c.Local(channel) > 0 && p > 0 && count >= 0 ==>
              (c.Check(channel, p, count) == Apply <==> p - count == c.Local(channel))
  {
    var sum := c.Local(channel) + count;
    WrapIsOneTurn(sum);
  }

  /** An update that has just been applied is dropped when it is delivered again exactly when
      it advanced the counter at all: pts_count 0 is applied each time. */
  lemma RedeliveryDropped(c: Counters, channel: int, p: int32, count: int32)
    requires p > 0 && c.Check(channel, p, count) == Apply && c.Local(channel) <= p
    ensures c.Advance(channel, p).Local(channel) == p
    ensures c.Advance(channel, p).Check(channel, p, count) == Duplicate <==> count != 0
  {
    var sum := p + count;
    assert Wrap32(sum) == p <==> count == 0;
  }

  /** Counters only move forward under Advance, and only the named one moves. */
  lemma AdvanceMonotone(c: Counters, channel: int, p: int32, other: int)
    ensures c.Advance(channel, p).Local(other) == (if other == channel && p > c.Local(other) then p else c.Local(other))
  {
  }

}

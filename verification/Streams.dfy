/** libkg/tgstream: the cursor codec as it runs, over one growing byte array. */
module Streams {
  import opened Integers
  import opened Bytes
  import opened Codec

  /** What is before the cursor and what is after it. */
  datatype Tape = Split(done: bytes, rest: bytes)

  /** Writing at the cursor: over what is there, and past the end of it. */
  function Put(t: Tape, b: bytes): Tape {
    Split(t.done + b, Skip(t.rest, |b|))
  }

  lemma PutPut(t: Tape, a: bytes, b: bytes)
    ensures Put(Put(t, a), b) == Put(t, a + b)
  {
    assert (t.done + a) + b == t.done + (a + b);
  }

  lemma PutNothing(t: Tape)
    ensures Put(t, []) == t
  {
  }

  function PutFields(t: Tape, fields: Fields, v: Value): Tape
    decreases fields
  {
    match fields
    case End => t
    case Field(name, kind, next) => PutFields(Put(t, Encode(kind, v.At(name))), next, v)
  }

  lemma {:induction false} FieldsArePut(t: Tape, fields: Fields, v: Value)
    ensures PutFields(t, fields, v) == Put(t, EncodeFields(fields, v))
    decreases fields
  {
    hide Encode, Put;
    match fields
    case End => PutNothing(t);
    case Field(name, kind, next) =>
      var b := Encode(kind, v.At(name));
      FieldsArePut(Put(t, b), next, v);
      PutPut(t, b, EncodeFields(next, v));
  }

  function PutCase(t: Tape, cases: Cases, v: Value): Tape {
    match cases
    case NoCase => t
    case Case(i, fields, others) =>
      if Wrap32(v.At("_").ToInt()) == i then PutFields(Put(t, Encode(Int, v.At("_"))), fields, v)
      else PutCase(t, others, v)
  }

  lemma {:induction false} CaseIsPut(t: Tape, cases: Cases, v: Value)
    ensures PutCase(t, cases, v) == Put(t, EncodeCase(cases, v.At("_").ToInt(), v))
  {
    hide Put, PutFields;
    match cases
    case NoCase => PutNothing(t);
    case Case(i, fields, others) =>
      var b := Encode(Int, v.At("_"));
      FieldsArePut(Put(t, b), fields, v);
      PutPut(t, b, EncodeFields(fields, v));
      CaseIsPut(t, others, v);
  }

  lemma BoxedIsPut(t: Tape, k: Kind, v: Value)
    requires k.Boxed?
    ensures PutCase(t, k.cases, v) == Put(t, Encode(k, v))
  {
    hide Put;
    CaseIsPut(t, k.cases, v);
  }

  lemma SkipTwice(bs: bytes, m: nat, n: nat)
    ensures Skip(Skip(bs, m), n) == Skip(bs, m + n)
  {
  }

  lemma SkipNothing(bs: bytes)
    ensures Skip(bs, 0) == bs
  {
  }

  class TelegramStream {
    var buffer: bytes
    var position: nat

    ghost predicate Valid() reads this {
      position <= |buffer|
    }

    ghost function Tape(): Tape reads this requires Valid() {
      Split(buffer[..position], buffer[position..])
    }

    ghost function Rest(): bytes reads this requires Valid() {
      buffer[position..]
    }

    constructor (input: bytes)
      ensures Valid() && Tape() == Split([], input)
    {
      buffer, position := input, 0;
    }

    method ToByteArray() returns (b: bytes)
      requires Valid()
      ensures b == Tape().done + Tape().rest
    {
      b := buffer;
      assert buffer == buffer[..position] + buffer[position..];
    }

    // --- raw ----------------------------------------------------------------------------------

    method WriteRawBytes(b: bytes)
      requires Valid()
      modifies this
      ensures Valid() && Tape() == Put(old(Tape()), b)
    {
      var end := position + |b|;
      buffer := buffer[..position] + b + (if end <= |buffer| then buffer[end..] else []);
      position := end;
    }

    method ReadRawBytes(count: nat) returns (b: bytes)
      requires Valid()
      modifies this`position
      ensures Valid() && b == Front(old(Rest()), count) && Rest() == Skip(old(Rest()), count)
    {
      if position + count <= |buffer| {
        b := buffer[position..position + count];
        position := position + count;
      } else {
        b := buffer[position..] + Zeros(position + count - |buffer|);
        position := |buffer|;
      }
    }

    method SkipRawBytes(count: nat)
      requires Valid()
      modifies this`position
      ensures Valid() && Rest() == Skip(old(Rest()), count)
    {
      position := if position + count <= |buffer| then position + count else |buffer|;
    }

    method WriteUInt8(i: int)
      requires Valid()
      modifies this
      ensures Valid() && Tape() == Put(old(Tape()), [i % 256])
    {
      WriteRawBytes([i % 256]);
    }

    method ReadUInt8() returns (i: byte)
      requires Valid()
      modifies this`position
      ensures Valid() && (i, Rest()) == TakeByte(old(Rest()))
    {
      if position == |buffer| { return 0; }
      i := buffer[position];
      position := position + 1;
    }

    // --- scalars ------------------------------------------------------------------------------

    method WriteInt32(v: Value)
      requires Valid()
      modifies this
      ensures Valid() && Tape() == Put(old(Tape()), Encode(Int, v))
    {
      WriteRawBytes(Little(v.ToInt(), 4));
    }

    method WriteInt64(v: Value)
      requires Valid()
      modifies this
      ensures Valid() && Tape() == Put(old(Tape()), Encode(Long, v))
    {
      WriteRawBytes(Little(v.ToInt(), 8));
    }

    method WriteBool(v: Value)
      requires Valid()
      modifies this
      ensures Valid() && Tape() == Put(old(Tape()), Encode(Bool, v))
    {
      WriteRawBytes(Little(if v.ToBool() then BOOL_TRUE else BOOL_FALSE, 4));
    }

    method WriteInt128(v: Value)
      requires Valid()
      modifies this
      ensures Valid() && Tape() == Put(old(Tape()), Encode(Raw(16), v))
    {
      WriteRawBytes(Front(v.ToByteArray(), 16));
    }

    method WriteInt256(v: Value)
      requires Valid()
      modifies this
      ensures Valid() && Tape() == Put(old(Tape()), Encode(Raw(32), v))
    {
      WriteRawBytes(Front(v.ToByteArray(), 32));
    }

    /** An integer of the data stream's own reader. */
    method ReadNumber(width: nat) returns (n: int)
      requires Valid()
      modifies this`position
      ensures Valid() && (n, Rest()) == TakeInt(old(Rest()), width)
    {
      if position + width > |buffer| {
        position := |buffer|;
        assert Rest() == [];
        return 0;
      }
      n := Signed(buffer[position..position + width]);
      assert buffer[position..][..width] == buffer[position..position + width];
      position := position + width;
    }

    method ReadInt32() returns (v: Value)
      requires Valid()
      modifies this`position
      ensures Valid() && forall prior :: (v, Rest()) == Decode(Int, prior, old(Rest()))
    {
      var n := ReadNumber(4);
      v := Number(n);
    }

    method ReadInt64() returns (v: Value)
      requires Valid()
      modifies this`position
      ensures Valid() && forall prior :: (v, Rest()) == Decode(Long, prior, old(Rest()))
    {
      var n := ReadNumber(8);
      v := Number(n);
    }

    method ReadBool() returns (v: Value)
      requires Valid()
      modifies this`position
      ensures Valid() && forall prior :: (v, Rest()) == Decode(Bool, prior, old(Rest()))
    {
      var n := ReadNumber(4);
      v := Flag(n == BOOL_TRUE);
    }

    method ReadInt128() returns (v: Value)
      requires Valid()
      modifies this`position
      ensures Valid() && forall prior :: (v, Rest()) == Decode(Raw(16), prior, old(Rest()))
    {
      var b := ReadRawBytes(16);
      v := Blob(b);
    }

    method ReadInt256() returns (v: Value)
      requires Valid()
      modifies this`position
      ensures Valid() && forall prior :: (v, Rest()) == Decode(Raw(32), prior, old(Rest()))
    {
      var b := ReadRawBytes(32);
      v := Blob(b);
    }

    // --- byte strings -------------------------------------------------------------------------

    method WriteHeader(length: nat) returns (startOffset: nat)
      requires Valid()
      modifies this
      ensures Valid() && Tape() == Put(old(Tape()), Header(length)) && startOffset == |Header(length)|
    {
      hide Put;
      ghost var t := Tape();
      if length >= 254 {
        WriteUInt8(254);
        WriteUInt8(length % 256);
        WriteUInt8(length / 256 % 256);
        WriteUInt8(length / 65536 % 256);
        PutPut(t, [254], [length % 256]);
        PutPut(t, [254, length % 256], [length / 256 % 256]);
        PutPut(t, [254, length % 256, length / 256 % 256], [length / 65536 % 256]);
        assert [254] + [length % 256] == [254, length % 256];
        assert [254, length % 256] + [length / 256 % 256] == [254, length % 256, length / 256 % 256];
        assert [254, length % 256, length / 256 % 256] + [length / 65536 % 256] == Header(length);
        return 4;
      }
      WriteUInt8(length % 256);
      return 1;
    }

    method WriteByteArray(v: Value)
      requires Valid()
      modifies this
      ensures Valid() && Tape() == Put(old(Tape()), Encode(Text, v))
    {
      hide Put, Header;
      ghost var t := Tape();
      var b := v.ToByteArray();
      var startOffset := WriteHeader(|b|);
      WriteRawBytes(b);
      PutPut(t, Header(|b|), b);
      var offset := (|b| + startOffset) % 4;
      if offset != 0 {
        WriteRawBytes(Zeros(4 - offset));
        PutPut(t, Header(|b|) + b, Zeros(4 - offset));
      } else {
        PutPut(t, Header(|b|) + b, []);
        PutNothing(Put(t, Header(|b|) + b));
        assert Zeros(Padding(|b| + startOffset)) == [];
      }
    }

    /** The length that a byte string starts with, and how many bytes told it. */
    method ReadHeader() returns (length: nat, startOffset: nat)
      requires Valid()
      modifies this`position
      ensures Valid() && (length, startOffset, Rest()) == TakeHeader(old(Rest()))
    {
      var first := ReadUInt8();
      if first < 254 {
        return first, 1;
      }
      var low: int := ReadUInt8();
      var middle: int := ReadUInt8();
      var high: int := ReadUInt8();
      return low + 256 * middle + 65536 * high, 4;
    }

    method ReadByteArray() returns (v: Value)
      requires Valid()
      modifies this`position
      ensures Valid() && forall prior :: (v, Rest()) == Decode(Text, prior, old(Rest()))
    {
      hide TakeHeader, Skip, Front;
      var length, startOffset := ReadHeader();
      ghost var body := Rest();
      var b := ReadRawBytes(length);
      var offset := (length + startOffset) % 4;
      if offset != 0 {
        SkipRawBytes(4 - offset);
      } else {
        SkipNothing(Rest());
      }
      SkipTwice(body, length, Padding(length + startOffset));
      v := Blob(b);
    }
  }
}

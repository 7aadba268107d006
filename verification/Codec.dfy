/** libkg/tgstream: the wire form of every value a message is made of, as functions on byte
    arrays: what is written for a value, and what a reader takes off the front. */
module Codec {
  import opened Integers
  import opened Modular
  import opened Bytes

  const VECTOR_ID: int32 := 481674261
  const BOOL_TRUE: int32 := -1720552011
  const BOOL_FALSE: int32 := -1132882121

  /** A QVariant. Nothing is the invalid one. */
  datatype Value =
    | Nothing
    | Number(n: int)
    | Flag(b: bool)
    | Blob(data: bytes)
    | Many(items: seq<Value>)
    | Object(fields: map<string, Value>)
  {
    function ToInt(): int { if Number? then n else 0 }
    function ToBool(): bool { Flag? && b }
    function ToByteArray(): bytes { if Blob? then data else [] }
    function ToList(): seq<Value> { if Many? then items else [] }
    function ToMap(): map<string, Value> { if Object? then fields else map[] }
    /** obj["name"] on a map: the invalid value where there is no such key. */
    function At(name: string): Value { if name in ToMap() then ToMap()[name] else Nothing }
  }

  /** What a reader and its writer agree on. Raw is a fixed-width field; Boxed is a type with
      its constructors, each an id and its fields in wire order. */
  datatype Kind =
    | Int
    | Long
    | Bool
    | Raw(width: nat)
    | Text
    | List(item: Kind)
    | Boxed(cases: Cases)

  datatype Cases = NoCase | Case(id: int32, fields: Fields, others: Cases)
  datatype Fields = End | Field(name: string, kind: Kind, next: Fields)

  // --- integers -----------------------------------------------------------------------------

  /** The low `width` bytes of n in two's complement, low byte first. */
  function Little(n: int, width: nat): (bs: bytes)
    ensures |bs| == width
    decreases width
  {
    if width == 0 then [] else [n % 256] + Little(n / 256, width - 1)
  }

  /** The number that a little-endian byte array stands for, without sign. */
  function Unsigned(bs: bytes): nat {
    if bs == [] then 0 else bs[0] + 256 * Unsigned(bs[1..])
  }

  function Signed(bs: bytes): int {
    var u := Unsigned(bs);
    if 2 * u < Pow(256, |bs|) then u else u - Pow(256, |bs|)
  }

  lemma {:induction false} UnsignedLittle(n: int, width: nat)
    ensures 0 <= Unsigned(Little(n, width)) < Pow(256, width)
    ensures Unsigned(Little(n, width)) == n % Pow(256, width)
    decreases width
  {
    if width > 0 {
      UnsignedLittle(n / 256, width - 1);
      assert Little(n, width)[1..] == Little(n / 256, width - 1);
      var p := Pow(256, width - 1);
      var high := n / 256;
      assert high == p * (high / p) + high % p;
      assert n == 256 * p * (high / p) + (256 * (high % p) + n % 256);
      assert 256 * p == Pow(256, width);
      RemainderIs(n, 256 * p, high / p, 256 * (high % p) + n % 256);
    } else {
      assert n % 1 == 0;
    }
  }

  /** A number in the signed range of its width comes back; no other does. */
  lemma SignedLittle(n: int, width: nat)
    ensures -Pow(256, width) <= 2 * n < Pow(256, width) <==> Signed(Little(n, width)) == n
  {
    hide Pow, Unsigned, Little;
    UnsignedLittle(n, width);
    TwosComplement(n, Pow(256, width));
  }

  lemma TwosComplement(n: int, p: int)
    requires p > 0
    ensures var u := n % p; -p <= 2 * n < p <==> (if 2 * u < p then u else u - p) == n
  {
    if -p <= 2 * n < 0 {
      RemainderIs(n, p, -1, n + p);
    } else if 0 <= 2 * n < p {
      RemainderIs(n, p, 0, n);
    }
  }

  /** Byte i stands for the i-th power of 256. */
  lemma {:induction false} LowByteFirst(n: int, width: nat, i: nat)
    requires i < width
    ensures Pow(256, i) > 0 && Little(n, width)[i] == n / Pow(256, i) % 256
    decreases width
  {
    PowPositive(256, i);
    if i > 0 {
      PowPositive(256, i - 1);
      LowByteFirst(n / 256, width - 1, i - 1);
      DivideByProduct(n, 256, Pow(256, i - 1));
    }
  }

  lemma DivideByProduct(n: int, a: nat, b: nat)
    requires a > 0 && b > 0
    ensures a * b > 0 && n / (a * b) == n / a / b
  {
    var h := n / a;
    assert n == a * h + n % a && h == b * (h / b) + h % b;
    assert a * h == a * b * (h / b) + a * (h % b);
    assert a * (h % b) + n % a < a * b by { assert a * (h % b) <= a * (b - 1); }
    RemainderIs(n, a * b, h / b, a * (h % b) + n % a);
  }

  /** One more turn of the width changes no byte. */
  lemma {:induction false} LittleTurn(n: int, width: nat)
    ensures Little(n - Pow(256, width), width) == Little(n, width)
    decreases width
  {
    if width > 0 {
      var p := Pow(256, width - 1);
      assert Pow(256, width) == 256 * p;
      assert (n - 256 * p) / 256 == n / 256 - p && (n - 256 * p) % 256 == n % 256;
      LittleTurn(n / 256, width - 1);
    }
  }

  lemma {:induction false} LittleUnsigned(bs: bytes)
    ensures Little(Unsigned(bs), |bs|) == bs
  {
    if bs != [] {
      LittleUnsigned(bs[1..]);
      assert Unsigned(bs) / 256 == Unsigned(bs[1..]) && Unsigned(bs) % 256 == bs[0];
    }
  }

  lemma {:induction false} UnsignedBound(bs: bytes)
    ensures Unsigned(bs) < Pow(256, |bs|)
  {
    if bs != [] { UnsignedBound(bs[1..]); }
  }

  /** Whatever is read as a number is that number's bytes. */
  lemma LittleSigned(bs: bytes)
    ensures Little(Signed(bs), |bs|) == bs
  {
    hide Little, Unsigned, Pow;
    LittleUnsigned(bs);
    LittleTurn(Unsigned(bs), |bs|);
  }

  // --- readers ------------------------------------------------------------------------------

  function Front(bs: bytes, n: nat): (b: bytes)
    ensures |b| == n
  {
    if n <= |bs| then bs[..n] else bs + Zeros(n - |bs|)
  }

  function Skip(bs: bytes, n: nat): bytes {
    if n <= |bs| then bs[n..] else []
  }

  /** An integer of the data stream: zero, and the rest consumed, when the bytes run out. */
  function TakeInt(bs: bytes, width: nat): (int, bytes) {
    if width <= |bs| then (Signed(bs[..width]), bs[width..]) else (0, [])
  }

  function TakeByte(bs: bytes): (byte, bytes) {
    if bs == [] then (0, []) else (bs[0], bs[1..])
  }

  /** Bytes of zero padding after a byte string that took `n` bytes. */
  function Padding(n: nat): (p: nat)
    ensures (n + p) % 4 == 0 && p < 4
  {
    if n % 4 == 0 then 0 else 4 - n % 4
  }

  /** A byte string's length prefix: one byte, or the marker 254 and three more. */
  function Header(length: nat): bytes {
    if length >= 254 then [254, length % 256, length / 256 % 256, length / 65536 % 256]
    else [length]
  }

  function TakeHeader(bs: bytes): (nat, nat, bytes) {
    var (first, r) := TakeByte(bs);
    if first >= 254 then
      var (b0, r0) := TakeByte(r);
      var (b1, r1) := TakeByte(r0);
      var (b2, r2) := TakeByte(r1);
      (b0 + 256 * b1 + 65536 * b2, 4, r2)
    else (first, 1, r)
  }

  function EncodeText(b: bytes): bytes {
    Header(|b|) + b + Zeros(Padding(|b| + |Header(|b|)|))
  }

  function TakeText(bs: bytes): (bytes, bytes) {
    var (length, start, r) := TakeHeader(bs);
    (Front(r, length), Skip(r, length + Padding(length + start)))
  }

  /** A byte string as it lies on the wire: its length in one byte below 254, and else 254 and the
      low three bytes of it; the bytes themselves; and zeros up to the next word. */
  lemma TextOnWire(b: bytes)
    ensures var e := EncodeText(b); var start := if |b| < 254 then 1 else 4;
            && start + |b| <= |e| < start + |b| + 4 && |e| % 4 == 0
            && (|b| < 254 ==> e[0] == |b|)
            && (|b| >= 254 ==> e[0] == 254 && e[1..4] == Little(|b|, 3))
            && e[start..start + |b|] == b
            && forall i :: start + |b| <= i < |e| ==> e[i] == 0
  {
    if |b| >= 254 {
      assert |b| / 65536 == |b| / 256 / 256;
      assert Little(|b|, 3) == [|b| % 256] + Little(|b| / 256, 2);
      assert Little(|b| / 256, 2) == [|b| / 256 % 256] + Little(|b| / 256 / 256, 1);
      assert Little(|b| / 256 / 256, 1) == [|b| / 256 / 256 % 256];
    }
  }

  // --- all kinds ----------------------------------------------------------------------------

  function Encode(k: Kind, v: Value): bytes
    decreases k, 1, 0
  {
    match k
    case Int => Little(v.ToInt(), 4)
    case Long => Little(v.ToInt(), 8)
    case Bool => Little(if v.ToBool() then BOOL_TRUE else BOOL_FALSE, 4)
    case Raw(width) => Front(v.ToByteArray(), width)
    case Text => EncodeText(v.ToByteArray())
    case List(item) =>
      Little(VECTOR_ID, 4) + Little(|v.ToList()|, 4) + EncodeItems(item, v.ToList())
    case Boxed(cases) => EncodeCase(cases, v.At("_").ToInt(), v)
  }

  function EncodeItems(item: Kind, vs: seq<Value>): bytes
    decreases item, 2, |vs|
  {
    if vs == [] then [] else Encode(item, vs[0]) + EncodeItems(item, vs[1..])
  }

  /** The switch on the constructor: nothing at all for an id the type does not have. */
  function EncodeCase(cases: Cases, id: int, v: Value): bytes
    decreases cases, 1, 0
  {
    match cases
    case NoCase => []
    case Case(i, fields, others) =>
      if Wrap32(id) == i then Little(id, 4) + EncodeFields(fields, v) else EncodeCase(others, id, v)
  }

  function EncodeFields(fields: Fields, v: Value): bytes
    decreases fields, 1, 0
  {
    match fields
    case End => []
    case Field(name, kind, next) => Encode(kind, v.At(name)) + EncodeFields(next, v)
  }

  /** What a reader leaves in a variable that held `prior`, and the bytes it leaves unread. */
  function Decode(k: Kind, prior: Value, bs: bytes): (Value, bytes)
    decreases k, 1, 0
  {
    match k
    case Int => var (n, r) := TakeInt(bs, 4); (Number(n), r)
    case Long => var (n, r) := TakeInt(bs, 8); (Number(n), r)
    case Bool => var (n, r) := TakeInt(bs, 4); (Flag(n == BOOL_TRUE), r)
    case Raw(width) => (Blob(Front(bs, width)), Skip(bs, width))
    case Text => var (b, r) := TakeText(bs); (Blob(b), r)
    case List(item) =>
      var (id, r) := TakeInt(bs, 4);
      if id != VECTOR_ID then (prior, r)
      else
        var (count, r') := TakeInt(r, 4);
        var (vs, r'') := DecodeItems(item, Number(count), if count < 0 then 0 else count, r');
        (Many(vs), r'')
    case Boxed(cases) =>
      var (id, r) := TakeInt(bs, 4);
      DecodeCase(cases, id, r)
  }

  /** The vector loop. Every element is read into the same variable. */
  function DecodeItems(item: Kind, prior: Value, count: nat, bs: bytes): (seq<Value>, bytes)
    decreases item, 2, count
  {
    if count == 0 then ([], bs)
    else
      var (v, r) := Decode(item, prior, bs);
      var (vs, r') := DecodeItems(item, v, count - 1, r);
      ([v] + vs, r')
  }

  /** The switch on the constructor: an empty object for an id the type does not have. */
  function DecodeCase(cases: Cases, id: int, bs: bytes): (Value, bytes)
    decreases cases, 1, 0
  {
    match cases
    case NoCase => (Object(map[]), bs)
    case Case(i, fields, others) =>
      if id == i then DecodeFields(fields, map["_" := Number(id)], bs) else DecodeCase(others, id, bs)
  }

  function DecodeFields(fields: Fields, obj: map<string, Value>, bs: bytes): (Value, bytes)
    decreases fields, 1, 0
  {
    match fields
    case End => (Object(obj), bs)
    case Field(name, kind, next) =>
      var (v, r) := Decode(kind, Nothing, bs);
      DecodeFields(next, obj[name := v], r)
  }

  // --- what fits ----------------------------------------------------------------------------

  function Names(fields: Fields): set<string> {
    match fields
    case End => {}
    case Field(name, _, next) => {name} + Names(next)
  }

  /** No field is named twice, and none is named like the constructor. */
  predicate Distinct(fields: Fields) {
    match fields
    case End => true
    case Field(name, _, next) => name != "_" && name !in Names(next) && Distinct(next)
  }

  /** The values of a kind: those its wire form has room for. */
  predicate Fits(k: Kind, v: Value)
    decreases k, 1, 0
  {
    match k
    case Int => v.Number? && -0x8000_0000 <= v.n < 0x8000_0000
    case Long => v.Number? && -0x8000_0000_0000_0000 <= v.n < 0x8000_0000_0000_0000
    case Bool => v.Flag?
    case Raw(width) => v.Blob? && |v.data| == width
    case Text => v.Blob? && |v.data| < 0x100_0000
    case List(item) => v.Many? && |v.items| < 0x8000_0000 && ItemsFit(item, v.items)
    case Boxed(cases) => v.Object? && v.At("_").Number? && CaseFits(cases, v.At("_").n, v)
  }

  predicate ItemsFit(item: Kind, vs: seq<Value>)
    decreases item, 2, |vs|
  {
    vs == [] || (Fits(item, vs[0]) && ItemsFit(item, vs[1..]))
  }

  /** The first case with the object's id has exactly its fields, and they fit. */
  predicate CaseFits(cases: Cases, id: int, v: Value)
    decreases cases, 1, 0
  {
    match cases
    case NoCase => false
    case Case(i, fields, others) =>
      if id == i
      then Distinct(fields) && v.ToMap().Keys == {"_"} + Names(fields) && FieldsFit(fields, v)
      else CaseFits(others, id, v)
  }

  predicate FieldsFit(fields: Fields, v: Value)
    decreases fields, 1, 0
  {
    match fields
    case End => true
    case Field(name, kind, next) => Fits(kind, v.At(name)) && FieldsFit(next, v)
  }

  /** Every fixed-width field of the kind is a whole number of words. */
  predicate Aligned(k: Kind)
    decreases k, 1
  {
    match k
    case Raw(width) => width % 4 == 0
    case List(item) => Aligned(item)
    case Boxed(cases) => CasesAligned(cases)
    case _ => true
  }

  predicate CasesAligned(cases: Cases)
    decreases cases, 1
  {
    cases.NoCase? || (FieldsAligned(cases.fields) && CasesAligned(cases.others))
  }

  predicate FieldsAligned(fields: Fields)
    decreases fields, 1
  {
    fields.End? || (Aligned(fields.kind) && FieldsAligned(fields.next))
  }

  // --- round trips --------------------------------------------------------------------------

  lemma TakeIntBack(n: int, width: nat, suffix: bytes)
    requires -Pow(256, width) <= 2 * n < Pow(256, width)
    ensures TakeInt(Little(n, width) + suffix, width) == (n, suffix)
  {
    SignedLittle(n, width);
    assert (Little(n, width) + suffix)[..width] == Little(n, width);
  }

  lemma WidthBounds()
    ensures Pow(256, 4) == 0x1_0000_0000 && Pow(256, 8) == 0x1_0000_0000_0000_0000
  {
    assert Pow(256, 2) == 65536;
    PowAdd(256, 2, 2);
    PowAdd(256, 4, 4);
  }

  lemma TakeHeaderBack(length: nat, suffix: bytes)
    requires length < 0x100_0000
    ensures TakeHeader(Header(length) + suffix) == (length, |Header(length)|, suffix)
  {
    var bs := Header(length) + suffix;
    if length >= 254 {
      assert bs[1..][0] == length % 256;
      assert bs[1..][1..][0] == length / 256 % 256;
      assert bs[1..][1..][1..][0] == length / 65536 % 256;
      assert bs[1..][1..][1..][1..] == suffix;
      assert length == length % 256 + 256 * (length / 256 % 256) + 65536 * (length / 65536);
    } else {
      assert bs[1..] == suffix;
    }
  }

  lemma TakeHeaderBound(bs: bytes)
    ensures TakeHeader(bs).0 < 0x100_0000
  {
  }

  /** A byte string survives the wire, whatever follows it, exactly when it is shorter than
      2^24: the writer drops the length's higher bits without a sound. */
  lemma TextRoundTrip(b: bytes, suffix: bytes)
    ensures TakeText(EncodeText(b) + suffix) == (b, suffix) <==> |b| < 0x100_0000
  {
    TakeHeaderBound(EncodeText(b) + suffix);
    if |b| < 0x100_0000 {
      var pad := Zeros(Padding(|b| + |Header(|b|)|));
      assert EncodeText(b) + suffix == Header(|b|) + (b + pad + suffix);
      TakeHeaderBack(|b|, b + pad + suffix);
      assert (b + pad + suffix)[..|b|] == b;
      assert (b + pad + suffix)[|b| + |pad|..] == suffix;
    }
  }

  lemma FrontBack(b: bytes, suffix: bytes)
    ensures Front(b + suffix, |b|) == b && Skip(b + suffix, |b|) == suffix
  {
  }

  /** What was written for a value is read back as that value, and exactly what was written is
      consumed, whatever follows it and whatever the variable held. */
  lemma {:induction false} RoundTrip(k: Kind, v: Value, prior: Value, suffix: bytes)
    requires Fits(k, v)
    ensures Decode(k, prior, Encode(k, v) + suffix) == (v, suffix)
    decreases k, 1, 0
  {
    hide Pow, Little, Signed, TakeInt, EncodeText, TakeText;
    WidthBounds();
    match k
    case Int => TakeIntBack(v.n, 4, suffix);
    case Long => TakeIntBack(v.n, 8, suffix);
    case Bool => TakeIntBack(if v.b then BOOL_TRUE else BOOL_FALSE, 4, suffix);
    case Raw(width) =>
      assert Front(v.data, width) == v.data;
      FrontBack(v.data, suffix);
    case Text => TextRoundTrip(v.data, suffix);
    case List(item) =>
      var count := |v.items|;
      var tail := EncodeItems(item, v.items) + suffix;
      assert Encode(k, v) + suffix == Little(VECTOR_ID, 4) + (Little(count, 4) + tail);
      TakeIntBack(VECTOR_ID, 4, Little(count, 4) + tail);
      TakeIntBack(count, 4, tail);
      ItemsRoundTrip(item, v.items, Number(count), suffix);
    case Boxed(cases) =>
      CaseRoundTrip(cases, v.At("_").n, v, suffix);
  }

  /** So no value's wire form begins another's: what is written one after another is read apart
      in one way only. */
  lemma NoneIsAPrefix(k: Kind, v: Value, w: Value, rest: bytes, other: bytes)
    requires Fits(k, v) && Fits(k, w) && Encode(k, v) + rest == Encode(k, w) + other
    ensures v == w && rest == other
  {
    hide Encode, Decode, Fits;
    RoundTrip(k, v, Nothing, rest);
    RoundTrip(k, w, Nothing, other);
  }

  /** For a kind that is one scalar, fitting is also necessary: a number too wide, a nonce of
      another length, a string too long never come back as themselves. */
  lemma ScalarComesBackIffItFits(k: Kind, v: Value, prior: Value, suffix: bytes)
    requires !k.List? && !k.Boxed?
    ensures Decode(k, prior, Encode(k, v) + suffix) == (v, suffix) <==> Fits(k, v)
  {
    hide Pow, Little, EncodeText;
    var back := Decode(k, prior, Encode(k, v) + suffix);
    if Fits(k, v) {
      RoundTrip(k, v, prior, suffix);
    } else if back == (v, suffix) {
      WidthBounds();
      match k
      case Int => TakeIntRange(v.ToInt(), 4, suffix);
      case Long => TakeIntRange(v.ToInt(), 8, suffix);
      case Text => TextRoundTrip(v.ToByteArray(), suffix);
      case _ =>
    }
  }

  lemma TakeIntRange(n: int, width: nat, suffix: bytes)
    ensures TakeInt(Little(n, width) + suffix, width).0 == n ==> -Pow(256, width) <= 2 * n < Pow(256, width)
  {
    hide Pow, Signed, Little;
    SignedLittle(n, width);
    assert (Little(n, width) + suffix)[..width] == Little(n, width);
  }

  lemma {:induction false} ItemsRoundTrip(item: Kind, vs: seq<Value>, prior: Value, suffix: bytes)
    requires ItemsFit(item, vs)
    ensures DecodeItems(item, prior, |vs|, EncodeItems(item, vs) + suffix) == (vs, suffix)
    decreases item, 2, |vs|
  {
    hide Encode, Decode, Fits;
    if vs != [] {
      var tail := EncodeItems(item, vs[1..]) + suffix;
      assert EncodeItems(item, vs) + suffix == Encode(item, vs[0]) + tail;
      RoundTrip(item, vs[0], prior, tail);
      ItemsRoundTrip(item, vs[1..], vs[0], suffix);
      assert vs == [vs[0]] + vs[1..];
    } else {
      assert [] + suffix == suffix;
    }
  }

  lemma {:induction false} CaseRoundTrip(cases: Cases, id: int, v: Value, suffix: bytes)
    requires v.Object? && v.At("_") == Number(id) && CaseFits(cases, id, v)
    ensures TakeInt(EncodeCase(cases, id, v) + suffix, 4).0 == id
    ensures DecodeCase(cases, id, TakeInt(EncodeCase(cases, id, v) + suffix, 4).1) == (v, suffix)
    decreases cases, 1, 0
  {
    hide Pow, Little, TakeInt, EncodeFields, DecodeFields, FieldsFit, Names;
    var Case(i, fields, others) := cases;
    if id == i {
      WidthBounds();
      var tail := EncodeFields(fields, v) + suffix;
      assert EncodeCase(cases, id, v) + suffix == Little(id, 4) + tail;
      TakeIntBack(id, 4, tail);
      var obj := map["_" := Number(id)];
      FieldsRoundTrip(fields, v, obj, suffix);
    } else {
      assert CaseFits(others, id, v);
      CaseIdIsInt32(others, id, v);
      CaseRoundTrip(others, id, v, suffix);
    }
  }

  lemma {:induction false} CaseIdIsInt32(cases: Cases, id: int, v: Value)
    requires CaseFits(cases, id, v)
    ensures Wrap32(id) == id
  {
    if id != cases.id { CaseIdIsInt32(cases.others, id, v); }
  }

  /** The map grows by the fields still to be read, and ends as the object's own. */
  lemma {:induction false} FieldsRoundTrip(fields: Fields, v: Value, obj: map<string, Value>, suffix: bytes)
    requires v.Object? && Distinct(fields) && FieldsFit(fields, v)
    requires v.fields.Keys == obj.Keys + Names(fields)
    requires forall name :: name in obj ==> v.fields[name] == obj[name]
    ensures DecodeFields(fields, obj, EncodeFields(fields, v) + suffix) == (v, suffix)
    decreases fields, 1, 0
  {
    hide Encode, Decode, Fits;
    match fields
    case End =>
      assert [] + suffix == suffix;
      assert obj == v.fields;
    case Field(name, kind, next) =>
      var tail := EncodeFields(next, v) + suffix;
      assert EncodeFields(fields, v) + suffix == Encode(kind, v.At(name)) + tail;
      assert name in v.fields;
      RoundTrip(kind, v.At(name), Nothing, tail);
      FieldsRoundTrip(next, v, obj[name := v.fields[name]], suffix);
  }

  /** Every encoding, of any value at all, is a whole number of four-byte words. */
  lemma {:induction false} EncodingIsWords(k: Kind, v: Value)
    requires Aligned(k)
    ensures |Encode(k, v)| % 4 == 0
    decreases k, 1, 0
  {
    hide Little, EncodeText, EncodeItems, EncodeCase;
    match k
    case Text => TextIsWords(v.ToByteArray());
    case List(item) => ItemsAreWords(item, v.ToList());
    case Boxed(cases) => CaseIsWords(cases, v.At("_").ToInt(), v);
    case _ =>
  }

  lemma SumOfWords(m: nat, n: nat)
    requires m % 4 == 0 && n % 4 == 0
    ensures (m + n) % 4 == 0
  {
  }

  lemma TextIsWords(b: bytes)
    ensures |EncodeText(b)| % 4 == 0
  {
  }

  lemma {:induction false} ItemsAreWords(item: Kind, vs: seq<Value>)
    requires Aligned(item)
    ensures |EncodeItems(item, vs)| % 4 == 0
    decreases item, 2, |vs|
  {
    hide Encode, Aligned;
    if vs != [] {
      EncodingIsWords(item, vs[0]);
      ItemsAreWords(item, vs[1..]);
      SumOfWords(|Encode(item, vs[0])|, |EncodeItems(item, vs[1..])|);
    }
  }

  lemma {:induction false} CaseIsWords(cases: Cases, id: int, v: Value)
    requires CasesAligned(cases)
    ensures |EncodeCase(cases, id, v)| % 4 == 0
    decreases cases, 1, 0
  {
    hide EncodeFields, FieldsAligned, Little, Wrap32;
    if cases.Case? {
      FieldsAreWords(cases.fields, v);
      SumOfWords(4, |EncodeFields(cases.fields, v)|);
      CaseIsWords(cases.others, id, v);
    }
  }

  lemma {:induction false} FieldsAreWords(fields: Fields, v: Value)
    requires FieldsAligned(fields)
    ensures |EncodeFields(fields, v)| % 4 == 0
    decreases fields, 1, 0
  {
    hide Encode, Aligned;
    if fields.Field? {
      EncodingIsWords(fields.kind, v.At(fields.name));
      FieldsAreWords(fields.next, v);
      SumOfWords(|Encode(fields.kind, v.At(fields.name))|, |EncodeFields(fields.next, v)|);
    }
  }
}

/** libkg/crypto: the RSA_PAD block of the key exchange, and the byte-array loops it is made of. */
module RsaPad {
  import opened Modular
  import opened Bytes
  import opened Options

  // --- the loops ----------------------------------------------------------------------------

  function Reversed(s: bytes): (r: bytes)
    ensures |r| == |s|
  {
    if s == [] then [] else Reversed(s[1..]) + [s[0]]
  }

  lemma {:induction false} ReversedAt(s: bytes, k: nat)
    requires k < |s|
    ensures Reversed(s)[k] == s[|s| - 1 - k]
  {
    if k < |s| - 1 { ReversedAt(s[1..], k); }
  }

  lemma ReversedTwice(s: bytes)
    ensures Reversed(Reversed(s)) == s
  {
    forall k | 0 <= k < |s| ensures Reversed(Reversed(s))[k] == s[k] {
      ReversedAt(Reversed(s), k);
      ReversedAt(s, |s| - 1 - k);
    }
  }

  method ReverseInPlace(a: array<byte>)
    modifies a
    ensures a[..] == Reversed(old(a[..]))
  {
    ghost var was := a[..];
    var low, high := 0, a.Length - 1;
    while low < high
      invariant 0 <= low && low + high == a.Length - 1 && low <= high + 1
      invariant forall k :: 0 <= k < low ==> a[k] == was[a.Length - 1 - k] && a[a.Length - 1 - k] == was[k]
      invariant forall k :: low <= k <= high ==> a[k] == was[k]
      decreases high - low
    {
      a[low], a[high] := a[high], a[low];
      low, high := low + 1, high - 1;
    }
    forall k | 0 <= k < a.Length ensures a[k] == Reversed(was)[k] {
      ReversedAt(was, k);
      if k >= low && k != high { assert a[a.Length - 1 - (a.Length - 1 - k)] == was[a.Length - 1 - k]; }
    }
  }

  /** The xor of the two arrays over the shorter one's length, the longer one's tail kept. */
  method XorArray(a: bytes, b: bytes) returns (result: bytes)
    ensures result == XorBytes(a, b)
  {
    result := if |a| > |b| then a else b;
    ghost var longer := result;
    var minLength := if |a| > |b| then |b| else |a|;
    for i := 0 to minLength
      invariant |result| == |longer|
      invariant forall k :: 0 <= k < i ==> result[k] == Xor(a[k], b[k])
      invariant forall k :: i <= k < |result| ==> result[k] == longer[k]
    {
      result := result[i := Xor(a[i], b[i])];
    }
    forall k | 0 <= k < |result| ensures result[k] == XorBytes(a, b)[k] { XorBytesAt(a, b, k); }
  }

  lemma HighPartDecides(x: nat, y: nat, w: nat, low: nat, other: nat)
    requires x < y && low < w
    ensures x * w + low < y * w + other
  {
    assert (x + 1) * w <= y * w;
  }

  lemma HigherByteWins(a: bytes, b: bytes, i: nat)
    requires |a| == |b| && i < |a| && a[..i] == b[..i] && a[i] < b[i]
    ensures Value(a) < Value(b)
  {
    hide Value, Pow;
    var x, y := a[..i] + [a[i]], b[..i] + [b[i]];
    assert a == x + a[i + 1..] && b == y + b[i + 1..];
    ValueConcat(x, a[i + 1..]);
    ValueConcat(y, b[i + 1..]);
    ValueSnoc(a[..i], a[i]);
    ValueSnoc(b[..i], b[i]);
    ValueBound(a[i + 1..]);
    HighPartDecides(Value(x), Value(y), Pow(256, |a| - i - 1), Value(a[i + 1..]), Value(b[i + 1..]));
  }

  function Sign(d: int): int {
    if d > 0 then 1 else if d < 0 then -1 else 0
  }

  /** Arrays of one length compare as the integers they stand for; arrays of different lengths
      compare by length, which is the same thing when the longer has no leading zero. */
  method CompareAsBigEndian(a: bytes, b: bytes) returns (c: int)
    ensures |a| == |b| ==> c == Sign(Value(a) - Value(b))
    ensures |a| != |b| ==> c == Sign(|a| - |b|)
    ensures (|a| > |b| && a[0] != 0) || (|b| > |a| && b[0] != 0) ==> c == Sign(Value(a) - Value(b))
  {
    if |a| != |b| {
      if |a| > |b| && a[0] != 0 { LongerIsGreater(a, b); }
      if |b| > |a| && b[0] != 0 { LongerIsGreater(b, a); }
      return if |a| > |b| then 1 else -1;
    }
    var i := 0;
    while i < |a|
      invariant 0 <= i <= |a| && a[..i] == b[..i]
    {
      if a[i] > b[i] {
        HigherByteWins(b, a, i);
        return 1;
      }
      if b[i] > a[i] {
        HigherByteWins(a, b, i);
        return -1;
      }
      assert a[..i + 1] == a[..i] + [a[i]] && b[..i + 1] == b[..i] + [b[i]];
      i := i + 1;
    }
    assert a == a[..i] && b == b[..i];
    return 0;
  }

  lemma LongerIsGreater(a: bytes, b: bytes)
    requires |a| > |b| && a[0] != 0
    ensures Value(a) > Value(b)
  {
    ValueBound(b);
    assert a == [a[0]] + a[1..];
    ValueConcat([a[0]], a[1..]);
    assert [a[0]][..0] == [];
    assert Value([a[0]]) == a[0];
    PowMonotone(256, |b|, |a| - 1);
    ProductAtLeast(Pow(256, |a| - 1), a[0]);
  }

  // --- the block ----------------------------------------------------------------------------

  /** SHA-256 and AES-256-IGE, and what is assumed of them: their lengths, and that decryption
      undoes encryption on whole blocks. */
  datatype Ciphers = Ciphers(
    sha256: bytes -> bytes,
    encrypt: (bytes, bytes, bytes) -> bytes,
    decrypt: (bytes, bytes, bytes) -> bytes)

  ghost predicate Sound(c: Ciphers) {
    && (forall m: bytes {:trigger c.sha256(m)} :: |c.sha256(m)| == 32)
    && (forall m: bytes, iv: bytes, k: bytes {:trigger c.encrypt(m, iv, k)} ::
          |m| % 16 == 0 ==> |c.encrypt(m, iv, k)| == |m| && c.decrypt(c.encrypt(m, iv, k), iv, k) == m)
  }

  /** What one draw of a temporary key makes of the padded data. */
  function BlockFor(c: Ciphers, padded: bytes, tempKey: bytes): bytes {
    var aesEncrypted := c.encrypt(Reversed(padded) + c.sha256(tempKey + padded), Zeros(32), tempKey);
    XorBytes(tempKey, c.sha256(aesEncrypted)) + aesEncrypted
  }

  /** The mirror steps of a receiver: the temporary key out of the first 32 bytes, decryption,
      and the reversal undone. The data is believed only if its hash matches. */
  function Unpad(c: Ciphers, block: bytes): (bytes, bool)
    requires |block| == 256
  {
    var aesEncrypted := block[32..];
    var tempKey := XorBytes(block[..32], c.sha256(aesEncrypted));
    var dataWithHash := c.decrypt(aesEncrypted, Zeros(32), tempKey);
    if |dataWithHash| < 192 then ([], false)
    else
      var data := seq(192, k requires 0 <= k < 192 => dataWithHash[191 - k]);
      (data, dataWithHash[192..] == c.sha256(tempKey + data))
  }

  lemma BlockLength(c: Ciphers, padded: bytes, tempKey: bytes)
    requires Sound(c) && |padded| == 192 && |tempKey| == 32
    ensures |BlockFor(c, padded, tempKey)| == 256
  {
    var dataWithHash := Reversed(padded) + c.sha256(tempKey + padded);
    assert |dataWithHash| == 224;
    assert |c.encrypt(dataWithHash, Zeros(32), tempKey)| == 224;
  }

  /** RSA_PAD is invertible: from the block alone the receiver recovers the data, whatever the
      padding and the temporary key, and the hash it checks matches. */
  lemma UnpadRecovers(c: Ciphers, data: bytes, padding: bytes, tempKey: bytes)
    requires Sound(c) && |data| <= 144 && |padding| == 192 - |data| && |tempKey| == 32
    ensures |BlockFor(c, data + padding, tempKey)| == 256
    ensures var (padded, intact) := Unpad(c, BlockFor(c, data + padding, tempKey));
            intact && padded[..|data|] == data
  {
    var padded := data + padding;
    var reversed, hash := Reversed(padded), c.sha256(tempKey + padded);
    var aesEncrypted := c.encrypt(reversed + hash, Zeros(32), tempKey);
    BlockLength(c, padded, tempKey);
    var block := BlockFor(c, padded, tempKey);
    assert block[..32] == XorBytes(tempKey, c.sha256(aesEncrypted)) && block[32..] == aesEncrypted;
    XorBytesBack(tempKey, c.sha256(aesEncrypted));
    assert c.decrypt(aesEncrypted, Zeros(32), tempKey) == reversed + hash;
    assert (reversed + hash)[..192] == reversed && (reversed + hash)[192..] == hash;
    forall k | 0 <= k < 192 ensures reversed[191 - k] == padded[k] { ReversedAt(padded, 191 - k); }
    assert seq(192, k requires 0 <= k < 192 => (reversed + hash)[191 - k]) == padded;
  }

  /** The redrawing loop, given as many draws of the random source as it is allowed. It stops
      at the first draw whose block, as an integer, is below the modulus; and it gives up only
      when none of the draws is. */
  method Pad(c: Ciphers, data: bytes, padding: bytes, modulus: bytes, draws: seq<bytes>)
    returns (block: Option<bytes>, drawn: nat)
    requires Sound(c) && |data| <= 144 && |padding| == 192 - |data| && |modulus| == 256
    requires forall i :: 0 <= i < |draws| ==> |draws[i]| == 32
    ensures drawn <= |draws|
    ensures forall i :: 0 <= i < drawn ==> Value(BlockFor(c, data + padding, draws[i])) >= Value(modulus)
    ensures block.None? <==> drawn == |draws|
    ensures block.Some? ==>
              && block.value == BlockFor(c, data + padding, draws[drawn])
              && |block.value| == 256 && Value(block.value) < Value(modulus)
              && Unpad(c, block.value).1 && Unpad(c, block.value).0[..|data|] == data
  {
    hide Reversed, XorBytes, Value, Unpad, Zeros;
    var dataWithPadding := data + padding;
    var buffer := new byte[192](i requires 0 <= i < 192 => dataWithPadding[i]);
    assert buffer[..] == dataWithPadding;
    ReverseInPlace(buffer);
    var dataPadReversed := buffer[..];
    var i := 0;
    while i < |draws|
      invariant 0 <= i <= |draws|
      invariant forall k :: 0 <= k < i ==> Value(BlockFor(c, data + padding, draws[k])) >= Value(modulus)
    {
      var tempKey := draws[i];
      var dataWithHash := dataPadReversed + c.sha256(tempKey + dataWithPadding);
      var aesEncrypted := c.encrypt(dataWithHash, Zeros(32), tempKey);
      var tempKeyXor := XorArray(tempKey, c.sha256(aesEncrypted));
      var keyAesEncrypted := tempKeyXor + aesEncrypted;
      BlockLength(c, dataWithPadding, tempKey);
      var order := CompareAsBigEndian(keyAesEncrypted, modulus);
      if order == -1 {
        UnpadRecovers(c, data, padding, tempKey);
        return Some(keyAesEncrypted), i;
      }
      i := i + 1;
    }
    return None, i;
  }
}

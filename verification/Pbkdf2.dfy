/** libkg/crypto: PBKDF2 with HMAC-SHA512 (RFC 2898, section 5.2), over an HMAC context whose
    key is scheduled once and reused. */
module Pbkdf2 {
  import opened Bytes

  const HASH_LENGTH := 64
  const REPORT_EVERY := 5000

  type Hmac = (bytes, bytes) -> bytes

  ghost predicate IsHmac(prf: Hmac) {
    forall k: bytes, m: bytes {:trigger prf(k, m)} :: |prf(k, m)| == HASH_LENGTH
  }

  // --- RFC 2898, section 5.2 ----------------------------------------------------------------

  /** INT(i): the block index in four octets, most significant first. */
  function BlockIndex(i: nat): (b: bytes)
    requires i < 0x1_0000_0000
    ensures |b| == 4
  {
    [i / 0x100_0000, i / 0x1_0000 % 256, i / 256 % 256, i % 256]
  }

  /** U_j of block i. */
  function U(prf: Hmac, p: bytes, s: bytes, i: nat, j: nat): bytes
    requires j >= 1 && i < 0x1_0000_0000
  {
    if j == 1 then prf(p, s + BlockIndex(i)) else prf(p, U(prf, p, s, i, j - 1))
  }

  /** U_1 xor ... xor U_c. */
  function T(prf: Hmac, p: bytes, s: bytes, c: nat, i: nat): bytes
    requires c >= 1 && i < 0x1_0000_0000
  {
    if c == 1 then U(prf, p, s, i, 1) else XorBytes(T(prf, p, s, c - 1, i), U(prf, p, s, i, c))
  }

  /** T_1 || ... || T_l. */
  function Blocks(prf: Hmac, p: bytes, s: bytes, c: nat, l: nat): bytes
    requires c >= 1 && l < 0x1_0000_0000
  {
    if l == 0 then [] else Blocks(prf, p, s, c, l - 1) + T(prf, p, s, c, l)
  }

  function BlockCount(dkLen: nat): nat {
    (dkLen + HASH_LENGTH - 1) / HASH_LENGTH
  }

  lemma {:induction false} LengthU(prf: Hmac, p: bytes, s: bytes, i: nat, j: nat)
    requires IsHmac(prf) && j >= 1 && i < 0x1_0000_0000
    ensures |U(prf, p, s, i, j)| == HASH_LENGTH
  {
  }

  lemma {:induction false} LengthT(prf: Hmac, p: bytes, s: bytes, c: nat, i: nat)
    requires IsHmac(prf) && c >= 1 && i < 0x1_0000_0000
    ensures |T(prf, p, s, c, i)| == HASH_LENGTH
  {
    LengthU(prf, p, s, i, c);
    if c > 1 { LengthT(prf, p, s, c - 1, i); }
  }

  lemma {:induction false} LengthBlocks(prf: Hmac, p: bytes, s: bytes, c: nat, l: nat)
    requires IsHmac(prf) && c >= 1 && l < 0x1_0000_0000
    ensures |Blocks(prf, p, s, c, l)| == HASH_LENGTH * l
  {
    if l > 0 {
      LengthBlocks(prf, p, s, c, l - 1);
      LengthT(prf, p, s, c, l);
    }
  }

  // --- the streaming context ----------------------------------------------------------------

  /** The library's HMAC context: a scheduled key and the data fed so far. */
  class HmacContext {
    const prf: Hmac
    var key: bytes
    var fed: bytes

    constructor (prf: Hmac)
      ensures this.prf == prf
    {
      this.prf := prf;
      key, fed := [], [];
    }

    method Starts(k: bytes)
      modifies this
      ensures key == k && fed == []
    {
      key, fed := k, [];
    }

    method Update(data: bytes)
      modifies this
      ensures key == old(key) && fed == old(fed) + data
    {
      fed := fed + data;
    }

    method Finish(u: array<byte>)
      requires IsHmac(prf) && u.Length == HASH_LENGTH
      modifies u
      ensures u[..] == prf(key, fed)
    {
      var mac := prf(key, fed);
      for i := 0 to HASH_LENGTH
        invariant forall k :: 0 <= k < i ==> u[k] == mac[k]
      {
        u[i] := mac[i];
      }
    }

    method Reset()
      modifies this
      ensures key == old(key) && fed == []
    {
      fed := [];
    }
  }

  // --- the derivation -----------------------------------------------------------------------

  /** t ^= u, byte by byte. */
  method XorInto(t: array<byte>, u: array<byte>)
    requires t.Length == u.Length && t != u
    modifies t
    ensures t[..] == XorBytes(old(t[..]), u[..])
  {
    ghost var was := t[..];
    for j := 0 to t.Length
      invariant forall k :: 0 <= k < j ==> t[k] == Xor(was[k], u[k])
      invariant forall k :: j <= k < t.Length ==> t[k] == was[k]
    {
      t[j] := Xor(t[j], u[j]);
    }
    forall k | 0 <= k < t.Length ensures t[..][k] == XorBytes(was, u[..])[k] {
      XorBytesAt(was, u[..], k);
    }
  }

  /** The step at which the sink is asked, for block `block` and iteration `i` of it. */
  function StepAt(block: nat, i: nat, iterations: nat): int
    requires block >= 1
  {
    (block - 1) * iterations + i + 1
  }

  /** The sink says no at one of the steps it is asked about: every 5000th, except that the
      first step of a block is never reported. */
  ghost predicate RefusesIn(sink: int -> bool, block: nat, iterations: nat) {
    block >= 1 && exists i :: 1 <= i < iterations && RefusesAt(sink, block, i, iterations)
  }

  ghost predicate RefusesAt(sink: int -> bool, block: nat, i: nat, iterations: nat)
    requires block >= 1
  {
    StepAt(block, i, iterations) % REPORT_EVERY == 0 && !sink(StepAt(block, i, iterations))
  }

  ghost predicate Refuses(sink: int -> bool, iterations: nat, blocks: nat) {
    exists block :: 1 <= block <= blocks && RefusesIn(sink, block, iterations)
  }

  /** One block: `t` holds T_block at the end unless the sink withdrew. */
  method DeriveBlock(ctx: HmacContext, password: bytes, salt: bytes, iterations: nat, block: nat, sink: int -> bool,
                     u: array<byte>, t: array<byte>, start: int)
    returns (failed: bool, stepsDone: int)
    requires IsHmac(ctx.prf) && u.Length == HASH_LENGTH && t.Length == HASH_LENGTH && u != t
    requires iterations >= 1 && 1 <= block < 0x1_0000_0000 && start == (block - 1) * iterations
    modifies ctx, u, t
    ensures failed <==> RefusesIn(sink, block, iterations)
    ensures !failed ==> t[..] == T(ctx.prf, password, salt, iterations, block) && stepsDone == start + iterations
  {
    hide U, T, XorBytes, RefusesAt;
    failed, stepsDone := false, start;
    FirstBlock(ctx, password, salt, block, u, t);
    Starting(ctx.prf, password, salt, block);
    stepsDone := stepsDone + 1;
    var i := 1;
    while i < iterations
      invariant 1 <= i <= iterations && ctx.key == password && stepsDone == start + i && !failed
      invariant u[..] == U(ctx.prf, password, salt, block, i) && t[..] == T(ctx.prf, password, salt, i, block)
      invariant forall k :: 1 <= k < i ==> !RefusesAt(sink, block, k, iterations)
      decreases iterations - i
    {
      Iterate(ctx, u, t);
      Continuing(ctx.prf, password, salt, block, i);
      stepsDone := stepsDone + 1;
      AskedAt(sink, block, i, iterations, stepsDone);
      if stepsDone % REPORT_EVERY == 0 && !sink(stepsDone) {
        failed := true;
        return;
      }
      i := i + 1;
    }
  }

  /** u and t become U_1 of the block. */
  method FirstBlock(ctx: HmacContext, password: bytes, salt: bytes, block: nat, u: array<byte>, t: array<byte>)
    requires IsHmac(ctx.prf) && u.Length == HASH_LENGTH && t.Length == HASH_LENGTH && u != t
             && 1 <= block < 0x1_0000_0000
    modifies ctx, u, t
    ensures ctx.key == password && u[..] == t[..] == ctx.prf(password, salt + BlockIndex(block))
  {
    ctx.Starts(password);
    ctx.Update(salt);
    ctx.Update([block / 0x100_0000, block / 0x1_0000 % 256, block / 256 % 256, block % 256]);
    assert ctx.fed == salt + BlockIndex(block);
    ctx.Finish(u);
    forall k | 0 <= k < HASH_LENGTH { t[k] := u[k]; }
    assert t[..] == u[..];
  }

  /** One further iteration: u is hashed again and t takes it in. */
  method Iterate(ctx: HmacContext, u: array<byte>, t: array<byte>)
    requires IsHmac(ctx.prf) && u.Length == HASH_LENGTH && t.Length == HASH_LENGTH && u != t
    modifies ctx, u, t
    ensures ctx.key == old(ctx.key) && u[..] == ctx.prf(ctx.key, old(u[..]))
    ensures t[..] == XorBytes(old(t[..]), u[..])
  {
    ctx.Reset();
    ctx.Update(u[..]);
    assert ctx.fed == u[..];
    ctx.Finish(u);
    XorInto(t, u);
  }

  lemma Starting(prf: Hmac, p: bytes, s: bytes, block: nat)
    requires block < 0x1_0000_0000
    ensures U(prf, p, s, block, 1) == prf(p, s + BlockIndex(block)) && T(prf, p, s, 1, block) == U(prf, p, s, block, 1)
  {
  }

  lemma Continuing(prf: Hmac, p: bytes, s: bytes, block: nat, i: nat)
    requires i >= 1 && block < 0x1_0000_0000
    ensures U(prf, p, s, block, i + 1) == prf(p, U(prf, p, s, block, i))
    ensures T(prf, p, s, i + 1, block) == XorBytes(T(prf, p, s, i, block), U(prf, p, s, block, i + 1))
  {
  }

  lemma AskedAt(sink: int -> bool, block: nat, i: nat, iterations: nat, step: int)
    requires block >= 1 && step == (block - 1) * iterations + i + 1
    ensures RefusesAt(sink, block, i, iterations) <==> step % REPORT_EVERY == 0 && !sink(step)
  {
  }

  /** One turn of the outer loop: a block derived, and as much of it as fits copied out. */
  method DeriveInto(out: array<byte>, ctx: HmacContext, password: bytes, salt: bytes, iterations: nat, block: nat,
                    sink: int -> bool, u: array<byte>, t: array<byte>, start: int)
    returns (failed: bool, stepsDone: int)
    requires IsHmac(ctx.prf) && u.Length == HASH_LENGTH && t.Length == HASH_LENGTH
    requires u != t && out != u && out != t && (block - 1) * HASH_LENGTH < out.Length
    requires iterations >= 1 && 1 <= block < 0x1_0000_0000 && start == (block - 1) * iterations
    requires Filled(out, ctx.prf, password, salt, iterations, block - 1)
    modifies ctx, u, t, out
    ensures failed <==> RefusesIn(sink, block, iterations)
    ensures !failed ==> Filled(out, ctx.prf, password, salt, iterations, block) && stepsDone == block * iterations
  {
    hide Filled, T, IsHmac, RefusesIn;
    failed, stepsDone := DeriveBlock(ctx, password, salt, iterations, block, sink, u, t, start);
    if !failed {
      var offset := (block - 1) * HASH_LENGTH;
      var take := if HASH_LENGTH < out.Length - offset then HASH_LENGTH else out.Length - offset;
      CopyBlock(out, offset, t, take, ctx.prf, password, salt, iterations, block);
    }
  }

  /** The whole derivation. The answer is the first outputLength octets of T_1 || T_2 || ...
      as section 5.2 of RFC 2898 defines them, and nothing at all when there is nothing to
      derive or the sink withdraws. The sums and products of the step counter stay within a
      qint32, as the caller's parameters must see to. */
  method Derive(prf: Hmac, password: bytes, salt: bytes, iterations: int, outputLength: int, sink: int -> bool)
    returns (key: bytes)
    requires IsHmac(prf)
    requires outputLength + HASH_LENGTH - 1 < 0x8000_0000
    requires iterations > 0 && outputLength > 0 ==> BlockCount(outputLength) * iterations < 0x8000_0000
    ensures key == if iterations <= 0 || outputLength <= 0 || Refuses(sink, iterations, BlockCount(outputLength))
                   then [] else DerivedKey(prf, password, salt, iterations, outputLength)
  {
    if iterations <= 0 || outputLength <= 0 { return []; }
    var blocks := (outputLength + HASH_LENGTH - 1) / HASH_LENGTH;
    var ctx := new HmacContext(prf);
    var u, t := new byte[HASH_LENGTH](_ => 0), new byte[HASH_LENGTH](_ => 0);
    var out := new byte[outputLength](_ => 0);
    var stepsDone := 0;
    var block := 1;
    NothingFilled(out, prf, password, salt, iterations);
    hide Filled, DerivedKey, IsHmac, RefusesIn;
    while block <= blocks
      invariant 1 <= block <= blocks + 1 && stepsDone == (block - 1) * iterations
      invariant forall k :: 1 <= k < block ==> !RefusesIn(sink, k, iterations)
      invariant Filled(out, prf, password, salt, iterations, block - 1)
      decreases blocks - block
    {
      var failed;
      failed, stepsDone := DeriveInto(out, ctx, password, salt, iterations, block, sink, u, t, stepsDone);
      if failed { return []; }
      block := block + 1;
    }
    assert block - 1 == blocks;
    FilledWhole(out, prf, password, salt, iterations);
    key := out[..];
  }

  lemma FilledWhole(out: array<byte>, prf: Hmac, p: bytes, s: bytes, c: nat)
    requires IsHmac(prf) && c >= 1 && BlockCount(out.Length) < 0x1_0000_0000
    requires Filled(out, prf, p, s, c, BlockCount(out.Length))
    ensures out[..] == DerivedKey(prf, p, s, c, out.Length)
  {
    hide Blocks;
    LengthBlocks(prf, p, s, c, BlockCount(out.Length));
    assert out[..] == out[..out.Length];
  }

  lemma NothingFilled(out: array<byte>, prf: Hmac, p: bytes, s: bytes, c: nat)
    requires c >= 1
    ensures Filled(out, prf, p, s, c, 0)
  {
    assert out[..0] == [];
  }

  function DerivedKey(prf: Hmac, p: bytes, s: bytes, c: nat, dkLen: nat): bytes
    requires IsHmac(prf) && c >= 1 && BlockCount(dkLen) < 0x1_0000_0000
  {
    LengthBlocks(prf, p, s, c, BlockCount(dkLen));
    Blocks(prf, p, s, c, BlockCount(dkLen))[..dkLen]
  }

  // --- octet by octet -----------------------------------------------------------------------

  /** Octet n of all the arrays of a chain, xored together. */
  function XorOf(chain: seq<bytes>, n: nat): byte
    requires chain != [] && forall j :: 0 <= j < |chain| ==> n < |chain[j]|
  {
    var last := |chain| - 1;
    if last == 0 then chain[0][n] else Xor(XorOf(chain[..last], n), chain[last][n])
  }

  /** Each array is the last one hashed again, and the first is the hash of the salt and the block
      index in four octets, most significant first. */
  ghost predicate Chained(prf: Hmac, p: bytes, s: bytes, i: nat, chain: seq<bytes>) {
    && chain != [] && chain[0] == prf(p, s + Fixed(i, 4))
    && forall j :: 0 < j < |chain| ==> chain[j] == prf(p, chain[j - 1])
  }

  lemma IndexIsFixed(i: nat)
    requires i < 0x1_0000_0000
    ensures BlockIndex(i) == Fixed(i, 4)
  {
    assert Fixed(i / 0x1_0000, 2) == Fixed(i / 0x1_0000 / 256, 1) + [i / 0x1_0000 % 256];
    assert Fixed(i / 0x100_0000, 1) == Fixed(i / 0x100_0000 / 256, 0) + [i / 0x100_0000 % 256];
    assert i / 256 / 256 == i / 0x1_0000 && i / 0x1_0000 / 256 == i / 0x100_0000;
    assert Fixed(i, 4) == Fixed(i / 256, 3) + [i % 256];
    assert Fixed(i / 256, 3) == Fixed(i / 256 / 256, 2) + [i / 256 % 256];
  }

  lemma {:induction false} ChainIsT(prf: Hmac, p: bytes, s: bytes, c: nat, i: nat, chain: seq<bytes>, n: nat)
    requires IsHmac(prf) && c >= 1 && i < 0x1_0000_0000 && |chain| == c && Chained(prf, p, s, i, chain)
    requires n < HASH_LENGTH
    ensures U(prf, p, s, i, c) == chain[c - 1]
    ensures forall j :: 0 <= j < c ==> |chain[j]| == HASH_LENGTH
    ensures |T(prf, p, s, c, i)| == HASH_LENGTH && T(prf, p, s, c, i)[n] == XorOf(chain, n)
    decreases c
  {
    IndexIsFixed(i);
    LengthT(prf, p, s, c, i);
    if c > 1 {
      var before := chain[..c - 1];
      ChainIsT(prf, p, s, c - 1, i, before, n);
      Continuing(prf, p, s, i, c - 1);
      forall j | 0 <= j < c - 1 ensures |chain[j]| == HASH_LENGTH { assert before[j] == chain[j]; }
      XorBytesAt(T(prf, p, s, c - 1, i), U(prf, p, s, i, c), n);
    }
  }

  lemma {:induction false} BlocksAt(prf: Hmac, p: bytes, s: bytes, c: nat, l: nat, k: nat)
    requires IsHmac(prf) && c >= 1 && l < 0x1_0000_0000 && k < HASH_LENGTH * l
    ensures |Blocks(prf, p, s, c, l)| == HASH_LENGTH * l && |T(prf, p, s, c, k / HASH_LENGTH + 1)| == HASH_LENGTH
    ensures Blocks(prf, p, s, c, l)[k] == T(prf, p, s, c, k / HASH_LENGTH + 1)[k % HASH_LENGTH]
  {
    hide T;
    LengthBlocks(prf, p, s, c, l);
    LengthBlocks(prf, p, s, c, l - 1);
    LengthT(prf, p, s, c, k / HASH_LENGTH + 1);
    if k < HASH_LENGTH * (l - 1) { BlocksAt(prf, p, s, c, l - 1, k); }
  }

  /** Octet k of the key: of the chain of block k / 64 + 1, octet k % 64 of every link, xored. */
  lemma DerivedOctet(prf: Hmac, p: bytes, s: bytes, c: nat, dkLen: nat, k: nat, chain: seq<bytes>)
    requires IsHmac(prf) && c >= 1 && BlockCount(dkLen) < 0x1_0000_0000 && k < dkLen
    requires |chain| == c && Chained(prf, p, s, k / 64 + 1, chain)
    ensures forall j :: 0 <= j < c ==> |chain[j]| == 64
    ensures |DerivedKey(prf, p, s, c, dkLen)| == dkLen && DerivedKey(prf, p, s, c, dkLen)[k] == XorOf(chain, k % 64)
  {
    hide T, Blocks;
    LengthBlocks(prf, p, s, c, BlockCount(dkLen));
    BlocksAt(prf, p, s, c, BlockCount(dkLen), k);
    ChainIsT(prf, p, s, c, k / 64 + 1, chain, k % 64);
  }

  /** The output holds the first `l` blocks, as far as there is room for them. */
  ghost predicate Filled(out: array<byte>, prf: Hmac, p: bytes, s: bytes, c: nat, l: nat)
    requires c >= 1 && l < 0x1_0000_0000
    reads out
  {
    var have := if HASH_LENGTH * l < out.Length then HASH_LENGTH * l else out.Length;
    |Blocks(prf, p, s, c, l)| == HASH_LENGTH * l && out[..have] == Blocks(prf, p, s, c, l)[..have]
  }

  method CopyBlock(out: array<byte>, offset: nat, t: array<byte>, take: nat, prf: Hmac, p: bytes, s: bytes, c: nat,
                   block: nat)
    requires IsHmac(prf) && t.Length == HASH_LENGTH && out != t && c >= 1 && 1 <= block < 0x1_0000_0000
    requires offset == (block - 1) * HASH_LENGTH < out.Length
    requires take == if HASH_LENGTH < out.Length - offset then HASH_LENGTH else out.Length - offset
    requires t[..] == T(prf, p, s, c, block) && Filled(out, prf, p, s, c, block - 1)
    modifies out
    ensures Filled(out, prf, p, s, c, block)
  {
    hide T;
    ghost var was := out[..];
    for k := 0 to take
      invariant out[..offset] == was[..offset]
      invariant forall i :: 0 <= i < k ==> out[offset + i] == t[i]
    {
      out[offset + k] := t[k];
    }
    LengthBlocks(prf, p, s, c, block);
    ghost var done := Blocks(prf, p, s, c, block - 1);
    assert was[..offset] == done[..offset] == done;
    Spliced(out[..], done, t[..], take);
  }

  lemma Spliced(out: bytes, done: bytes, t: bytes, take: nat)
    requires take <= |t| && |done| + take <= |out| && out[..|done|] == done
    requires forall i :: 0 <= i < take ==> out[|done| + i] == t[i]
    ensures out[..|done| + take] == (done + t)[..|done| + take]
  {
    forall k | 0 <= k < |done| + take ensures out[k] == (done + t)[k] {
      if k < |done| { assert out[..|done|][k] == done[k]; } else { assert out[|done| + (k - |done|)] == t[k - |done|]; }
    }
  }
}

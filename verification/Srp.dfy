/** libkg/srp: Telegram's SRP-6a password proof. */
module Srp {
  import opened Modular
  import opened Bytes
  import opened Options

  const SRP_SIZE := 256
  const SAFE_MARGIN := 64
  const MAX_SECRET_ATTEMPTS := 8

  datatype Params = Params(p: bytes, g: int, salt1: bytes, salt2: bytes, srpB: bytes, srpId: int)

  datatype Proof = Proof(srpId: int, a: bytes, m1: bytes)

  /** The library calls the proof is built on, and the prime it is built with. `derive` is the
      password derivation, which answers with nothing when its sink withdraws. */
  datatype Primitives = Primitives(
    sha256: bytes -> bytes,
    derive: (bytes, bytes) -> bytes,
    isPrime: int -> bool,
    knownGoodPrime: int)

  datatype Problem =
    | NoProblem
    | Incomplete | Oversized | NotTwoThousandBits | NotPrime | NotSafePrime | BadGenerator | UnsafeB
    | SecretSize | UnsafeA | NotComputable | UnusableHash | ZeroScrambler | EmptyBase | NotPadded | GaveUp

  function SaltedHash(prim: Primitives, data: bytes, salt: bytes): bytes {
    prim.sha256(salt + data + salt)
  }

  predicate GeneratorFits(p: int, g: int) {
    match g
    case 2 => p % 8 == 7
    case 3 => p % 3 == 2
    case 4 => true
    case 5 => p % 5 == 1 || p % 5 == 4
    case 6 => p % 24 == 19 || p % 24 == 23
    case 7 => p % 7 == 3 || p % 7 == 5 || p % 7 == 6
    case _ => false
  }

  /** 2^1984 for a size of 256. */
  function SafeBound(size: nat): int
    requires 8 * size >= SAFE_MARGIN
  {
    Pow(2, 8 * size - SAFE_MARGIN)
  }

  predicate InSafeRange(p: int, value: int) {
    SafeBound(SRP_SIZE) <= value <= p - SafeBound(SRP_SIZE)
  }

  function CheckParams(prim: Primitives, q: Params): Problem {
    var p := Value(q.p);
    if q.p == [] || q.salt1 == [] || q.salt2 == [] || q.srpB == [] then Incomplete
    else if |q.p| > SRP_SIZE || |q.srpB| > SRP_SIZE then Oversized
    else if BitLength(p) != 2048 then NotTwoThousandBits
    else if p != prim.knownGoodPrime && !prim.isPrime(p) then NotPrime
    else if p != prim.knownGoodPrime && !prim.isPrime((p - 1) / 2) then NotSafePrime
    else if !GeneratorFits(p, q.g) then BadGenerator
    else if !InSafeRange(p, Value(q.srpB)) then UnsafeB
    else NoProblem
  }

  lemma TwoThousandBits(p: nat)
    requires BitLength(p) == 2048
    ensures p >= 256
  {
    if p < 256 { ShortNumbers(p); }
  }

  lemma ShortNumbers(p: nat)
    requires p < 256
    ensures BitLength(p) <= 8
  {
    DroppingBits(p, 8);
    assert Pow(2, 8) == 256;
  }

  // --- the bignum library -------------------------------------------------------------------

  /** Refuses an even or non-positive modulus. */
  function ExpMod(b: int, e: nat, n: int): Option<int> {
    if n <= 0 || n % 2 == 0 then None else Some(Pow(b, e) % n)
  }

  /** Refuses a number that does not fit. */
  function PadTo256(n: nat): Option<bytes> {
    if |Minimal(n)| <= SRP_SIZE then Some(Fixed(n, SRP_SIZE)) else None
  }

  /** Bits from the highest that is set down. */
  function BitLength(n: nat): nat {
    if n == 0 then 0 else 1 + BitLength(n / 2)
  }

  // --- what the proof is --------------------------------------------------------------------

  /** k = H(p | g), both padded. */
  function Multiplier(prim: Primitives, p: nat, g: nat): nat {
    Value(prim.sha256(Fixed(p, SRP_SIZE) + Fixed(g, SRP_SIZE)))
  }

  /** u = H(A | B), both padded. */
  function Scrambler(prim: Primitives, bigA: nat, bigB: nat): nat {
    Value(prim.sha256(Fixed(bigA, SRP_SIZE) + Fixed(bigB, SRP_SIZE)))
  }

  /** The derivation's input: both salted hashes of the password. */
  function PasswordHash(prim: Primitives, q: Params, password: bytes): bytes {
    SaltedHash(prim, SaltedHash(prim, password, q.salt1), q.salt2)
  }

  function Evidence(prim: Primitives, q: Params, bigA: nat, secret: nat): bytes {
    prim.sha256(XorBytes(prim.sha256(Fixed(Value(q.p), SRP_SIZE)),
                         prim.sha256(Fixed(if q.g >= 0 then q.g else 0, SRP_SIZE)))
                + prim.sha256(q.salt1)
                + prim.sha256(q.salt2)
                + Fixed(bigA, SRP_SIZE)
                + Fixed(Value(q.srpB), SRP_SIZE)
                + prim.sha256(Fixed(secret, SRP_SIZE)))
  }

  /** The secret the client arrives at, in the formula's own terms. */
  function ClientSecret(p: int, bigB: int, k: int, v: int, a: nat, u: nat, x: nat): int
    requires p > 0 && u * x >= 0
  {
    Pow((bigB - k * v) % p, a + u * x) % p
  }

  /** The secret a server holding the verifier v arrives at. */
  function ServerSecret(p: int, bigA: int, v: int, u: nat, b: nat): int
    requires p > 0
  {
    Pow(bigA * Pow(v, u), b) % p
  }

  datatype Outcome = Failed(problem: Problem) | Withdrawn | Proved(proof: Proof)

  function Attempt(prim: Primitives, q: Params, password: bytes, secret: bytes): Outcome {
    if CheckParams(prim, q) != NoProblem then Failed(CheckParams(prim, q))
    else if |secret| != SRP_SIZE then Failed(SecretSize)
    else AttemptChecked(prim, q, password, secret)
  }

  function AttemptChecked(prim: Primitives, q: Params, password: bytes, secret: bytes): Outcome
    requires CheckParams(prim, q) == NoProblem
  {
    hide Pow, Value, BitLength;
    TwoThousandBits(Value(q.p));
    var p, a := Value(q.p), Value(secret);
    var bigA := Pow(q.g, a) % p;
    if a == 0 then Failed(UnsafeA)
    else if p % 2 == 0 then Failed(NotComputable)
    else if !InSafeRange(p, bigA) then Failed(UnsafeA)
    else
      var derived := prim.derive(PasswordHash(prim, q, password), q.salt1);
      if derived == [] then Withdrawn
      else AttemptDerived(prim, q, a, bigA, Value(SaltedHash(prim, derived, q.salt2)))
  }

  function AttemptDerived(prim: Primitives, q: Params, a: nat, bigA: nat, x: nat): Outcome
    requires Value(q.p) > 0 && q.g >= 0
  {
    hide Pow, Value;
    var p, bigB := Value(q.p), Value(q.srpB);
    var u := Scrambler(prim, bigA, bigB);
    var k, v := Multiplier(prim, p, q.g), Pow(q.g, x) % p;
    if x == 0 then Failed(UnusableHash)
    else if u == 0 then Failed(ZeroScrambler)
    else if (bigB - k * v) % p == 0 then Failed(EmptyBase)
    else Proved(Proof(q.srpId, Fixed(bigA, SRP_SIZE), Evidence(prim, q, bigA, ClientSecret(p, bigB, k, v, a, u, x))))
  }

  // --- the computation ----------------------------------------------------------------------

  /** A number of 8*w bits fits w bytes. */
  lemma {:induction false} BitsAndBytes(n: nat, w: nat)
    requires BitLength(n) <= 8 * w
    ensures |Minimal(n)| <= w
  {
    if n > 0 {
      DroppingAByte(n);
      BitsAndBytes(n / 256, w - 1);
    }
  }

  lemma DroppingAByte(n: nat)
    requires n > 0
    ensures BitLength(n) >= 1 && BitLength(n / 256) == if BitLength(n) >= 8 then BitLength(n) - 8 else 0
  {
    DroppingBits(n, 8);
    assert Pow(2, 8) == 256;
  }

  lemma {:induction false} DroppingBits(n: nat, k: nat)
    ensures Pow(2, k) > 0
    ensures BitLength(n / Pow(2, k)) == if BitLength(n) >= k then BitLength(n) - k else 0
    decreases k
  {
    PowPositive(2, k);
    if k > 0 {
      DroppingBits(n / 2, k - 1);
      PowPositive(2, k - 1);
      DivideTwice(n, Pow(2, k - 1));
    }
  }

  lemma DivideTwice(n: nat, m: nat)
    requires m > 0
    ensures n / (2 * m) == (n / 2) / m
  {
    var h := n / 2;
    assert n == 2 * h + n % 2 && h == m * (h / m) + h % m;
    assert n == 2 * m * (h / m) + (2 * (h % m) + n % 2);
    RemainderIs(n, 2 * m, h / m, 2 * (h % m) + n % 2);
  }

  lemma {:induction false} SmallerIsShorter(n: nat, m: nat)
    requires n <= m
    ensures |Minimal(n)| <= |Minimal(m)|
  {
    if n > 0 { SmallerIsShorter(n / 256, m / 256); }
  }

  /** Everything up to a 2048-bit number fits the padding. */
  lemma FitsPadding(n: nat, p: nat)
    requires n <= p && BitLength(p) <= 2048
    ensures |Minimal(n)| <= SRP_SIZE
  {
    BitsAndBytes(p, SRP_SIZE);
    SmallerIsShorter(n, p);
  }

  /** And comes back from it. */
  lemma PaddingComesBack(n: nat)
    requires |Minimal(n)| <= SRP_SIZE
    ensures Value(Fixed(n, SRP_SIZE)) == n
  {
    hide Pow, Value, Fixed, Minimal;
    MinimalFits(n, SRP_SIZE);
    ValueFixed(n, SRP_SIZE);
  }

  /** The signed subtraction with its explicit correction is reduction modulo p. */
  lemma CorrectedBase(p: int, bigB: int, kv: int)
    requires 0 <= bigB < p
    ensures var t := bigB - kv % p; (if t < 0 then t + p else t) == (bigB - kv) % p
  {
    var t := bigB - kv % p;
    ModTwice(kv, p);
    AddSame(kv % p, kv, 0, p);
    var m := SameRemainder(kv, kv % p, p);
    AddMultiple(t, p, -m);
    assert bigB - kv == t + p * -m;
    if t < 0 { RemainderIs(t, p, -1, t + p); } else { RemainderIs(t, p, 0, t); }
  }

  /** One attempt with a given secret exponent. `out` is the caller's proof, filled only at the
      very end. */
  method ComputeWithSecret(prim: Primitives, q: Params, password: bytes, secret: bytes, out: Proof)
    returns (problem: Problem, proof: Proof)
    ensures match Attempt(prim, q, password, secret)
            case Failed(why) => problem == why && proof == out
            case Withdrawn => problem == NoProblem && proof == out
            case Proved(made) => problem == NoProblem && proof == made
  {
    hide Pow, Value, Fixed, XorBytes, BitLength, Minimal;
    proof := out;
    problem := CheckParams(prim, q);
    if problem != NoProblem { return; }
    if |secret| != SRP_SIZE { return SecretSize, out; }
    PowPositive(2, 8 * SRP_SIZE - SAFE_MARGIN);
    TwoThousandBits(Value(q.p));

    var p, g, bigB, a := Value(q.p), q.g, Value(q.srpB), Value(secret);
    if a == 0 { return UnsafeA, out; }

    var bigA := ExpMod(g, a, p);
    if bigA.None? { return NotComputable, out; }
    FitsPadding(bigA.value, p);
    var padA := PadTo256(bigA.value);
    if padA.None? { return NotComputable, out; }
    PaddingComesBack(bigA.value);
    if !InSafeRange(p, Value(padA.value)) { return UnsafeA, out; }

    var ph1 := SaltedHash(prim, SaltedHash(prim, password, q.salt1), q.salt2);
    var ph2base := prim.derive(ph1, q.salt1);
    if ph2base == [] { return NoProblem, out; }
    problem, proof := Conclude(prim, q, a, bigA.value, padA.value, Value(SaltedHash(prim, ph2base, q.salt2)), out);
  }

  /** The rest of the attempt, from the private value x on. */
  method Conclude(prim: Primitives, q: Params, a: nat, bigA: nat, padA: bytes, x: nat, out: Proof)
    returns (problem: Problem, proof: Proof)
    requires var p := Value(q.p); p % 2 == 1 && BitLength(p) == 2048 && 0 <= q.g < 256 <= p && Value(q.srpB) < p
    requires padA == Fixed(bigA, SRP_SIZE)
    ensures match AttemptDerived(prim, q, a, bigA, x)
            case Failed(why) => problem == why && proof == out
            case Withdrawn => false
            case Proved(made) => problem == NoProblem && proof == made
  {
    hide Pow, Value, Fixed, XorBytes, BitLength, Minimal;
    var p, g, bigB := Value(q.p), q.g, Value(q.srpB);
    if x == 0 { return UnusableHash, out; }
    FitsPadding(p, p);
    FitsPadding(bigB, p);
    FitsPadding(g, p);
    var padP, padG, padB := PadTo256(p), PadTo256(g), PadTo256(bigB);
    if padP.None? || padG.None? || padB.None? { return NotPadded, out; }
    var k := Value(prim.sha256(padP.value + padG.value));
    var v := ExpMod(g, x, p);
    if v.None? { return NotComputable, out; }
    var kv := k * v.value % p;
    var u := Value(prim.sha256(padA + padB.value));
    if u == 0 { return ZeroScrambler, out; }

    var t := bigB - kv;
    if t < 0 { t := t + p; }
    CorrectedBase(p, bigB, k * v.value);
    if t == 0 { return EmptyBase, out; }

    var e := u * x + a;
    var s := ExpMod(t, e, p);
    if s.None? { return NotComputable, out; }
    FitsPadding(s.value, p);
    var padS := PadTo256(s.value);
    if padS.None? { return NotComputable, out; }

    proof := Proof(q.srpId, padA,
                   prim.sha256(XorBytes(prim.sha256(padP.value), prim.sha256(padG.value))
                               + prim.sha256(q.salt1)
                               + prim.sha256(q.salt2)
                               + padA
                               + padB.value
                               + prim.sha256(padS.value)));
    problem := NoProblem;
  }

  /** Draws a secret until one gives a safe public value, eight times at most. */
  method Compute(prim: Primitives, q: Params, password: bytes, draws: nat -> bytes, out: Proof)
    returns (problem: Problem, proof: Proof, attempts: nat)
    ensures attempts <= MAX_SECRET_ATTEMPTS
    ensures forall i: nat :: i < attempts ==> Attempt(prim, q, password, draws(i)) == Failed(UnsafeA)
    ensures attempts == MAX_SECRET_ATTEMPTS ==> problem == GaveUp && proof == out
    ensures attempts < MAX_SECRET_ATTEMPTS ==>
              match Attempt(prim, q, password, draws(attempts))
              case Failed(why) => why != UnsafeA && problem == why && proof == out
              case Withdrawn => problem == NoProblem && proof == out
              case Proved(made) => problem == NoProblem && proof == made
  {
    hide Attempt;
    proof := out;
    var attempt := 0;
    while attempt < MAX_SECRET_ATTEMPTS
      invariant 0 <= attempt <= MAX_SECRET_ATTEMPTS && proof == out
      invariant forall i: nat :: i < attempt ==> Attempt(prim, q, password, draws(i)) == Failed(UnsafeA)
    {
      problem, proof := ComputeWithSecret(prim, q, password, draws(attempt), proof);
      if problem != UnsafeA {
        attempts := attempt;
        return;
      }
      attempt := attempt + 1;
    }
    return GaveUp, out, MAX_SECRET_ATTEMPTS;
  }

  // --- agreement ----------------------------------------------------------------------------

  lemma BaseIsServerPower(p: int, g: int, b: nat, k: int, v: int)
    requires p > 0
    ensures ((k * v + Pow(g, b)) % p - k * v) % p == Pow(g, b) % p
  {
    ModTwice(k * v + Pow(g, b), p);
    AddSame((k * v + Pow(g, b)) % p, k * v + Pow(g, b), k * v, p);
  }

  lemma ServerPower(p: int, g: int, a: nat, u: nat, x: nat)
    requires p > 0
    ensures u * x >= 0 && (Pow(g, a) % p * Pow(Pow(g, x) % p, u)) % p == Pow(g, a + u * x) % p
  {
    var gx := Pow(g, x);
    ModTwice(gx, p);
    PowSame(gx % p, gx, u, p);
    MulSame(Pow(gx % p, u), Pow(gx, u), Pow(g, a) % p, p);
    ModTwice(Pow(g, a), p);
    MulSame(Pow(g, a) % p, Pow(g, a), Pow(gx, u), p);
    PowMul(g, x, u);
    assert x * u == u * x;
    PowAdd(g, a, u * x);
  }

  lemma ClientArrives(p: int, g: int, a: nat, b: nat, u: nat, x: nat, k: int)
    requires p > 0
    ensures var v := Pow(g, x) % p;
            u * x >= 0 && b * (a + u * x) >= 0
            && ClientSecret(p, (k * v + Pow(g, b)) % p, k, v, a, u, x) == Pow(g, b * (a + u * x)) % p
  {
    hide Pow;
    var v := Pow(g, x) % p;
    var base := (k * v + Pow(g, b)) % p - k * v;
    BaseIsServerPower(p, g, b, k, v);
    var e := a + u * x;
    ModTwice(base, p);
    PowSame(base % p, Pow(g, b), e, p);
    PowMul(g, b, e);
  }

  lemma ServerArrives(p: int, g: int, a: nat, b: nat, u: nat, x: nat)
    requires p > 0
    ensures u * x >= 0 && b * (a + u * x) >= 0
            && ServerSecret(p, Pow(g, a) % p, Pow(g, x) % p, u, b) == Pow(g, b * (a + u * x)) % p
  {
    hide Pow;
    ServerPower(p, g, a, u, x);
    var e := a + u * x;
    PowSame(Pow(g, a) % p * Pow(Pow(g, x) % p, u), Pow(g, e), b, p);
    PowMul(g, e, b);
    assert b * e == e * b;
  }

  /** The agreement SRP-6a is for: whatever the exponents, multiplier and scrambler, the client's
      B - k*v raised to the unreduced a + u*x is the server's (A * v^u)^b. */
  lemma SecretsAgree(p: int, g: int, a: nat, b: nat, u: nat, x: nat, k: int)
    requires p > 0
    ensures var v := Pow(g, x) % p;
            var bigA, bigB := Pow(g, a) % p, (k * v + Pow(g, b)) % p;
            u * x >= 0 && ClientSecret(p, bigB, k, v, a, u, x) == ServerSecret(p, bigA, v, u, b)
  {
    ClientArrives(p, g, a, b, u, x, k);
    ServerArrives(p, g, a, b, u, x);
  }

  /** The private value behind the verifier that was registered with a password: both hashes have
      the salt on both sides, and so has the one around the derivation. */
  function RegisteredX(prim: Primitives, salt1: bytes, salt2: bytes, password: bytes): nat {
    var inner := prim.sha256(salt2 + prim.sha256(salt1 + password + salt1) + salt2);
    Value(prim.sha256(salt2 + prim.derive(inner, salt1) + salt2))
  }

  /** The public value a server sends, from the verifier and its own exponent. */
  function ServerPublic(prim: Primitives, p: nat, g: nat, v: nat, b: nat): nat
    requires p > 0
  {
    var k := Value(prim.sha256(Fixed(p, 256) + Fixed(g, 256)));
    (k * v + Pow(g, b)) % p
  }

  /** The evidence it expects: H(H(p) xor H(g), H(salt1), H(salt2), A, B, H(S)), where S is
      (A * v^u)^b and u is H(A, B). */
  function ServerEvidence(prim: Primitives, q: Params, v: nat, b: nat, receivedA: bytes): bytes
    requires Value(q.p) > 0 && q.g >= 0
  {
    var p, sentB := Value(q.p), Fixed(Value(q.srpB), 256);
    var u := Value(prim.sha256(receivedA + sentB));
    var s := Pow(Value(receivedA) * Pow(v, u), b) % p;
    prim.sha256(XorBytes(prim.sha256(Fixed(p, 256)), prim.sha256(Fixed(q.g, 256)))
                + prim.sha256(q.salt1) + prim.sha256(q.salt2) + receivedA + sentB + prim.sha256(Fixed(s, 256)))
  }

  /** A proof the client makes convinces the server that knows the verifier of the same password:
      the evidence is byte for byte what that server computes from the A it receives, whenever
      its B was made from its verifier and its own exponent. */
  lemma ProofConvincesServer(prim: Primitives, q: Params, password: bytes, secret: bytes, b: nat)
    requires Attempt(prim, q, password, secret).Proved?
    requires var p, g := Value(q.p), q.g;
             && p > 0 && g >= 0
             && Value(q.srpB)
                == ServerPublic(prim, p, g, Pow(g, RegisteredX(prim, q.salt1, q.salt2, password)) % p, b)
    ensures var proof := Attempt(prim, q, password, secret).proof;
            var x := RegisteredX(prim, q.salt1, q.salt2, password);
            && proof.a == Fixed(Pow(q.g, Value(secret)) % Value(q.p), 256)
            && proof.srpId == q.srpId
            && proof.m1 == ServerEvidence(prim, q, Pow(q.g, x) % Value(q.p), b, proof.a)
  {
    hide Pow, Value, Fixed, XorBytes, BitLength, Minimal;
    var p, g, a := Value(q.p), q.g, Value(secret);
    var x := RegisteredX(prim, q.salt1, q.salt2, password);
    var bigA := Pow(g, a) % p;
    FitsPadding(bigA, p);
    PaddingComesBack(bigA);
    SecretsAgree(p, g, a, b, Scrambler(prim, bigA, Value(q.srpB)), x, Multiplier(prim, p, g));
  }

  /** An attempt ends without a problem and without a proof exactly when the parameters and the
      secret exponent are usable and the derivation was withdrawn. */
  lemma WithdrawalIsSilent(prim: Primitives, q: Params, password: bytes, secret: bytes)
    ensures Attempt(prim, q, password, secret) == Withdrawn <==>
              && CheckParams(prim, q) == NoProblem
              && |secret| == SRP_SIZE && Value(secret) != 0
              && Value(q.p) % 2 == 1 && InSafeRange(Value(q.p), Pow(q.g, Value(secret)) % Value(q.p))
              && prim.derive(PasswordHash(prim, q, password), q.salt1) == []
  {
    hide Pow, Value, BitLength;
  }

  /** And with a proof exactly when, besides, nothing the protocol must not be run with turns up:
      the modulus has 2048 bits and is a safe prime, both public values keep 2^1984 away from its
      ends, and neither x, u nor the base is zero. */
  lemma ProvedIff(prim: Primitives, q: Params, password: bytes, secret: bytes)
    ensures Attempt(prim, q, password, secret).Proved? <==>
              && q.p != [] && q.salt1 != [] && q.salt2 != [] && q.srpB != [] && |q.p| <= 256 && |q.srpB| <= 256
              && ParamsAreSafe(prim, Value(q.p), q.g, Value(q.srpB))
              && |secret| == 256 && Value(secret) != 0
              && KeepsAway(Pow(q.g, Value(secret)) % Value(q.p), Value(q.p))
              && prim.derive(prim.sha256(q.salt2 + prim.sha256(q.salt1 + password + q.salt1) + q.salt2), q.salt1) != []
              && NothingIsZero(prim, Value(q.p), q.g, Pow(q.g, Value(secret)) % Value(q.p), Value(q.srpB),
                               RegisteredX(prim, q.salt1, q.salt2, password))
  {
    hide Pow, Value, BitLength, Fixed;
    if CheckParams(prim, q) == NoProblem { TwoThousandBits(Value(q.p)); }
  }

  predicate ParamsAreSafe(prim: Primitives, p: nat, g: int, bigB: nat) {
    && BitLength(p) == 2048 && p % 2 == 1
    && (p == prim.knownGoodPrime || (prim.isPrime(p) && prim.isPrime((p - 1) / 2)))
    && GeneratorFits(p, g) && KeepsAway(bigB, p)
  }

  predicate KeepsAway(n: int, p: int) {
    Pow(2, 1984) <= n <= p - Pow(2, 1984)
  }

  predicate NothingIsZero(prim: Primitives, p: nat, g: nat, bigA: nat, bigB: nat, x: nat)
    requires p > 0
  {
    var k := Value(prim.sha256(Fixed(p, 256) + Fixed(g, 256)));
    && x != 0 && Value(prim.sha256(Fixed(bigA, 256) + Fixed(bigB, 256))) != 0
    && (bigB - k * (Pow(g, x) % p)) % p != 0
  }

  // --- the Diffie-Hellman key ---------------------------------------------------------------

  /** Modular power over byte arrays, in as few bytes as the result needs; nothing when the
      library refuses the modulus. */
  function EncryptRSA(data: bytes, key: bytes, exp: bytes): bytes {
    var r := ExpMod(Value(data), Value(exp), Value(key));
    if r.None? then [] else Minimal(r.value)
  }

  /** The key the client derives: the minimal result with zeros put in front. */
  function ClientAuthKey(gA: bytes, dhPrime: bytes, b: bytes): bytes {
    var k := EncryptRSA(gA, dhPrime, b);
    (if |k| <= 256 then Zeros(256 - |k|) else []) + k
  }

  /** Both sides hold the same 256 bytes: for every odd modulus of at most 2048 bits, every
      generator and all exponents, the client's padded key is the server's fixed-width
      g_b^a mod p, where the server reads g_b from the minimal form the client sent and the
      client reads g_a from any encoding. */
  lemma AuthKeysAgree(g: bytes, dhPrime: bytes, gA: bytes, a: nat, b: bytes)
    requires var p := Value(dhPrime); p % 2 == 1 && BitLength(p) <= 2048 && Value(gA) == Pow(Value(g), a) % p
    ensures var gB := EncryptRSA(g, dhPrime, b);
            && Value(gB) == Pow(Value(g), Value(b)) % Value(dhPrime)
            && |ClientAuthKey(gA, dhPrime, b)| == 256
            && ClientAuthKey(gA, dhPrime, b) == Fixed(Pow(Value(gB), a) % Value(dhPrime), 256)
  {
    hide Pow, Value, Fixed, Minimal;
    var p := Value(dhPrime);
    var e := Value(b);
    ValueMinimal(Pow(Value(g), e) % p);
    ExponentsCommute(Value(g), a, e, p);
    var key := Pow(Value(gA), e) % p;
    FitsPadding(key, p);
    MinimalFits(key, 256);
    PadMinimal(key, 256);
  }
}

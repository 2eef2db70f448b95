/** Powers-of-tau ingest: layout, truncation and verification gates
    (cmd/ingest-ptau/main.go).  */
module Ptau {
  import opened Basics
  import opened Crypto
  import Int64

  const G1_BYTES := 96
  const G2_BYTES := 192

  datatype Array = TauG1 | TauG2 | AlphaTau | BetaTau | BetaG2

  function Pow2(n: nat): (r: nat)
    ensures r >= 1
  {
    if n == 0 then 1 else 2 * Pow2(n - 1)
  }

  // ---- byte offsets in int64 ----

  function Add(x: int, y: int): int { Int64.Wrap(x + y) }

  function Mul(x: int, y: int): int { Int64.Wrap(x * y) }

  /** `int64(1) << power`. */
  function ShiftOne(power: nat): int {
    if power < 64 then Int64.Wrap(Pow2(power)) else 0
  }

  function OffsetOf(header: int, srcPower: nat, a: Array, i: int): int {
    var srcN := ShiftOne(srcPower);
    var srcTauG1Len := Add(Mul(2, srcN), -1);
    var offTauG1 := header;
    var offTauG2 := Add(offTauG1, Mul(srcTauG1Len, G1_BYTES));
    var offAlpha := Add(offTauG2, Mul(srcN, G2_BYTES));
    var offBeta := Add(offAlpha, Mul(srcN, G1_BYTES));
    var offBetaG2 := Add(offBeta, Mul(srcN, G1_BYTES));
    match a
    case TauG1 => Add(offTauG1, Mul(i, G1_BYTES))
    case TauG2 => Add(offTauG2, Mul(i, G2_BYTES))
    case AlphaTau => Add(offAlpha, Mul(i, G1_BYTES))
    case BetaTau => Add(offBeta, Mul(i, G1_BYTES))
    case BetaG2 => Add(offBetaG2, Mul(i, G2_BYTES))
  }

  // ---- the layout those offsets must describe ----

  function Width(a: Array): nat {
    if a.TauG2? || a.BetaG2? then G2_BYTES else G1_BYTES
  }

  /** Elements of each array of an accumulator with N powers. */
  function Count(a: Array, n: nat): nat
    requires n >= 1
  {
    match a
    case TauG1 => 2 * n - 1
    case BetaG2 => 1
    case _ => n
  }

  const ORDER: seq<Array> := [TauG1, TauG2, AlphaTau, BetaTau, BetaG2]

  /** Bytes of the first k arrays. */
  function BytesBefore(k: nat, n: nat): nat
    requires k <= 5 && n >= 1
  {
    if k == 0 then 0 else BytesBefore(k - 1, n) + Count(ORDER[k - 1], n) * Width(ORDER[k - 1])
  }

  /** The arrays fill the file after the header, in order and without gaps. */
  lemma Tiling(n: nat)
    requires n >= 1
    ensures BytesBefore(0, n) == 0 && BytesBefore(1, n) == 192 * n - 96 && BytesBefore(2, n) == 384 * n - 96
    ensures BytesBefore(3, n) == 480 * n - 96 && BytesBefore(4, n) == 576 * n - 96 && BytesBefore(5, n) == 576 * n + 96
  {
  }

  lemma {:induction false} Pow2Monotone(m: nat, n: nat)
    requires m <= n
    ensures Pow2(m) <= Pow2(n)
  {
    if m < n {
      Pow2Monotone(m, n - 1);
    }
  }

  lemma {:induction false} Pow2Sum(m: nat, n: nat)
    ensures Pow2(m + n) == Pow2(m) * Pow2(n)
  {
    if m > 0 {
      Pow2Sum(m - 1, n);
      assert 2 * (Pow2(m - 1) * Pow2(n)) == (2 * Pow2(m - 1)) * Pow2(n);
    }
  }

  lemma Pow2At53()
    ensures Pow2(53) == 0x20_0000_0000_0000 && Pow2(54) == 0x40_0000_0000_0000
  {
    assert Pow2(3) == 8 && Pow2(5) == 32;
    Pow2Sum(3, 3);
    Pow2Sum(6, 6);
    Pow2Sum(12, 12);
    Pow2Sum(24, 24);
    Pow2Sum(5, 48);
    assert Pow2(54) == 2 * Pow2(53);
  }

  /** Every element, and the end of every array, lies where the layout puts it. */
  ghost predicate OffsetsExact(header: nat, p: nat) {
    forall k, i :: 0 <= k < 5 && 0 <= i <= Count(ORDER[k], Pow2(p)) ==>
      OffsetOf(header, p, ORDER[k], i) == header + BytesBefore(k, Pow2(p)) + i * Width(ORDER[k])
  }

  /** The file of a header of this length and an accumulator of power p has a length that
      int64 can hold.  */
  predicate Addressable(header: nat, p: nat) {
    header + 576 * Pow2(p) + 96 < Int64.TWO_63
  }

  lemma AddressableUpTo53(header: nat, p: nat)
    ensures Addressable(header, p) ==> p <= 53 && Pow2(p) <= 0x20_0000_0000_0000
    ensures header <= 64 && p <= 53 ==> Addressable(header, p)
  {
    Pow2At53();
    if p <= 53 {
      Pow2Monotone(p, 53);
    } else {
      Pow2Monotone(54, p);
    }
  }

  /** For a header of any length, int64 offsets describe the layout exactly when the length
      of the file fits.  */
  lemma OffsetsExactIff(header: nat, p: nat)
    ensures OffsetsExact(header, p) <==> Addressable(header, p)
  {
    Tiling(Pow2(p));
    AddressableUpTo53(header, p);
    if Addressable(header, p) {
      forall k, i | 0 <= k < 5 && 0 <= i <= Count(ORDER[k], Pow2(p))
        ensures OffsetOf(header, p, ORDER[k], i) == header + BytesBefore(k, Pow2(p)) + i * Width(ORDER[k])
      {
        OffsetExact(header, p, Pow2(p), k, i);
      }
    } else {
      assert OffsetOf(header, p, ORDER[4], 1) < Int64.TWO_63;
      assert header + BytesBefore(4, Pow2(p)) + 1 * Width(ORDER[4]) >= Int64.TWO_63;
      assert Count(ORDER[4], Pow2(p)) == 1;
    }
  }

  /** With the 64-byte header that is the case up to power 53 and for no larger power. */
  lemma OffsetsExactUpTo53(p: nat)
    ensures OffsetsExact(64, p) <==> p <= 53
  {
    OffsetsExactIff(64, p);
    AddressableUpTo53(64, p);
  }

  lemma OffsetExact(header: nat, p: nat, n: nat, k: nat, i: nat)
    requires n == Pow2(p) && Addressable(header, p) && k < 5 && i <= Count(ORDER[k], n)
    ensures OffsetOf(header, p, ORDER[k], i) == header + BytesBefore(k, n) + i * Width(ORDER[k])
  {
    Tiling(n);
    AddressableUpTo53(header, p);
    assert ShiftOne(p) == n;
    OffsetUnwrapped(header, p, n, ORDER[k], i);
  }

  lemma OffsetUnwrapped(header: nat, p: nat, n: nat, a: Array, i: nat)
    requires ShiftOne(p) == n && n >= 1 && header + 576 * n + 96 < Int64.TWO_63 && i <= Count(a, n)
    ensures OffsetOf(header, p, a, i) == header + i * Width(a) +
      match a
      case TauG1 => 0
      case TauG2 => 192 * n - 96
      case AlphaTau => 384 * n - 96
      case BetaTau => 480 * n - 96
      case BetaG2 => 576 * n - 96
  {
    var srcTauG1Len := Add(Mul(2, n), -1);
    assert srcTauG1Len == 2 * n - 1;
    var offTauG2 := Add(header, Mul(srcTauG1Len, G1_BYTES));
    assert offTauG2 == header + 192 * n - 96;
    var offAlpha := Add(offTauG2, Mul(n, G2_BYTES));
    assert offAlpha == header + 384 * n - 96;
    var offBeta := Add(offAlpha, Mul(n, G1_BYTES));
    assert offBeta == header + 480 * n - 96;
  }

  // ---- points as exponents ----

  /** The prime-order groups in the exponent: a point of G1 or G2 is the power of its
      generator, reduced modulo the order. Encodings are fixed-size, and decoding
      undoes them and checks the subgroup.  */
  datatype Curve = Curve(
    order: nat,
    enc1: int -> seq<byte>, dec1: seq<byte> -> Option<int>,
    enc2: int -> seq<byte>, dec2: seq<byte> -> Option<int>)
  {
    ghost predicate Valid() {
      && order >= 2
      && (forall x :: |enc1(x)| == G1_BYTES && |enc2(x)| == G2_BYTES)
      && (forall x :: 0 <= x < order ==> dec1(enc1(x)) == Some(x) && dec2(enc2(x)) == Some(x))
      && (forall b :: dec1(b).Some? ==> 0 <= dec1(b).value < order)
      && (forall b :: dec2(b).Some? ==> 0 <= dec2(b).value < order)
    }

    function Encode(a: Array, x: int): seq<byte> {
      if a.TauG2? || a.BetaG2? then enc2(x) else enc1(x)
    }

    function Decode(a: Array, b: seq<byte>): Option<int> {
      if a.TauG2? || a.BetaG2? then dec2(b) else dec1(b)
    }
  }

  /** gnark's SrsCommons. */
  datatype Srs = Srs(tauG1: seq<int>, tauG2: seq<int>, alphaTau: seq<int>, betaTau: seq<int>, betaG2: int) {
    function Points(a: Array): seq<int> {
      match a
      case TauG1 => tauG1
      case TauG2 => tauG2
      case AlphaTau => alphaTau
      case BetaTau => betaTau
      case BetaG2 => [betaG2]
    }
  }

  function Power(t: int, i: nat): int {
    if i == 0 then 1 else Power(t, i - 1) * t
  }

  /** c, c*t, c*t^2, ... modulo q. */
  function Geometric(q: nat, c: int, t: int, n: nat): seq<int>
    requires q >= 2
  {
    seq(n, i requires 0 <= i < n => (c * Power(t, i)) % q)
  }

  /** The structured reference string of n powers of tau, with alpha and beta. */
  function PowersOf(q: nat, n: nat, tau: int, alpha: int, beta: int): Srs
    requires q >= 2 && n >= 1
  {
    Srs(Geometric(q, 1, tau, 2 * n - 1), Geometric(q, 1, tau, n),
        Geometric(q, alpha, tau, n), Geometric(q, beta, tau, n), beta % q)
  }

  // ---- the gates ----

  datatype Failure =
    | BadPower | ReadFailed(a: Array)
    | NotG1Generator | NotG2Generator | RatioMismatch | BetaMismatch

  /** The ideal contract of SameRatioMany: every cross-ratio of a and b agrees. */
  predicate SameRatio(q: nat, a: seq<int>, b: seq<int>)
    requires q >= 2
  {
    forall i, j | 0 <= i < |a| - 1 && 0 <= j < |b| - 1 :: (a[i + 1] * b[j]) % q == (a[i] * b[j + 1]) % q
  }

  predicate SameRatioMany(q: nat, s: Srs)
    requires q >= 2
  {
    SameRatio(q, s.tauG1, s.tauG2) && SameRatio(q, s.alphaTau, s.tauG2) && SameRatio(q, s.betaTau, s.tauG2)
  }

  predicate Sized(q: nat, n: nat, s: Srs) {
    && n >= 1 && |s.tauG1| == 2 * n - 1 && |s.tauG2| == n && |s.alphaTau| == n && |s.betaTau| == n
    && Reduced(q, s.tauG1) && Reduced(q, s.tauG2) && Reduced(q, s.alphaTau) && Reduced(q, s.betaTau)
    && 0 <= s.betaG2 < q
  }

  predicate Reduced(q: nat, xs: seq<int>) {
    forall i | 0 <= i < |xs| :: 0 <= xs[i] < q
  }

  /** f is the first gate, in the order of the checks, that s fails. */
  ghost predicate FailsFirst(q: nat, s: Srs, f: Failure)
    requires q >= 2 && |s.tauG1| > 0 && |s.tauG2| > 0 && |s.betaTau| > 0
  {
    match f
    case NotG1Generator => s.tauG1[0] != 1
    case NotG2Generator => s.tauG1[0] == 1 && s.tauG2[0] != 1
    case RatioMismatch => s.tauG1[0] == 1 && s.tauG2[0] == 1 && !SameRatioMany(q, s)
    case BetaMismatch => s.tauG1[0] == 1 && s.tauG2[0] == 1 && SameRatioMany(q, s) && s.betaTau[0] != s.betaG2
    case _ => false
  }

  /** The first gate that fails, or the commons themselves. */
  method Verify(q: nat, n: nat, s: Srs) returns (r: Result<Srs, Failure>)
    requires q >= 2 && Sized(q, n, s) && n >= 2
    ensures r.Ok? <==> exists tau, alpha, beta :: s == PowersOf(q, n, tau, alpha, beta)
    ensures r.Ok? ==> r.value == s
    ensures r.Err? ==> FailsFirst(q, s, r.error)
  {
    if s.tauG1[0] != 1 {
      GateIffPowers(q, n, s);
      return Err(NotG1Generator);
    }
    if s.tauG2[0] != 1 {
      GateIffPowers(q, n, s);
      return Err(NotG2Generator);
    }
    if !SameRatioMany(q, s) {
      GateIffPowers(q, n, s);
      return Err(RatioMismatch);
    }
    if (s.betaTau[0] * 1 + (q - 1) * s.betaG2) % q != 0 {
      BetaPairing(q, s.betaTau[0], s.betaG2);
      GateIffPowers(q, n, s);
      return Err(BetaMismatch);
    }
    BetaPairing(q, s.betaTau[0], s.betaG2);
    GateIffPowers(q, n, s);
    return Ok(s);
  }

  ghost predicate Gate(q: nat, s: Srs)
    requires q >= 2 && |s.tauG1| > 0 && |s.tauG2| > 0 && |s.betaTau| > 0
  {
    s.tauG1[0] == 1 && s.tauG2[0] == 1 && SameRatioMany(q, s) && s.betaTau[0] == s.betaG2
  }

  // ---- arithmetic modulo the order ----

  lemma ModUnique(a: int, k: int, r: int, q: nat)
    requires q >= 1 && a == k * q + r && 0 <= r < q
    ensures a % q == r
  {
    var d := a / q;
    assert a == d * q + a % q;
    assert (k - d) * q == k * q - d * q && (d - k) * q == d * q - k * q;
    if k > d {
      AtLeast(k - d, q);
    } else if k < d {
      AtLeast(d - k, q);
    }
  }

  lemma AtLeast(k: nat, q: nat)
    requires k >= 1
    ensures k * q >= q
  {
  }

  lemma ModMul(x: int, y: int, q: nat)
    requires q >= 1
    ensures ((x % q) * y) % q == (x * y) % q
  {
    var k, r := x / q, x % q;
    var z := r * y;
    assert x == k * q + r;
    assert x * y == (k * y) * q + z by {
      assert (k * q + r) * y == k * q * y + r * y;
      assert k * q * y == (k * y) * q;
    }
    assert z == (z / q) * q + z % q;
    assert x * y == (k * y + z / q) * q + z % q;
    ModUnique(x * y, k * y + z / q, z % q, q);
  }

  lemma ModMulBoth(x: int, y: int, q: nat)
    requires q >= 1
    ensures ((x % q) * (y % q)) % q == (x * y) % q
  {
    ModMul(x, y % q, q);
    assert x * (y % q) == (y % q) * x && x * y == y * x;
    ModMul(y, x, q);
  }

  /** The pairing equation between beta in G1 and beta in G2. */
  lemma BetaPairing(q: nat, b1: int, b2: int)
    requires q >= 2 && 0 <= b1 < q && 0 <= b2 < q
    ensures (b1 * 1 + (q - 1) * b2) % q == 0 <==> b1 == b2
  {
    assert b1 * 1 + (q - 1) * b2 == b2 * q + (b1 - b2);
    if b1 >= b2 {
      ModUnique(b1 * 1 + (q - 1) * b2, b2, b1 - b2, q);
    } else {
      assert b2 * q + (b1 - b2) == (b2 - 1) * q + (q + b1 - b2);
      ModUnique(b1 * 1 + (q - 1) * b2, b2 - 1, q + b1 - b2, q);
    }
  }

  // ---- the gates hold of exactly the well-formed strings ----

  lemma {:induction false} RatioMakesGeometric(q: nat, a: seq<int>, t: int, i: nat)
    requires q >= 2 && Reduced(q, a) && i < |a|
    requires forall k :: 0 <= k < |a| - 1 ==> a[k + 1] == (a[k] * t) % q
    ensures a[i] == (a[0] * Power(t, i)) % q
  {
    if i == 0 {
      ModUnique(a[0], 0, a[0], q);
    } else {
      RatioMakesGeometric(q, a, t, i - 1);
      ModMul(a[0] * Power(t, i - 1), t, q);
      assert a[0] * Power(t, i - 1) * t == a[0] * Power(t, i);
    }
  }

  lemma IsGeometric(q: nat, a: seq<int>, t: int)
    requires q >= 2 && Reduced(q, a) && |a| > 0
    requires forall k :: 0 <= k < |a| - 1 ==> a[k + 1] == (a[k] * t) % q
    ensures a == Geometric(q, a[0], t, |a|)
  {
    forall i | 0 <= i < |a| ensures a[i] == (a[0] * Power(t, i)) % q {
      RatioMakesGeometric(q, a, t, i);
    }
  }

  lemma RatioAgainstOne(q: nat, a: seq<int>, b: seq<int>, k: nat)
    requires q >= 2 && Reduced(q, a) && |b| >= 2 && b[0] == 1 && SameRatio(q, a, b) && k < |a| - 1
    ensures a[k + 1] == (a[k] * b[1]) % q
  {
    assert (a[k + 1] * b[0]) % q == (a[k] * b[0 + 1]) % q;
    ModUnique(a[k + 1], 0, a[k + 1], q);
  }

  lemma GateMakesPowers(q: nat, n: nat, s: Srs)
    requires q >= 2 && n >= 2 && Sized(q, n, s) && Gate(q, s)
    ensures s == PowersOf(q, n, s.tauG2[1], s.alphaTau[0], s.betaTau[0])
  {
    var t := s.tauG2[1];
    forall k | 0 <= k < |s.tauG1| - 1 ensures s.tauG1[k + 1] == (s.tauG1[k] * t) % q {
      RatioAgainstOne(q, s.tauG1, s.tauG2, k);
    }
    IsGeometric(q, s.tauG1, t);
    forall k | 0 <= k < n - 1 ensures s.alphaTau[k + 1] == (s.alphaTau[k] * t) % q {
      RatioAgainstOne(q, s.alphaTau, s.tauG2, k);
    }
    IsGeometric(q, s.alphaTau, t);
    forall k | 0 <= k < n - 1 ensures s.betaTau[k + 1] == (s.betaTau[k] * t) % q {
      RatioAgainstOne(q, s.betaTau, s.tauG2, k);
    }
    IsGeometric(q, s.betaTau, t);
    assert s.tauG1[0 + 1] == t by {
      RatioAgainstOne(q, s.tauG1, s.tauG2, 0);
      ModUnique(t, 0, t, q);
    }
    forall j | 0 <= j < n - 1 ensures s.tauG2[j + 1] == (s.tauG2[j] * t) % q {
      assert (s.tauG1[0 + 1] * s.tauG2[j]) % q == (s.tauG1[0] * s.tauG2[j + 1]) % q;
      ModUnique(s.tauG2[j + 1], 0, s.tauG2[j + 1], q);
      assert t * s.tauG2[j] == s.tauG2[j] * t;
    }
    IsGeometric(q, s.tauG2, t);
    ModUnique(s.betaTau[0], 0, s.betaTau[0], q);
  }

  lemma CrossProduct(c: int, t: int, x: int, y: int)
    ensures (c * (x * t)) * (1 * y) == (c * x) * (1 * (y * t))
  {
    assert (c * (x * t)) * y == c * x * (t * y);
    assert (c * x) * (y * t) == c * x * (t * y);
  }

  lemma CrossRatio(q: nat, c: int, t: int, i: nat, j: nat)
    requires q >= 2
    ensures (((c * Power(t, i + 1)) % q) * ((1 * Power(t, j)) % q)) % q
         == (((c * Power(t, i)) % q) * ((1 * Power(t, j + 1)) % q)) % q
  {
    ModMulBoth(c * Power(t, i + 1), 1 * Power(t, j), q);
    ModMulBoth(c * Power(t, i), 1 * Power(t, j + 1), q);
    CrossProduct(c, t, Power(t, i), Power(t, j));
  }

  lemma GeometricRatio(q: nat, c: int, t: int, m: nat, n: nat)
    requires q >= 2
    ensures SameRatio(q, Geometric(q, c, t, m), Geometric(q, 1, t, n))
  {
    var a, b := Geometric(q, c, t, m), Geometric(q, 1, t, n);
    forall i, j | 0 <= i < m - 1 && 0 <= j < n - 1
      ensures (a[i + 1] * b[j]) % q == (a[i] * b[j + 1]) % q
    {
      CrossRatio(q, c, t, i, j);
    }
  }

  /** The gates accept exactly the strings generated by some tau, alpha and beta. */
  lemma GateIffPowers(q: nat, n: nat, s: Srs)
    requires q >= 2 && n >= 2 && Sized(q, n, s)
    ensures Gate(q, s) <==> exists tau, alpha, beta :: s == PowersOf(q, n, tau, alpha, beta)
  {
    if Gate(q, s) {
      GateMakesPowers(q, n, s);
    }
    if tau, alpha, beta :| s == PowersOf(q, n, tau, alpha, beta) {
      GeometricRatio(q, 1, tau, 2 * n - 1, n);
      GeometricRatio(q, alpha, tau, n, n);
      GeometricRatio(q, beta, tau, n, n);
      ModUnique(1, 0, 1, q);
    }
  }

  // ---- the file and its ranges ----

  /** Where the accumulator is read from; the target of an HTTP range request names
      its last byte, not the one behind it (section 14.1.2 of RFC 9110).  */
  datatype Source = LocalFile(bytes: seq<byte>) | Url(bytes: seq<byte>)

  function Min(x: int, y: int): int { if x < y then x else y }

  /** The bytes a range yields, cut short at the end of the source, or an error. */
  function OpenRange(src: Source, start: int, length: int): Option<seq<byte>> {
    var b, n := src.bytes, |src.bytes|;
    match src
    case LocalFile(_) =>
      if start < 0 then None
      else if length <= 0 || start >= n then Some([])
      else Some(b[start..Min(start + length, n)])
    case Url(_) =>
      var last := Add(Add(start, length), -1);
      if 0 <= start <= last && start < n then Some(b[start..Min(last + 1, n)]) else None
  }

  lemma RangeInside(src: Source, start: nat, length: nat)
    requires 0 < length && start + length <= |src.bytes| && start + length < Int64.TWO_63
    ensures OpenRange(src, start, length) == Some(src.bytes[start..start + length])
  {
  }

  /** The first |pts| encoded points of a byte string. */
  ghost predicate Decodes(cv: Curve, a: Array, bytes: seq<byte>, pts: seq<int>) {
    && |pts| * Width(a) <= |bytes|
    && forall i :: 0 <= i < |pts| ==> cv.Decode(a, Window(bytes, i, Width(a))) == Some(pts[i])
  }

  function Window(bytes: seq<byte>, i: nat, w: nat): seq<byte> {
    if (i + 1) * w <= |bytes| then Between(bytes, i * w, w) else []
  }

  function Between(bytes: seq<byte>, from: nat, w: nat): seq<byte>
    requires from + w <= |bytes|
  {
    bytes[from..from + w]
  }

  /** The range for |pts| points from the start of array a opens and decodes to them. */
  ghost predicate Readable(cv: Curve, src: Source, header: int, srcPower: nat, a: Array, pts: seq<int>) {
    var rc := OpenRange(src, OffsetOf(header, srcPower, a, 0), Mul(|pts|, Width(a)));
    rc.Some? && Decodes(cv, a, rc.value, pts)
  }

  ghost predicate Unreadable(cv: Curve, src: Source, header: int, srcPower: nat, a: Array, count: int) {
    forall pts :: |pts| == count ==> !Readable(cv, src, header, srcPower, a, pts)
  }

  /** At most one list of each length can be read from an array. */
  lemma ReadableUnique(cv: Curve, src: Source, header: int, srcPower: nat, a: Array, xs: seq<int>, ys: seq<int>)
    requires |xs| == |ys|
    requires Readable(cv, src, header, srcPower, a, xs) && Readable(cv, src, header, srcPower, a, ys)
    ensures xs == ys
  {
    var bytes := OpenRange(src, OffsetOf(header, srcPower, a, 0), Mul(|xs|, Width(a))).value;
    forall i | 0 <= i < |xs| ensures xs[i] == ys[i] {
      assert cv.Decode(a, Window(bytes, i, Width(a))) == Some(xs[i]);
    }
  }

  /** Reads and decodes `count` points from the start of an array (readG1, readG2). It
      fails exactly when the range cannot be opened, ends early or holds an invalid point.  */
  method ReadPoints(cv: Curve, src: Source, header: int, srcPower: nat, a: Array, count: int)
    returns (pts: Option<seq<int>>)
    ensures pts.Some? ==> |pts.value| == count && Readable(cv, src, header, srcPower, a, pts.value)
    ensures pts.None? ==> Unreadable(cv, src, header, srcPower, a, count)
  {
    var rc := OpenRange(src, OffsetOf(header, srcPower, a, 0), Mul(count, Width(a)));
    if rc.None? || count < 0 {
      return None;
    }
    var bytes, read: seq<int> := rc.value, [];
    var i := 0;
    while i < count
      invariant 0 <= i <= count && |read| == i
      invariant i * Width(a) <= |bytes|
      invariant forall k :: 0 <= k < i ==> cv.Decode(a, Window(bytes, k, Width(a))) == Some(read[k])
    {
      if (i + 1) * Width(a) > |bytes| {
        ShorterThan(i + 1, count, Width(a));
        assert count * Width(a) > |bytes|;
        return None;
      }
      var p := cv.Decode(a, Window(bytes, i, Width(a)));
      if p.None? {
        return None;
      }
      read := read + [p.value];
      i := i + 1;
    }
    return Some(read);
  }

  lemma ShorterThan(i: nat, n: nat, w: nat)
    requires i <= n
    ensures i * w <= n * w
  {
    assert (n - i) * w >= 0;
  }

  // ---- a serialized accumulator ----

  function Flat(cv: Curve, a: Array, xs: seq<int>): seq<byte> {
    if xs == [] then [] else cv.Encode(a, xs[0]) + Flat(cv, a, xs[1..])
  }

  /** The challenge file: header, then the five arrays in order, uncompressed. */
  function Accumulator(cv: Curve, header: seq<byte>, s: Srs): seq<byte> {
    header + Flat(cv, TauG1, s.tauG1) + Flat(cv, TauG2, s.tauG2) + Flat(cv, AlphaTau, s.alphaTau)
      + Flat(cv, BetaTau, s.betaTau) + Flat(cv, BetaG2, [s.betaG2])
  }

  lemma {:induction false} FlatLength(cv: Curve, a: Array, xs: seq<int>)
    requires cv.Valid()
    ensures |Flat(cv, a, xs)| == |xs| * Width(a)
  {
    if xs != [] {
      FlatLength(cv, a, xs[1..]);
    }
  }

  lemma TailSlice(head: seq<byte>, tail: seq<byte>, i: nat, w: nat)
    requires i + w <= |tail|
    ensures Between(head + tail, |head| + i, w) == Between(tail, i, w)
  {
  }

  lemma MulSucc(i: int, w: nat)
    ensures (i + 1) * w == i * w + w
  {
  }

  lemma {:induction false} FlatAt(cv: Curve, a: Array, xs: seq<int>, i: nat)
    requires cv.Valid() && i < |xs|
    ensures i * Width(a) + Width(a) <= |Flat(cv, a, xs)|
    ensures Between(Flat(cv, a, xs), i * Width(a), Width(a)) == cv.Encode(a, xs[i])
  {
    var w, head, tail := Width(a), cv.Encode(a, xs[0]), Flat(cv, a, xs[1..]);
    assert Flat(cv, a, xs) == head + tail && |head| == w;
    if i == 0 {
      assert Between(head + tail, 0, w) == head;
    } else {
      FlatAt(cv, a, xs[1..], i - 1);
      MulSucc(i - 1, w);
      TailSlice(head, tail, (i - 1) * w, w);
    }
  }

  lemma WindowOfPrefix(b: seq<byte>, i: nat, m: nat, w: nat)
    requires i < m && m * w <= |b|
    ensures i * w + w <= m * w && Window(b[..m * w], i, w) == Between(b, i * w, w)
  {
    ShorterThan(i + 1, m, w);
  }

  /** A prefix of an encoded array decodes to the prefix of the array. */
  lemma PrefixDecodes(cv: Curve, a: Array, xs: seq<int>, m: nat)
    requires cv.Valid() && Reduced(cv.order, xs) && m <= |xs|
    ensures |Flat(cv, a, xs)| == |xs| * Width(a) && m * Width(a) <= |xs| * Width(a)
    ensures Decodes(cv, a, Flat(cv, a, xs)[..m * Width(a)], xs[..m])
  {
    FlatLength(cv, a, xs);
    ShorterThan(m, |xs|, Width(a));
    forall i | 0 <= i < m
      ensures cv.Decode(a, Window(Flat(cv, a, xs)[..m * Width(a)], i, Width(a))) == Some(xs[i])
    {
      FlatAt(cv, a, xs, i);
      WindowOfPrefix(Flat(cv, a, xs), i, m, Width(a));
    }
  }

  lemma SliceMiddle(pre: seq<byte>, mid: seq<byte>, post: seq<byte>, m: nat)
    requires m <= |mid|
    ensures (pre + mid + post)[|pre|..|pre| + m] == mid[..m]
  {
  }

  /** The range for m elements lies inside array k, and within int64. */
  lemma RangeInArray(header: nat, p: nat, n: nat, k: nat, m: nat)
    requires Addressable(header, p) && n == Pow2(p) && k < 5 && 1 <= m <= Count(ORDER[k], n)
    ensures OffsetOf(header, p, ORDER[k], 0) == header + BytesBefore(k, n)
    ensures Mul(m, Width(ORDER[k])) == m * Width(ORDER[k])
    ensures header + BytesBefore(k, n) + m * Width(ORDER[k]) <= header + BytesBefore(k + 1, n) < Int64.TWO_63
  {
    FirstOffset(header, p, n, k);
    RangeFits(header, n, k, m);
    MulFits(m, Width(ORDER[k]));
  }

  lemma FirstOffset(header: nat, p: nat, n: nat, k: nat)
    requires Addressable(header, p) && n == Pow2(p) && k < 5
    ensures OffsetOf(header, p, ORDER[k], 0) == header + BytesBefore(k, n)
  {
    OffsetExact(header, p, n, k, 0);
  }

  lemma MulFits(m: nat, w: nat)
    requires m * w < Int64.TWO_63
    ensures Mul(m, w) == m * w
  {
  }

  lemma RangeFits(header: nat, n: nat, k: nat, m: nat)
    requires 1 <= n && header + 576 * n + 96 < Int64.TWO_63 && k < 5 && 1 <= m <= Count(ORDER[k], n)
    ensures header + BytesBefore(k, n) + m * Width(ORDER[k]) <= header + BytesBefore(k + 1, n) < Int64.TWO_63
  {
    Tiling(n);
    ShorterThan(m, Count(ORDER[k], n), Width(ORDER[k]));
    assert BytesBefore(k + 1, n) == BytesBefore(k, n) + Count(ORDER[k], n) * Width(ORDER[k]);
  }

  lemma CountIsLength(q: nat, n: nat, s: Srs, a: Array)
    requires Sized(q, n, s)
    ensures |s.Points(a)| == Count(a, n) && Reduced(q, s.Points(a))
  {
  }

  /** A range over the start of an encoded array decodes to the start of the array. */
  lemma RangeDecodes(cv: Curve, src: Source, a: Array, xs: seq<int>, m: nat, pre: seq<byte>, post: seq<byte>)
    requires cv.Valid() && Reduced(cv.order, xs) && 1 <= m <= |xs|
    requires src.bytes == pre + Flat(cv, a, xs) + post && |pre| + m * Width(a) < Int64.TWO_63
    ensures var rc := OpenRange(src, |pre|, m * Width(a));
            rc.Some? && Decodes(cv, a, rc.value, xs[..m])
  {
    PrefixDecodes(cv, a, xs, m);
    MiddleRange(src, pre, Flat(cv, a, xs), post, m * Width(a));
  }

  /** Reading m elements of an array of a serialized accumulator opens a range that lies
      inside that array, and decodes to the first m elements.  */
  lemma ReadsPrefix(cv: Curve, src: Source, header: seq<byte>, p: nat, s: Srs, k: nat, m: nat)
    requires cv.Valid() && Sized(cv.order, Pow2(p), s) && Addressable(|header|, p)
    requires src.bytes == Accumulator(cv, header, s) && k < 5 && 1 <= m <= |s.Points(ORDER[k])|
    ensures PrefixReadable(cv, src, |header|, p, s, ORDER[k], m)
  {
    var a, xs := ORDER[k], s.Points(ORDER[k]);
    CountIsLength(cv.order, Pow2(p), s, a);
    RangeInArray(|header|, p, Pow2(p), k, m);
    var pre, post := SplitAt(cv, header, s, k, Pow2(p));
    RangeReads(cv, src, |header|, p, a, xs, m, pre, post);
  }

  lemma RangeReads(cv: Curve, src: Source, header: nat, p: nat, a: Array, xs: seq<int>, m: nat,
                   pre: seq<byte>, post: seq<byte>)
    requires cv.Valid() && Reduced(cv.order, xs) && 1 <= m <= |xs|
    requires src.bytes == pre + Flat(cv, a, xs) + post && |pre| + m * Width(a) < Int64.TWO_63
    requires OffsetOf(header, p, a, 0) == |pre| && Mul(m, Width(a)) == m * Width(a)
    ensures Readable(cv, src, header, p, a, xs[..m])
  {
    RangeDecodes(cv, src, a, xs, m, pre, post);
    IsReadable(cv, src, header, p, a, xs[..m], OpenRange(src, |pre|, m * Width(a)).value);
  }

  lemma IsReadable(cv: Curve, src: Source, header: nat, p: nat, a: Array, pts: seq<int>, bytes: seq<byte>)
    requires OpenRange(src, OffsetOf(header, p, a, 0), Mul(|pts|, Width(a))) == Some(bytes)
    requires Decodes(cv, a, bytes, pts)
    ensures Readable(cv, src, header, p, a, pts)
  {
  }

  lemma MiddleRange(src: Source, pre: seq<byte>, mid: seq<byte>, post: seq<byte>, m: nat)
    requires src.bytes == pre + mid + post && 0 < m <= |mid| && |pre| + m < Int64.TWO_63
    ensures OpenRange(src, |pre|, m) == Some(mid[..m])
  {
    SliceMiddle(pre, mid, post, m);
    RangeInside(src, |pre|, m);
  }

  lemma Assoc(x: seq<byte>, y: seq<byte>, z: seq<byte>)
    ensures (x + y) + z == x + (y + z)
  {
  }

  lemma SplitAt(cv: Curve, header: seq<byte>, s: Srs, k: nat, n: nat) returns (pre: seq<byte>, post: seq<byte>)
    requires cv.Valid() && Sized(cv.order, n, s) && k < 5
    ensures Accumulator(cv, header, s) == pre + Flat(cv, ORDER[k], s.Points(ORDER[k])) + post
    ensures |pre| == |header| + BytesBefore(k, n)
  {
    var f0, f1, f2 := Flat(cv, TauG1, s.tauG1), Flat(cv, TauG2, s.tauG2), Flat(cv, AlphaTau, s.alphaTau);
    var f3, f4 := Flat(cv, BetaTau, s.betaTau), Flat(cv, BetaG2, [s.betaG2]);
    var h1, h2, h3 := header + f0, header + f0 + f1, header + f0 + f1 + f2;
    PrefixLengths(cv, s, n);
    if k == 0 {
      pre, post := header, f1 + (f2 + (f3 + f4));
      Assoc(h3, f3, f4);
      Assoc(h2, f2, f3 + f4);
      Assoc(h1, f1, f2 + (f3 + f4));
    } else if k == 1 {
      pre, post := h1, f2 + (f3 + f4);
      Assoc(h3, f3, f4);
      Assoc(h2, f2, f3 + f4);
    } else if k == 2 {
      pre, post := h2, f3 + f4;
      Assoc(h3, f3, f4);
    } else if k == 3 {
      pre, post := h3, f4;
    } else {
      pre, post := h3 + f3, [];
    }
  }

  lemma PrefixLengths(cv: Curve, s: Srs, n: nat)
    requires cv.Valid() && Sized(cv.order, n, s)
    ensures var l0, l1 := |Flat(cv, TauG1, s.tauG1)|, |Flat(cv, TauG2, s.tauG2)|;
            var l2, l3 := |Flat(cv, AlphaTau, s.alphaTau)|, |Flat(cv, BetaTau, s.betaTau)|;
            && BytesBefore(0, n) == 0 && BytesBefore(1, n) == l0 && BytesBefore(2, n) == l0 + l1
            && BytesBefore(3, n) == l0 + l1 + l2 && BytesBefore(4, n) == l0 + l1 + l2 + l3
  {
    Tiling(n);
    FlatLength(cv, TauG1, s.tauG1);
    FlatLength(cv, TauG2, s.tauG2);
    FlatLength(cv, AlphaTau, s.alphaTau);
    FlatLength(cv, BetaTau, s.betaTau);
  }

  // ---- ingest ----

  lemma GeometricPrefix(q: nat, c: int, t: int, m: nat, n: nat)
    requires q >= 2 && m <= n
    ensures Geometric(q, c, t, n)[..m] == Geometric(q, c, t, m)
  {
  }

  /** Cutting each array of the string of n powers to the length for m powers gives the
      string of m powers.  */
  lemma TruncationIsSmallerSrs(q: nat, m: nat, n: nat, tau: int, alpha: int, beta: int)
    requires q >= 2 && 1 <= m <= n
    ensures var s := PowersOf(q, n, tau, alpha, beta);
            Truncated(s, m) == PowersOf(q, m, tau, alpha, beta)
  {
    GeometricPrefix(q, 1, tau, 2 * m - 1, 2 * n - 1);
    GeometricPrefix(q, 1, tau, m, n);
    GeometricPrefix(q, alpha, tau, m, n);
    GeometricPrefix(q, beta, tau, m, n);
  }

  lemma PowersAreSized(q: nat, n: nat, tau: int, alpha: int, beta: int)
    requires q >= 2 && n >= 1
    ensures Sized(q, n, PowersOf(q, n, tau, alpha, beta))
  {
  }

  /** What five successful reads of the truncated arrays hold. */
  ghost predicate ReadsAs(cv: Curve, src: Source, header: int, srcPower: nat, s: Srs) {
    forall a: Array :: ArrayReadable(cv, src, header, srcPower, s, a)
  }

  ghost predicate ArrayReadable(cv: Curve, src: Source, header: int, srcPower: nat, s: Srs, a: Array) {
    Readable(cv, src, header, srcPower, a, s.Points(a))
  }

  lemma EachArray(cv: Curve, src: Source, header: int, srcPower: nat, s: Srs, a: Array, xs: seq<int>)
    requires ReadsAs(cv, src, header, srcPower, s) && xs == s.Points(a)
    ensures Readable(cv, src, header, srcPower, a, xs)
  {
    assert ArrayReadable(cv, src, header, srcPower, s, a);
  }

  lemma AllArrays(cv: Curve, src: Source, header: int, srcPower: nat, s: Srs)
    requires Readable(cv, src, header, srcPower, TauG1, s.tauG1)
    requires Readable(cv, src, header, srcPower, TauG2, s.tauG2)
    requires Readable(cv, src, header, srcPower, AlphaTau, s.alphaTau)
    requires Readable(cv, src, header, srcPower, BetaTau, s.betaTau)
    requires Readable(cv, src, header, srcPower, BetaG2, [s.betaG2])
    ensures ReadsAs(cv, src, header, srcPower, s)
  {
    forall a: Array ensures ArrayReadable(cv, src, header, srcPower, s, a) {
      match a
      case TauG1 =>
      case TauG2 =>
      case AlphaTau =>
      case BetaTau =>
      case BetaG2 =>
    }
  }

  lemma DecodedIsReduced(cv: Curve, src: Source, header: int, srcPower: nat, a: Array, pts: seq<int>)
    requires cv.Valid() && Readable(cv, src, header, srcPower, a, pts)
    ensures Reduced(cv.order, pts)
  {
    var bytes := OpenRange(src, OffsetOf(header, srcPower, a, 0), Mul(|pts|, Width(a))).value;
    forall i | 0 <= i < |pts| ensures 0 <= pts[i] < cv.order {
      assert cv.Decode(a, Window(bytes, i, Width(a))) == Some(pts[i]);
    }
  }

  ghost predicate ReadsSized(cv: Curve, src: Source, header: int, srcPower: nat, tauCount: int, n: int, s: Srs) {
    && |s.tauG1| == tauCount && |s.tauG2| == |s.alphaTau| == |s.betaTau| == n
    && ReadsAs(cv, src, header, srcPower, s)
  }

  /** The number of points read from an array. */
  function Wanted(a: Array, tauCount: int, n: int): int {
    match a
    case TauG1 => tauCount
    case BetaG2 => 1
    case _ => n
  }

  /** Array a cannot be read, and all arrays before it can. */
  ghost predicate StopsAt(cv: Curve, src: Source, header: int, srcPower: nat, tauCount: int, n: int, a: Array) {
    && Unreadable(cv, src, header, srcPower, a, Wanted(a, tauCount, n))
    && forall b: Array :: Rank(b) < Rank(a) ==> HasReading(cv, src, header, srcPower, b, Wanted(b, tauCount, n))
  }

  ghost predicate HasReading(cv: Curve, src: Source, header: int, srcPower: nat, a: Array, count: int) {
    exists pts: seq<int> :: |pts| == count && Readable(cv, src, header, srcPower, a, pts)
  }

  lemma SizedReads(cv: Curve, src: Source, header: int, srcPower: nat, tauCount: int, n: int, a: Array, s: Srs)
    requires ReadsSized(cv, src, header, srcPower, tauCount, n, s)
    ensures HasReading(cv, src, header, srcPower, a, Wanted(a, tauCount, n))
  {
    assert ArrayReadable(cv, src, header, srcPower, s, a);
    assert |s.Points(a)| == Wanted(a, tauCount, n) && Readable(cv, src, header, srcPower, a, s.Points(a));
  }

  method ReadArray(cv: Curve, src: Source, header: int, srcPower: nat, tauCount: int, n: int, a: Array)
    returns (pts: Option<seq<int>>)
    ensures pts.Some? ==>
      && |pts.value| == Wanted(a, tauCount, n) && Readable(cv, src, header, srcPower, a, pts.value)
      && HasReading(cv, src, header, srcPower, a, Wanted(a, tauCount, n))
    ensures pts.None? ==>
      && Unreadable(cv, src, header, srcPower, a, Wanted(a, tauCount, n))
      && forall s :: !ReadsSized(cv, src, header, srcPower, tauCount, n, s)
  {
    pts := ReadPoints(cv, src, header, srcPower, a, Wanted(a, tauCount, n));
    if pts.None? {
      forall s ensures !ReadsSized(cv, src, header, srcPower, tauCount, n, s) {
        if ReadsSized(cv, src, header, srcPower, tauCount, n, s) {
          SizedReads(cv, src, header, srcPower, tauCount, n, a, s);
          assert false;
        }
      }
    }
  }

  lemma Singleton(xs: seq<int>)
    requires |xs| == 1
    ensures xs == [xs[0]]
  {
  }

  lemma StopsHere(cv: Curve, src: Source, header: int, srcPower: nat, tauCount: int, n: int, a: Array)
    requires Unreadable(cv, src, header, srcPower, a, Wanted(a, tauCount, n))
    requires a.TauG1? || HasReading(cv, src, header, srcPower, TauG1, tauCount)
    requires a.TauG1? || a.TauG2? || HasReading(cv, src, header, srcPower, TauG2, n)
    requires a.TauG1? || a.TauG2? || a.AlphaTau? || HasReading(cv, src, header, srcPower, AlphaTau, n)
    requires !a.BetaG2? || HasReading(cv, src, header, srcPower, BetaTau, n)
    ensures StopsAt(cv, src, header, srcPower, tauCount, n, a)
  {
  }

  /** The five reads, each from the start of its array. */
  method ReadTruncated(cv: Curve, src: Source, header: int, srcPower: nat, tauCount: int, n: int)
    returns (r: Result<Srs, Failure>)
    ensures r.Ok? ==> ReadsSized(cv, src, header, srcPower, tauCount, n, r.value)
    ensures r.Err? ==> r.error.ReadFailed? && StopsAt(cv, src, header, srcPower, tauCount, n, r.error.a)
    ensures r.Err? ==> forall s :: !ReadsSized(cv, src, header, srcPower, tauCount, n, s)
  {
    var tauG1 := ReadArray(cv, src, header, srcPower, tauCount, n, TauG1);
    if tauG1.None? {
      StopsHere(cv, src, header, srcPower, tauCount, n, TauG1);
      return Err(ReadFailed(TauG1));
    }
    var tauG2 := ReadArray(cv, src, header, srcPower, tauCount, n, TauG2);
    if tauG2.None? {
      StopsHere(cv, src, header, srcPower, tauCount, n, TauG2);
      return Err(ReadFailed(TauG2));
    }
    var alphaTau := ReadArray(cv, src, header, srcPower, tauCount, n, AlphaTau);
    if alphaTau.None? {
      StopsHere(cv, src, header, srcPower, tauCount, n, AlphaTau);
      return Err(ReadFailed(AlphaTau));
    }
    var betaTau := ReadArray(cv, src, header, srcPower, tauCount, n, BetaTau);
    if betaTau.None? {
      StopsHere(cv, src, header, srcPower, tauCount, n, BetaTau);
      return Err(ReadFailed(BetaTau));
    }
    var betaG2 := ReadArray(cv, src, header, srcPower, tauCount, n, BetaG2);
    if betaG2.None? {
      StopsHere(cv, src, header, srcPower, tauCount, n, BetaG2);
      return Err(ReadFailed(BetaG2));
    }
    Singleton(betaG2.value);
    var s := Srs(tauG1.value, tauG2.value, alphaTau.value, betaTau.value, betaG2.value[0]);
    AllArrays(cv, src, header, srcPower, s);
    return Ok(s);
  }

  /** Truncates an accumulator of power srcPower to the target power. Nothing is returned
      unless the gates pass, and they pass of exactly the strings that some tau, alpha
      and beta generate.  */
  method Ingest(cv: Curve, src: Source, header: int, srcPower: nat, power: nat)
    returns (r: Result<Srs, Failure>)
    requires cv.Valid()
    ensures r == Err(BadPower) <==> !(1 <= power <= srcPower)
    ensures r.Ok? ==>
      && ReadsAs(cv, src, header, srcPower, r.value)
      && exists tau, alpha, beta :: r.value == PowersOf(cv.order, Pow2(power), tau, alpha, beta)
    ensures r.Err? && r.error.ReadFailed? ==>
      var n := ShiftOne(power);
      StopsAt(cv, src, header, srcPower, Add(Mul(2, n), -1), n, r.error.a)
    ensures r.Err? && !r.error.BadPower? && !r.error.ReadFailed? ==>
      exists s :: Sized(cv.order, Pow2(power), s) && ReadsAs(cv, src, header, srcPower, s)
                  && FailsFirst(cv.order, s, r.error)
    ensures forall tau, alpha, beta ::
      (1 <= power <= srcPower && power <= 53
       && ReadsAs(cv, src, header, srcPower, PowersOf(cv.order, Pow2(power), tau, alpha, beta)))
      ==> r == Ok(PowersOf(cv.order, Pow2(power), tau, alpha, beta))
  {
    if power == 0 || power > srcPower {
      return Err(BadPower);
    }
    var n := ShiftOne(power);
    TruncatedCounts(power);
    var tauCount := Add(Mul(2, n), -1);
    r := ReadTruncated(cv, src, header, srcPower, tauCount, n);
    CompleteReads(cv, src, header, srcPower, power, tauCount, n);
    if r.Err? {
      return;
    }
    ReadIsSized(cv, src, header, srcPower, n, r.value);
    forall s | ReadsSized(cv, src, header, srcPower, tauCount, n, s) ensures s == r.value {
      ReadsUnique(cv, src, header, srcPower, tauCount, n, s, r.value);
    }
    r := Verify(cv.order, n, r.value);
  }

  lemma ReadsUnique(cv: Curve, src: Source, header: int, srcPower: nat, tauCount: int, n: int, s: Srs, t: Srs)
    requires ReadsSized(cv, src, header, srcPower, tauCount, n, s)
    requires ReadsSized(cv, src, header, srcPower, tauCount, n, t)
    ensures s == t
  {
    ArrayUnique(cv, src, header, srcPower, s, t, TauG1, s.tauG1, t.tauG1);
    ArrayUnique(cv, src, header, srcPower, s, t, TauG2, s.tauG2, t.tauG2);
    ArrayUnique(cv, src, header, srcPower, s, t, AlphaTau, s.alphaTau, t.alphaTau);
    ArrayUnique(cv, src, header, srcPower, s, t, BetaTau, s.betaTau, t.betaTau);
    ArrayUnique(cv, src, header, srcPower, s, t, BetaG2, [s.betaG2], [t.betaG2]);
    assert [s.betaG2][0] == [t.betaG2][0];
  }

  lemma ArrayUnique(cv: Curve, src: Source, header: int, srcPower: nat, s: Srs, t: Srs, a: Array,
                    xs: seq<int>, ys: seq<int>)
    requires ReadsAs(cv, src, header, srcPower, s) && ReadsAs(cv, src, header, srcPower, t)
    requires xs == s.Points(a) && ys == t.Points(a) && |xs| == |ys|
    ensures xs == ys
  {
    EachArray(cv, src, header, srcPower, s, a, xs);
    EachArray(cv, src, header, srcPower, t, a, ys);
    ReadableUnique(cv, src, header, srcPower, a, xs, ys);
  }

  /** The sizes are those of the smaller string. */
  lemma CompleteReads(cv: Curve, src: Source, header: int, srcPower: nat, power: nat, tauCount: int, n: int)
    requires cv.Valid() && 1 <= power
    requires power <= 53 ==> n == Pow2(power) && tauCount == 2 * Pow2(power) - 1
    ensures power <= 53 ==> forall tau, alpha, beta ::
      ReadsAs(cv, src, header, srcPower, PowersOf(cv.order, Pow2(power), tau, alpha, beta)) ==>
        ReadsSized(cv, src, header, srcPower, tauCount, n, PowersOf(cv.order, Pow2(power), tau, alpha, beta))
  {
  }

  lemma ShiftCases(power: nat)
    ensures power <= 62 ==> ShiftOne(power) == Pow2(power) <= 0x4000_0000_0000_0000
    ensures power == 63 ==> ShiftOne(power) == -Int64.TWO_63
  {
    Pow2At53();
    Pow2Sum(9, 53);
    assert Pow2(4) == 16 && Pow2(9) == 32 * Pow2(4);
    assert Pow2(63) == 2 * Pow2(62);
    if power <= 62 {
      Pow2Monotone(power, 62);
    }
  }

  /** The counts of the truncated arrays, unless the power is too large to read at all. */
  lemma TruncatedCounts(power: nat)
    requires power >= 1
    ensures Add(Mul(2, ShiftOne(power)), -1) >= 0 ==>
      && ShiftOne(power) == Pow2(power) >= 2
      && Add(Mul(2, ShiftOne(power)), -1) == 2 * Pow2(power) - 1
    ensures power <= 53 ==> Add(Mul(2, ShiftOne(power)), -1) >= 0
  {
    ShiftCases(power);
    CountsOf(ShiftOne(power));
    Pow2Monotone(1, power);
    if power <= 53 {
      Pow2Monotone(power, 53);
      Pow2At53();
    }
  }

  lemma CountsOf(n: int)
    ensures 1 <= n <= 0x4000_0000_0000_0000 ==> Add(Mul(2, n), -1) == 2 * n - 1
    ensures n == 0 || n == -Int64.TWO_63 ==> Add(Mul(2, n), -1) == -1
  {
  }

  lemma ReadIsSized(cv: Curve, src: Source, header: int, srcPower: nat, n: nat, s: Srs)
    requires cv.Valid() && ReadsAs(cv, src, header, srcPower, s) && n >= 1
    requires |s.tauG1| == 2 * n - 1 && |s.tauG2| == n && |s.alphaTau| == n && |s.betaTau| == n
    ensures Sized(cv.order, n, s)
  {
    ArrayReduced(cv, src, header, srcPower, s, TauG1, s.tauG1);
    ArrayReduced(cv, src, header, srcPower, s, TauG2, s.tauG2);
    ArrayReduced(cv, src, header, srcPower, s, AlphaTau, s.alphaTau);
    ArrayReduced(cv, src, header, srcPower, s, BetaTau, s.betaTau);
    ArrayReduced(cv, src, header, srcPower, s, BetaG2, [s.betaG2]);
    assert [s.betaG2][0] == s.betaG2;
  }

  lemma ArrayReduced(cv: Curve, src: Source, header: int, srcPower: nat, s: Srs, a: Array, xs: seq<int>)
    requires cv.Valid() && ReadsAs(cv, src, header, srcPower, s) && xs == s.Points(a)
    ensures Reduced(cv.order, xs)
  {
    EachArray(cv, src, header, srcPower, s, a, xs);
    DecodedIsReduced(cv, src, header, srcPower, a, xs);
  }

  /** Each array cut to the length for m powers. */
  function Truncated(s: Srs, m: nat): Srs
    requires 1 <= m && 2 * m - 1 <= |s.tauG1| && m <= |s.tauG2| && m <= |s.alphaTau| && m <= |s.betaTau|
  {
    Srs(s.tauG1[..2 * m - 1], s.tauG2[..m], s.alphaTau[..m], s.betaTau[..m], s.betaG2)
  }

  function Rank(a: Array): (k: nat)
    ensures k < 5 && ORDER[k] == a
  {
    match a
    case TauG1 => 0
    case TauG2 => 1
    case AlphaTau => 2
    case BetaTau => 3
    case BetaG2 => 4
  }

  /** Every nonempty prefix of every array can be read. */
  ghost predicate PrefixesReadable(cv: Curve, src: Source, header: nat, p: nat, s: Srs) {
    forall a: Array, m: nat :: 1 <= m <= |s.Points(a)| ==> PrefixReadable(cv, src, header, p, s, a, m)
  }

  ghost predicate PrefixReadable(cv: Curve, src: Source, header: nat, p: nat, s: Srs, a: Array, m: nat)
    requires m <= |s.Points(a)|
  {
    Readable(cv, src, header, p, a, s.Points(a)[..m])
  }

  lemma AllPrefixesReadable(cv: Curve, src: Source, header: seq<byte>, p: nat, s: Srs)
    requires cv.Valid() && Sized(cv.order, Pow2(p), s) && Addressable(|header|, p)
    requires src.bytes == Accumulator(cv, header, s)
    ensures PrefixesReadable(cv, src, |header|, p, s)
  {
    forall a: Array, m: nat | 1 <= m <= |s.Points(a)| ensures PrefixReadable(cv, src, |header|, p, s, a, m) {
      ReadsPrefix(cv, src, header, p, s, Rank(a), m);
    }
  }

  lemma CutReadable(cv: Curve, src: Source, header: nat, p: nat, s: Srs, a: Array, xs: seq<int>, m: nat)
    requires PrefixesReadable(cv, src, header, p, s) && xs == s.Points(a) && 1 <= m <= |xs|
    ensures Readable(cv, src, header, p, a, xs[..m])
  {
    assert PrefixReadable(cv, src, header, p, s, a, m);
  }

  lemma TruncatedArray(cv: Curve, src: Source, header: nat, p: nat, s: Srs, m: nat, a: Array)
    requires 1 <= m && 2 * m - 1 <= |s.tauG1| && m <= |s.tauG2| && m <= |s.alphaTau| && m <= |s.betaTau|
    requires PrefixesReadable(cv, src, header, p, s)
    ensures Readable(cv, src, header, p, a, Truncated(s, m).Points(a))
  {
    CutReadable(cv, src, header, p, s, a, s.Points(a), Count(a, m));
    assert s.Points(a)[..Count(a, m)] == Truncated(s, m).Points(a);
  }

  lemma TruncatedReads(cv: Curve, src: Source, header: nat, p: nat, s: Srs, m: nat)
    requires 1 <= m && 2 * m - 1 <= |s.tauG1| && m <= |s.tauG2| && m <= |s.alphaTau| && m <= |s.betaTau|
    requires PrefixesReadable(cv, src, header, p, s)
    ensures ReadsAs(cv, src, header, p, Truncated(s, m))
  {
    forall a: Array ensures ArrayReadable(cv, src, header, p, Truncated(s, m), a) {
      TruncatedArray(cv, src, header, p, s, m, a);
    }
  }

  /** The file of a well-formed accumulator, read back truncated, is the smaller one. */
  lemma TruncatedFile(cv: Curve, src: Source, header: seq<byte>, p: nat, power: nat, tau: int, alpha: int, beta: int)
    requires cv.Valid() && Addressable(|header|, p) && 1 <= power <= p
    requires src.bytes == Accumulator(cv, header, PowersOf(cv.order, Pow2(p), tau, alpha, beta))
    ensures ReadsAs(cv, src, |header|, p, PowersOf(cv.order, Pow2(power), tau, alpha, beta))
  {
    var s := PowersOf(cv.order, Pow2(p), tau, alpha, beta);
    Pow2Monotone(power, p);
    PowersAreSized(cv.order, Pow2(p), tau, alpha, beta);
    TruncationIsSmallerSrs(cv.order, Pow2(power), Pow2(p), tau, alpha, beta);
    AllPrefixesReadable(cv, src, header, p, s);
    TruncatedReads(cv, src, |header|, p, s, Pow2(power));
  }

  lemma AccumulatorLength(cv: Curve, header: seq<byte>, s: Srs, n: nat)
    requires cv.Valid() && Sized(cv.order, n, s)
    ensures |Accumulator(cv, header, s)| == |header| + 576 * n + 96
  {
    Tiling(n);
    PrefixLengths(cv, s, n);
    FlatLength(cv, BetaG2, [s.betaG2]);
  }

  /** Ingesting the file of a well-formed string, behind a header of any length, yields
      exactly the string of the target power for the same tau, alpha and beta.  */
  method IngestAccumulator(cv: Curve, src: Source, header: seq<byte>, p: nat, power: nat,
                           ghost tau: int, ghost alpha: int, ghost beta: int)
    returns (r: Result<Srs, Failure>)
    requires cv.Valid() && |src.bytes| < Int64.TWO_63
    requires src.bytes == Accumulator(cv, header, PowersOf(cv.order, Pow2(p), tau, alpha, beta))
    ensures r == if 1 <= power <= p then Ok(PowersOf(cv.order, Pow2(power), tau, alpha, beta)) else Err(BadPower)
  {
    PowersAreSized(cv.order, Pow2(p), tau, alpha, beta);
    AccumulatorLength(cv, header, PowersOf(cv.order, Pow2(p), tau, alpha, beta), Pow2(p));
    AddressableUpTo53(|header|, p);
    if 1 <= power <= p {
      TruncatedFile(cv, src, header, p, power, tau, alpha, beta);
    }
    r := Ingest(cv, src, |header|, p, power);
  }

  /** The probe reads 16 elements of the first four arrays, which they have exactly from
      power 4 on; below that its ranges run into the next array.  */
  lemma ProbeStaysInside(p: nat)
    ensures (forall a: Array :: !a.BetaG2? ==> 16 <= Count(a, Pow2(p))) <==> p >= 4
  {
    assert Pow2(3) == 8 && Pow2(4) == 16;
    if p >= 4 {
      Pow2Monotone(4, p);
    } else {
      Pow2Monotone(p, 3);
      assert Count(TauG2, Pow2(p)) < 16;
    }
  }
}

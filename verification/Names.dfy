/** Blob file names, `%05d-<first four hash bytes>.bin` (ceremony/storage.go), and
    the order in which sort.Strings lists them.  */
module Names {
  import opened Crypto

  /** Go's `<` on strings. */
  predicate Before(s: string, t: string) {
    t != [] && (s == [] || s[0] < t[0] || (s[0] == t[0] && Before(s[1..], t[1..])))
  }

  /** The strings agree up to position k and s then ends or goes on with a lesser character. */
  predicate DiffersAt(s: string, t: string, k: nat) {
    && k <= |s| && k < |t| && s[..k] == t[..k]
    && (k < |s| ==> s[k] < t[k])
  }

  lemma FirstNotGreater(s: string, t: string, k: nat)
    requires DiffersAt(s, t, k) && s != []
    ensures s[0] <= t[0]
  {
    assert k > 0 ==> s[..k][0] == t[..k][0];
  }

  /** One string is before another exactly when it is less at the first difference. */
  lemma {:induction false} BeforeIff(s: string, t: string)
    ensures Before(s, t) <==> exists k: nat :: DiffersAt(s, t, k)
  {
    if t != [] && s != [] && s[0] == t[0] {
      BeforeIff(s[1..], t[1..]);
      if k: nat :| DiffersAt(s[1..], t[1..], k) {
        assert s[..k + 1] == [s[0]] + s[1..][..k] && t[..k + 1] == [t[0]] + t[1..][..k];
        assert DiffersAt(s, t, k + 1);
      }
      if k: nat :| DiffersAt(s, t, k) {
        assert k > 0;
        assert s[1..][..k - 1] == s[..k][1..] && t[1..][..k - 1] == t[..k][1..];
        assert DiffersAt(s[1..], t[1..], k - 1);
      }
    } else if t != [] && (s == [] || s[0] < t[0]) {
      assert DiffersAt(s, t, 0);
    } else if k: nat :| DiffersAt(s, t, k) {
      FirstNotGreater(s, t, k);
      assert false;
    }
  }

  lemma {:induction false} BeforeIrreflexive(s: string)
    ensures !Before(s, s)
  {
    if s != [] {
      BeforeIrreflexive(s[1..]);
    }
  }

  lemma {:induction false} BeforeTransitive(s: string, t: string, u: string)
    requires Before(s, t) && Before(t, u)
    ensures Before(s, u)
  {
    if s != [] && s[0] == t[0] == u[0] {
      BeforeTransitive(s[1..], t[1..], u[1..]);
    }
  }

  lemma {:induction false} BeforeTotal(s: string, t: string)
    ensures Before(s, t) || s == t || Before(t, s)
  {
    if s != [] && t != [] && s[0] == t[0] {
      BeforeTotal(s[1..], t[1..]);
      assert s == [s[0]] + s[1..] && t == [t[0]] + t[1..];
    }
  }

  /** The first difference decides. */
  lemma {:induction false} BeforeAt(common: string, s: string, t: string)
    requires s != [] && t != [] && s[0] < t[0]
    ensures Before(common + s, common + t)
  {
    if common == [] {
      assert common + s == s && common + t == t;
    } else {
      BeforeAt(common[1..], s, t);
      assert (common + s)[1..] == common[1..] + s && (common + t)[1..] == common[1..] + t;
    }
  }

  // ---- decimal numerals ----

  function DecimalDigit(n: int): (c: char)
    requires 0 <= n < 10
  {
    ('0' as int + n) as char
  }

  function Decimal(n: nat): string {
    if n < 10 then [DecimalDigit(n)] else Decimal(n / 10) + [DecimalDigit(n % 10)]
  }

  function Zeros(n: nat): (s: string)
    ensures |s| == n
  {
    seq(n, i => '0')
  }

  /** `%05d`: at least five digits, padded with zeros, never cut. */
  function Pad5(n: nat): string {
    var d := Decimal(n);
    if |d| < 5 then Zeros(5 - |d|) + d else d
  }

  predicate AllDigits(s: string) {
    forall i :: 0 <= i < |s| ==> '0' <= s[i] <= '9'
  }

  /** The number a digit string denotes. */
  function Value(s: string): int {
    if s == [] then 0 else Value(s[..|s| - 1]) * 10 + (s[|s| - 1] as int - '0' as int)
  }

  lemma {:induction false} DecimalValue(n: nat)
    ensures AllDigits(Decimal(n)) && Value(Decimal(n)) == n
  {
    if n < 10 {
      assert Decimal(n)[..0] == [];
    } else {
      DecimalValue(n / 10);
      assert Decimal(n)[..|Decimal(n)| - 1] == Decimal(n / 10);
    }
  }

  lemma {:induction false} PaddedValue(k: nat, s: string)
    ensures Value(Zeros(k) + s) == Value(s)
  {
    if s != [] {
      PaddedValue(k, s[..|s| - 1]);
      assert (Zeros(k) + s)[..k + |s| - 1] == Zeros(k) + s[..|s| - 1];
    } else if k > 0 {
      PaddedValue(k - 1, []);
      assert Zeros(k) + s == Zeros(k - 1) + [] + ['0'];
      assert (Zeros(k) + s)[..k - 1] == Zeros(k - 1) + [];
    }
  }

  lemma Pad5Value(n: nat)
    ensures AllDigits(Pad5(n)) && Value(Pad5(n)) == n && |Pad5(n)| >= 5
  {
    DecimalValue(n);
    if |Decimal(n)| < 5 {
      PaddedValue(5 - |Decimal(n)|, Decimal(n));
    }
  }

  lemma Pad5Width(n: nat)
    requires n < 100000
    ensures |Pad5(n)| == 5
  {
    assert |Decimal(n / 10000)| == 1;
    assert n >= 10 ==> |Decimal(n / 10)| == |Decimal(n)| - 1;
    assert n >= 100 ==> |Decimal(n / 10 / 10)| == |Decimal(n / 10)| - 1;
    assert n >= 1000 ==> |Decimal(n / 10 / 10 / 10)| == |Decimal(n / 10 / 10)| - 1;
  }

  /** On digit strings of one width, the order of strings is the order of numbers. */
  lemma {:induction false} OrderOfDigits(s: string, t: string, x: string, y: string)
    requires |s| == |t| && AllDigits(s) && AllDigits(t)
    ensures Value(s) == Value(t) ==> s == t
    ensures Value(s) < Value(t) ==> Before(s + x, t + y)
    decreases |s|
  {
    if s != [] {
      var n := |s| - 1;
      var s', t' := s[..n], t[..n];
      var a, b := s[n..] + x, t[n..] + y;
      OrderOfDigits(s', t', a, b);
      OrderOfDigits(t', s', b, a);
      assert s == s' + [s[n]] && t == t' + [t[n]];
      assert s + x == s' + a && t + y == t' + b;
      if s' == t' && s[n] < t[n] {
        BeforeAt(s', a, b);
      }
    }
  }

  // ---- blob names ----

  function BlobName(index: nat, hash: Digest): string {
    Pad5(index) + ("-" + Hex(hash[..4]) + ".bin")
  }

  /** The index written at the front of a name: its digits up to the dash. */
  function IndexOf(name: string): int {
    Value(UpToDash(name))
  }

  function UpToDash(s: string): string {
    if s == [] || s[0] == '-' then [] else [s[0]] + UpToDash(s[1..])
  }

  lemma {:induction false} UpToDashStops(digits: string, rest: string)
    requires AllDigits(digits) && rest != [] && rest[0] == '-'
    ensures UpToDash(digits + rest) == digits
  {
    if digits == [] {
      assert digits + rest == rest;
    } else {
      UpToDashStops(digits[1..], rest);
      assert (digits + rest)[1..] == digits[1..] + rest;
    }
  }

  /** A name says its index, with no bound on the index. So names of distinct
      indices are distinct, whatever the hashes.  */
  lemma NameTellsIndex(index: nat, hash: Digest)
    ensures IndexOf(BlobName(index, hash)) == index
  {
    Pad5Value(index);
    UpToDashStops(Pad5(index), "-" + Hex(hash[..4]) + ".bin");
  }

  /** The hash in a name: what is between the dash and the ending `.bin`. */
  function HashPart(name: string): string {
    var digits := UpToDash(name);
    if |digits| + 5 <= |name| then name[|digits| + 1..|name| - 4] else []
  }

  lemma HexLength(bytes: seq<byte>)
    ensures |Hex(bytes)| == 2 * |bytes|
  {
  }

  /** A name is the padded index, a dash, the first four bytes of the hash in eight hex
      digits, and `.bin`.  */
  lemma NameTellsHash(index: nat, hash: Digest)
    ensures var name := BlobName(index, hash);
            && Unhex(HashPart(name)) == hash[..4] && |HashPart(name)| == 8
            && |name| >= 18 && name[|name| - 13] == '-' && name[|name| - 4..] == ".bin"
  {
    var digits, hex, name := Pad5(index), Hex(hash[..4]), BlobName(index, hash);
    Pad5Value(index);
    UpToDashStops(digits, "-" + hex + ".bin");
    HexLength(hash[..4]);
    HexInvertible(hash[..4]);
    NameParts(digits, hex, ".bin");
    assert name == digits + ("-" + hex + ".bin");
  }

  lemma NameParts(digits: string, hex: string, end: string)
    ensures var name := digits + ("-" + hex + end);
            && name[|digits|] == '-'
            && name[|digits| + 1..|name| - |end|] == hex && name[|name| - |end|..] == end
  {
  }

  /** Two names are equal exactly when index and first four bytes of the hash are. */
  lemma SameName(i: nat, h: Digest, j: nat, g: Digest)
    ensures BlobName(i, h) == BlobName(j, g) <==> i == j && h[..4] == g[..4]
  {
    NameTellsIndex(i, h);
    NameTellsIndex(j, g);
    NameTellsHash(i, h);
    NameTellsHash(j, g);
  }

  /** Below index 100000 name order is contribution order, whatever the hashes. */
  lemma NameOrder(i: nat, j: nat, hi: Digest, hj: Digest)
    requires i < j < 100000
    ensures Before(BlobName(i, hi), BlobName(j, hj))
  {
    Pad5Value(i);
    Pad5Value(j);
    Pad5Width(i);
    Pad5Width(j);
    OrderOfDigits(Pad5(i), Pad5(j), "-" + Hex(hi[..4]) + ".bin", "-" + Hex(hj[..4]) + ".bin");
  }

  /** At index 100000 the sixth digit appears and the order breaks. */
  lemma NameOrderBreaks(hi: Digest, hj: Digest)
    ensures Before(BlobName(100000, hj), BlobName(99999, hi))
  {
    var s, t := BlobName(100000, hj), BlobName(99999, hi);
    DecimalHead(100000);
    DecimalHead(99999);
    assert Decimal(1) == "1" && Decimal(9) == "9";
    assert Pad5(99999)[0] == '9';
    assert Pad5(100000)[0] == '1';
    assert s[0] == '1' && t[0] == '9';
  }

  lemma {:induction false} DecimalHead(n: nat)
    ensures |Decimal(n)| > 0
    ensures n >= 10 ==> Decimal(n)[0] == Decimal(n / 10)[0] && |Decimal(n)| == |Decimal(n / 10)| + 1
    ensures n >= 10000 ==> Decimal(n)[0] == Decimal(n / 10000)[0] && |Decimal(n)| >= 5
    ensures n >= 100000 ==> Decimal(n)[0] == Decimal(n / 100000)[0]
    decreases n
  {
    if n >= 10 {
      DecimalHead(n / 10);
      assert n / 10 / 10000 == n / 100000;
      assert n / 10 / 1000 == n / 10000;
    }
  }

  // ---- sorted listings ----

  ghost predicate Ascending(names: seq<string>) {
    forall i, j :: 0 <= i < j < |names| ==> Before(names[i], names[j])
  }

  ghost function Members(names: seq<string>): set<string> {
    set n | n in names
  }

  /** Two ascending lists of the same names are the same list. */
  lemma {:induction false} AscendingUnique(s: seq<string>, t: seq<string>)
    requires Ascending(s) && Ascending(t) && Members(s) == Members(t)
    ensures s == t
  {
    NoMembers(s);
    NoMembers(t);
    if s != [] && t != [] {
      FirstIsLeast(s, t);
      FirstIsLeast(t, s);
      BeforeTotal(s[0], t[0]);
      TailMembers(s);
      TailMembers(t);
      AscendingUnique(s[1..], t[1..]);
      assert s == [s[0]] + s[1..] && t == [t[0]] + t[1..];
    }
  }

  lemma NoMembers(s: seq<string>)
    ensures Members(s) == {} <==> s == []
  {
    if s != [] {
      assert s[0] in Members(s);
    }
  }

  lemma FirstIsLeast(s: seq<string>, t: seq<string>)
    requires Ascending(s) && Ascending(t) && s != [] && t != [] && Members(s) == Members(t)
    ensures !Before(t[0], s[0])
  {
    assert t[0] in Members(t) && t[0] in s;
    var k :| 0 <= k < |s| && s[k] == t[0];
    BeforeIrreflexive(s[0]);
    if k > 0 && Before(t[0], s[0]) {
      BeforeTransitive(s[0], s[k], s[0]);
    }
  }

  lemma TailMembers(s: seq<string>)
    requires Ascending(s) && s != []
    ensures Members(s[1..]) == Members(s) - {s[0]} && Ascending(s[1..])
  {
    BeforeIrreflexive(s[0]);
    assert forall n :: n in s <==> n == s[0] || n in s[1..];
  }

  /** Put a name into an ascending list that lacks it. */
  function Inserted(names: seq<string>, n: string): seq<string> {
    if names == [] || Before(n, names[0]) then [n] + names else [names[0]] + Inserted(names[1..], n)
  }

  lemma {:induction false} InsertedAscends(names: seq<string>, n: string)
    requires Ascending(names) && n !in names
    ensures Ascending(Inserted(names, n)) && Members(Inserted(names, n)) == Members(names) + {n}
  {
    var r := Inserted(names, n);
    if names == [] {
    } else if Before(n, names[0]) {
      forall i | 0 < i < |names| ensures Before(n, names[i]) {
        BeforeTransitive(n, names[0], names[i]);
      }
    } else {
      BeforeTotal(n, names[0]);
      TailMembers(names);
      InsertedAscends(names[1..], n);
      var rest := Inserted(names[1..], n);
      assert Members(r) == {names[0]} + Members(rest);
      forall k | 0 <= k < |rest| ensures Before(names[0], rest[k]) {
        assert rest[k] in Members(rest);
      }
    }
  }

  /** The one ascending list of a set of names, as sort.Strings leaves it. */
  ghost function Listing(keys: set<string>): (names: seq<string>)
    ensures Ascending(names) && Members(names) == keys
  {
    if keys == {} then []
    else
      var n :| n in keys;
      var rest := Listing(keys - {n});
      assert n !in Members(rest);
      InsertedAscends(rest, n);
      Inserted(rest, n)
  }

  /** Names whose i-th carries index i. */
  ghost predicate Numbered(refs: seq<string>) {
    forall i :: 0 <= i < |refs| ==> IsNameOf(i, refs[i])
  }

  ghost predicate IsNameOf(index: nat, name: string) {
    exists h: Digest :: name == BlobName(index, h)
  }

  /** Contribution order is name order for exactly the first hundred thousand. */
  lemma NumberedAscends(refs: seq<string>)
    requires Numbered(refs)
    ensures Ascending(refs) <==> |refs| <= 100000
  {
    if |refs| <= 100000 {
      forall i, j | 0 <= i < j < |refs| ensures Before(refs[i], refs[j]) {
        assert IsNameOf(i, refs[i]);
        var hi: Digest :| refs[i] == BlobName(i, hi);
        assert IsNameOf(j, refs[j]);
        var hj: Digest :| refs[j] == BlobName(j, hj);
        NameOrder(i, j, hi, hj);
      }
    } else {
      assert IsNameOf(99999, refs[99999]) && IsNameOf(100000, refs[100000]);
      var hi: Digest :| refs[99999] == BlobName(99999, hi);
      var hj: Digest :| refs[100000] == BlobName(100000, hj);
      NameOrderBreaks(hi, hj);
      BeforeIrreflexive(refs[99999]);
      if Before(refs[99999], refs[100000]) {
        BeforeTransitive(refs[99999], refs[100000], refs[99999]);
      }
    }
  }

  /** A scan of the directory lists the referenced names in contribution order
      exactly when it holds no other file and there are at most a hundred thousand.  */
  lemma ScanIsChain(refs: seq<string>, keys: set<string>)
    requires Numbered(refs)
    ensures Listing(keys) == refs <==> keys == Members(refs) && |refs| <= 100000
  {
    NumberedAscends(refs);
    if keys == Members(refs) && |refs| <= 100000 {
      AscendingUnique(Listing(keys), refs);
    }
  }
}

/** Dotted-numeric version comparison (internal/compliance/evaluator.go, parseVer and versionLTE). */
module Versions {
  import opened Text

  /** Go's int is 64 bits wide: multiplication and addition wrap. */
  function Wrap64(n: int): int {
    (n + 0x8000_0000_0000_0000) % 0x1_0000_0000_0000_0000 - 0x8000_0000_0000_0000
  }

  predicate IsDigit(c: char) { '0' <= c <= '9' }

  /** n, followed by the leading digits of s. */
  function Digits(n: int, s: string): int
    decreases |s|
  {
    if s == "" || !IsDigit(s[0]) then n else Digits(Wrap64(n * 10 + (s[0] as int - 48)), s[1..])
  }

  function SplitDots(s: string): (parts: seq<string>)
    ensures parts != []
  {
    if s == "" then [""]
    else if s[0] == '.' then [""] + SplitDots(s[1..])
    else
      var rest := SplitDots(s[1..]);
      [[s[0]] + rest[0]] + rest[1..]
  }

  function Components(parts: seq<string>): (v: seq<int>)
    ensures |v| == |parts|
  {
    seq(|parts|, i requires 0 <= i < |parts| => Digits(0, TrimSpace(parts[i])))
  }

  function Version(s: string): seq<int> {
    if TrimSpace(s) == "" then [] else Components(SplitDots(TrimSpace(s)))
  }

  /** The digit loop of one component. */
  method ParseComponent(p: string) returns (n: int)
    ensures n == Digits(0, p)
  {
    n := 0;
    for k := 0 to |p|
      invariant Digits(n, p[k..]) == Digits(0, p)
    {
      if !IsDigit(p[k]) {
        return;
      }
      n := Wrap64(n * 10 + (p[k] as int - 48));
      assert p[k..][1..] == p[k + 1..];
    }
    assert p[|p|..] == "";
  }

  method ParseVer(text: string) returns (v: seq<int>)
    ensures v == Version(text)
  {
    var s := TrimSpace(text);
    if s == "" {
      return [];
    }
    var parts := SplitDots(s);
    v := [];
    for k := 0 to |parts|
      invariant v == Components(parts)[..k]
    {
      var n := ParseComponent(TrimSpace(parts[k]));
      v := v + [n];
    }
  }

  /** The k-th component; missing ones are zero. */
  function At(v: seq<int>, k: nat): int { if k < |v| then v[k] else 0 }

  predicate Agree(a: seq<int>, b: seq<int>, n: nat) {
    forall i: nat :: i < n ==> At(a, i) == At(b, i)
  }

  function Length(a: seq<int>, b: seq<int>): nat { if |b| > |a| then |b| else |a| }

  /** a is lexicographically below b once both are padded with zeros. */
  predicate Below(a: seq<int>, b: seq<int>) {
    exists k: nat :: k < Length(a, b) && Agree(a, b, k) && At(a, k) < At(b, k)
  }

  predicate Same(a: seq<int>, b: seq<int>) { Agree(a, b, Length(a, b)) }

  predicate LessOrEqual(a: seq<int>, b: seq<int>) { Same(a, b) || Below(a, b) }

  /** The comparison loop decides the padded lexicographic order. */
  method VersionLTE(x: string, y: string) returns (r: bool)
    ensures r <==> LessOrEqual(Version(x), Version(y))
  {
    var a := ParseVer(x);
    var b := ParseVer(y);
    var n := |a|;
    if |b| > n {
      n := |b|;
    }
    for i := 0 to n
      invariant Agree(a, b, i)
    {
      var av, bv := 0, 0;
      if i < |a| {
        av := a[i];
      }
      if i < |b| {
        bv := b[i];
      }
      if av < bv {
        assert At(a, i) < At(b, i);
        return true;
      }
      if av > bv {
        assert At(b, i) < At(a, i);
        NotBoth(a, b, i);
        return false;
      }
    }
    return true;
  }

  lemma NotBoth(a: seq<int>, b: seq<int>, i: nat)
    requires Agree(a, b, i) && i < Length(a, b) && At(b, i) < At(a, i)
    ensures !LessOrEqual(a, b)
  {
    assert At(a, i) != At(b, i);
  }

  /** Agreement over the longer of the two is agreement everywhere. */
  lemma AgreeEverywhere(a: seq<int>, b: seq<int>, n: nat)
    requires Same(a, b)
    ensures Agree(a, b, n)
  {
  }

  lemma {:induction false} FirstDifference(a: seq<int>, b: seq<int>, n: nat) returns (k: nat)
    requires !Agree(a, b, n)
    ensures k < n && Agree(a, b, k) && At(a, k) != At(b, k)
    decreases n
  {
    if Agree(a, b, n - 1) {
      k := n - 1;
      assert forall i: nat :: i < n - 1 ==> At(a, i) == At(b, i);
    } else {
      k := FirstDifference(a, b, n - 1);
    }
  }

  lemma OrderTotal(a: seq<int>, b: seq<int>)
    ensures LessOrEqual(a, b) || LessOrEqual(b, a)
    ensures LessOrEqual(a, b) && LessOrEqual(b, a) <==> Same(a, b)
  {
    if !Same(a, b) {
      var k := FirstDifference(a, b, Length(a, b));
      assert Agree(b, a, k);
      if At(a, k) < At(b, k) { NotBoth(b, a, k); } else { NotBoth(a, b, k); }
    }
  }

  lemma BelowAnywhere(a: seq<int>, b: seq<int>, k: nat)
    requires Agree(a, b, k) && At(a, k) < At(b, k)
    ensures Below(a, b)
  {
    assert k < Length(a, b);
  }

  lemma OrderTransitive(a: seq<int>, b: seq<int>, c: seq<int>)
    requires LessOrEqual(a, b) && LessOrEqual(b, c)
    ensures LessOrEqual(a, c)
  {
    if Same(a, b) && Same(b, c) {
      AgreeEverywhere(a, b, Length(a, c));
      AgreeEverywhere(b, c, Length(a, c));
    } else if Same(a, b) {
      var k: nat :| k < Length(b, c) && Agree(b, c, k) && At(b, k) < At(c, k);
      AgreeEverywhere(a, b, k + 1);
      BelowAnywhere(a, c, k);
    } else if Same(b, c) {
      var k: nat :| k < Length(a, b) && Agree(a, b, k) && At(a, k) < At(b, k);
      AgreeEverywhere(b, c, k + 1);
      BelowAnywhere(a, c, k);
    } else {
      var j: nat :| j < Length(a, b) && Agree(a, b, j) && At(a, j) < At(b, j);
      var k: nat :| k < Length(b, c) && Agree(b, c, k) && At(b, k) < At(c, k);
      BelowAnywhere(a, c, if j < k then j else k);
    }
  }

  /** versionLTE is a total preorder on version texts, and two texts are equivalent exactly when their padded
      components agree. */
  lemma VersionOrder(x: string, y: string, z: string)
    ensures LessOrEqual(Version(x), Version(x))
    ensures LessOrEqual(Version(x), Version(y)) || LessOrEqual(Version(y), Version(x))
    ensures LessOrEqual(Version(x), Version(y)) && LessOrEqual(Version(y), Version(z)) ==>
            LessOrEqual(Version(x), Version(z))
    ensures LessOrEqual(Version(x), Version(y)) && LessOrEqual(Version(y), Version(x)) <==> Same(Version(x), Version(y))
  {
    OrderTotal(Version(x), Version(y));
    if LessOrEqual(Version(x), Version(y)) && LessOrEqual(Version(y), Version(z)) {
      OrderTransitive(Version(x), Version(y), Version(z));
    }
  }

  // ---------- printed versions ----------

  /** The dotted text of a list of numbers. */
  function PrintVersion(ns: seq<nat>): string
    requires ns != []
  {
    if |ns| == 1 then Itoa(ns[0]) else Itoa(ns[0]) + "." + PrintVersion(ns[1..])
  }

  predicate AllDigits(s: string) { forall i :: 0 <= i < |s| ==> IsDigit(s[i]) }

  lemma {:induction false} ItoaDigits(n: nat)
    ensures Itoa(n) != "" && AllDigits(Itoa(n))
  {
    if n >= 10 { ItoaDigits(n / 10); }
  }

  lemma {:induction false} DigitsAppend(n: int, s: string, c: char)
    requires AllDigits(s) && IsDigit(c)
    ensures Digits(n, s + [c]) == Wrap64(Digits(n, s) * 10 + (c as int - 48))
    decreases |s|
  {
    if s == "" {
      assert Digits(n, [c]) == Digits(Wrap64(n * 10 + (c as int - 48)), [c][1..]);
    } else {
      assert (s + [c])[1..] == s[1..] + [c];
      DigitsAppend(Wrap64(n * 10 + (s[0] as int - 48)), s[1..], c);
    }
  }

  lemma {:induction false} DigitsOfItoa(n: nat)
    requires n < 0x8000_0000_0000_0000
    ensures Digits(0, Itoa(n)) == n
  {
    if n < 10 {
      DigitsAppend(0, "", (48 + n) as char);
      assert [] + [(48 + n) as char] == Itoa(n);
    } else {
      DigitsOfItoa(n / 10);
      ItoaDigits(n / 10);
      DigitsAppend(0, Itoa(n / 10), (48 + n % 10) as char);
    }
  }

  lemma {:induction false} SplitDigits(s: string)
    requires AllDigits(s)
    ensures SplitDots(s) == [s]
  {
    if s != "" {
      SplitDigits(s[1..]);
      assert [s[0]] + s[1..] == s;
    }
  }

  lemma {:induction false} SplitAtDot(s: string, rest: string)
    requires AllDigits(s)
    ensures SplitDots(s + "." + rest) == [s] + SplitDots(rest)
  {
    if s == "" {
      assert ("." + rest)[1..] == rest;
      assert "" + "." + rest == "." + rest;
    } else {
      assert (s + "." + rest)[1..] == s[1..] + "." + rest;
      SplitAtDot(s[1..], rest);
      assert [s[0]] + s[1..] == s;
    }
  }

  lemma {:induction false} SplitPrinted(ns: seq<nat>)
    requires ns != []
    ensures |SplitDots(PrintVersion(ns))| == |ns|
    ensures forall i :: 0 <= i < |ns| ==> SplitDots(PrintVersion(ns))[i] == Itoa(ns[i])
    ensures Tight(PrintVersion(ns))
  {
    ItoaDigits(ns[0]);
    if |ns| == 1 {
      SplitDigits(Itoa(ns[0]));
    } else {
      SplitAtDot(Itoa(ns[0]), PrintVersion(ns[1..]));
      SplitPrinted(ns[1..]);
    }
  }

  lemma ComponentOfItoa(n: nat)
    requires n < 0x8000_0000_0000_0000
    ensures Digits(0, TrimSpace(Itoa(n))) == n
  {
    ItoaDigits(n);
    TrimSpaceBlank("", Itoa(n), "");
    assert "" + Itoa(n) + "" == Itoa(n);
    DigitsOfItoa(n);
  }

  /** A dotted list of numbers that fit in an int64 is read back exactly, so on such texts versionLTE is the
      lexicographic order of the numbers. */
  lemma PrintedVersion(ns: seq<nat>)
    requires ns != [] && forall i :: 0 <= i < |ns| ==> ns[i] < 0x8000_0000_0000_0000
    ensures Version(PrintVersion(ns)) == ns
  {
    var text := PrintVersion(ns);
    SplitPrinted(ns);
    TrimSpaceBlank("", text, "");
    assert "" + text + "" == text;
    forall i | 0 <= i < |ns| ensures Components(SplitDots(text))[i] == ns[i] {
      ComponentOfItoa(ns[i]);
    }
  }
}

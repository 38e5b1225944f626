/** sortFunc, the hand-written insertion sort of internal/api/handlers_agent_telemetry.go, for any comparison. */
module InsertionSort {

  /** A strict weak order: asymmetric, and whatever lies between is above one or below the other. */
  ghost predicate StrictWeak<T(!new)>(less: (T, T) -> bool) {
    && (forall a, b :: less(a, b) ==> !less(b, a))
    && (forall a, b, c :: less(a, c) ==> less(a, b) || less(b, c))
  }

  /** x moved down past every element it is less than. */
  function Inserted<T>(less: (T, T) -> bool, s: seq<T>, x: T): (r: seq<T>)
    ensures |r| == |s| + 1
  {
    if s == [] || !less(x, s[|s| - 1]) then s + [x] else Inserted(less, s[..|s| - 1], x) + [s[|s| - 1]]
  }

  function Sorted<T>(less: (T, T) -> bool, s: seq<T>): (r: seq<T>)
    ensures |r| == |s|
  {
    if s == [] then [] else Inserted(less, Sorted(less, s[..|s| - 1]), s[|s| - 1])
  }

  /** Where the adjacent swaps stop is where the element belongs. */
  lemma {:induction false} InsertedAt<T>(less: (T, T) -> bool, s: seq<T>, x: T, j: nat)
    requires j <= |s| && (j == 0 || !less(x, s[j - 1])) && forall k :: j <= k < |s| ==> less(x, s[k])
    ensures Inserted(less, s, x) == s[..j] + [x] + s[j..]
  {
    if j == |s| {
      assert s[..j] == s;
    } else {
      var n := |s| - 1;
      InsertedAt(less, s[..n], x, j);
      assert s[j..] == s[..n][j..] + [s[n]];
      assert s[..j] == s[..n][..j];
    }
  }

  /** The element of s at i has moved down to j, past elements it is less than. */
  ghost predicate Sifted<T>(less: (T, T) -> bool, s: seq<T>, i: nat, j: nat, now: seq<T>)
    requires j <= i < |s|
  {
    && |now| == |s| && now[j] == s[i]
    && (forall k :: 0 <= k < j || i < k < |s| ==> now[k] == s[k])
    && (forall k :: j < k <= i ==> now[k] == s[k - 1] && less(s[i], now[k]))
  }

  lemma SiftedInserts<T>(less: (T, T) -> bool, s: seq<T>, i: nat, j: nat, now: seq<T>)
    requires j <= i < |s| && Sifted(less, s, i, j, now) && (j == 0 || !less(s[i], s[j - 1]))
    ensures now == Inserted(less, s[..i], s[i]) + s[i + 1..]
  {
    forall k | j <= k < i ensures less(s[i], s[..i][k]) { assert now[k + 1] == s[k]; }
    InsertedAt(less, s[..i], s[i], j);
    MovedDown(s, i, j, now);
    assert s[..i][..j] == s[..j] && s[..i][j..] == s[j..i];
  }

  lemma MovedDown<T>(s: seq<T>, i: nat, j: nat, now: seq<T>)
    requires j <= i < |s| == |now| && now[j] == s[i]
    requires forall k :: 0 <= k < j || i < k < |s| ==> now[k] == s[k]
    requires forall k :: j < k <= i ==> now[k] == s[k - 1]
    ensures now == s[..j] + [s[i]] + s[j..i] + s[i + 1..]
  {
    var moved := s[..j] + [s[i]] + s[j..i];
    assert |moved| == i + 1;
    forall k | 0 <= k <= i ensures now[k] == moved[k] {
      if j < k { assert moved[k] == s[j..i][k - (j + 1)] == s[k - 1]; }
    }
    assert now[..i + 1] == moved && now[i + 1..] == s[i + 1..];
    assert now == now[..i + 1] + now[i + 1..];
  }

  /** One outer iteration: sift the element at i down by adjacent swaps. */
  method Sift<T>(a: array<T>, less: (T, T) -> bool, i: nat)
    requires i < a.Length
    modifies a
    ensures a[..] == Inserted(less, old(a[..])[..i], old(a[..])[i]) + old(a[..])[i + 1..]
  {
    ghost var s := a[..];
    var j := i;
    while j > 0 && less(a[j], a[j - 1])
      invariant 0 <= j <= i && Sifted(less, s, i, j, a[..])
    {
      a[j], a[j - 1] := a[j - 1], a[j];
      j := j - 1;
    }
    SiftedInserts(less, s, i, j, a[..]);
  }

  /** The slice with its first i elements sorted. */
  function SortedTo<T>(less: (T, T) -> bool, s: seq<T>, i: nat): (r: seq<T>)
    requires i <= |s|
    ensures |r| == |s|
  {
    Sorted(less, s[..i]) + s[i..]
  }

  lemma SortedToOne<T>(less: (T, T) -> bool, s: seq<T>)
    requires |s| > 0
    ensures SortedTo(less, s, 1) == s
  {
    SortedShort(less, s[..1]);
  }

  lemma SortedToEnd<T>(less: (T, T) -> bool, s: seq<T>)
    ensures SortedTo(less, s, |s|) == Sorted(less, s)
  {
    assert s[..|s|] == s;
  }

  lemma SortedNext<T>(less: (T, T) -> bool, s: seq<T>, i: nat)
    requires i < |s|
    ensures var now := SortedTo(less, s, i);
            Inserted(less, now[..i], now[i]) + now[i + 1..] == SortedTo(less, s, i + 1)
  {
    var now := SortedTo(less, s, i);
    assert now[..i] == Sorted(less, s[..i]) && now[i] == s[i] && now[i + 1..] == s[i + 1..];
    assert s[..i + 1][..i] == s[..i] && s[..i + 1][i] == s[i];
  }

  method SortFunc<T>(a: array<T>, less: (T, T) -> bool)
    modifies a
    ensures a[..] == Sorted(less, old(a[..]))
  {
    ghost var s := a[..];
    if a.Length <= 1 {
      SortedShort(less, s);
      return;
    }
    SortedToOne(less, s);
    var i := 1;
    while i < a.Length
      invariant 1 <= i <= a.Length
      invariant a[..] == SortedTo(less, s, i)
    {
      SortedNext(less, s, i);
      Sift(a, less, i);
      i := i + 1;
    }
    SortedToEnd(less, s);
  }

  lemma SortedShort<T>(less: (T, T) -> bool, s: seq<T>)
    requires |s| <= 1
    ensures Sorted(less, s) == s
  {
  }

  // ---------- what sorting means ----------

  /** No later element is less than an earlier one. */
  ghost predicate InOrder<T>(less: (T, T) -> bool, s: seq<T>) {
    forall i, j :: 0 <= i < j < |s| ==> !less(s[j], s[i])
  }

  lemma {:induction false} InsertedMultiset<T>(less: (T, T) -> bool, s: seq<T>, x: T)
    ensures multiset(Inserted(less, s, x)) == multiset(s) + multiset{x}
  {
    if s != [] && less(x, s[|s| - 1]) {
      InsertedMultiset(less, s[..|s| - 1], x);
      assert s == s[..|s| - 1] + [s[|s| - 1]];
    }
  }

  lemma {:induction false} SortedMultiset<T>(less: (T, T) -> bool, s: seq<T>)
    ensures multiset(Sorted(less, s)) == multiset(s)
  {
    if s != [] {
      SortedMultiset(less, s[..|s| - 1]);
      InsertedMultiset(less, Sorted(less, s[..|s| - 1]), s[|s| - 1]);
      assert s == s[..|s| - 1] + [s[|s| - 1]];
    }
  }

  lemma {:induction false} InsertedBelow<T(!new)>(less: (T, T) -> bool, s: seq<T>, x: T, y: T)
    requires (forall k :: 0 <= k < |s| ==> !less(y, s[k])) && !less(y, x)
    ensures forall k :: 0 <= k < |s| + 1 ==> !less(y, Inserted(less, s, x)[k])
  {
    if s != [] && less(x, s[|s| - 1]) { InsertedBelow(less, s[..|s| - 1], x, y); }
  }

  lemma {:induction false} InsertedInOrder<T(!new)>(less: (T, T) -> bool, s: seq<T>, x: T)
    requires StrictWeak(less) && InOrder(less, s)
    ensures InOrder(less, Inserted(less, s, x))
  {
    if s != [] && less(x, s[|s| - 1]) {
      InsertedInOrder(less, s[..|s| - 1], x);
      InsertedBelow(less, s[..|s| - 1], x, s[|s| - 1]);
    } else if s != [] {
      forall k | 0 <= k < |s| ensures !less(x, s[k]) {
        assert !less(s[|s| - 1], s[k]) && !less(x, s[|s| - 1]);
      }
    }
  }

  predicate Tied<T>(less: (T, T) -> bool, e: T, y: T) { !less(e, y) && !less(y, e) }

  /** The elements that tie with e, in order. */
  function Ties<T>(less: (T, T) -> bool, s: seq<T>, e: T): seq<T> {
    if s == [] then []
    else Ties(less, s[..|s| - 1], e) + if Tied(less, e, s[|s| - 1]) then [s[|s| - 1]] else []
  }

  lemma {:induction false} InsertedTies<T(!new)>(less: (T, T) -> bool, s: seq<T>, x: T, e: T)
    requires StrictWeak(less)
    ensures Ties(less, Inserted(less, s, x), e) == Ties(less, s, e) + if Tied(less, e, x) then [x] else []
  {
    if s == [] || !less(x, s[|s| - 1]) {
      assert (s + [x])[..|s|] == s;
    } else {
      var n := |s| - 1;
      var before := Inserted(less, s[..n], x);
      InsertedTies(less, s[..n], x, e);
      assert (before + [s[n]])[..|before|] == before;
      assert !(Tied(less, e, x) && Tied(less, e, s[n]));
    }
  }

  lemma {:induction false} SortedTies<T(!new)>(less: (T, T) -> bool, s: seq<T>, e: T)
    requires StrictWeak(less)
    ensures Ties(less, Sorted(less, s), e) == Ties(less, s, e)
  {
    if s != [] {
      SortedTies(less, s[..|s| - 1], e);
      InsertedTies(less, Sorted(less, s[..|s| - 1]), s[|s| - 1], e);
    }
  }

  lemma {:induction false} SortedInOrder<T(!new)>(less: (T, T) -> bool, s: seq<T>)
    requires StrictWeak(less)
    ensures InOrder(less, Sorted(less, s))
  {
    if s != [] {
      SortedInOrder(less, s[..|s| - 1]);
      InsertedInOrder(less, Sorted(less, s[..|s| - 1]), s[|s| - 1]);
    }
  }

  /** For every strict weak order the result is an ordered permutation that keeps tied elements in their order. */
  lemma SortIsStable<T(!new)>(less: (T, T) -> bool, s: seq<T>)
    requires StrictWeak(less)
    ensures InOrder(less, Sorted(less, s)) && multiset(Sorted(less, s)) == multiset(s)
    ensures forall e :: Ties(less, Sorted(less, s), e) == Ties(less, s, e)
  {
    SortedInOrder(less, s);
    SortedMultiset(less, s);
    forall e ensures Ties(less, Sorted(less, s), e) == Ties(less, s, e) { SortedTies(less, s, e); }
  }

  /** One order only: a sequence without ties is determined by its elements. */
  lemma {:induction false} OrderIsUnique<T(!new)>(less: (T, T) -> bool, a: seq<T>, b: seq<T>)
    requires InOrder(less, a) && InOrder(less, b)
    requires (forall i, j :: 0 <= i < j < |a| ==> a[i] != a[j]) && (forall i, j :: 0 <= i < j < |b| ==> b[i] != b[j])
    requires forall x :: x in a <==> x in b
    requires forall x, y :: x in a && y in a && x != y ==> !Tied(less, x, y)
    ensures a == b
    decreases |a|
  {
    SameEmpty(a, b);
    if a != [] {
      LastIsSame(less, a, b);
      SameFronts(a, b, a[..|a| - 1], b[..|b| - 1], a[|a| - 1]);
      assert forall x :: x in a[..|a| - 1] ==> x in a;
      OrderIsUnique(less, a[..|a| - 1], b[..|b| - 1]);
    }
  }

  lemma SameEmpty<T(!new)>(a: seq<T>, b: seq<T>)
    requires forall x :: x in a <==> x in b
    ensures a == [] <==> b == []
  {
    if a != [] { assert a[0] in a; }
    if b != [] { assert b[0] in b; }
  }

  lemma FrontMembers<T(!new)>(a: seq<T>, front: seq<T>, last: T)
    requires a == front + [last] && forall i, j :: 0 <= i < j < |a| ==> a[i] != a[j]
    ensures forall x :: x in front <==> x in a && x != last
  {
    forall i | 0 <= i < |front| ensures front[i] != last { assert a[i] == front[i] && a[|front|] == last; }
  }

  lemma SameFronts<T(!new)>(a: seq<T>, b: seq<T>, front: seq<T>, front': seq<T>, last: T)
    requires a == front + [last] && b == front' + [last] && forall x :: x in a <==> x in b
    requires (forall i, j :: 0 <= i < j < |a| ==> a[i] != a[j]) && (forall i, j :: 0 <= i < j < |b| ==> b[i] != b[j])
    ensures forall x :: x in front <==> x in front'
  {
    FrontMembers(a, front, last);
    FrontMembers(b, front', last);
  }

  lemma NotBeforeLast<T>(less: (T, T) -> bool, a: seq<T>, y: T)
    requires InOrder(less, a) && y in a
    ensures y == a[|a| - 1] || !less(a[|a| - 1], y)
  {
    var i :| 0 <= i < |a| && a[i] == y;
  }

  lemma LastIsSame<T(!new)>(less: (T, T) -> bool, a: seq<T>, b: seq<T>)
    requires a != [] && b != [] && InOrder(less, a) && InOrder(less, b) && forall x :: x in a <==> x in b
    requires forall x, y :: x in a && y in a && x != y ==> !Tied(less, x, y)
    ensures a[|a| - 1] == b[|b| - 1]
  {
    var x, y := a[|a| - 1], b[|b| - 1];
    assert x in a && y in b;
    NotBeforeLast(less, a, y);
    NotBeforeLast(less, b, x);
    assert x == y || Tied(less, x, y);
  }

  lemma {:induction false} TiesHead<T>(less: (T, T) -> bool, x: T, s: seq<T>, e: T)
    ensures Ties(less, [x] + s, e) == (if Tied(less, e, x) then [x] else []) + Ties(less, s, e)
  {
    if s == [] {
      assert ([x] + s)[..0] == [];
    } else {
      var n := |s| - 1;
      TiesHead(less, x, s[..n], e);
      assert ([x] + s)[..|s|] == [x] + s[..n];
    }
  }

  /** Tied elements come out in the order in which they went in. */
  lemma TiedStay<T(!new)>(less: (T, T) -> bool, p: T, q: T, s: seq<T>)
    requires StrictWeak(less) && p != q && Tied(less, p, q)
    ensures Sorted(less, [p] + ([q] + s)) != Sorted(less, [q] + ([p] + s))
  {
    SortedTies(less, [p] + ([q] + s), p);
    SortedTies(less, [q] + ([p] + s), p);
    TiesHead(less, p, [q] + s, p);
    TiesHead(less, q, [p] + s, p);
    assert Tied(less, p, p);
    assert Ties(less, [p] + ([q] + s), p)[0] == p && Ties(less, [q] + ([p] + s), p)[0] == q;
  }

  function Sum<T>(f: T -> int, s: seq<T>): int {
    if s == [] then 0 else Sum(f, s[..|s| - 1]) + f(s[|s| - 1])
  }

  lemma {:induction false} InsertedSum<T>(less: (T, T) -> bool, f: T -> int, s: seq<T>, x: T)
    ensures Sum(f, Inserted(less, s, x)) == Sum(f, s) + f(x)
  {
    if s == [] || !less(x, s[|s| - 1]) {
      assert (s + [x])[..|s|] == s;
    } else {
      var before := Inserted(less, s[..|s| - 1], x);
      InsertedSum(less, f, s[..|s| - 1], x);
      assert (before + [s[|s| - 1]])[..|before|] == before;
    }
  }

  /** Sorting does not change what the elements add up to. */
  lemma {:induction false} SortedSum<T>(less: (T, T) -> bool, f: T -> int, s: seq<T>)
    ensures Sum(f, Sorted(less, s)) == Sum(f, s)
  {
    if s != [] {
      SortedSum(less, f, s[..|s| - 1]);
      InsertedSum(less, f, Sorted(less, s[..|s| - 1]), s[|s| - 1]);
    }
  }

  /** The elements of a slice, sorted in place. */
  method SortSeq<T>(s: seq<T>, less: (T, T) -> bool) returns (r: seq<T>)
    ensures r == Sorted(less, s)
  {
    var a := new T[|s|](i requires 0 <= i < |s| => s[i]);
    assert a[..] == s;
    SortFunc(a, less);
    r := a[..];
  }

  /** sort.Slice: some ordered permutation; how ties come out is not promised. */
  method SortSlice<T(!new)>(s: seq<T>, less: (T, T) -> bool) returns (r: seq<T>)
    requires StrictWeak(less)
    ensures InOrder(less, r) && multiset(r) == multiset(s)
  {
    r := SortSeq(s, less);
    SortIsStable(less, s);
  }

  // ---------- properties of pairs survive a permutation ----------

  /** No two positions clash. */
  ghost predicate Apart<T>(clash: (T, T) -> bool, s: seq<T>) {
    forall i, j :: 0 <= i < j < |s| ==> !clash(s[i], s[j])
  }

  lemma CountsTwice<T>(s: seq<T>, i: nat, j: nat)
    requires i < j < |s| && s[i] == s[j]
    ensures multiset(s)[s[i]] >= 2
  {
    assert s == s[..j] + [s[j]] + s[j + 1..];
    assert s[i] in s[..j];
  }

  lemma {:induction false} TwoPositions<T>(s: seq<T>, x: T) returns (p: nat, q: nat)
    requires multiset(s)[x] >= 2
    ensures p < q < |s| && s[p] == x && s[q] == x
  {
    var n := |s| - 1;
    assert s == s[..n] + [s[n]];
    if s[n] == x {
      q := n;
      assert x in multiset(s[..n]);
      p :| 0 <= p < n && s[..n][p] == x;
    } else {
      p, q := TwoPositions(s[..n], x);
    }
  }

  lemma SameMembers<T>(s: seq<T>, r: seq<T>)
    requires multiset(r) == multiset(s)
    ensures forall x :: x in r <==> x in s
  {
    forall x ensures x in r <==> x in s { assert x in multiset(r) <==> x in multiset(s); }
  }

  lemma ApartPermuted<T(!new)>(clash: (T, T) -> bool, s: seq<T>, r: seq<T>)
    requires multiset(r) == multiset(s) && Apart(clash, s)
    requires forall x, y :: clash(x, y) ==> clash(y, x)
    ensures Apart(clash, r)
  {
    SameMembers(s, r);
    forall i, j | 0 <= i < j < |r| ensures !clash(r[i], r[j]) {
      if r[i] == r[j] {
        CountsTwice(r, i, j);
        var p, q := TwoPositions(s, r[i]);
        assert !clash(s[p], s[q]);
      } else {
        assert r[i] in s && r[j] in s;
        var p :| 0 <= p < |s| && s[p] == r[i];
        var q :| 0 <= q < |s| && s[q] == r[j];
        assert !clash(s[if p < q then p else q], s[if p < q then q else p]);
      }
    }
  }
}

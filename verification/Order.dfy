/** Orders on sort keys: tuples and derived orders compare field by field. */
module Order {

  predicate LexLe(a: seq<int>, b: seq<int>)
    decreases |a|
  {
    |a| == 0 || (|b| > 0 && (a[0] < b[0] || (a[0] == b[0] && LexLe(a[1..], b[1..]))))
  }

  lemma {:induction false} LexReflexive(a: seq<int>)
    ensures LexLe(a, a)
    decreases |a|
  {
    if |a| > 0 { LexReflexive(a[1..]); }
  }

  lemma {:induction false} LexTotal(a: seq<int>, b: seq<int>)
    ensures LexLe(a, b) || LexLe(b, a)
    decreases |a|
  {
    if |a| > 0 && |b| > 0 && a[0] == b[0] { LexTotal(a[1..], b[1..]); }
  }

  lemma {:induction false} LexTransitive(a: seq<int>, b: seq<int>, c: seq<int>)
    requires LexLe(a, b) && LexLe(b, c)
    ensures LexLe(a, c)
    decreases |a|
  {
    if |a| > 0 && a[0] == b[0] && b[0] == c[0] { LexTransitive(a[1..], b[1..], c[1..]); }
  }

  ghost predicate SortedBy<T(!new)>(s: seq<T>, key: T -> seq<int>)
  {
    forall i, j :: 0 <= i < j < |s| ==> LexLe(key(s[i]), key(s[j]))
  }

  /** Inserts before the first element that is not smaller (stable from the right). */
  function Insert<T(!new)>(x: T, s: seq<T>, key: T -> seq<int>): (r: seq<T>)
    ensures |r| == |s| + 1
    ensures multiset(r) == multiset{x} + multiset(s)
  {
    if s == [] then [x]
    else if LexLe(key(x), key(s[0])) then [x] + s
    else
      assert s == [s[0]] + s[1..];
      [s[0]] + Insert(x, s[1..], key)
  }

  /** A stable sort (`sort`, `sort_by_key`). */
  function Sort<T(!new)>(s: seq<T>, key: T -> seq<int>): (r: seq<T>)
    ensures |r| == |s| && multiset(r) == multiset(s)
  {
    if s == [] then []
    else
      assert s == [s[0]] + s[1..];
      Insert(s[0], Sort(s[1..], key), key)
  }

  lemma {:induction false} InsertSorted<T(!new)>(x: T, s: seq<T>, key: T -> seq<int>)
    requires SortedBy(s, key)
    ensures SortedBy(Insert(x, s, key), key)
    decreases |s|
  {
    if s == [] {
    } else if LexLe(key(x), key(s[0])) {
      var r := [x] + s;
      forall i, j | 0 <= i < j < |r| ensures LexLe(key(r[i]), key(r[j])) {
        if i == 0 && j > 1 {
          LexTransitive(key(x), key(s[0]), key(s[j - 1]));
        }
      }
    } else {
      LexTotal(key(x), key(s[0]));
      InsertSorted(x, s[1..], key);
      var t := Insert(x, s[1..], key);
      forall j | 0 <= j < |t| ensures LexLe(key(s[0]), key(t[j])) {
        assert t[j] in multiset(t);
        if t[j] != x {
          assert t[j] in s[1..];
          var m :| 0 <= m < |s[1..]| && s[1..][m] == t[j];
          assert s[m + 1] == t[j];
        }
      }
    }
  }

  lemma {:induction false} SortSorts<T(!new)>(s: seq<T>, key: T -> seq<int>)
    ensures SortedBy(Sort(s, key), key)
    decreases |s|
  {
    if s != [] {
      SortSorts(s[1..], key);
      InsertSorted(s[0], Sort(s[1..], key), key);
    }
  }

  /** Sorting a sorted sequence changes nothing. */
  lemma {:induction false} SortOfSorted<T(!new)>(s: seq<T>, key: T -> seq<int>)
    requires SortedBy(s, key)
    ensures Sort(s, key) == s
    decreases |s|
  {
    if s != [] {
      SortOfSorted(s[1..], key);
      assert s == [s[0]] + s[1..];
      if |s| > 1 { assert LexLe(key(s[0]), key(s[1])); }
    }
  }

  /** In a sorted sequence, a strictly smaller key comes strictly earlier. */
  lemma {:induction false} SmallerIsEarlier<T(!new)>(s: seq<T>, key: T -> seq<int>, i: nat, j: nat)
    requires SortedBy(s, key) && i < |s| && j < |s|
    requires !LexLe(key(s[j]), key(s[i]))
    ensures i < j
  {
    LexReflexive(key(s[i]));
  }

  /** Some sequence of the elements of a set, each once. */
  ghost predicate Enumerates<T(!new)>(v: seq<T>, s: set<T>)
  {
    && (forall x :: x in v <==> x in s)
    && (forall i, j :: 0 <= i < j < |v| ==> v[i] != v[j])
  }

  /** Every finite set can be listed. */
  lemma {:induction false} Listing<T(!new)>(s: set<T>) returns (v: seq<T>)
    ensures Enumerates(v, s)
    decreases s
  {
    v := [];
    if s != {} {
      var x :| x in s;
      var rest := Listing(s - {x});
      v := rest + [x];
      assert forall y :: y in v <==> y in rest || y == x;
    }
  }

  method Enumerate<T(!new,==)>(s: set<T>) returns (v: seq<T>)
    ensures Enumerates(v, s)
  {
    v := [];
    var rest := s;
    while rest != {}
      invariant rest <= s
      invariant forall x :: x in v <==> x in s - rest
      invariant forall i, j :: 0 <= i < j < |v| ==> v[i] != v[j]
      decreases rest
    {
      var x :| x in rest;
      assert x !in v;
      v := v + [x];
      rest := rest - {x};
    }
  }

  /** A sequence with the elements of a duplicate-free one has no duplicates. */
  lemma DistinctByMultiset<T(!new)>(v: seq<T>, r: seq<T>)
    requires multiset(v) == multiset(r)
    requires forall i, j :: 0 <= i < j < |v| ==> v[i] != v[j]
    ensures forall i, j :: 0 <= i < j < |r| ==> r[i] != r[j]
  {
    forall i, j | 0 <= i < j < |r| ensures r[i] != r[j] {
      if r[i] == r[j] {
        var x := r[i];
        assert r == r[..i] + [x] + r[i + 1..j] + [x] + r[j + 1..];
        assert multiset(r)[x] >= 2;
        AtMostOnce(v, x);
        assert false;
      }
    }
  }

  lemma {:induction false} AtMostOnce<T(!new)>(v: seq<T>, x: T)
    requires forall i, j :: 0 <= i < j < |v| ==> v[i] != v[j]
    ensures multiset(v)[x] <= 1
    decreases |v|
  {
    if v != [] {
      var init, last := v[..|v| - 1], v[|v| - 1];
      AtMostOnce(init, x);
      assert v == init + [last];
      if x == last {
        assert x !in init;
      }
    }
  }
}

/** Sequence helpers with Python's meanings: slicing, counting, dictionary
    insertion order and the stable `sorted` the source relies on. */
module Seqs {
  import opened Text

  /** The end index of the Python slice `s[:n]` on a sequence of length `len`. */
  function SliceEnd(len: nat, n: int): (e: nat)
    ensures e <= len
    ensures n >= 0 ==> e == if n < len then n else len
    ensures n < 0 ==> e == if len + n > 0 then len + n else 0
  {
    if n >= 0 then (if n < len then n else len) else (if len + n > 0 then len + n else 0)
  }

  /** `s[:n]`, with Python's meaning for a negative `n`. */
  function Take<T>(s: seq<T>, n: int): (r: seq<T>)
    ensures r == s[..SliceEnd(|s|, n)]
    ensures n >= 0 ==> |r| <= n
  {
    s[..SliceEnd(|s|, n)]
  }

  /** `s[-n:]` when `len(s) > n`, else `s`: the trim the source applies after an append. */
  function LastN<T>(s: seq<T>, n: nat): (r: seq<T>)
    ensures |r| <= n && |r| <= |s|
    ensures r == s[|s| - |r|..]
    ensures |s| <= n ==> r == s
    ensures |s| > n ==> |r| == n
  {
    if |s| > n then s[|s| - n..] else s
  }

  /** Trimming twice after two appends is trimming once after both. */
  lemma LastNAppendTwice<T>(s: seq<T>, a: T, b: T, n: nat)
    requires n >= 1
    ensures LastN(LastN(s + [a], n) + [b], n) == LastN(s + [a, b], n)
  {
    var t := s + [a];
    assert s + [a, b] == t + [b];
    var u := LastN(t, n);
    assert u == t[|t| - |u|..];
    if |t| > n {
      assert u + [b] == (t + [b])[|t| - n..];
      assert LastN(u + [b], n) == (u + [b])[1..];
      assert (t + [b])[|t| - n..][1..] == (t + [b])[|t| + 1 - n..];
    }
  }

  function Count<T(==)>(x: T, s: seq<T>): nat {
    if s == [] then 0 else Count(x, s[..|s| - 1]) + (if s[|s| - 1] == x then 1 else 0)
  }

  predicate NoDup<T(==)>(s: seq<T>) {
    forall i, j :: 0 <= i < j < |s| ==> s[i] != s[j]
  }

  /** The keys of a dictionary filled from `s`, in insertion order: each
      element at its first occurrence. */
  function Distinct<T(==,!new)>(s: seq<T>): (r: seq<T>)
    ensures NoDup(r)
    ensures forall x :: x in r <==> x in s
  {
    if s == [] then []
    else
      var d := Distinct(s[..|s| - 1]);
      assert forall x :: x in s <==> x in s[..|s| - 1] || x == s[|s| - 1];
      if s[|s| - 1] in d then d else d + [s[|s| - 1]]
  }

  /** Appending one element adds it to the keys unless it is already there. */
  lemma DistinctSnoc<T(!new)>(s: seq<T>, x: T)
    ensures Distinct(s + [x]) == if x in Distinct(s) then Distinct(s) else Distinct(s) + [x]
  {
    var t := s + [x];
    assert t[..|t| - 1] == s;
  }

  lemma {:induction false} NoDupCount<T>(a: seq<T>, x: T)
    requires NoDup(a)
    ensures multiset(a)[x] <= 1
  {
    if a != [] {
      var p := a[..|a| - 1];
      assert a == p + [a[|a| - 1]];
      NoDupCount(p, x);
      if a[|a| - 1] == x {
        assert x !in p;
      }
    }
  }

  lemma NoDupPermutation<T>(a: seq<T>, b: seq<T>)
    requires NoDup(a) && multiset(a) == multiset(b)
    ensures NoDup(b)
  {
    forall i, j | 0 <= i < j < |b| ensures b[i] != b[j] {
      if b[i] == b[j] {
        var x := b[i];
        assert b == b[..i] + [x] + b[i + 1..j] + [x] + b[j + 1..];
        assert multiset(b)[x] >= 2;
        NoDupCount(a, x);
        assert false;
      }
    }
  }

  lemma NoDupPrefix<T>(s: seq<T>, n: nat)
    requires NoDup(s) && n <= |s|
    ensures NoDup(s[..n])
  {
  }

  /** Non-increasing by `key`, as `sorted(..., reverse=True)` leaves it. */
  predicate Descending<T>(s: seq<T>, key: T -> real) {
    forall i, j :: 0 <= i < j < |s| ==> key(s[i]) >= key(s[j])
  }

  lemma NoDupSnoc<T>(s: seq<T>, x: T)
    requires NoDup(s) && x !in s
    ensures NoDup(s + [x])
  {
    var r := s + [x];
    forall i, j | 0 <= i < j < |r| ensures r[i] != r[j] {
      assert r[i] == s[i];
      if j < |s| { assert r[j] == s[j]; }
    }
  }

  lemma DescendingPrefix<T>(s: seq<T>, n: nat, key: T -> real)
    requires Descending(s, key) && n <= |s|
    ensures Descending(s[..n], key)
  {
    assert forall i :: 0 <= i < n ==> s[..n][i] == s[i];
  }

  /** In a non-increasing sequence, an element outside a prefix is
      outranked by everything in that prefix. */
  lemma DescendingPrefixTop<T>(s: seq<T>, n: int, x: T, key: T -> real)
    requires Descending(s, key)
    requires x in s && x !in Take(s, n)
    ensures forall y :: y in Take(s, n) ==> key(y) >= key(x)
  {
    var p :| 0 <= p < |s| && s[p] == x;
    var r := Take(s, n);
    assert forall q :: 0 <= q < |r| ==> s[q] != x;
    assert p >= |r|;
    forall y | y in r ensures key(y) >= key(x) {
      var i :| 0 <= i < |r| && r[i] == y;
      assert s[i] == y;
    }
  }

  lemma DescendingSnoc<T>(s: seq<T>, x: T, key: T -> real)
    requires Descending(s, key) && forall y :: y in s ==> key(y) >= key(x)
    ensures Descending(s + [x], key)
  {
    var r := s + [x];
    forall i, j | 0 <= i < j < |r| ensures key(r[i]) >= key(r[j]) {
      assert r[i] == s[i];
      if j < |s| { assert r[j] == s[j]; } else { assert s[i] in s; }
    }
  }

  /** Inserts `x` in front of the first element whose key is not greater. */
  function InsertDesc<T>(x: T, s: seq<T>, key: T -> real): seq<T> {
    if s == [] then [x]
    else if key(s[0]) > key(x) then [s[0]] + InsertDesc(x, s[1..], key)
    else [x] + s
  }

  lemma {:induction false} InsertDescPerm<T>(x: T, s: seq<T>, key: T -> real)
    ensures multiset(InsertDesc(x, s, key)) == multiset(s) + multiset{x}
  {
    if s != [] && key(s[0]) > key(x) {
      InsertDescPerm(x, s[1..], key);
      assert s == [s[0]] + s[1..];
    }
  }

  lemma ConsDescending<T>(h: T, t: seq<T>, key: T -> real)
    requires Descending(t, key) && forall y :: y in t ==> key(h) >= key(y)
    ensures Descending([h] + t, key)
  {
    var r := [h] + t;
    forall i, j | 0 <= i < j < |r| ensures key(r[i]) >= key(r[j]) {
      assert r[j] == t[j - 1];
      if i > 0 { assert r[i] == t[i - 1]; }
    }
  }

  lemma {:induction false} InsertDescOrder<T>(x: T, s: seq<T>, key: T -> real)
    requires Descending(s, key)
    ensures Descending(InsertDesc(x, s, key), key)
  {
    if s == [] {
    } else if key(s[0]) > key(x) {
      var t := InsertDesc(x, s[1..], key);
      InsertDescOrder(x, s[1..], key);
      InsertDescPerm(x, s[1..], key);
      forall y | y in t ensures key(s[0]) >= key(y) {
        assert y in multiset(t);
        if y != x {
          assert y in multiset(s[1..]);
          var j :| 0 <= j < |s[1..]| && s[1..][j] == y;
          assert s[j + 1] == y;
        }
      }
      ConsDescending(s[0], t, key);
    } else {
      forall y | y in s ensures key(x) >= key(y) {
        var j :| 0 <= j < |s| && s[j] == y;
        assert key(s[0]) >= key(s[j]);
      }
      ConsDescending(x, s, key);
    }
  }

  /** `sorted(s, key=key, reverse=True)`: a stable insertion sort, so among
      equal keys the earlier element stays first. */
  function SortDesc<T>(s: seq<T>, key: T -> real): seq<T> {
    if s == [] then [] else InsertDesc(s[0], SortDesc(s[1..], key), key)
  }

  /** The sort returns a non-increasing permutation of its input. */
  lemma {:induction false} SortDescSpec<T>(s: seq<T>, key: T -> real)
    ensures Descending(SortDesc(s, key), key)
    ensures multiset(SortDesc(s, key)) == multiset(s)
    ensures |SortDesc(s, key)| == |s|
    ensures forall y :: y in SortDesc(s, key) <==> y in s
  {
    if s != [] {
      SortDescSpec(s[1..], key);
      InsertDescPerm(s[0], SortDesc(s[1..], key), key);
      InsertDescOrder(s[0], SortDesc(s[1..], key), key);
      assert s == [s[0]] + s[1..];
    }
    var r := SortDesc(s, key);
    assert |multiset(r)| == |multiset(s)|;
    assert forall y :: y in r <==> y in multiset(r);
  }

  /** The sort looks at the keys of the elements it is given and nothing else. */
  lemma {:induction false} SortDescKeyAgree<T>(s: seq<T>, f: T -> real, g: T -> real)
    requires forall x :: x in s ==> f(x) == g(x)
    ensures SortDesc(s, f) == SortDesc(s, g)
  {
    if s != [] {
      SortDescKeyAgree(s[1..], f, g);
      SortDescSpec(s[1..], f);
      var t := SortDesc(s[1..], f);
      forall y | y in t ensures f(y) == g(y) {
        assert y in multiset(t);
        assert y in s[1..];
      }
      assert s[0] in s;
      InsertAgree(s[0], SortDesc(s[1..], f), f, g);
    }
  }

  lemma {:induction false} InsertAgree<T>(x: T, s: seq<T>, f: T -> real, g: T -> real)
    requires f(x) == g(x) && forall y :: y in s ==> f(y) == g(y)
    ensures InsertDesc(x, s, f) == InsertDesc(x, s, g)
  {
    if s != [] && f(s[0]) > f(x) {
      InsertAgree(x, s[1..], f, g);
    }
  }

  /** Ascending in Python's string order. */
  predicate Ascending(s: seq<string>) {
    forall i, j :: 0 <= i < j < |s| ==> StrLe(s[i], s[j])
  }

  function InsertStr(x: string, s: seq<string>): seq<string> {
    if s == [] then [x]
    else if StrLt(s[0], x) then [s[0]] + InsertStr(x, s[1..])
    else [x] + s
  }

  lemma {:induction false} InsertStrPerm(x: string, s: seq<string>)
    ensures multiset(InsertStr(x, s)) == multiset(s) + multiset{x}
  {
    if s != [] && StrLt(s[0], x) {
      InsertStrPerm(x, s[1..]);
      assert s == [s[0]] + s[1..];
    }
  }

  lemma {:induction false} InsertStrOrder(x: string, s: seq<string>)
    requires Ascending(s)
    ensures Ascending(InsertStr(x, s))
  {
    if s != [] && StrLt(s[0], x) {
      var t := InsertStr(x, s[1..]);
      InsertStrOrder(x, s[1..]);
      InsertStrPerm(x, s[1..]);
      var r := [s[0]] + t;
      forall j | 0 < j < |r| ensures StrLe(r[0], r[j]) {
        assert r[j] == t[j - 1];
        assert t[j - 1] in multiset(s[1..]) + multiset{x};
      }
      assert r == InsertStr(x, s);
    } else if s != [] {
      StrLeTotal(x, s[0]);
      var r := [x] + s;
      forall j | 0 < j < |r| ensures StrLe(r[0], r[j]) {
        assert r[j] == s[j - 1];
        StrLeTransitive(x, s[0], s[j - 1]);
      }
    }
  }

  /** `sorted(s)` on strings. */
  function SortStrings(s: seq<string>): seq<string> {
    if s == [] then [] else InsertStr(s[0], SortStrings(s[1..]))
  }

  lemma {:induction false} SortStringsPerm(s: seq<string>)
    ensures multiset(SortStrings(s)) == multiset(s)
  {
    if s != [] {
      SortStringsPerm(s[1..]);
      InsertStrPerm(s[0], SortStrings(s[1..]));
      assert s == [s[0]] + s[1..];
    }
  }

  lemma {:induction false} SortStringsOrder(s: seq<string>)
    ensures Ascending(SortStrings(s))
  {
    if s != [] {
      SortStringsOrder(s[1..]);
      InsertStrOrder(s[0], SortStrings(s[1..]));
    }
  }

  /** The sort returns an ascending permutation of its input. */
  lemma SortStringsSpec(s: seq<string>)
    ensures Ascending(SortStrings(s))
    ensures multiset(SortStrings(s)) == multiset(s)
    ensures |SortStrings(s)| == |s|
    ensures forall y :: y in SortStrings(s) <==> y in s
  {
    SortStringsPerm(s);
    SortStringsOrder(s);
    var r := SortStrings(s);
    assert |multiset(r)| == |multiset(s)|;
    assert forall y :: y in r <==> y in multiset(r);
  }

  /** Sorted distinct strings are strictly increasing. */
  lemma AscendingNoDupStrict(s: seq<string>)
    requires Ascending(s) && NoDup(s)
    ensures forall i, j :: 0 <= i < j < |s| ==> StrLt(s[i], s[j])
  {
  }

  function Sum(s: seq<real>): real {
    if s == [] then 0.0 else Sum(s[..|s| - 1]) + s[|s| - 1]
  }
}

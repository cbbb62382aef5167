/** Shared vocabulary of the model: optional values, the in-memory query
    operations the ORM performs (filter, count, slice, stable ordering) and
    the few string operations the views use. */
module Base {

  datatype Option<T> = None | Some(value: T)

  function Min(a: int, b: int): int { if a <= b then a else b }

  /** A query-set slice `qs[:n]`. */
  function Take<T>(s: seq<T>, n: nat): (r: seq<T>)
    ensures |r| == Min(|s|, n) && r == s[..|r|]
  {
    if |s| <= n then s else s[..n]
  }

  /** `qs.filter(p)`: keeps the rows that satisfy `p`, in order. */
  function Filter<T>(s: seq<T>, p: T -> bool): (r: seq<T>)
    ensures |r| <= |s|
    ensures forall x :: x in r ==> x in s && p(x)
  {
    if s == [] then [] else (if p(s[0]) then [s[0]] else []) + Filter(s[1..], p)
  }

  lemma {:induction false} FilterAppend<T>(a: seq<T>, b: seq<T>, p: T -> bool)
    ensures Filter(a + b, p) == Filter(a, p) + Filter(b, p)
  {
    if a == [] {
      assert a + b == b;
    } else {
      assert (a + b)[1..] == a[1..] + b;
      FilterAppend(a[1..], b, p);
    }
  }

  /** Every row that satisfies `p` survives the filter. */
  lemma {:induction false} FilterKeeps<T>(s: seq<T>, p: T -> bool, x: T)
    requires x in s && p(x)
    ensures x in Filter(s, p)
  {
    if s[0] != x {
      FilterKeeps(s[1..], p, x);
    }
  }

  lemma {:induction false} FilterMultiset<T>(s: seq<T>, p: T -> bool, x: T)
    ensures multiset(Filter(s, p))[x] == if p(x) then multiset(s)[x] else 0
  {
    if s != [] {
      FilterMultiset(s[1..], p, x);
      assert s == [s[0]] + s[1..];
    }
  }

  /** A filter that nothing satisfies is empty. */
  lemma FilterNone<T>(s: seq<T>, p: T -> bool)
    requires forall x :: x in s ==> !p(x)
    ensures Filter(s, p) == []
  {
  }

  /** `qs.filter(p).count()`. */
  function Count<T>(s: seq<T>, p: T -> bool): nat { |Filter(s, p)| }

  /** Rows whose key equals `k`; used to state that a sort is stable. */
  function WithKey<T>(s: seq<T>, key: T -> int, k: int): seq<T>
  {
    if s == [] then [] else (if key(s[0]) == k then [s[0]] else []) + WithKey(s[1..], key, k)
  }

  ghost predicate SortedDesc<T>(s: seq<T>, key: T -> int)
  {
    forall i, j :: 0 <= i < j < |s| ==> key(s[i]) >= key(s[j])
  }

  /** Places `x` before the first element whose key does not exceed its own. */
  function Insert<T>(x: T, s: seq<T>, key: T -> int): (r: seq<T>)
    ensures multiset(r) == multiset(s) + multiset{x}
    ensures |r| == |s| + 1
  {
    if s == [] then [x]
    else if key(s[0]) <= key(x) then [x] + s
    else
      assert s == [s[0]] + s[1..];
      [s[0]] + Insert(x, s[1..], key)
  }

  /** A stable sort on a descending key: Python's `sort(key=..., reverse=True)`
      and `sorted(..., reverse=True)`, and the model of `order_by('-field')`
      with ties kept in table order. */
  function SortDesc<T>(s: seq<T>, key: T -> int): (r: seq<T>)
    ensures multiset(r) == multiset(s)
    ensures |r| == |s|
  {
    if s == [] then []
    else
      assert s == [s[0]] + s[1..];
      Insert(s[0], SortDesc(s[1..], key), key)
  }

  lemma {:induction false} InsertSorted<T>(x: T, s: seq<T>, key: T -> int)
    requires SortedDesc(s, key)
    ensures SortedDesc(Insert(x, s, key), key)
  {
    if s != [] && key(s[0]) > key(x) {
      InsertSorted(x, s[1..], key);
      var r := Insert(x, s[1..], key);
      assert r[0] in multiset(s[1..]) + multiset{x};
      assert forall y :: y in multiset(s[1..]) ==> key(y) <= key(s[0]);
    }
  }

  lemma {:induction false} SortDescSorted<T>(s: seq<T>, key: T -> int)
    ensures SortedDesc(SortDesc(s, key), key)
  {
    if s != [] {
      SortDescSorted(s[1..], key);
      InsertSorted(s[0], SortDesc(s[1..], key), key);
    }
  }

  lemma WithKeyCons<T>(y: T, t: seq<T>, key: T -> int, k: int)
    ensures WithKey([y] + t, key, k) == (if key(y) == k then [y] else []) + WithKey(t, key, k)
  {
    assert ([y] + t)[1..] == t;
  }

  /** Two rows with different keys contribute to `WithKey` in either order. */
  lemma KeyPrefixesCommute<T>(a: T, b: T, key: T -> int, k: int, w: seq<T>, rest: seq<T>, whole: seq<T>)
    requires key(a) != key(b)
    requires rest == (if key(b) == k then [b] else []) + w
    requires whole == (if key(a) == k then [a] else []) + w
    ensures (if key(a) == k then [a] else []) + rest == (if key(b) == k then [b] else []) + whole
  {
  }

  lemma {:induction false} InsertWithKey<T>(x: T, s: seq<T>, key: T -> int, k: int)
    ensures WithKey(Insert(x, s, key), key, k)
         == (if key(x) == k then [x] else []) + WithKey(s, key, k)
  {
    if s == [] || key(s[0]) <= key(x) {
      WithKeyCons(x, s, key, k);
    } else {
      var r := Insert(x, s[1..], key);
      assert Insert(x, s, key) == [s[0]] + r;
      WithKeyCons(s[0], r, key, k);
      InsertWithKey(x, s[1..], key, k);
      assert [s[0]] + s[1..] == s;
      WithKeyCons(s[0], s[1..], key, k);
      KeyPrefixesCommute(s[0], x, key, k, WithKey(s[1..], key, k), WithKey(r, key, k), WithKey(s, key, k));
    }
  }

  /** Stability: among rows with the same key, the sort keeps the input order. */
  lemma {:induction false} SortDescStable<T>(s: seq<T>, key: T -> int, k: int)
    ensures WithKey(SortDesc(s, key), key, k) == WithKey(s, key, k)
  {
    if s != [] {
      SortDescStable(s[1..], key, k);
      InsertWithKey(s[0], SortDesc(s[1..], key), key, k);
    }
  }

  /** A sorted sequence stays sorted under any slice `[:n]`. */
  lemma TakeSorted<T>(s: seq<T>, key: T -> int, n: nat)
    requires SortedDesc(s, key)
    ensures SortedDesc(Take(s, n), key)
  {
  }

  /** Filtering keeps a sorted sequence sorted. */
  lemma {:induction false} FilterSorted<T>(s: seq<T>, p: T -> bool, key: T -> int)
    requires SortedDesc(s, key)
    ensures SortedDesc(Filter(s, p), key)
  {
    if s != [] {
      FilterSorted(s[1..], p, key);
      var rest := Filter(s[1..], p);
      if p(s[0]) {
        forall j | 0 <= j < |rest| ensures key(s[0]) >= key(rest[j]) {
          assert rest[j] in s[1..];
        }
        assert Filter(s, p) == [s[0]] + rest;
      } else {
        assert Filter(s, p) == rest;
      }
    }
  }

  /** Top-k: a row of a sorted sequence that a slice `[:n]` leaves out ranks
      no higher than every row the slice keeps, and the slice is full. */
  lemma TakeSortedTop<T>(s: seq<T>, key: T -> int, n: nat, x: T)
    requires SortedDesc(s, key) && x in s && x !in Take(s, n)
    ensures |Take(s, n)| == n
    ensures forall y :: y in Take(s, n) ==> key(y) >= key(x)
  {
    var j :| 0 <= j < |s| && s[j] == x;
    assert Take(s, n) == s[..|Take(s, n)|];
    assert j >= |Take(s, n)|;
  }

  /** Top-k of `sorted(s, key=..., reverse=True)[:n]`: a row of `s` the
      slice leaves out ranks no higher than every row it keeps, and the
      slice is full. */
  lemma SortTakeTop<T>(s: seq<T>, key: T -> int, n: nat, x: T)
    requires x in s && x !in Take(SortDesc(s, key), n)
    ensures |Take(SortDesc(s, key), n)| == n
    ensures forall y :: y in Take(SortDesc(s, key), n) ==> key(y) >= key(x)
  {
    SortDescSorted(s, key);
    assert x in multiset(s);
    assert x in multiset(SortDesc(s, key));
    TakeSortedTop(SortDesc(s, key), key, n, x);
  }

  /** Top-k of `qs.filter(p).order_by(-key)[:n]`: a row satisfying `p` that
      the slice leaves out ranks no higher than every row it keeps, and the
      slice is full. */
  lemma FilterSortTakeTop<T>(s: seq<T>, p: T -> bool, key: T -> int, n: nat, x: T)
    requires x in s && p(x) && x !in Take(SortDesc(Filter(s, p), key), n)
    ensures |Take(SortDesc(Filter(s, p), key), n)| == n
    ensures forall y :: y in Take(SortDesc(Filter(s, p), key), n) ==> key(y) >= key(x)
  {
    FilterKeeps(s, p, x);
    SortTakeTop(Filter(s, p), key, n, x);
  }

  /** The list a loop builds by appending `f(x)` for each `x` of `s`. */
  function MapSeq<T, U>(s: seq<T>, f: T -> U): seq<U>
  {
    if s == [] then [] else MapSeq(s[..|s| - 1], f) + [f(s[|s| - 1])]
  }

  lemma {:induction false} MapSeqPointwise<T, U>(s: seq<T>, f: T -> U)
    ensures |MapSeq(s, f)| == |s|
    ensures forall i :: 0 <= i < |s| ==> MapSeq(s, f)[i] == f(s[i])
  {
    if s != [] {
      var init := s[..|s| - 1];
      MapSeqPointwise(init, f);
      forall i | 0 <= i < |s| ensures MapSeq(s, f)[i] == f(s[i]) {
        if i < |init| {
          assert MapSeq(s, f)[i] == MapSeq(init, f)[i];
        }
      }
    }
  }

  lemma MapSeqMember<T, U>(s: seq<T>, f: T -> U, x: T)
    requires x in s
    ensures f(x) in MapSeq(s, f)
  {
    MapSeqPointwise(s, f);
    var i :| 0 <= i < |s| && s[i] == x;
    assert MapSeq(s, f)[i] == f(x);
  }

  predicate IsMinOf(m: nat, s: set<nat>)
  {
    m in s && forall y :: y in s ==> m <= y
  }

  lemma {:induction false} MinExists(s: set<nat>)
    requires s != {}
    ensures exists m :: IsMinOf(m, s)
  {
    var x :| x in s;
    if s == {x} {
      assert IsMinOf(x, s);
    } else {
      var rest := s - {x};
      MinExists(rest);
      var m :| IsMinOf(m, rest);
      var w := if x < m then x else m;
      forall y | y in s ensures w <= y {
        if y != x {
          assert y in rest;
        }
      }
      assert IsMinOf(w, s);
    }
  }

  /** The smallest id of a set: what `.first()` picks on a query set that has
      no ordering of its own (Django then orders by primary key). */
  function MinOf(s: set<nat>): (m: nat)
    requires s != {}
    ensures m in s && forall y :: y in s ==> m <= y
  {
    MinExists(s);
    var m :| IsMinOf(m, s);
    m
  }

  function SumBy<T>(s: seq<T>, f: T -> int): int
  {
    if s == [] then 0 else f(s[0]) + SumBy(s[1..], f)
  }

  lemma {:induction false} SumByInsert<T>(x: T, s: seq<T>, key: T -> int, f: T -> int)
    ensures SumBy(Insert(x, s, key), f) == f(x) + SumBy(s, f)
  {
    if s != [] && key(s[0]) > key(x) {
      assert ([s[0]] + Insert(x, s[1..], key))[1..] == Insert(x, s[1..], key);
      SumByInsert(x, s[1..], key, f);
    } else if s != [] {
      assert ([x] + s)[1..] == s;
    }
  }

  /** Sorting does not change a sum. */
  lemma {:induction false} SumBySortDesc<T>(s: seq<T>, key: T -> int, f: T -> int)
    ensures SumBy(SortDesc(s, key), f) == SumBy(s, f)
  {
    if s != [] {
      SumBySortDesc(s[1..], key, f);
      SumByInsert(s[0], SortDesc(s[1..], key), key, f);
    }
  }

  /** Dropping rows that contribute nothing does not change a sum. */
  lemma {:induction false} SumByFilter<T>(s: seq<T>, p: T -> bool, f: T -> int)
    requires forall x :: x in s && !p(x) ==> f(x) == 0
    ensures SumBy(Filter(s, p), f) == SumBy(s, f)
  {
    if s != [] {
      SumByFilter(s[1..], p, f);
      var head := if p(s[0]) then [s[0]] else [];
      var rest := Filter(s[1..], p);
      if p(s[0]) {
        assert (head + rest)[1..] == rest;
      } else {
        assert head + rest == rest;
      }
    }
  }

  /** A sequence without repeated elements holds each at most once. */
  lemma {:induction false} NoRepeatsOnce<T>(s: seq<T>)
    requires forall i, j :: 0 <= i < j < |s| ==> s[i] != s[j]
    ensures forall x :: multiset(s)[x] <= 1
  {
    if s != [] {
      var t := s[1..];
      assert forall i, j :: 0 <= i < j < |t| ==> t[i] != t[j] by {
        forall i, j | 0 <= i < j < |t| ensures t[i] != t[j] {
          assert t[i] == s[i + 1] && t[j] == s[j + 1];
        }
      }
      NoRepeatsOnce(t);
      assert s[0] !in t by {
        forall k | 0 <= k < |t| ensures t[k] != s[0] {
          assert t[k] == s[k + 1];
        }
      }
      assert s == [s[0]] + t;
      assert multiset(s) == multiset{s[0]} + multiset(t);
    }
  }

  /** An element at two positions occurs at least twice. */
  lemma TwiceInMultiset<T>(s: seq<T>, i: nat, j: nat)
    requires i < j < |s| && s[i] == s[j]
    ensures multiset(s)[s[i]] >= 2
  {
    assert s == s[..j] + s[j..];
    assert s[i] in s[..j];
    assert s[j] in s[j..];
    assert multiset(s) == multiset(s[..j]) + multiset(s[j..]);
  }

  /** A proper subset has fewer elements. */
  lemma ProperSubsetSmaller<T>(a: set<T>, b: set<T>)
    requires a < b
    ensures |a| < |b|
  {
    assert b == a + (b - a);
    assert a * (b - a) == {};
    assert b - a != {};
  }

  // ---------------------------------------------------------------- strings

  /** The ASCII whitespace that Python's `str.strip()` removes. */
  predicate IsSpace(c: char)
  {
    c == ' ' || c == '\t' || c == '\n' || c == '\r' || c == '\U{B}' || c == '\U{C}'
  }

  function TrimLeft(s: string): string
  {
    if s != [] && IsSpace(s[0]) then TrimLeft(s[1..]) else s
  }

  function TrimRight(s: string): string
  {
    if s != [] && IsSpace(s[|s| - 1]) then TrimRight(s[..|s| - 1]) else s
  }

  /** `str.strip()`. */
  function Strip(s: string): string { TrimRight(TrimLeft(s)) }

  /** Trimming the left end drops exactly a maximal run of leading spaces. */
  lemma {:induction false} TrimLeftSpec(s: string)
    ensures |TrimLeft(s)| <= |s| && TrimLeft(s) == s[|s| - |TrimLeft(s)|..]
    ensures TrimLeft(s) != [] ==> !IsSpace(TrimLeft(s)[0])
    ensures forall i :: 0 <= i < |s| - |TrimLeft(s)| ==> IsSpace(s[i])
  {
    if s != [] && IsSpace(s[0]) {
      var t := s[1..];
      TrimLeftSpec(t);
      var k := |TrimLeft(t)|;
      assert TrimLeft(s) == TrimLeft(t);
      assert s[|s| - k..] == t[|t| - k..];
      forall i | 0 <= i < |s| - k ensures IsSpace(s[i]) {
        if i > 0 { assert s[i] == t[i - 1]; }
      }
    }
  }

  /** Trimming the right end drops exactly a maximal run of trailing spaces. */
  lemma {:induction false} TrimRightSpec(s: string)
    ensures |TrimRight(s)| <= |s| && TrimRight(s) == s[..|TrimRight(s)|]
    ensures TrimRight(s) != [] ==> !IsSpace(TrimRight(s)[|TrimRight(s)| - 1])
    ensures forall i :: |TrimRight(s)| <= i < |s| ==> IsSpace(s[i])
  {
    if s != [] && IsSpace(s[|s| - 1]) {
      var t := s[..|s| - 1];
      TrimRightSpec(t);
      var k := |TrimRight(t)|;
      assert TrimRight(s) == TrimRight(t);
      assert s[..k] == t[..k];
      forall i | k <= i < |s| ensures IsSpace(s[i]) {
        if i < |t| { assert s[i] == t[i]; }
      }
    }
  }

  /** `strip` keeps a contiguous middle part of the string that neither
      starts nor ends with whitespace; everything cut off is whitespace. */
  lemma StripSpec(s: string)
    ensures exists a: nat, b: nat ::
      (&& a <= b <= |s| && Strip(s) == s[a..b]
       && (forall i :: 0 <= i < a ==> IsSpace(s[i]))
       && (forall i :: b <= i < |s| ==> IsSpace(s[i])))
    ensures Strip(s) != [] ==> !IsSpace(Strip(s)[0]) && !IsSpace(Strip(s)[|Strip(s)| - 1])
  {
    var l := TrimLeft(s);
    TrimLeftSpec(s);
    TrimRightSpec(l);
    var a := |s| - |l|;
    var b := a + |Strip(s)|;
    assert Strip(s) == s[a..b];
    forall i | b <= i < |s| ensures IsSpace(s[i]) {
      assert s[i] == l[i - a];
    }
  }

  /** Stripping leaves nothing exactly when every character is whitespace. */
  lemma StripEmpty(s: string)
    ensures Strip(s) == [] <==> forall i :: 0 <= i < |s| ==> IsSpace(s[i])
  {
    var l := TrimLeft(s);
    TrimLeftSpec(s);
    TrimRightSpec(l);
    if forall i :: 0 <= i < |s| ==> IsSpace(s[i]) {
      AllSpaceTrimmed(s);
    }
  }

  lemma {:induction false} AllSpaceTrimmed(s: string)
    requires forall i :: 0 <= i < |s| ==> IsSpace(s[i])
    ensures TrimLeft(s) == []
  {
    if s != [] {
      AllSpaceTrimmed(s[1..]);
    }
  }

  function AsciiLower(c: char): char
  {
    if 'A' <= c <= 'Z' then (c as int + 32) as char else c
  }

  function LowerAscii(s: string): (r: string)
    ensures |r| == |s|
    ensures forall i :: 0 <= i < |s| ==> r[i] == AsciiLower(s[i])
  {
    seq(|s|, i requires 0 <= i < |s| => AsciiLower(s[i]))
  }

  predicate IsSubstring(sub: string, s: string)
  {
    exists i :: 0 <= i <= |s| && sub <= s[i..]
  }

  /** The database's `field__icontains=query`: a substring match that ignores
      ASCII case (the SQLite `LIKE` behaviour). */
  predicate IContains(field: string, query: string)
  {
    IsSubstring(LowerAscii(query), LowerAscii(field))
  }
}

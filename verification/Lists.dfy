/** Operations that the modelled code takes from its language or its library: list comprehensions,
    conditional appends, absolute values, sums and the stable sort. */
module Lists {

  datatype Option<+T> = None | Some(value: T)

  function Filter<T(!new)>(s: seq<T>, p: T -> bool): (r: seq<T>)
    ensures |r| <= |s|
    ensures forall x :: x in r <==> x in s && p(x)
  {
    if s == [] then []
    else
      var rest := Filter(s[1..], p);
      if p(s[0]) then [s[0]] + rest else rest
  }

  lemma Associative<T>(a: seq<T>, b: seq<T>, c: seq<T>)
    ensures a + (b + c) == (a + b) + c
  {
  }

  lemma FilterCons<T(!new)>(s: seq<T>, p: T -> bool)
    requires s != []
    ensures Filter(s, p) == if p(s[0]) then [s[0]] + Filter(s[1..], p) else Filter(s[1..], p)
  {
  }

  lemma {:induction false} FilterConcat<T(!new)>(a: seq<T>, b: seq<T>, p: T -> bool)
    ensures Filter(a + b, p) == Filter(a, p) + Filter(b, p)
  {
    hide Filter;
    if a == [] {
      assert a + b == b;
      FilterEmpty(a, p);
    } else {
      var s := a + b;
      assert s != [] && s[0] == a[0] && s[1..] == a[1..] + b;
      FilterCons(a, p);
      FilterCons(s, p);
      FilterConcat(a[1..], b, p);
      Associative([a[0]], Filter(a[1..], p), Filter(b, p));
    }
  }

  lemma FilterEmpty<T(!new)>(s: seq<T>, p: T -> bool)
    requires s == []
    ensures Filter(s, p) == []
  {
  }

  lemma {:induction false} FilterCongruent<T(!new)>(s: seq<T>, p: T -> bool, q: T -> bool)
    requires forall x :: x in s ==> p(x) == q(x)
    ensures Filter(s, p) == Filter(s, q)
  {
    if s != [] {
      FilterCongruent(s[1..], p, q);
    }
  }

  lemma {:induction false} FilterAll<T(!new)>(s: seq<T>, p: T -> bool)
    requires forall x :: x in s ==> p(x)
    ensures Filter(s, p) == s
  {
    if s != [] {
      FilterAll(s[1..], p);
    }
  }

  lemma {:induction false} FilterNone<T(!new)>(s: seq<T>, p: T -> bool)
    requires forall x :: x in s ==> !p(x)
    ensures Filter(s, p) == []
  {
    if s != [] {
      FilterNone(s[1..], p);
    }
  }

  lemma FilterPrefix<T(!new)>(s: seq<T>, n: nat, p: T -> bool)
    requires n <= |s| && forall i :: n <= i < |s| ==> !p(s[i])
    ensures Filter(s, p) == Filter(s[..n], p)
  {
    FilterConcat(s[..n], s[n..], p);
    assert s == s[..n] + s[n..];
    FilterNone(s[n..], p);
  }

  lemma FilterSuffix<T(!new)>(s: seq<T>, n: nat, p: T -> bool)
    requires n <= |s| && forall i :: 0 <= i < n ==> !p(s[i])
    ensures Filter(s, p) == Filter(s[n..], p)
  {
    FilterConcat(s[..n], s[n..], p);
    assert s == s[..n] + s[n..];
    FilterNone(s[..n], p);
  }

  lemma FilterSingle<T(!new)>(s: seq<T>, i: nat, p: T -> bool)
    requires i < |s| && p(s[i]) && forall j :: 0 <= j < |s| && j != i ==> !p(s[j])
    ensures Filter(s, p) == [s[i]]
  {
    FilterPrefix(s, i + 1, p);
    FilterSuffix(s[..i + 1], i, p);
    assert s[..i + 1][i..] == [s[i]];
    FilterAll([s[i]], p);
  }

  /** Filtering keeps multiplicities: what passes keeps its count, the rest vanishes. */
  lemma {:induction false} FilterMultiset<T(!new)>(s: seq<T>, p: T -> bool, x: T)
    ensures multiset(Filter(s, p))[x] == if p(x) then multiset(s)[x] else 0
  {
    if s != [] {
      FilterMultiset(s[1..], p, x);
      assert s == [s[0]] + s[1..];
    }
  }

  function When<T>(c: bool, x: T): seq<T> { if c then [x] else [] }

  function Map<A, B>(s: seq<A>, f: A -> B): (r: seq<B>)
    ensures |r| == |s|
    ensures forall i :: 0 <= i < |s| ==> r[i] == f(s[i])
  {
    if s == [] then [] else [f(s[0])] + Map(s[1..], f)
  }

  function Flatten<T>(s: seq<seq<T>>): seq<T> {
    if s == [] then [] else s[0] + Flatten(s[1..])
  }

  lemma {:induction false} FlattenAppend<T>(s: seq<seq<T>>, x: seq<T>)
    ensures Flatten(s + [x]) == Flatten(s) + x
  {
    if s == [] {
      assert s + [x] == [x];
    } else {
      assert (s + [x])[1..] == s[1..] + [x];
      FlattenAppend(s[1..], x);
    }
  }

  function Abs(x: real): real { if x < 0.0 then -x else x }

  function Sum(s: seq<real>): real {
    if s == [] then 0.0 else s[0] + Sum(s[1..])
  }

  lemma {:induction false} SumConcat(a: seq<real>, b: seq<real>)
    ensures Sum(a + b) == Sum(a) + Sum(b)
  {
    if a == [] {
      assert a + b == b;
    } else {
      assert (a + b)[1..] == a[1..] + b;
      SumConcat(a[1..], b);
    }
  }

  /** Sum of a sequence whose last element is split off. */
  lemma SumSnoc(a: seq<real>, x: real)
    ensures Sum(a + [x]) == Sum(a) + x
  {
    SumConcat(a, [x]);
  }

  lemma {:induction false} SumConstant(s: seq<real>, x: real)
    requires forall i :: 0 <= i < |s| ==> s[i] == x
    ensures Sum(s) == x * |s| as real
  {
    if s != [] {
      SumConstant(s[1..], x);
      assert x * (|s| - 1) as real + x == x * |s| as real;
    }
  }

  // ------------------------------------------------------------------ stable sort

  ghost predicate TotalPreorder<T(!new)>(le: (T, T) -> bool) {
    && (forall x, y :: le(x, y) || le(y, x))
    && (forall x, y, z :: le(x, y) && le(y, z) ==> le(x, z))
  }

  ghost predicate SortedBy<T>(s: seq<T>, le: (T, T) -> bool) {
    forall i, j :: 0 <= i < j < |s| ==> le(s[i], s[j])
  }

  function Insert<T>(x: T, s: seq<T>, le: (T, T) -> bool): (r: seq<T>)
    ensures |r| == |s| + 1
    ensures multiset(r) == multiset(s) + multiset{x}
  {
    if s == [] || le(x, s[0]) then [x] + s
    else
      assert s == [s[0]] + s[1..];
      [s[0]] + Insert(x, s[1..], le)
  }

  /** The stable library sort: an element is placed before the first later one it does not exceed. */
  function StableSort<T>(s: seq<T>, le: (T, T) -> bool): (r: seq<T>)
    ensures |r| == |s|
    ensures multiset(r) == multiset(s)
  {
    if s == [] then []
    else
      assert s == [s[0]] + s[1..];
      Insert(s[0], StableSort(s[1..], le), le)
  }

  lemma SameElements<T(!new)>(a: seq<T>, b: seq<T>)
    requires multiset(a) == multiset(b)
    ensures forall x :: x in a <==> x in b
  {
    forall x ensures x in a <==> x in b {
      assert x in a <==> x in multiset(a);
      assert x in b <==> x in multiset(b);
    }
  }

  lemma {:induction false} InsertSorted<T(!new)>(x: T, s: seq<T>, le: (T, T) -> bool)
    requires TotalPreorder(le) && SortedBy(s, le)
    ensures SortedBy(Insert(x, s, le), le)
  {
    if s == [] || le(x, s[0]) {
    } else {
      InsertSorted(x, s[1..], le);
      var rest := Insert(x, s[1..], le);
      assert s == [s[0]] + s[1..];
      forall j | 0 <= j < |rest| ensures le(s[0], rest[j]) {
        assert rest[j] in multiset(rest);
        assert rest[j] == x || rest[j] in s[1..];
      }
    }
  }

  lemma {:induction false} StableSortSorted<T(!new)>(s: seq<T>, le: (T, T) -> bool)
    requires TotalPreorder(le)
    ensures SortedBy(StableSort(s, le), le)
    ensures forall x :: x in StableSort(s, le) <==> x in s
  {
    SameElements(StableSort(s, le), s);
    if s != [] {
      StableSortSorted(s[1..], le);
      InsertSorted(s[0], StableSort(s[1..], le), le);
    }
  }

  ghost predicate AgreeOn<T>(s: seq<T>, le: (T, T) -> bool, ge: (T, T) -> bool) {
    forall i, j :: 0 <= i < |s| && 0 <= j < |s| ==> le(s[i], s[j]) == ge(s[i], s[j])
  }

  /** Two comparators that agree on the elements sort them alike. */
  lemma {:induction false} StableSortCongruent<T(!new)>(s: seq<T>, le: (T, T) -> bool, ge: (T, T) -> bool)
    requires AgreeOn(s, le, ge)
    ensures StableSort(s, le) == StableSort(s, ge)
  {
    if s != [] {
      var tail := s[1..];
      assert AgreeOn(tail, le, ge) by {
        assert forall i :: 0 <= i < |tail| ==> tail[i] == s[i + 1];
      }
      StableSortCongruent(tail, le, ge);
      var rest := StableSort(tail, le);
      forall k | 0 <= k < |rest| ensures le(s[0], rest[k]) == ge(s[0], rest[k]) {
        SameElements(rest, tail);
        assert rest[k] in rest;
        assert rest[k] in tail;
        var i :| 0 <= i < |tail| && tail[i] == rest[k];
        assert tail[i] == s[i + 1];
      }
      InsertCongruent(s[0], rest, le, ge);
    }
  }

  lemma {:induction false} InsertCongruent<T>(x: T, s: seq<T>, le: (T, T) -> bool, ge: (T, T) -> bool)
    requires forall k :: 0 <= k < |s| ==> le(x, s[k]) == ge(x, s[k])
    ensures Insert(x, s, le) == Insert(x, s, ge)
  {
    if s != [] {
      InsertCongruent(x, s[1..], le, ge);
    }
  }

  lemma {:induction false} InsertKeepsMapped<T, U>(x: T, s: seq<T>, le: (T, T) -> bool, f: T -> U)
    ensures multiset(Map(Insert(x, s, le), f)) == multiset(Map(s, f)) + multiset{f(x)}
  {
    if s == [] || le(x, s[0]) {
      assert Map([x] + s, f) == [f(x)] + Map(s, f);
    } else {
      InsertKeepsMapped(x, s[1..], le, f);
      assert Map(Insert(x, s, le), f) == [f(s[0])] + Map(Insert(x, s[1..], le), f);
    }
  }

  /** Sorting loses nothing of what is read off the elements. */
  lemma {:induction false} SortKeepsMapped<T, U>(s: seq<T>, le: (T, T) -> bool, f: T -> U)
    ensures multiset(Map(StableSort(s, le), f)) == multiset(Map(s, f))
  {
    if s != [] {
      SortKeepsMapped(s[1..], le, f);
      InsertKeepsMapped(s[0], StableSort(s[1..], le), le, f);
    }
  }

  lemma {:induction false} InsertMapped<T, U>(x: T, s: seq<T>, f: T -> U, le: (T, T) -> bool, ge: (U, U) -> bool)
    requires forall i :: 0 <= i < |s| ==> le(x, s[i]) == ge(f(x), f(s[i]))
    ensures Map(Insert(x, s, le), f) == Insert(f(x), Map(s, f), ge)
  {
    if s != [] {
      InsertMapped(x, s[1..], f, le, ge);
    }
  }

  /** Sorting and then mapping is mapping and then sorting, where the comparators agree through the map. */
  lemma {:induction false} SortMapped<T(!new), U>(s: seq<T>, f: T -> U, le: (T, T) -> bool, ge: (U, U) -> bool)
    requires forall x, y :: x in s && y in s ==> le(x, y) == ge(f(x), f(y))
    ensures Map(StableSort(s, le), f) == StableSort(Map(s, f), ge)
  {
    if s != [] {
      SortMapped(s[1..], f, le, ge);
      var rest := StableSort(s[1..], le);
      SameElements(rest, s[1..]);
      forall k | 0 <= k < |rest| ensures le(s[0], rest[k]) == ge(f(s[0]), f(rest[k])) {
        assert rest[k] in rest;
      }
      InsertMapped(s[0], rest, f, le, ge);
    }
  }

  function SortByKey<T>(s: seq<T>, key: T -> int): (r: seq<T>)
    ensures |r| == |s|
    ensures multiset(r) == multiset(s)
  {
    StableSort(s, (x: T, y: T) => key(x) <= key(y))
  }

  ghost predicate Ascending<T>(s: seq<T>, key: T -> int) {
    forall i, j :: 0 <= i < j < |s| ==> key(s[i]) <= key(s[j])
  }

  lemma SortByKeySorts<T(!new)>(s: seq<T>, key: T -> int)
    ensures Ascending(SortByKey(s, key), key)
    ensures forall x :: x in SortByKey(s, key) <==> x in s
  {
    var le := (x: T, y: T) => key(x) <= key(y);
    assert TotalPreorder(le);
    StableSortSorted(s, le);
    assert SortByKey(s, key) == StableSort(s, le);
    var r := SortByKey(s, key);
    forall i, j | 0 <= i < j < |r| ensures key(r[i]) <= key(r[j]) {
      assert le(r[i], r[j]);
    }
  }

  /** With distinct keys there is one ascending order. */
  lemma {:induction false} AscendingIsUnique<T(!new)>(a: seq<T>, b: seq<T>, key: T -> int)
    requires multiset(a) == multiset(b) && Ascending(b, key)
    requires forall i, j :: 0 <= i < j < |a| ==> key(a[i]) < key(a[j])
    ensures a == b
  {
    assert |a| == |multiset(a)| == |multiset(b)| == |b|;
    if a != [] {
      SameElements(a, b);
      assert a[0] in b && b[0] in a;
      SameTails(a, b);
      AscendingIsUnique(a[1..], b[1..], key);
    }
  }

  lemma SameTails<T>(a: seq<T>, b: seq<T>)
    requires multiset(a) == multiset(b) && a != [] && b != [] && a[0] == b[0]
    ensures multiset(a[1..]) == multiset(b[1..])
    ensures a[1..] == b[1..] ==> a == b
  {
    assert a == [a[0]] + a[1..] && b == [b[0]] + b[1..];
    assert multiset(a[1..]) == multiset(a) - multiset{a[0]};
    assert multiset(b[1..]) == multiset(b) - multiset{b[0]};
  }

  lemma SuffixSnoc<T>(s: seq<T>, x: T, k: nat)
    requires k <= |s|
    ensures (s + [x])[k..] == s[k..] + [x]
  {
  }

  /** A selection of one comes from one place. */
  lemma {:induction false} SingleSource<T(!new)>(s: seq<T>, p: T -> bool, x: T)
    requires Filter(s, p) == [x]
    ensures exists i :: 0 <= i < |s| && s[i] == x && p(x) && forall j :: 0 <= j < |s| && j != i ==> !p(s[j])
  {
    if p(s[0]) {
      assert x == s[0];
      var rest := Filter(s[1..], p);
      assert rest == Filter(s, p)[1..] == [];
      forall j | 0 < j < |s| ensures !p(s[j]) {
        assert s[1..][j - 1] in s[1..];
      }
      assert s[0] == x;
    } else {
      SingleSource(s[1..], p, x);
      var i :| 0 <= i < |s| - 1 && s[1..][i] == x && p(x) && forall j :: 0 <= j < |s| - 1 && j != i ==> !p(s[1..][j]);
      forall j | 0 <= j < |s| && j != i + 1 ensures !p(s[j]) {
        if j > 0 { assert s[j] == s[1..][j - 1]; }
      }
      assert s[i + 1] == x;
    }
  }
}

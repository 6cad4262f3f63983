/**
  `Array.prototype.sort` with a comparator, which ECMAScript requires to be
  stable: a total preorder `le` (the comparator's "not after"), an insertion
  sort that realises it, and the three facts a caller relies on — the result
  is ordered, is a permutation of the input, and keeps the input order among
  elements the comparator calls equal.
*/
module StableSort {
  import opened Common

  /** The comparator is consistent: any two elements compare, and the order
      is transitive. */
  ghost predicate TotalPreorder<T(!new)>(le: (T, T) -> bool)
  {
    (forall a, b :: le(a, b) || le(b, a)) &&
    (forall a, b, c :: le(a, b) && le(b, c) ==> le(a, c))
  }

  predicate SortedBy<T>(s: seq<T>, le: (T, T) -> bool)
  {
    forall i, j :: 0 <= i < j < |s| ==> le(s[i], s[j])
  }

  /** Elements the comparator cannot tell apart from `z`. */
  predicate Equiv<T>(le: (T, T) -> bool, z: T, y: T)
  {
    le(y, z) && le(z, y)
  }

  /** Places `x` before the first element it does not come after. */
  function Insert<T>(x: T, s: seq<T>, le: (T, T) -> bool): seq<T>
  {
    if |s| == 0 then [x]
    else if le(x, s[0]) then [x] + s
    else [s[0]] + Insert(x, s[1..], le)
  }

  /** The stable sort of `s` by `le`. */
  function Sort<T>(s: seq<T>, le: (T, T) -> bool): seq<T>
  {
    if |s| == 0 then [] else Insert(s[0], Sort(s[1..], le), le)
  }

  lemma {:induction false} InsertPerm<T>(x: T, s: seq<T>, le: (T, T) -> bool)
    ensures multiset(Insert(x, s, le)) == multiset(s) + multiset{x}
  {
    if |s| > 0 && !le(x, s[0]) {
      InsertPerm(x, s[1..], le);
      assert s == [s[0]] + s[1..];
    }
  }

  lemma {:induction false} InsertSorted<T(!new)>(x: T, s: seq<T>, le: (T, T) -> bool)
    requires TotalPreorder(le) && SortedBy(s, le)
    ensures SortedBy(Insert(x, s, le), le)
  {
    if |s| > 0 && !le(x, s[0]) {
      InsertSorted(x, s[1..], le);
      InsertPerm(x, s[1..], le);
      var r := Insert(x, s[1..], le);
      forall y | y in r
        ensures le(s[0], y)
      {
        assert y in multiset(r);
        if y != x {
          assert y in multiset(s[1..]);
        }
      }
      assert forall j :: 0 <= j < |r| ==> r[j] in r;
    }
  }

  /** The sort's result is ordered by `le`. */
  lemma {:induction false} SortSorted<T(!new)>(s: seq<T>, le: (T, T) -> bool)
    requires TotalPreorder(le)
    ensures SortedBy(Sort(s, le), le)
  {
    if |s| > 0 {
      SortSorted(s[1..], le);
      InsertSorted(s[0], Sort(s[1..], le), le);
    }
  }

  /** The sort's result holds exactly the input's elements. */
  lemma {:induction false} SortPerm<T>(s: seq<T>, le: (T, T) -> bool)
    ensures multiset(Sort(s, le)) == multiset(s)
  {
    if |s| > 0 {
      SortPerm(s[1..], le);
      InsertPerm(s[0], Sort(s[1..], le), le);
      assert s == [s[0]] + s[1..];
    }
  }

  lemma {:induction false} InsertStable<T(!new)>(x: T, s: seq<T>, le: (T, T) -> bool, z: T)
    requires TotalPreorder(le)
    ensures var p := y => Equiv(le, z, y);
      Filter(Insert(x, s, le), p) == (if Equiv(le, z, x) then [x] else []) + Filter(s, p)
  {
    var p := y => Equiv(le, z, y);
    if |s| > 0 {
      if le(x, s[0]) {
        assert ([x] + s)[1..] == s;
      } else {
        InsertStable(x, s[1..], le, z);
        var r := [s[0]] + Insert(x, s[1..], le);
        assert r[1..] == Insert(x, s[1..], le);
        if Equiv(le, z, x) {
          assert !Equiv(le, z, s[0]);
        }
      }
    }
  }

  /** Stability: the elements equivalent to any `z` come out in the order
      they went in. */
  lemma {:induction false} SortStable<T(!new)>(s: seq<T>, le: (T, T) -> bool, z: T)
    requires TotalPreorder(le)
    ensures Filter(Sort(s, le), y => Equiv(le, z, y)) == Filter(s, y => Equiv(le, z, y))
  {
    if |s| > 0 {
      SortStable(s[1..], le, z);
      InsertStable(s[0], Sort(s[1..], le), le, z);
    }
  }

  /** The length is kept. */
  lemma SortLength<T>(s: seq<T>, le: (T, T) -> bool)
    ensures |Sort(s, le)| == |s|
  {
    SortPerm(s, le);
    assert |multiset(Sort(s, le))| == |multiset(s)|;
  }

  /** Every element of the result comes from the input. */
  lemma SortMembers<T>(s: seq<T>, le: (T, T) -> bool)
    ensures forall k :: 0 <= k < |Sort(s, le)| ==> Sort(s, le)[k] in s
  {
    SortPerm(s, le);
    var r := Sort(s, le);
    forall k | 0 <= k < |r|
      ensures r[k] in s
    {
      assert r[k] in multiset(r);
    }
  }

  // ---------------------------------------------------------------------
  // Strings in code-unit order
  // ---------------------------------------------------------------------

  /** `a` does not come after `b` in code-unit order; a prefix comes first. */
  predicate StringLe(a: string, b: string)
  {
    |a| == 0 || (|b| > 0 && (a[0] < b[0] || (a[0] == b[0] && StringLe(a[1..], b[1..]))))
  }

  lemma {:induction false} StringLeTotal(a: string, b: string)
    ensures StringLe(a, b) || StringLe(b, a)
  {
    if |a| > 0 && |b| > 0 && a[0] == b[0] {
      StringLeTotal(a[1..], b[1..]);
    }
  }

  lemma {:induction false} StringLeTrans(a: string, b: string, c: string)
    requires StringLe(a, b) && StringLe(b, c)
    ensures StringLe(a, c)
  {
    if |a| > 0 && a[0] == b[0] && b[0] == c[0] {
      StringLeTrans(a[1..], b[1..], c[1..]);
    }
  }

  lemma StringLeAntisymmetric(a: string, b: string)
    requires StringLe(a, b) && StringLe(b, a)
    ensures a == b
  {
    if |a| > 0 {
      StringLeAntisymmetric(a[1..], b[1..]);
      assert a == [a[0]] + a[1..];
      assert b == [b[0]] + b[1..];
    }
  }

  /** Records compared by a string key in code-unit order. */
  lemma KeyOrderIsPreorder<T(!new)>(key: T -> string, le: (T, T) -> bool)
    requires forall x, y :: le(x, y) == StringLe(key(x), key(y))
    ensures TotalPreorder(le)
  {
    forall x, y
      ensures le(x, y) || le(y, x)
    {
      StringLeTotal(key(x), key(y));
    }
    forall x, y, z | le(x, y) && le(y, z)
      ensures le(x, z)
    {
      StringLeTrans(key(x), key(y), key(z));
    }
  }
}

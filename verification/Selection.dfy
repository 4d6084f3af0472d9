/**
 The placement key (latency rank, players, server id), stable sorting by it and
 first-minimum selection, with the laws that relate the two.
 */
module Selection {
  import opened Wrappers

  /** Lexicographic order on strings, by code point. */
  predicate StringLeq(a: string, b: string)
  {
    a == [] || (b != [] && (a[0] < b[0] || (a[0] == b[0] && StringLeq(a[1..], b[1..]))))
  }

  lemma {:induction false} StringTotal(a: string, b: string)
    ensures StringLeq(a, b) || StringLeq(b, a)
    ensures StringLeq(a, b) && StringLeq(b, a) ==> a == b
  {
    if a != [] && b != [] {
      StringTotal(a[1..], b[1..]);
      assert a == [a[0]] + a[1..] && b == [b[0]] + b[1..];
    }
  }

  lemma {:induction false} StringTransitive(a: string, b: string, c: string)
    requires StringLeq(a, b) && StringLeq(b, c)
    ensures StringLeq(a, c)
  {
    if a != [] && a[0] == b[0] == c[0] {
      StringTransitive(a[1..], b[1..], c[1..]);
    }
  }

  /** The first string is a prefix of the second, or smaller where the two first differ. */
  ghost predicate NotAfter(a: string, b: string)
  {
    a <= b || exists i :: SmallerAt(a, b, i)
  }

  predicate SmallerAt(a: string, b: string, i: nat)
  {
    i < |a| && i < |b| && a[..i] == b[..i] && a[i] < b[i]
  }

  lemma {:induction false} LexicographicOrder(a: string, b: string)
    ensures StringLeq(a, b) <==> NotAfter(a, b)
  {
    if a != [] && b != [] {
      LexicographicOrder(a[1..], b[1..]);
      if a[0] < b[0] {
        assert SmallerAt(a, b, 0);
      } else if a[0] == b[0] {
        SmallerInRest(a, b);
      }
    }
  }

  lemma SmallerInRest(a: string, b: string)
    requires a != [] && b != [] && a[0] == b[0]
    ensures NotAfter(a, b) <==> NotAfter(a[1..], b[1..])
  {
    assert a == [a[0]] + a[1..] && b == [b[0]] + b[1..];
    if i: nat :| SmallerAt(a, b, i) {
      assert a[1..][..i - 1] == a[..i][1..] && b[1..][..i - 1] == b[..i][1..];
      assert SmallerAt(a[1..], b[1..], i - 1);
    }
    if i: nat :| SmallerAt(a[1..], b[1..], i) {
      assert a[..i + 1] == [a[0]] + a[1..][..i] && b[..i + 1] == [b[0]] + b[1..][..i];
      assert SmallerAt(a, b, i + 1);
    }
  }

  datatype Key = Key(rank: nat, players: nat, id: string)

  predicate KeyLeq(a: Key, b: Key)
  {
    a.rank < b.rank ||
    (a.rank == b.rank && (a.players < b.players || (a.players == b.players && StringLeq(a.id, b.id))))
  }

  lemma KeyTotal(a: Key, b: Key)
    ensures KeyLeq(a, b) || KeyLeq(b, a)
    ensures KeyLeq(a, b) && KeyLeq(b, a) ==> a == b
  {
    StringTotal(a.id, b.id);
  }

  lemma KeyTransitive(a: Key, b: Key, c: Key)
    requires KeyLeq(a, b) && KeyLeq(b, c)
    ensures KeyLeq(a, c)
  {
    if a.rank == b.rank == c.rank && a.players == b.players == c.players {
      StringTransitive(a.id, b.id, c.id);
    }
  }

  // Stable sorting.

  function InsertBy<T>(x: T, s: seq<T>, key: T -> Key): seq<T>
  {
    if s == [] || KeyLeq(key(x), key(s[0])) then [x] + s
    else [s[0]] + InsertBy(x, s[1..], key)
  }

  /** Stable sort: elements with equal keys keep their order. */
  function SortBy<T>(s: seq<T>, key: T -> Key): seq<T>
  {
    if s == [] then [] else InsertBy(s[0], SortBy(s[1..], key), key)
  }

  predicate Sorted<T>(s: seq<T>, key: T -> Key)
  {
    forall i, j | 0 <= i < j < |s| :: KeyLeq(key(s[i]), key(s[j]))
  }

  lemma {:induction false} InsertSorted<T>(x: T, s: seq<T>, key: T -> Key)
    requires Sorted(s, key)
    ensures multiset(InsertBy(x, s, key)) == multiset{x} + multiset(s)
    ensures Sorted(InsertBy(x, s, key), key)
  {
    var r := InsertBy(x, s, key);
    if s == [] {
    } else if KeyLeq(key(x), key(s[0])) {
      forall i, j | 0 <= i < j < |r|
        ensures KeyLeq(key(r[i]), key(r[j]))
      {
        if i == 0 && j > 1 {
          KeyTransitive(key(x), key(s[0]), key(s[j - 1]));
        }
      }
    } else {
      KeyTotal(key(x), key(s[0]));
      var t := InsertBy(x, s[1..], key);
      InsertSorted(x, s[1..], key);
      assert s == [s[0]] + s[1..];
      forall j | 0 <= j < |t|
        ensures KeyLeq(key(s[0]), key(t[j]))
      {
        assert t[j] in multiset(t);
        assert t[j] == x || t[j] in s[1..];
      }
    }
  }

  lemma {:induction false} SortIsSorted<T>(s: seq<T>, key: T -> Key)
    ensures multiset(SortBy(s, key)) == multiset(s)
    ensures Sorted(SortBy(s, key), key)
  {
    if s != [] {
      SortIsSorted(s[1..], key);
      InsertSorted(s[0], SortBy(s[1..], key), key);
      assert s == [s[0]] + s[1..];
    }
  }

  lemma {:induction false} FilterInsert<T>(x: T, s: seq<T>, key: T -> Key, p: T -> bool)
    requires Sorted(s, key)
    ensures Filter(InsertBy(x, s, key), p) ==
            if p(x) then InsertBy(x, Filter(s, p), key) else Filter(s, p)
  {
    if s == [] {
    } else if KeyLeq(key(x), key(s[0])) {
      assert ([x] + s)[1..] == s;
      var f := Filter(s, p);
      if f != [] {
        assert f[0] in f;
        var i :| 0 <= i < |s| && s[i] == f[0];
        if i > 0 {
          KeyTransitive(key(x), key(s[0]), key(s[i]));
        }
      }
    } else {
      FilterInsert(x, s[1..], key, p);
      var t := InsertBy(x, s[1..], key);
      assert ([s[0]] + t)[1..] == t;
      if p(s[0]) {
        var f := Filter(s[1..], p);
        assert ([s[0]] + f)[1..] == f;
      } else if p(x) && Filter(s, p) != [] {
        assert Filter(s, p) == Filter(s[1..], p);
      }
    }
  }

  /** Stability: filtering commutes with sorting. */
  lemma {:induction false} FilterSort<T>(s: seq<T>, key: T -> Key, p: T -> bool)
    ensures Filter(SortBy(s, key), p) == SortBy(Filter(s, p), key)
  {
    if s != [] {
      FilterSort(s[1..], key, p);
      SortIsSorted(s[1..], key);
      FilterInsert(s[0], SortBy(s[1..], key), key, p);
      var f := Filter(s[1..], p);
      assert ([s[0]] + f)[1..] == f;
    }
  }

  /** First element with the smallest key. */
  function MinBy<T>(s: seq<T>, key: T -> Key): Option<T>
  {
    if s == [] then None
    else
      var rest := MinBy(s[1..], key);
      if rest.None? || KeyLeq(key(s[0]), key(rest.value)) then Some(s[0]) else rest
  }

  lemma {:induction false} HeadOfSort<T>(s: seq<T>, key: T -> Key)
    ensures Head(SortBy(s, key)) == MinBy(s, key)
  {
    if s != [] {
      HeadOfSort(s[1..], key);
    }
  }

  /** Sort, filter, take the first is the same as filter, take the first minimum. */
  lemma SortFilterFirst<T>(s: seq<T>, key: T -> Key, p: T -> bool)
    ensures Head(Filter(SortBy(s, key), p)) == MinBy(Filter(s, p), key)
  {
    FilterSort(s, key, p);
    HeadOfSort(Filter(s, p), key);
  }

  /** What a minimum means. */
  lemma {:induction false} MinByIsLeast<T>(s: seq<T>, key: T -> Key)
    ensures MinBy(s, key).None? <==> s == []
    ensures MinBy(s, key).Some? ==>
              MinBy(s, key).value in s &&
              forall x | x in s :: KeyLeq(key(MinBy(s, key).value), key(x))
  {
    if s != [] {
      MinByIsLeast(s[1..], key);
      var m := MinBy(s[1..], key);
      KeyTotal(key(s[0]), key(s[0]));
      if m.Some? {
        KeyTotal(key(s[0]), key(m.value));
        forall x | x in s
          ensures KeyLeq(key(MinBy(s, key).value), key(x))
        {
          if x in s[1..] && KeyLeq(key(s[0]), key(m.value)) {
            KeyTransitive(key(s[0]), key(m.value), key(x));
          }
        }
      }
    }
  }

  /** Among least elements the first one wins. */
  lemma FirstOfTies<T>(x: T, rest: seq<T>, key: T -> Key)
    requires forall y | y in rest :: KeyLeq(key(x), key(y))
    ensures MinBy([x] + rest, key) == Some(x)
  {
    MinByIsLeast(rest, key);
    assert ([x] + rest)[1..] == rest;
  }

  lemma {:induction false} MinByMap<T, U>(s: seq<T>, f: T -> U, key: U -> Key, key': T -> Key)
    requires forall x | x in s :: key(f(x)) == key'(x)
    ensures MinBy(Map(s, f), key) ==
            (match MinBy(s, key') case None => None case Some(x) => Some(f(x)))
  {
    if s != [] {
      MinByMap(s[1..], f, key, key');
      assert Map(s, f)[1..] == Map(s[1..], f);
      MinByIsLeast(s[1..], key');
    }
  }

  predicate DistinctKeys<T>(s: seq<T>, key: T -> Key)
  {
    forall i, j | 0 <= i < j < |s| :: key(s[i]) != key(s[j])
  }

  lemma SortedHeads<T>(s: seq<T>, t: seq<T>, key: T -> Key)
    requires Sorted(s, key) && Sorted(t, key) && multiset(s) == multiset(t)
    requires s != [] && t != []
    ensures key(s[0]) == key(t[0])
    ensures t[0] in s
  {
    assert s[0] in multiset(t) && t[0] in multiset(s);
    var i :| 0 <= i < |t| && t[i] == s[0];
    var j :| 0 <= j < |s| && s[j] == t[0];
    KeyTotal(key(s[0]), key(s[0]));
    KeyTotal(key(t[0]), key(t[0]));
    KeyTotal(key(s[0]), key(t[0]));
  }

  lemma TailsPermute<T>(s: seq<T>, t: seq<T>)
    requires multiset(s) == multiset(t) && s != [] && t != [] && s[0] == t[0]
    ensures multiset(s[1..]) == multiset(t[1..])
  {
    assert s == [s[0]] + s[1..] && t == [t[0]] + t[1..];
    assert multiset(s[1..]) == multiset(s) - multiset{s[0]};
  }

  lemma {:induction false} SortedUnique<T>(s: seq<T>, t: seq<T>, key: T -> Key)
    requires Sorted(s, key) && Sorted(t, key) && multiset(s) == multiset(t)
    requires DistinctKeys(s, key)
    ensures s == t
  {
    assert |multiset(s)| == |s| && |multiset(t)| == |t|;
    if s != [] {
      SortedHeads(s, t, key);
      assert s[0] == t[0];
      TailsPermute(s, t);
      SortedUnique(s[1..], t[1..], key);
      assert s == [s[0]] + s[1..] && t == [t[0]] + t[1..];
    }
  }

  lemma DistinctKeysPermute<T>(s: seq<T>, t: seq<T>, key: T -> Key)
    requires multiset(s) == multiset(t) && DistinctKeys(s, key)
    ensures DistinctKeys(t, key)
  {
    forall i, j | 0 <= i < j < |t|
      ensures key(t[i]) != key(t[j])
    {
      if key(t[i]) == key(t[j]) {
        assert t[i] in multiset(s) && t[j] in multiset(s);
        var a :| 0 <= a < |s| && s[a] == t[i];
        var b :| 0 <= b < |s| && s[b] == t[j];
        assert a == b;
        NoDupMultiset(t);
        assert !NoDup(t);
        NoDupMultiset(s);
        assert NoDup(s);
      }
    }
  }

  /** With distinct keys, sorting forgets the input order. */
  lemma SortPermutation<T>(s: seq<T>, t: seq<T>, key: T -> Key)
    requires multiset(s) == multiset(t) && DistinctKeys(s, key)
    ensures SortBy(s, key) == SortBy(t, key)
  {
    SortIsSorted(s, key);
    SortIsSorted(t, key);
    DistinctKeysPermute(s, SortBy(s, key), key);
    SortedUnique(SortBy(s, key), SortBy(t, key), key);
  }

  lemma {:induction false} FilterDistinct<T>(s: seq<T>, p: T -> bool, key: T -> Key)
    requires DistinctKeys(s, key)
    ensures DistinctKeys(Filter(s, p), key)
  {
    if s != [] {
      FilterDistinct(s[1..], p, key);
      forall x | x in Filter(s[1..], p)
        ensures key(x) != key(s[0])
      {
        assert x in s[1..];
      }
    }
  }

  lemma {:induction false} InsertKeyExt<T>(x: T, s: seq<T>, key: T -> Key, key': T -> Key)
    requires forall y :: key(y) == key'(y)
    ensures InsertBy(x, s, key) == InsertBy(x, s, key')
  {
    if s != [] {
      InsertKeyExt(x, s[1..], key, key');
    }
  }

  lemma {:induction false} SortKeyExt<T>(s: seq<T>, key: T -> Key, key': T -> Key)
    requires forall y :: key(y) == key'(y)
    ensures SortBy(s, key) == SortBy(s, key')
  {
    if s != [] {
      SortKeyExt(s[1..], key, key');
      InsertKeyExt(s[0], SortBy(s[1..], key), key, key');
    }
  }

  lemma {:induction false} MinKeyExt<T>(s: seq<T>, key: T -> Key, key': T -> Key)
    requires forall y :: key(y) == key'(y)
    ensures MinBy(s, key) == MinBy(s, key')
  {
    if s != [] {
      MinKeyExt(s[1..], key, key');
    }
  }
}

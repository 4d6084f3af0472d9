/** Optional values, results and small sequence helpers shared by the components. */
module Wrappers {

  datatype Option<+T> = None | Some(value: T)

  datatype Result<+T, +E> = Ok(value: T) | Err(error: E)

  type u32 = n: int | 0 <= n < 0x1_0000_0000

  function Head<T>(s: seq<T>): Option<T>
  {
    if s == [] then None else Some(s[0])
  }

  function Filter<T>(s: seq<T>, p: T -> bool): (r: seq<T>)
    ensures forall x | x in r :: x in s && p(x)
    ensures forall x | x in s && p(x) :: x in r
  {
    if s == [] then []
    else if p(s[0]) then [s[0]] + Filter(s[1..], p)
    else Filter(s[1..], p)
  }

  function Map<T, U>(s: seq<T>, f: T -> U): (r: seq<U>)
    ensures |r| == |s|
    ensures forall i | 0 <= i < |s| :: r[i] == f(s[i])
  {
    seq(|s|, i requires 0 <= i < |s| => f(s[i]))
  }

  predicate NoDup<T(==)>(s: seq<T>)
  {
    forall i, j | 0 <= i < j < |s| :: s[i] != s[j]
  }

  /** Moving one element across the middle of a sequence. */
  lemma TakeNext<T>(s: seq<T>, i: nat)
    requires i < |s|
    ensures s[..i + 1] == s[..i] + [s[i]] && s[i..] == [s[i]] + s[i + 1..]
    ensures NoDup(s) ==> s[i] !in s[..i] && s[i] !in s[i + 1..]
    ensures s[i] in s
  {
  }

  lemma BringForward<T>(s: seq<T>, i: nat)
    requires i < |s|
    ensures multiset([s[i]] + (s[..i] + s[i + 1..])) == multiset(s)
  {
    assert s == s[..i] + [s[i]] + s[i + 1..];
  }

  lemma {:induction false} FilterExt<T>(s: seq<T>, p: T -> bool, q: T -> bool)
    requires forall x | x in s :: p(x) == q(x)
    ensures Filter(s, p) == Filter(s, q)
  {
    if s != [] {
      FilterExt(s[1..], p, q);
    }
  }

  lemma {:induction false} FirstSatisfying<T>(s: seq<T>, p: T -> bool, i: nat)
    requires i < |s| && p(s[i]) && forall k | 0 <= k < i :: !p(s[k])
    ensures Head(Filter(s, p)) == Some(s[i])
  {
    if i > 0 {
      FirstSatisfying(s[1..], p, i - 1);
    }
  }

  lemma {:induction false} NoneSatisfying<T>(s: seq<T>, p: T -> bool)
    requires forall x | x in s :: !p(x)
    ensures Filter(s, p) == []
  {
    if s != [] {
      NoneSatisfying(s[1..], p);
    }
  }

  function Both<T>(p: T -> bool, q: T -> bool): T -> bool
  {
    x => p(x) && q(x)
  }

  function Compose<T, U, V>(g: U -> V, f: T -> U): T -> V
  {
    x => g(f(x))
  }

  lemma {:induction false} FilterFilter<T>(s: seq<T>, p: T -> bool, q: T -> bool)
    ensures Filter(Filter(s, p), q) == Filter(s, Both(p, q))
  {
    if s != [] {
      FilterFilter(s[1..], p, q);
      if p(s[0]) {
        var rest := Filter(s[1..], p);
        assert ([s[0]] + rest)[1..] == rest;
      }
    }
  }

  lemma {:induction false} FilterAll<T>(s: seq<T>, p: T -> bool)
    requires forall x | x in s :: p(x)
    ensures Filter(s, p) == s
  {
    if s != [] {
      FilterAll(s[1..], p);
    }
  }

  lemma {:induction false} FilterAppend<T>(s: seq<T>, t: seq<T>, p: T -> bool)
    ensures Filter(s + t, p) == Filter(s, p) + Filter(t, p)
  {
    if s == [] {
      assert s + t == t;
    } else {
      assert (s + t)[0] == s[0] && (s + t)[1..] == s[1..] + t;
      FilterAppend(s[1..], t, p);
      if p(s[0]) {
        var rest, more := Filter(s[1..], p), Filter(t, p);
        assert [s[0]] + (rest + more) == ([s[0]] + rest) + more;
      }
    }
  }

  lemma {:induction false} FilterKeepsDistinct<T>(s: seq<T>, p: T -> bool)
    requires NoDup(s)
    ensures NoDup(Filter(s, p)) && forall x | x in Filter(s, p) :: x in s
  {
    if s != [] {
      FilterKeepsDistinct(s[1..], p);
      assert s[0] !in s[1..];
    }
  }

  lemma FilterTake<T>(s: seq<T>, i: nat, p: T -> bool)
    requires i < |s|
    ensures Filter(s[..i + 1], p) == Filter(s[..i], p) + if p(s[i]) then [s[i]] else []
  {
    FilterAppend(s[..i], [s[i]], p);
    assert s[..i + 1] == s[..i] + [s[i]];
    assert [s[i]][1..] == [];
  }

  lemma {:induction false} FilterMap<T, U>(s: seq<T>, f: T -> U, p: U -> bool)
    ensures Filter(Map(s, f), p) == Map(Filter(s, Compose(p, f)), f)
  {
    if s != [] {
      FilterMap(s[1..], f, p);
      assert Map(s, f)[1..] == Map(s[1..], f);
    }
  }

  lemma {:induction false} FilterMultiset<T>(s: seq<T>, p: T -> bool)
    ensures multiset(Filter(s, p)) <= multiset(s)
  {
    if s != [] {
      FilterMultiset(s[1..], p);
      assert s == [s[0]] + s[1..];
    }
  }

  lemma {:induction false} NoDupMultiset<T>(s: seq<T>)
    ensures NoDup(s) <==> forall x | x in s :: multiset(s)[x] == 1
  {
    if s != [] {
      NoDupMultiset(s[1..]);
      assert s == [s[0]] + s[1..];
      var t := s[1..];
      assert multiset(s) == multiset{s[0]} + multiset(t);
      if NoDup(s) {
        assert s[0] !in t;
        assert NoDup(t);
      } else if NoDup(t) {
        var i, j :| 0 <= i < j < |s| && s[i] == s[j];
        assert s[j] == t[j - 1];
        assert s == [s[0]] + t;
        assert i == 0;
        assert multiset(s)[s[0]] >= 2;
      } else {
        var x :| x in t && multiset(t)[x] != 1;
        assert x in s;
      }
    }
  }
}

/** Order-preserving sequence operations the pipeline's table manipulations are built from:
    a boolean-mask selection (`Filter`) and a concatenation of tables (`Flatten`). */
module Seqs {

  /** The elements of `s` that satisfy `p`, in their original order. */
  function Filter<T>(s: seq<T>, p: T -> bool): seq<T>
  {
    if s == [] then [] else (if p(s[0]) then [s[0]] else []) + Filter(s[1..], p)
  }

  /** The concatenation of a list of tables, in list order (`pd.concat`). */
  function Flatten<T>(ss: seq<seq<T>>): seq<T>
  {
    if ss == [] then [] else ss[0] + Flatten(ss[1..])
  }

  /** `r` is obtained from `s` by deleting elements, keeping the order of the rest. */
  ghost predicate Subsequence<T>(r: seq<T>, s: seq<T>)
    decreases |s|
  {
    if r == [] then true
    else if s == [] then false
    else (r[0] == s[0] && Subsequence(r[1..], s[1..])) || Subsequence(r, s[1..])
  }

  lemma {:induction false} FilterAppend<T>(a: seq<T>, b: seq<T>, p: T -> bool)
    ensures Filter(a + b, p) == Filter(a, p) + Filter(b, p)
  {
    if a == [] {
      assert a + b == b;
    } else {
      assert (a + b)[0] == a[0];
      assert (a + b)[1..] == a[1..] + b;
      FilterAppend(a[1..], b, p);
      if p(a[0]) {
        calc {
          Filter(a + b, p);
          [a[0]] + Filter(a[1..] + b, p);
          [a[0]] + (Filter(a[1..], p) + Filter(b, p));
          ([a[0]] + Filter(a[1..], p)) + Filter(b, p);
        }
      }
    }
  }

  lemma {:induction false} FilterMembership<T>(s: seq<T>, p: T -> bool, x: T)
    ensures x in Filter(s, p) <==> x in s && p(x)
  {
    if s != [] {
      FilterMembership(s[1..], p, x);
      assert s == [s[0]] + s[1..];
    }
  }

  /** Selection keeps every copy of a selected element and no copy of any other. */
  lemma {:induction false} FilterCount<T>(s: seq<T>, p: T -> bool, x: T)
    ensures multiset(Filter(s, p))[x] == if p(x) then multiset(s)[x] else 0
  {
    if s != [] {
      FilterCount(s[1..], p, x);
      assert s == [s[0]] + s[1..];
    }
  }

  lemma {:induction false} FilterIsSubsequence<T>(s: seq<T>, p: T -> bool)
    ensures Subsequence(Filter(s, p), s)
  {
    if s != [] {
      FilterIsSubsequence(s[1..], p);
      if p(s[0]) {
        assert Filter(s, p) == [s[0]] + Filter(s[1..], p);
        assert Filter(s, p)[1..] == Filter(s[1..], p);
      } else {
        assert Filter(s, p) == Filter(s[1..], p);
        SubsequenceOfTail(Filter(s, p), s);
      }
    }
  }

  lemma SubsequenceOfTail<T>(r: seq<T>, s: seq<T>)
    requires s != [] && Subsequence(r, s[1..])
    ensures Subsequence(r, s)
  {
  }

  /** A subsequence of `s` made only of elements satisfying `p` is no longer than `Filter(s, p)`. */
  lemma {:induction false} SubsequenceBound<T>(r: seq<T>, s: seq<T>, p: T -> bool)
    requires Subsequence(r, s)
    requires forall k :: 0 <= k < |r| ==> p(r[k])
    ensures |r| <= |Filter(s, p)|
    decreases |s|
  {
    if r != [] {
      assert s != [];
      if r[0] == s[0] && Subsequence(r[1..], s[1..]) {
        SubsequenceBound(r[1..], s[1..], p);
      } else {
        SubsequenceBound(r, s[1..], p);
      }
    }
  }

  /** `Filter(s, p)` is the only subsequence of `s` that keeps as many elements as it does and
      only elements satisfying `p`: "the order-preserving subsequence of the selected elements"
      pins the result down. */
  lemma {:induction false} FilterUnique<T>(r: seq<T>, s: seq<T>, p: T -> bool)
    requires Subsequence(r, s)
    requires forall k :: 0 <= k < |r| ==> p(r[k])
    requires |r| == |Filter(s, p)|
    ensures r == Filter(s, p)
    decreases |s|
  {
    if r == [] {
    } else {
      assert s != [];
      if p(s[0]) {
        if r[0] == s[0] && Subsequence(r[1..], s[1..]) {
          FilterUnique(r[1..], s[1..], p);
          assert r == [r[0]] + r[1..];
        } else {
          SubsequenceBound(r, s[1..], p);
          assert false;
        }
      } else {
        assert !(r[0] == s[0]);
        FilterUnique(r, s[1..], p);
      }
    }
  }

  /** Selecting with `p` and then with `q` is selecting once with their conjunction. */
  lemma {:induction false} FilterFilter<T>(s: seq<T>, p: T -> bool, q: T -> bool, pq: T -> bool)
    requires forall x :: pq(x) == (p(x) && q(x))
    ensures Filter(Filter(s, p), q) == Filter(s, pq)
  {
    if s != [] {
      FilterFilter(s[1..], p, q, pq);
      if p(s[0]) {
        assert Filter(s, p) == [s[0]] + Filter(s[1..], p);
        FilterAppend([s[0]], Filter(s[1..], p), q);
        assert [s[0]][1..] == [];
      } else {
        assert Filter(s, p) == Filter(s[1..], p);
      }
    }
  }

  /** Selections by two tests that agree everywhere are equal. */
  lemma {:induction false} FilterSame<T>(s: seq<T>, p: T -> bool, q: T -> bool)
    requires forall x :: p(x) == q(x)
    ensures Filter(s, p) == Filter(s, q)
  {
    if s != [] {
      FilterSame(s[1..], p, q);
    }
  }

  lemma {:induction false} FilterKeepsAll<T>(s: seq<T>, p: T -> bool)
    requires forall k :: 0 <= k < |s| ==> p(s[k])
    ensures Filter(s, p) == s
  {
    if s != [] {
      FilterKeepsAll(s[1..], p);
    }
  }

  lemma {:induction false} FlattenAppend<T>(a: seq<seq<T>>, b: seq<seq<T>>)
    ensures Flatten(a + b) == Flatten(a) + Flatten(b)
  {
    if a == [] {
      assert a + b == b;
    } else {
      assert (a + b)[0] == a[0];
      assert (a + b)[1..] == a[1..] + b;
      FlattenAppend(a[1..], b);
    }
  }

  lemma FlattenSnoc<T>(a: seq<seq<T>>, x: seq<T>)
    ensures Flatten(a + [x]) == Flatten(a) + x
  {
    FlattenAppend(a, [x]);
    assert Flatten([x]) == x + Flatten([x][1..]);
  }

  /** `m * k` as `k` repeated additions of `m`: the counting lemmas use it so that their
      inductions stay within linear arithmetic. */
  function Times(m: nat, k: nat): nat
  {
    if k == 0 then 0 else Times(m, k - 1) + m
  }

  lemma {:induction false} TimesAdd(m: nat, c: nat, d: nat)
    ensures Times(m, c + d) == Times(m, c) + Times(m, d)
  {
    if d > 0 {
      TimesAdd(m, c, d - 1);
    }
  }

  lemma {:induction false} TimesIsProduct(m: nat, k: nat)
    ensures Times(m, k) == m * k
  {
    if k > 0 {
      TimesIsProduct(m, k - 1);
    }
  }

  /** Counting through a concatenation: when the `j`-th table holds `w` copies of `x` if its key
      is `key` and none otherwise, the concatenation holds `w` copies per occurrence of `key`. */
  lemma {:induction false} FlattenCount<T, K>(ss: seq<seq<T>>, keys: seq<K>, x: T, key: K, w: nat)
    requires |ss| <= |keys|
    requires forall j :: 0 <= j < |ss| ==> multiset(ss[j])[x] == if keys[j] == key then w else 0
    ensures multiset(Flatten(ss))[x] == Times(w, multiset(keys[..|ss|])[key])
  {
    if ss != [] {
      var n := |ss| - 1;
      var c := multiset(keys[..n])[key];
      assert multiset(keys[..n + 1])[key] == c + if keys[n] == key then 1 else 0 by {
        assert keys[..n + 1] == keys[..n] + [keys[n]];
      }
      assert multiset(Flatten(ss))[x] == multiset(Flatten(ss[..n]))[x] + multiset(ss[n])[x] by {
        assert ss == ss[..n] + [ss[n]];
        FlattenSnoc(ss[..n], ss[n]);
      }
      FlattenCount(ss[..n], keys, x, key, w);
    }
  }
}

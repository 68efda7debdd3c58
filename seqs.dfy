/**
 * Sequence and map operations the components use: JavaScript's `filter`,
 * `map` that rewrites the matching elements, `find`, and the sum of a
 * dictionary's entries.  Each comes with the facts the rest of the model needs.
 */
module Seqs {
  import opened Wrappers

  /** `s.filter(p)`: the elements of `s` that satisfy `p`, in their original order. */
  function Filter<T(==,!new)>(p: T -> bool, s: seq<T>): (r: seq<T>)
    ensures |r| <= |s|
    ensures forall x :: x in r <==> x in s && p(x)
    decreases |s|
  {
    if s == [] then []
    else (if p(s[0]) then [s[0]] else []) + Filter(p, s[1..])
  }

  /**
   * `a` is a subsequence of `b`: `a` is `b` with some elements left out, the rest
   * in the same order (decided by matching each element of `a` at its earliest place).
   */
  predicate IsSubsequence<T(==,!new)>(a: seq<T>, b: seq<T>)
    decreases |b|
  {
    if a == [] then true
    else if b == [] then false
    else if a[0] == b[0] then IsSubsequence(a[1..], b[1..])
    else IsSubsequence(a, b[1..])
  }

  /** Filtering keeps relative order. */
  lemma {:induction false} FilterIsSubsequence<T(!new)>(p: T -> bool, s: seq<T>)
    ensures IsSubsequence(Filter(p, s), s)
    decreases |s|
  {
    if s != [] {
      FilterIsSubsequence(p, s[1..]);
      var rest := Filter(p, s[1..]);
      if p(s[0]) {
        assert Filter(p, s) == [s[0]] + rest;
        assert ([s[0]] + rest)[1..] == rest;
      } else {
        assert Filter(p, s) == rest;
        if rest != [] {
          assert rest[0] in rest;
          assert p(rest[0]);
        }
      }
    }
  }

  /** Filtering distributes over concatenation. */
  lemma {:induction false} FilterConcat<T(!new)>(p: T -> bool, a: seq<T>, b: seq<T>)
    ensures Filter(p, a + b) == Filter(p, a) + Filter(p, b)
    decreases |a|
  {
    if a == [] {
      assert a + b == b;
    } else {
      assert (a + b)[0] == a[0];
      assert (a + b)[1..] == a[1..] + b;
      FilterConcat(p, a[1..], b);
    }
  }

  /** Extending a prefix by one element extends its filter by that element when it passes. */
  /** Appending one element extends the filtered list by it exactly when it passes. */
  lemma FilterPush<T(!new)>(p: T -> bool, s: seq<T>, x: T)
    ensures Filter(p, s + [x]) == Filter(p, s) + (if p(x) then [x] else [])
  {
    FilterConcat(p, s, [x]);
    assert Filter(p, [x]) == (if p(x) then [x] else []) + Filter(p, []);
  }

  lemma FilterSnoc<T(!new)>(p: T -> bool, s: seq<T>, i: nat)
    requires i < |s|
    ensures Filter(p, s[..i + 1]) == Filter(p, s[..i]) + (if p(s[i]) then [s[i]] else [])
  {
    assert s[..i + 1] == s[..i] + [s[i]];
    FilterConcat(p, s[..i], [s[i]]);
    assert Filter(p, [s[i]]) == (if p(s[i]) then [s[i]] else []) + Filter(p, []);
  }

  /** A filter whose predicate holds of no element keeps nothing. */
  lemma {:induction false} FilterNone<T(!new)>(p: T -> bool, s: seq<T>)
    requires forall x :: x in s ==> !p(x)
    ensures Filter(p, s) == []
    decreases |s|
  {
    if s != [] {
      assert s[0] in s;
      FilterNone(p, s[1..]);
    }
  }

  /** A filter keeps nothing exactly when its predicate holds of no element. */
  lemma FilterEmptyIff<T(!new)>(p: T -> bool, s: seq<T>)
    ensures Filter(p, s) == [] <==> forall x :: x in s ==> !p(x)
  {
    if forall x :: x in s ==> !p(x) {
      FilterNone(p, s);
    } else {
      var x :| x in s && p(x);
      assert x in Filter(p, s);
    }
  }

  /** A filter whose predicate holds of every element keeps the whole sequence. */
  lemma {:induction false} FilterKeepsAll<T(!new)>(p: T -> bool, s: seq<T>)
    requires forall x :: x in s ==> p(x)
    ensures Filter(p, s) == s
    decreases |s|
  {
    if s != [] {
      assert s[0] in s;
      FilterKeepsAll(p, s[1..]);
      assert [s[0]] + s[1..] == s;
    }
  }

  /** Two predicates that agree on every element filter alike. */
  lemma {:induction false} FilterCongruent<T(!new)>(p: T -> bool, q: T -> bool, s: seq<T>)
    requires forall x :: x in s ==> p(x) == q(x)
    ensures Filter(p, s) == Filter(q, s)
    decreases |s|
  {
    if s != [] {
      assert s[0] in s;
      FilterCongruent(p, q, s[1..]);
    }
  }

  /** Two sequences whose elements pass the predicate at the same positions keep equally many. */
  lemma {:induction false} FilterLengthPointwise<T(!new)>(p: T -> bool, s: seq<T>, t: seq<T>)
    requires |s| == |t|
    requires forall i | 0 <= i < |s| :: p(s[i]) == p(t[i])
    ensures |Filter(p, s)| == |Filter(p, t)|
    decreases |s|
  {
    if s != [] {
      forall i | 0 <= i < |s| - 1 ensures p(s[1..][i]) == p(t[1..][i]) {
        assert s[1..][i] == s[i + 1] && t[1..][i] == t[i + 1];
      }
      FilterLengthPointwise(p, s[1..], t[1..]);
    }
  }

  /** Filtering twice by one predicate is filtering once. */
  lemma FilterIdempotent<T(!new)>(p: T -> bool, s: seq<T>)
    ensures Filter(p, Filter(p, s)) == Filter(p, s)
  {
    FilterKeepsAll(p, Filter(p, s));
  }

  /** Filtering by `p` and then by `q` is filtering once by their conjunction. */
  lemma {:induction false} FilterFilter<T(!new)>(p: T -> bool, q: T -> bool, both: T -> bool, s: seq<T>)
    requires forall x :: both(x) == (p(x) && q(x))
    ensures Filter(q, Filter(p, s)) == Filter(both, s)
    decreases |s|
  {
    if s != [] {
      FilterFilter(p, q, both, s[1..]);
      var rest := Filter(p, s[1..]);
      if p(s[0]) {
        assert Filter(p, s) == [s[0]] + rest;
        FilterConcat(q, [s[0]], rest);
        assert Filter(q, [s[0]]) == (if q(s[0]) then [s[0]] else []) + Filter(q, []);
      } else {
        assert Filter(p, s) == rest;
      }
    }
  }

  /** Two filters commute. */
  lemma FilterCommutes<T(!new)>(p: T -> bool, q: T -> bool, s: seq<T>)
    ensures Filter(q, Filter(p, s)) == Filter(p, Filter(q, s))
  {
    var both := (x: T) => p(x) && q(x);
    FilterFilter(p, q, both, s);
    FilterFilter(q, p, both, s);
  }

  /** What a filter drops and what it keeps: the two counts add up to the length, and the two parts make up the whole. */
  lemma FilterSplits<T(!new)>(p: T -> bool, notP: T -> bool, s: seq<T>)
    requires forall x :: notP(x) == !p(x)
    ensures |Filter(p, s)| + |Filter(notP, s)| == |s|
    ensures multiset(Filter(p, s)) + multiset(Filter(notP, s)) == multiset(s)
  {
    FilterSplitsMultiset(p, notP, s);
    assert |multiset(Filter(p, s)) + multiset(Filter(notP, s))| == |multiset(s)|;
  }

  lemma {:induction false} FilterSplitsMultiset<T(!new)>(p: T -> bool, notP: T -> bool, s: seq<T>)
    requires forall x :: notP(x) == !p(x)
    ensures multiset(Filter(p, s)) + multiset(Filter(notP, s)) == multiset(s)
    decreases |s|
  {
    if s != [] {
      var rest := s[1..];
      FilterSplitsMultiset(p, notP, rest);
      var kept, dropped := Filter(p, rest), Filter(notP, rest);
      assert s == [s[0]] + rest;
      assert multiset(s) == multiset{s[0]} + multiset(rest);
      if p(s[0]) {
        assert Filter(p, s) == [s[0]] + kept;
        assert multiset(Filter(p, s)) == multiset{s[0]} + multiset(kept);
        AddOneToSum(multiset{s[0]}, multiset(kept), multiset(dropped), multiset(rest));
      } else {
        assert Filter(notP, s) == [s[0]] + dropped;
        assert multiset(Filter(notP, s)) == multiset{s[0]} + multiset(dropped);
        AddOneToSum(multiset{s[0]}, multiset(dropped), multiset(kept), multiset(rest));
      }
    }
  }

  lemma AddOneToSum<T>(h: multiset<T>, a: multiset<T>, b: multiset<T>, total: multiset<T>)
    requires a + b == total
    ensures (h + a) + b == h + total && b + (h + a) == h + total
  {
  }

  /** Two predicates no element satisfies together select at most the whole sequence between them. */
  lemma {:induction false} FilterDisjoint<T(!new)>(p: T -> bool, q: T -> bool, s: seq<T>)
    requires forall x :: !(p(x) && q(x))
    ensures |Filter(p, s)| + |Filter(q, s)| <= |s|
    decreases |s|
  {
    if s != [] {
      FilterDisjoint(p, q, s[1..]);
    }
  }

  /** Filtering keeps every occurrence of an element that passes and none of one that fails. */
  lemma {:induction false} FilterMultiset<T(!new)>(p: T -> bool, s: seq<T>, x: T)
    ensures multiset(Filter(p, s))[x] == if p(x) then multiset(s)[x] else 0
    decreases |s|
  {
    if s != [] {
      FilterMultiset(p, s[1..], x);
      assert s == [s[0]] + s[1..];
    }
  }

  /**
   * `s.map(x => hit(x) ? f(x) : x)`: every element that `hit` selects is rewritten
   * by `f`; every other element, and the length, stay as they were.
   */
  function MapWhere<T(==,!new)>(s: seq<T>, hit: T -> bool, f: T -> T): (r: seq<T>)
    ensures |r| == |s|
    ensures forall i | 0 <= i < |s| :: hit(s[i]) ==> r[i] == f(s[i])
    ensures forall i | 0 <= i < |s| :: !hit(s[i]) ==> r[i] == s[i]
    decreases |s|
  {
    if s == [] then []
    else [if hit(s[0]) then f(s[0]) else s[0]] + MapWhere(s[1..], hit, f)
  }

  /** When no element is selected, the rewrite changes nothing. */
  lemma MapWhereNoHit<T(!new)>(s: seq<T>, hit: T -> bool, f: T -> T)
    requires forall x :: x in s ==> !hit(x)
    ensures MapWhere(s, hit, f) == s
  {
    var r := MapWhere(s, hit, f);
    forall i | 0 <= i < |s| ensures r[i] == s[i] {
      assert s[i] in s;
    }
  }

  /**
   * `s.find(hit)`: the first element that `hit` selects, or None when none does.
   */
  function Find<T(==,!new)>(s: seq<T>, hit: T -> bool): (r: Option<T>)
    ensures r.None? <==> forall x :: x in s ==> !hit(x)
    ensures r.Some? ==> r.value in s && hit(r.value)
    ensures r.Some? ==> exists i | 0 <= i < |s| :: s[i] == r.value && forall j | 0 <= j < i :: !hit(s[j])
    decreases |s|
  {
    if s == [] then None
    else if hit(s[0]) then Some(s[0])
    else
      var r := Find(s[1..], hit);
      assert r.Some? ==> exists i | 0 <= i < |s| :: s[i] == r.value && forall j | 0 <= j < i :: !hit(s[j]) by {
        if r.Some? {
          var i :| 0 <= i < |s[1..]| && s[1..][i] == r.value && forall j | 0 <= j < i :: !hit(s[1..][j]);
          assert s[i + 1] == r.value;
          assert forall j | 0 <= j < i + 1 :: !hit(s[j]) by {
            forall j | 0 <= j < i + 1 ensures !hit(s[j]) {
              if j > 0 { assert s[j] == s[1..][j - 1]; }
            }
          }
        }
      }
      r
  }

  /**
   * The sum of `weight` over the entries of a dictionary (the entries are in no order,
   * so a sum is the only fold over them the model needs).
   */
  ghost function SumOf<K, V>(m: map<K, V>, weight: V -> nat): nat
    decreases m.Keys
  {
    if m == map[] then 0
    else
      var k :| k in m.Keys;
      weight(m[k]) + SumOf(m - {k}, weight)
  }

  /** The sum does not depend on which key it takes first. */
  lemma {:induction false} SumOfRemove<K, V>(m: map<K, V>, weight: V -> nat, k: K)
    requires k in m
    ensures SumOf(m, weight) == weight(m[k]) + SumOf(m - {k}, weight)
    decreases m.Keys
  {
    var j :| j in m.Keys && SumOf(m, weight) == weight(m[j]) + SumOf(m - {j}, weight);
    if j != k {
      SumOfRemove(m - {j}, weight, k);
      SumOfRemove(m - {k}, weight, j);
      assert (m - {j}) - {k} == (m - {k}) - {j};
      assert (m - {j})[k] == m[k];
      assert (m - {k})[j] == m[j];
    }
  }

  /** Setting one entry changes the sum by the difference of that entry's weights. */
  lemma SumOfUpdate<K, V>(m: map<K, V>, weight: V -> nat, k: K, v: V)
    ensures SumOf(m[k := v], weight) + (if k in m then weight(m[k]) else 0) == SumOf(m, weight) + weight(v)
  {
    SumOfRemove(m[k := v], weight, k);
    assert m[k := v] - {k} == m - {k};
    if k in m {
      SumOfRemove(m, weight, k);
    } else {
      assert m - {k} == m;
    }
  }
}

/** Sequences as the components use JavaScript arrays: `Array.prototype.map`
    and `Array.prototype.filter` over immutable lists, and the order-preserving
    subsequence relation that a filter produces. */
module Lists {

  /** `xs.map(f)`: one result per element, in order. */
  function Map<T, U>(xs: seq<T>, f: T -> U): (r: seq<U>)
    ensures |r| == |xs|
  {
    if xs == [] then [] else [f(xs[0])] + Map(xs[1..], f)
  }

  /** `xs.filter(keep)`: the elements `keep` accepts, in their original order. */
  function Filter<T>(xs: seq<T>, keep: T -> bool): (r: seq<T>)
    ensures |r| <= |xs|
  {
    if xs == [] then [] else (if keep(xs[0]) then [xs[0]] else []) + Filter(xs[1..], keep)
  }

  /** `sub` is obtained from `xs` by deleting elements, without reordering. */
  predicate IsSubsequence<T(==)>(sub: seq<T>, xs: seq<T>)
    decreases |xs|
  {
    if sub == [] then true
    else if xs == [] then false
    else (sub[0] == xs[0] && IsSubsequence(sub[1..], xs[1..])) || IsSubsequence(sub, xs[1..])
  }

  lemma {:induction false} MapAt<T, U>(xs: seq<T>, f: T -> U, i: nat)
    requires i < |xs|
    ensures Map(xs, f)[i] == f(xs[i])
  {
    if i > 0 {
      MapAt(xs[1..], f, i - 1);
    }
  }

  lemma {:induction false} MapConcat<T, U>(xs: seq<T>, ys: seq<T>, f: T -> U)
    ensures Map(xs + ys, f) == Map(xs, f) + Map(ys, f)
  {
    if xs == [] {
      assert xs + ys == ys;
    } else {
      assert (xs + ys)[0] == xs[0];
      assert (xs + ys)[1..] == xs[1..] + ys;
      MapConcat(xs[1..], ys, f);
    }
  }

  /** Every element of a mapped list is the image of an element of the input. */
  lemma {:induction false} MapMember<T, U>(xs: seq<T>, f: T -> U, y: U)
    requires y in Map(xs, f)
    ensures exists x :: x in xs && f(x) == y
  {
    if y != f(xs[0]) {
      MapMember(xs[1..], f, y);
      var x :| x in xs[1..] && f(x) == y;
      assert x in xs;
    }
  }

  lemma {:induction false} MapHasImage<T, U>(xs: seq<T>, f: T -> U, x: T)
    requires x in xs
    ensures f(x) in Map(xs, f)
  {
    if x != xs[0] {
      MapHasImage(xs[1..], f, x);
    }
  }

  /** A map whose function fixes every element changes nothing. */
  lemma {:induction false} MapIdentity<T>(xs: seq<T>, f: T -> T)
    requires forall i :: 0 <= i < |xs| ==> f(xs[i]) == xs[i]
    ensures Map(xs, f) == xs
  {
    if xs != [] {
      assert forall i :: 0 <= i < |xs[1..]| ==> f(xs[1..][i]) == xs[1..][i] by {
        forall i | 0 <= i < |xs[1..]| ensures f(xs[1..][i]) == xs[1..][i] {
          assert xs[1..][i] == xs[i + 1];
        }
      }
      MapIdentity(xs[1..], f);
    }
  }

  lemma {:induction false} FilterSound<T>(xs: seq<T>, keep: T -> bool, x: T)
    requires x in Filter(xs, keep)
    ensures x in xs && keep(x)
  {
    if xs != [] && !(keep(xs[0]) && x == xs[0]) {
      FilterSound(xs[1..], keep, x);
    }
  }

  lemma {:induction false} FilterComplete<T>(xs: seq<T>, keep: T -> bool, x: T)
    requires x in xs && keep(x)
    ensures x in Filter(xs, keep)
  {
    if x != xs[0] {
      FilterComplete(xs[1..], keep, x);
    }
  }

  /** A filter keeps every copy of an accepted element and no copy of a
      rejected one. */
  lemma {:induction false} FilterMultiset<T>(xs: seq<T>, keep: T -> bool, x: T)
    ensures multiset(Filter(xs, keep))[x] == if keep(x) then multiset(xs)[x] else 0
  {
    if xs != [] {
      FilterMultiset(xs[1..], keep, x);
      assert xs == [xs[0]] + xs[1..];
      assert multiset(xs) == multiset([xs[0]]) + multiset(xs[1..]);
      var head := if keep(xs[0]) then [xs[0]] else [];
      assert multiset(Filter(xs, keep)) == multiset(head) + multiset(Filter(xs[1..], keep));
    }
  }

  /** Filtering distributes over concatenation: the relative order of the
      surviving elements is the order they had in the input. */
  lemma {:induction false} FilterConcat<T>(xs: seq<T>, ys: seq<T>, keep: T -> bool)
    ensures Filter(xs + ys, keep) == Filter(xs, keep) + Filter(ys, keep)
  {
    if xs == [] {
      assert xs + ys == ys;
    } else {
      var head := if keep(xs[0]) then [xs[0]] else [];
      assert (xs + ys)[0] == xs[0];
      assert (xs + ys)[1..] == xs[1..] + ys;
      assert Filter(xs + ys, keep) == head + Filter(xs[1..] + ys, keep);
      assert Filter(xs, keep) == head + Filter(xs[1..], keep);
      FilterConcat(xs[1..], ys, keep);
      assert head + (Filter(xs[1..], keep) + Filter(ys, keep))
          == (head + Filter(xs[1..], keep)) + Filter(ys, keep);
    }
  }

  /** A filter that accepts every element is the identity. */
  lemma {:induction false} FilterKeepsAll<T>(xs: seq<T>, keep: T -> bool)
    requires forall i :: 0 <= i < |xs| ==> keep(xs[i])
    ensures Filter(xs, keep) == xs
  {
    if xs != [] {
      assert keep(xs[0]);
      assert forall i :: 0 <= i < |xs[1..]| ==> keep(xs[1..][i]) by {
        forall i | 0 <= i < |xs[1..]| ensures keep(xs[1..][i]) {
          assert xs[1..][i] == xs[i + 1];
        }
      }
      FilterKeepsAll(xs[1..], keep);
    }
  }

  /** A filter that accepts nothing yields the empty list. */
  lemma {:induction false} FilterKeepsNone<T>(xs: seq<T>, keep: T -> bool)
    requires forall i :: 0 <= i < |xs| ==> !keep(xs[i])
    ensures Filter(xs, keep) == []
  {
    if xs != [] {
      assert !keep(xs[0]);
      assert forall i :: 0 <= i < |xs[1..]| ==> !keep(xs[1..][i]) by {
        forall i | 0 <= i < |xs[1..]| ensures !keep(xs[1..][i]) {
          assert xs[1..][i] == xs[i + 1];
        }
      }
      FilterKeepsNone(xs[1..], keep);
    }
  }

  /** Filtering twice with the same test is filtering once. */
  lemma {:induction false} FilterIdempotent<T>(xs: seq<T>, keep: T -> bool)
    ensures Filter(Filter(xs, keep), keep) == Filter(xs, keep)
  {
    if xs != [] {
      var head := if keep(xs[0]) then [xs[0]] else [];
      FilterConcat(head, Filter(xs[1..], keep), keep);
      assert Filter(head, keep) == head by {
        if keep(xs[0]) {
          assert head[1..] == [];
        }
      }
      FilterIdempotent(xs[1..], keep);
    }
  }

  /** What a filter returns is an order-preserving subsequence of its input. */
  lemma {:induction false} FilterIsSubsequence<T>(xs: seq<T>, keep: T -> bool)
    ensures IsSubsequence(Filter(xs, keep), xs)
  {
    if xs != [] {
      FilterIsSubsequence(xs[1..], keep);
      var rest := Filter(xs[1..], keep);
      if keep(xs[0]) {
        assert Filter(xs, keep) == [xs[0]] + rest;
        assert ([xs[0]] + rest)[1..] == rest;
      } else {
        assert Filter(xs, keep) == rest;
      }
    }
  }
}

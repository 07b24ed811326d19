/** Generic sequence operations the gateway relies on: Rust's `Vec::retain`,
    and the "push one rendered piece per element" loop used by every
    renderer. */
module Seqs {

  /** The elements of `s` that satisfy `keep`, in their original order: the
      vector `Vec::retain(keep)` leaves behind. */
  function Retain<T(==)>(s: seq<T>, keep: T -> bool): (r: seq<T>)
    ensures |r| <= |s|
    ensures forall i :: 0 <= i < |r| ==> keep(r[i])
    ensures forall i :: 0 <= i < |r| ==> r[i] in s
    ensures forall i :: 0 <= i < |s| && keep(s[i]) ==> s[i] in r
  {
    if |s| == 0 then []
    else if keep(s[0]) then [s[0]] + Retain(s[1..], keep)
    else Retain(s[1..], keep)
  }

  /** `a` can be obtained from `b` by deleting elements (order kept). */
  predicate IsSubsequence<T(==)>(a: seq<T>, b: seq<T>)
    decreases |b|
  {
    if |a| == 0 then true
    else if |b| == 0 then false
    else if a[0] == b[0] then IsSubsequence(a[1..], b[1..])
    else IsSubsequence(a, b[1..])
  }

  lemma {:induction false} RetainIsSubsequence<T>(s: seq<T>, keep: T -> bool)
    ensures IsSubsequence(Retain(s, keep), s)
    decreases |s|
  {
    if |s| > 0 {
      RetainIsSubsequence(s[1..], keep);
      var r := Retain(s, keep);
      if keep(s[0]) {
        assert r[0] == s[0] && r[1..] == Retain(s[1..], keep);
      } else if |r| > 0 {
        assert keep(r[0]);
      }
    }
  }

  /** Retaining distributes over concatenation: survivors of `a` come first,
      then survivors of `b`, each group in its own order. */
  lemma {:induction false} RetainAppend<T>(a: seq<T>, b: seq<T>, keep: T -> bool)
    ensures Retain(a + b, keep) == Retain(a, keep) + Retain(b, keep)
    decreases |a|
  {
    if |a| == 0 {
      assert a + b == b;
    } else {
      assert (a + b)[0] == a[0];
      assert (a + b)[1..] == a[1..] + b;
      RetainAppend(a[1..], b, keep);
    }
  }

  /** When every element is kept, nothing changes. */
  lemma {:induction false} RetainAllKept<T>(s: seq<T>, keep: T -> bool)
    requires forall i :: 0 <= i < |s| ==> keep(s[i])
    ensures Retain(s, keep) == s
    decreases |s|
  {
    if |s| > 0 {
      RetainAllKept(s[1..], keep);
      assert [s[0]] + s[1..] == s;
    }
  }

  /** When no element is kept, the result is empty. */
  lemma {:induction false} RetainNoneKept<T>(s: seq<T>, keep: T -> bool)
    requires forall i :: 0 <= i < |s| ==> !keep(s[i])
    ensures Retain(s, keep) == []
    decreases |s|
  {
    if |s| > 0 {
      RetainNoneKept(s[1..], keep);
    }
  }

  /** Retaining twice with the same test is retaining once. */
  lemma RetainIdempotent<T>(s: seq<T>, keep: T -> bool)
    ensures Retain(Retain(s, keep), keep) == Retain(s, keep)
  {
    RetainAllKept(Retain(s, keep), keep);
  }

  /** If exactly the element at index `i` passes, it is the sole survivor. */
  lemma {:induction false} RetainSingle<T>(s: seq<T>, keep: T -> bool, i: nat)
    requires i < |s| && keep(s[i])
    requires forall j :: 0 <= j < |s| && j != i ==> !keep(s[j])
    ensures Retain(s, keep) == [s[i]]
    decreases |s|
  {
    if i == 0 {
      RetainNoneKept(s[1..], keep);
    } else {
      RetainSingle(s[1..], keep, i - 1);
    }
  }

  /** Two distinct passing indices leave at least two survivors. */
  lemma {:induction false} RetainTwo<T>(s: seq<T>, keep: T -> bool, i: nat, j: nat)
    requires i < j < |s| && keep(s[i]) && keep(s[j])
    ensures |Retain(s, keep)| >= 2
    decreases |s|
  {
    if i == 0 {
      assert s[1..][j - 1] in Retain(s[1..], keep);
    } else {
      RetainTwo(s[1..], keep, i - 1, j - 1);
    }
  }

  /** Concatenation of `f(x)` over `xs`, built left to right the way a loop
      of `String::push_str` builds it. */
  function ConcatMap<T>(xs: seq<T>, f: T -> string): string
  {
    if |xs| == 0 then "" else ConcatMap(xs[..|xs| - 1], f) + f(xs[|xs| - 1])
  }

  /** Rendering `a + b` is rendering `a` followed by rendering `b`. */
  lemma {:induction false} ConcatMapAppend<T>(a: seq<T>, b: seq<T>, f: T -> string)
    ensures ConcatMap(a + b, f) == ConcatMap(a, f) + ConcatMap(b, f)
    decreases |b|
  {
    if |b| == 0 {
      assert a + b == a;
    } else {
      var b' := b[..|b| - 1];
      assert (a + b)[..|a + b| - 1] == a + b';
      assert (a + b)[|a + b| - 1] == b[|b| - 1];
      ConcatMapAppend(a, b', f);
    }
  }

  /** The piece of element `i` sits between the rendering of the elements
      before it and the rendering of those after it. */
  lemma {:induction false} ConcatMapAt<T>(xs: seq<T>, f: T -> string, i: nat)
    requires i < |xs|
    ensures ConcatMap(xs, f) == ConcatMap(xs[..i], f) + f(xs[i]) + ConcatMap(xs[i + 1..], f)
  {
    var pre, mid, post := xs[..i], [xs[i]], xs[i + 1..];
    assert xs == (pre + mid) + post;
    ConcatMapAppend(pre + mid, post, f);
    ConcatMapAppend(pre, mid, f);
    assert mid[..0] == [];
    assert ConcatMap(mid, f) == ConcatMap(mid[..0], f) + f(xs[i]);
  }
}

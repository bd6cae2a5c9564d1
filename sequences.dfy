/** Concatenating what a function gives for each element of a sequence, in
    order: the shape of a loop that appends, element after element, the
    items it finds. */
module Sequences {

  /** `f(xs[0]) + f(xs[1]) + ... + f(xs[|xs| - 1])`. */
  function ConcatMap<T, U>(xs: seq<T>, f: T -> seq<U>): seq<U> {
    if xs == [] then [] else ConcatMap(xs[..|xs| - 1], f) + f(xs[|xs| - 1])
  }

  lemma ConcatMapSnoc<T, U>(xs: seq<T>, x: T, f: T -> seq<U>)
    ensures ConcatMap(xs + [x], f) == ConcatMap(xs, f) + f(x)
  {
    assert (xs + [x])[..|xs|] == xs;
  }

  lemma ConcatMapSingleton<T, U>(x: T, f: T -> seq<U>)
    ensures ConcatMap([x], f) == f(x)
  {
    assert [x][..0] == [];
  }

  /** Concatenation distributes over a split of the input. */
  lemma {:induction false} ConcatMapAppend<T, U>(a: seq<T>, b: seq<T>, f: T -> seq<U>)
    ensures ConcatMap(a + b, f) == ConcatMap(a, f) + ConcatMap(b, f)
  {
    if b == [] {
      assert a + b == a;
    } else {
      var b', last := b[..|b| - 1], b[|b| - 1];
      assert b == b' + [last];
      assert a + b == (a + b') + [last];
      ConcatMapSnoc(a + b', last, f);
      ConcatMapSnoc(b', last, f);
      ConcatMapAppend(a, b', f);
    }
  }

  /** Two functions that agree on the elements give the same concatenation. */
  lemma {:induction false} ConcatMapCongruent<T, U>(xs: seq<T>, f: T -> seq<U>, g: T -> seq<U>)
    requires forall j | 0 <= j < |xs| :: f(xs[j]) == g(xs[j])
    ensures ConcatMap(xs, f) == ConcatMap(xs, g)
  {
    if xs != [] {
      var init := xs[..|xs| - 1];
      assert forall j | 0 <= j < |init| :: init[j] == xs[j];
      ConcatMapCongruent(init, f, g);
    }
  }

  /** Elements that contribute nothing give nothing. */
  lemma {:induction false} ConcatMapEmpty<T, U>(xs: seq<T>, f: T -> seq<U>)
    requires forall j | 0 <= j < |xs| :: f(xs[j]) == []
    ensures ConcatMap(xs, f) == []
  {
    if xs != [] {
      var init := xs[..|xs| - 1];
      assert forall j | 0 <= j < |init| :: init[j] == xs[j];
      ConcatMapEmpty(init, f);
    }
  }

  /** An item is in the concatenation exactly when some element contributes it. */
  lemma {:induction false} ConcatMapMember<T, U>(xs: seq<T>, f: T -> seq<U>, v: U)
    ensures v in ConcatMap(xs, f) <==> exists j :: 0 <= j < |xs| && v in f(xs[j])
  {
    if xs != [] {
      var init, last := xs[..|xs| - 1], xs[|xs| - 1];
      ConcatMapMember(init, f, v);
      if v in ConcatMap(xs, f) {
        if v in ConcatMap(init, f) {
          var j :| 0 <= j < |init| && v in f(init[j]);
          assert xs[j] == init[j];
        } else {
          assert v in f(xs[|xs| - 1]);
        }
      } else {
        forall j | 0 <= j < |xs| ensures v !in f(xs[j]) {
          if j < |init| {
            assert xs[j] == init[j];
          }
        }
      }
    }
  }

  /** Runs of elements that contribute nothing drop out: only `a`, `b` and
      `c` are left of `[a, b] + mid + [c] + rest`. */
  lemma ConcatMapSkipsEmptyRuns<T, U>(a: T, b: T, mid: seq<T>, c: T, rest: seq<T>, f: T -> seq<U>)
    requires ConcatMap(mid, f) == [] && ConcatMap(rest, f) == []
    ensures ConcatMap([a, b] + mid + [c] + rest, f) == f(a) + f(b) + f(c)
  {
    ConcatMapSingleton(a, f);
    ConcatMapSnoc([a], b, f);
    assert [a] + [b] == [a, b];
    ConcatMapAppend([a, b], mid, f);
    ConcatMapSnoc([a, b] + mid, c, f);
    ConcatMapAppend([a, b] + mid + [c], rest, f);
  }
}

/** Sequences taken element by element: the state a step function leads to, and how two of them compare. */
module Folds {
  function Fold<S, A>(f: (S, A) -> S, s: S, xs: seq<A>): S {
    if xs == [] then s else f(Fold(f, s, xs[..|xs| - 1]), xs[|xs| - 1])
  }

  function Map<A, B>(f: A -> B, xs: seq<A>): (ys: seq<B>)
    ensures |ys| == |xs| && forall i :: 0 <= i < |xs| ==> ys[i] == f(xs[i])
  {
    seq(|xs|, i requires 0 <= i < |xs| => f(xs[i]))
  }

  lemma MapSplit<A, B>(f: A -> B, xs: seq<A>, n: nat)
    requires n <= |xs|
    ensures Map(f, xs)[..n] == Map(f, xs[..n]) && Map(f, xs)[n..] == Map(f, xs[n..])
  {
  }

  lemma FoldOneMore<S, A>(f: (S, A) -> S, s: S, xs: seq<A>, x: A)
    ensures Fold(f, s, xs + [x]) == f(Fold(f, s, xs), x)
  {
    assert (xs + [x])[..|xs|] == xs;
  }

  lemma FoldPrefix<S, A>(f: (S, A) -> S, s: S, xs: seq<A>, i: nat)
    requires i < |xs|
    ensures Fold(f, s, xs[..i + 1]) == f(Fold(f, s, xs[..i]), xs[i])
  {
    assert xs[..i + 1][..i] == xs[..i];
  }

  lemma FoldOne<S, A>(f: (S, A) -> S, s: S, x: A)
    ensures Fold(f, s, [x]) == f(s, x)
  {
    assert [x][..0] == [];
  }

  lemma {:induction false} FoldAppend<S, A>(f: (S, A) -> S, s: S, xs: seq<A>, ys: seq<A>)
    ensures Fold(f, s, xs + ys) == Fold(f, Fold(f, s, xs), ys)
  {
    if ys == [] {
      assert xs + ys == xs;
    } else {
      var init := ys[..|ys| - 1];
      assert (xs + ys)[..|xs + ys| - 1] == xs + init;
      FoldAppend(f, s, xs, init);
    }
  }

  lemma FoldSplit<S, A>(f: (S, A) -> S, s: S, xs: seq<A>, n: nat)
    requires n <= |xs|
    ensures Fold(f, s, xs) == Fold(f, Fold(f, s, xs[..n]), xs[n..])
  {
    FoldAppend(f, s, xs[..n], xs[n..]);
    assert xs[..n] + xs[n..] == xs;
  }

  /** If each step looks like one of `g`, so does the whole. */
  lemma {:induction false} FoldSimulates<S(!new), A(!new), T, B>(
      f: (S, A) -> S, g: (T, B) -> T, h: S -> T, k: A -> B, s: S, xs: seq<A>)
    requires forall s, a :: h(f(s, a)) == g(h(s), k(a))
    ensures h(Fold(f, s, xs)) == Fold(g, h(s), Map(k, xs))
  {
    if xs != [] {
      var n := |xs| - 1;
      FoldSimulates(f, g, h, k, s, xs[..n]);
      MapSplit(k, xs, n);
    }
  }

  /** The same for steps that only do so from states with `p`, as long as those last. */
  lemma {:induction false} FoldWhile<S(!new), A(!new), T>(
      f: (S, A) -> S, g: (T, A) -> T, h: S -> T, p: S -> bool, s: S, xs: seq<A>)
    requires forall s, a :: p(s) ==> h(f(s, a)) == g(h(s), a)
    requires forall i :: 0 <= i < |xs| ==> p(Fold(f, s, xs[..i]))
    ensures h(Fold(f, s, xs)) == Fold(g, h(s), xs)
  {
    if xs != [] {
      var init := xs[..|xs| - 1];
      forall i | 0 <= i < |init| ensures p(Fold(f, s, init[..i])) {
        assert init[..i] == xs[..i];
      }
      FoldWhile(f, g, h, p, s, init);
    }
  }

  lemma FoldAfterFirst<S, A>(f: (S, A) -> S, s: S, xs: seq<A>, k: nat)
    requires 0 < k <= |xs|
    ensures Fold(f, s, xs[..k]) == Fold(f, f(s, xs[0]), xs[1..][..k - 1])
  {
    FoldSplit(f, s, xs[..k], 1);
    FoldOne(f, s, xs[0]);
    assert xs[..k][..1] == [xs[0]] && xs[..k][1..] == xs[1..][..k - 1];
  }

  lemma AllAfterFirst<S, A>(f: (S, A) -> S, p: S -> bool, s: S, xs: seq<A>)
    requires xs != [] && forall k :: 0 < k < |xs| ==> p(Fold(f, s, xs[..k]))
    ensures forall i :: 0 <= i < |xs[1..]| ==> p(Fold(f, f(s, xs[0]), xs[1..][..i]))
  {
    forall i | 0 <= i < |xs[1..]| ensures p(Fold(f, f(s, xs[0]), xs[1..][..i])) {
      FoldAfterFirst(f, s, xs, i + 1);
    }
  }

  /** The same where only the states after the first step have `p`. */
  lemma FoldWhileAfterFirst<S(!new), A(!new), T>(
      f: (S, A) -> S, g: (T, A) -> T, h: S -> T, p: S -> bool, s: S, xs: seq<A>)
    requires xs != []
    requires forall s, a :: p(s) ==> h(f(s, a)) == g(h(s), a)
    requires forall k :: 0 < k < |xs| ==> p(Fold(f, s, xs[..k]))
    ensures h(Fold(f, s, xs)) == Fold(g, h(f(s, xs[0])), xs[1..])
  {
    var t, rest := f(s, xs[0]), xs[1..];
    AllAfterFirst(f, p, s, xs);
    FoldWhile(f, g, h, p, t, rest);
    assert Fold(f, s, xs) == Fold(f, t, rest) by {
      FoldAfterFirst(f, s, xs, |xs|);
      assert xs[..|xs|] == xs && rest[..|rest|] == rest;
    }
  }
}

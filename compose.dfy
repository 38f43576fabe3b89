/** `compose(*funcs)`: a left-to-right fold of functions that starts from the identity. */
module Composition {

  /**
   * `reduce(lambda acc, cur: (lambda x: cur(acc(x))), funcs, lambda x: x)`:
   * each step wraps the accumulated function so that the next one runs after it.
   */
  function Compose<T>(fs: seq<T -> T>): T -> T
    decreases |fs|
  {
    if fs == [] then x => x
    else
      var acc := Compose(fs[..|fs| - 1]);
      var cur := fs[|fs| - 1];
      x => cur(acc(x))
  }

  /** x passed through fs[0], fs[1], ..., fs[n - 1], in that order. */
  function Pass<T>(x: T, fs: seq<T -> T>, n: nat): T
    requires n <= |fs|
  {
    if n == 0 then x else fs[n - 1](Pass(x, fs, n - 1))
  }

  /** Only the first n functions take part in passing x through n of them. */
  lemma {:induction false} PassSame<T>(x: T, fs: seq<T -> T>, gs: seq<T -> T>, n: nat)
    requires n <= |fs| && n <= |gs|
    requires forall k :: 0 <= k < n ==> fs[k] == gs[k]
    ensures Pass(x, fs, n) == Pass(x, gs, n)
  {
    if n > 0 {
      PassSame(x, fs, gs, n - 1);
    }
  }

  lemma ComposeLast<T>(fs: seq<T -> T>, x: T)
    requires fs != []
    ensures Compose(fs)(x) == fs[|fs| - 1](Compose(fs[..|fs| - 1])(x))
  {
  }

  /** The composed function applies fs[0] first and the last function last. */
  lemma {:induction false} ComposeIsPass<T>(fs: seq<T -> T>, x: T)
    ensures Compose(fs)(x) == Pass(x, fs, |fs|)
    decreases |fs|
  {
    if fs != [] {
      var n := |fs| - 1;
      var init := fs[..n];
      PassSame(x, init, fs, n);
      ComposeIsPass(init, x);
      assert Compose(init)(x) == Pass(x, fs, n);
      ComposeLast(fs, x);
    }
  }

  /** No functions: the identity. */
  lemma ComposeEmpty<T>(x: T)
    ensures Compose<T>([])(x) == x
  {
  }

  /** Two functions: the first one runs first. */
  lemma ComposePair<T>(f: T -> T, g: T -> T, x: T)
    ensures Compose([f, g])(x) == g(f(x))
  {
    var fs := [f, g];
    ComposeIsPass(fs, x);
    assert Pass(x, fs, 1) == f(x);
  }

  lemma {:induction false} PassAppend<T>(x: T, fs: seq<T -> T>, gs: seq<T -> T>, k: nat)
    requires k <= |gs|
    ensures Pass(x, fs + gs, |fs| + k) == Pass(Pass(x, fs, |fs|), gs, k)
  {
    if k == 0 {
      PassSame(x, fs + gs, fs, |fs|);
    } else {
      PassAppend(x, fs, gs, k - 1);
      assert (fs + gs)[|fs| + k - 1] == gs[k - 1];
    }
  }

  /** Composition distributes over concatenation of the function lists. */
  lemma ComposeAppend<T>(fs: seq<T -> T>, gs: seq<T -> T>, x: T)
    ensures Compose(fs + gs)(x) == Compose(gs)(Compose(fs)(x))
  {
    var all := fs + gs;
    var y := Pass(x, fs, |fs|);
    PassAppend(x, fs, gs, |gs|);
    assert |all| == |fs| + |gs|;
    assert Pass(x, all, |all|) == Pass(y, gs, |gs|);
    ComposeIsPass(all, x);
    ComposeIsPass(fs, x);
    ComposeIsPass(gs, y);
  }

  /** `compose(add3, mul5)(1) == 20` and `compose(mul5, add3)(1) == 8`. */
  lemma ComposeOrderMatters()
    ensures Compose([(x: int) => x + 3, (x: int) => x * 5])(1) == 20
    ensures Compose([(x: int) => x * 5, (x: int) => x + 3])(1) == 8
  {
    ComposePair((x: int) => x + 3, (x: int) => x * 5, 1);
    ComposePair((x: int) => x * 5, (x: int) => x + 3, 1);
  }
}

/** The n_ary generalizer on its own: a binary function made variadic by
    folding it from the right over the argument list. */
module Variadic {

  /** f(xs[0], f(xs[1], ... f(xs[|xs| - 1], z))): the reference right fold. */
  function FoldRight<V>(f: (V, V) -> V, xs: seq<V>, z: V): V
  {
    if xs == [] then z else f(xs[0], FoldRight(f, xs[1..], z))
  }

  /** f(... f(f(z, xs[0]), xs[1]) ..., xs[|xs| - 1]): the left fold. */
  function FoldLeft<V>(f: (V, V) -> V, z: V, xs: seq<V>): V
  {
    if xs == [] then z else FoldLeft(f, f(z, xs[0]), xs[1..])
  }

  ghost predicate Associative<V(!new)>(f: (V, V) -> V)
  {
    forall x, y, z :: f(f(x, y), z) == f(x, f(y, z))
  }

  /** n_ary_wrap: one argument is returned unchanged, two are passed to f,
      more are f(args[0], n_ary_wrap(args[1..])). With no arguments the
      source fails on args[0], so at least one is required. */
  function NAry<V>(f: (V, V) -> V, args: seq<V>): (r: V)
    requires |args| >= 1
    ensures r == FoldRight(f, args[..|args| - 1], args[|args| - 1])
    decreases |args|
  {
    if |args| == 1 then args[0]
    else if |args| == 2 then f(args[0], args[1])
    else
      assert args[..|args| - 1][1..] == args[1..][..|args| - 2];
      f(args[0], NAry(f, args[1..]))
  }

  /** For an associative f, the variadic form of a concatenation combines
      the variadic forms of its two halves. */
  lemma {:induction false} NAryAppend<V(!new)>(f: (V, V) -> V, xs: seq<V>, ys: seq<V>)
    requires Associative(f)
    requires |xs| >= 1 && |ys| >= 1
    ensures NAry(f, xs + ys) == f(NAry(f, xs), NAry(f, ys))
    decreases |xs|
  {
    if |xs| == 1 {
      assert (xs + ys)[1..] == ys;
    } else {
      assert (xs + ys)[1..] == xs[1..] + ys;
      NAryAppend(f, xs[1..], ys);
    }
  }

  lemma {:induction false} FoldLeftShift<V(!new)>(f: (V, V) -> V, a: V, b: V, xs: seq<V>)
    requires Associative(f)
    ensures FoldLeft(f, f(a, b), xs) == f(a, FoldLeft(f, b, xs))
    decreases |xs|
  {
    if xs != [] {
      FoldLeftShift(f, a, f(b, xs[0]), xs[1..]);
    }
  }

  /** For an associative f the right fold the source performs agrees with
      the left fold, so the fold direction is not observable. */
  lemma {:induction false} NAryIsLeftFold<V(!new)>(f: (V, V) -> V, args: seq<V>)
    requires Associative(f)
    requires |args| >= 1
    ensures NAry(f, args) == FoldLeft(f, args[0], args[1..])
    decreases |args|
  {
    if |args| == 2 {
      assert args[1..][1..] == [];
    } else if |args| > 2 {
      var rest := args[1..];
      NAryIsLeftFold(f, rest);
      FoldLeftShift(f, args[0], rest[0], rest[1..]);
    }
  }

  /** For a function that is not associative the direction matters:
      subtraction folded from the right over [1, 2, 3] gives 1 - (2 - 3). */
  lemma RightFoldOfSubtraction()
    ensures NAry((x: int, y: int) => x - y, [1, 2, 3]) == 2
    ensures FoldLeft((x: int, y: int) => x - y, 1, [2, 3]) == -4
  {
    var sub := (x: int, y: int) => x - y;
    assert [1, 2, 3][1..] == [2, 3];
    assert NAry(sub, [2, 3]) == -1;
    assert [2, 3][1..] == [3];
    assert [3][1..] == [];
  }
}

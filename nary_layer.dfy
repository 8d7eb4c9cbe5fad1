/** n_ary inside a decorator stack: the layer right-folds its inner callable
    over the arguments, and every pair it folds is one call of the inner
    callable, which is what an inner countcalls sees. */
module NAryLayer {
  import opened Decorators
  import Variadic

  /** The base function called with two positional arguments, as n_ary_wrap
      calls it. */
  function Binary<V>(g: (seq<V>, KwArgs<V>) -> V): (V, V) -> V
  {
    (x: V, y: V) => g([x, y], [])
  }

  /** n_ary around a plain function computes the pure right fold and keeps
      no state. */
  lemma {:induction false} NAryOverBase<V>(ops: ValueOps<V>, g: (seq<V>, KwArgs<V>) -> V, s: State<V>, args: seq<V>)
    requires |args| >= 1
    ensures Eval(ops, NAry(Base(g, 2)), s, args, []) == Outcome(Variadic.NAry(Binary(g), args), s)
    decreases |args|
  {
    if |args| > 2 {
      NAryOverBase(ops, g, s, args[1..]);
    }
  }

  /** n_ary around countcalls (the order used by both stacks `foo` and
      `bar` in deco.py):
      the result is the same right fold, and the counter goes up once per
      folded pair, |args| - 1 times, while the cache, the depth and the
      output stay as they were; a single argument is returned without any
      call, leaving even an absent counter absent. */
  lemma {:induction false} NAryCountsEveryPair<V>(ops: ValueOps<V>, g: (seq<V>, KwArgs<V>) -> V, s: State<V>, args: seq<V>)
    requires |args| >= 1
    ensures var o := Eval(ops, NAry(CountCalls(Base(g, 2))), s, args, []);
      && o.result == Variadic.NAry(Binary(g), args)
      && CallsRead(o.after.calls) == CallsRead(s.calls) + |args| - 1
      && (|args| >= 2 ==> o.after.calls == Some(CallsRead(s.calls) + |args| - 1))
      && (|args| == 1 ==> o == Outcome(args[0], s))
      && o.after == s.(calls := o.after.calls)
    decreases |args|
  {
    var w := NAry(CountCalls(Base(g, 2)));
    if |args| == 2 {
      CountedBasePair(ops, g, s, args[0], args[1]);
    } else if |args| > 2 {
      var rest := Eval(ops, w, s, args[1..], []);
      NAryCountsEveryPair(ops, g, s, args[1..]);
      CountedBasePair(ops, g, rest.after, args[0], rest.result);
    }
  }

  /** One pair folded through countcalls around the base function. */
  lemma CountedBasePair<V>(ops: ValueOps<V>, g: (seq<V>, KwArgs<V>) -> V, s: State<V>, x: V, y: V)
    ensures Eval(ops, CountCalls(Base(g, 2)), s, [x, y], [])
         == Outcome(Binary(g)(x, y), s.(calls := Some(CallsRead(s.calls) + 1)))
  {
    var s1 := s.(calls := Some(CallsRead(s.calls) + 1));
    assert Eval(ops, Base(g, 2), s1, [x, y], []) == Outcome(g([x, y], []), s1);
  }

  /** countcalls around n_ary, the reverse order: one call counts once,
      however many pairs are folded. */
  lemma CountedNAryCountsOnce<V>(ops: ValueOps<V>, g: (seq<V>, KwArgs<V>) -> V, s: State<V>, args: seq<V>)
    requires |args| >= 1
    ensures var o := Eval(ops, CountCalls(NAry(Base(g, 2))), s, args, []);
      o == Outcome(Variadic.NAry(Binary(g), args), s.(calls := Some(CallsRead(s.calls) + 1)))
  {
    NAryOverBase(ops, g, s.(calls := Some(CallsRead(s.calls) + 1)), args);
  }
}

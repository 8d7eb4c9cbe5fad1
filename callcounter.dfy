/** countcalls: a counter in the shared attribute dictionary, raised before
    the wrapped function runs. */
module CallCounter {
  import opened Decorators

  /** One call through countcalls: the wrapped function's result comes back
      unchanged, the rest of the state is what the wrapped function alone
      would leave, and when no inner layer counts too the counter reads one
      more than before (starting from 0 when it was absent). */
  lemma CountCallsTransparent<V>(ops: ValueOps<V>, inner: Wrapper<V>, s: State<V>, args: seq<V>, kwargs: KwArgs<V>)
    requires Admits(inner, |args|, |kwargs|)
    ensures var o, i := Eval(ops, CountCalls(inner), s, args, kwargs), Eval(ops, inner, s, args, kwargs);
      && o.result == i.result
      && o.after == i.after.(calls := o.after.calls)
      && (!Has(inner, Counter) ==> o.after.calls == Some(CallsRead(s.calls) + 1))
  {
    var bumped := Some(CallsRead(s.calls) + 1);
    assert Eval(ops, CountCalls(inner), s, args, kwargs) == Eval(ops, inner, s.(calls := bumped), args, kwargs);
    CallsIrrelevant(ops, inner, s, bumped, args, kwargs);
    EvalFrame(ops, inner, s.(calls := bumped), args, kwargs);
  }

  /** N calls through countcalls leave the counter N higher, whatever the
      arguments; from an absent counter that is exactly N. */
  lemma {:induction false} CountsEveryCall<V>(ops: ValueOps<V>, inner: Wrapper<V>, s: State<V>, cs: seq<Call<V>>)
    requires !Has(inner, Counter)
    requires AdmitsAll(CountCalls(inner), cs)
    ensures var t := RunAll(ops, CountCalls(inner), s, cs).after;
      && CallsRead(t.calls) == CallsRead(s.calls) + |cs|
      && (cs != [] ==> t.calls == Some(CallsRead(s.calls) + |cs|))
    decreases |cs|
  {
    if cs != [] {
      var w := CountCalls(inner);
      var o := Eval(ops, w, s, cs[0].args, cs[0].kwargs);
      EvalFrame(ops, inner, s.(calls := Some(CallsRead(s.calls) + 1)), cs[0].args, cs[0].kwargs);
      assert AdmitsAll(w, cs[1..]) by {
        forall i | 0 <= i < |cs[1..]|
          ensures Admits(w, |cs[1..][i].args|, |cs[1..][i].kwargs|)
        {
          assert cs[1..][i] == cs[i + 1];
        }
      }
      CountsEveryCall(ops, inner, o.after, cs[1..]);
    }
  }
}

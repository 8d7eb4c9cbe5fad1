/** trace: an enter line and an exit line per call, indented by the depth
    kept in the shared attribute dictionary. */
module Tracer {
  import opened Decorators

  /** One call through trace(indent) prints its enter line first and its
      exit line last, both prefixed with indent repeated `depth` times for
      the depth before the call; the exit line repeats the enter line's
      text with " <-- " for " --> " and adds " == " and the result's text.
      The depth is back to its value before the call, and when no inner
      layer traces too, exactly these two lines are printed. */
  lemma TraceLines<V>(ops: ValueOps<V>, indent: string, name: string, inner: Wrapper<V>, s: State<V>, args: seq<V>, kwargs: KwArgs<V>)
    requires Admits(inner, |args|, |kwargs|)
    ensures var o := Eval(ops, Trace(indent, name, inner), s, args, kwargs);
      var t, shown := o.after, ArgList(ops, args);
      var enter := EnterLine(indent, s.depth, name, shown);
      var exit := ExitLine(indent, s.depth, name, shown, ops.str(o.result));
      && t.depth == s.depth
      && |t.out| >= |s.out| + 2
      && t.out[..|s.out|] == s.out
      && t.out[|s.out|] == enter
      && t.out[|t.out| - 1] == exit
      && (!Has(inner, Tracer) ==> t.out == s.out + [enter, exit])
  {
    var shown := ArgList(ops, args);
    var entered := s.(out := s.out + [EnterLine(indent, s.depth, name, shown)], depth := s.depth + 1);
    EvalFrame(ops, inner, entered, args, kwargs);
  }

  /** Tracing does not change what is computed: the result and the cache
      are those of the wrapped function called on its own. */
  lemma TraceTransparent<V>(ops: ValueOps<V>, indent: string, name: string, inner: Wrapper<V>, s: State<V>, args: seq<V>, kwargs: KwArgs<V>)
    requires Admits(inner, |args|, |kwargs|)
    ensures var o, i := Eval(ops, Trace(indent, name, inner), s, args, kwargs), Eval(ops, inner, s, args, kwargs);
      && o.result == i.result
      && o.after.cache == i.after.cache
      && o.after.calls == i.after.calls
  {
    var shown := ArgList(ops, args);
    var entered := s.(out := s.out + [EnterLine(indent, s.depth, name, shown)], depth := s.depth + 1);
    CacheDetermines(ops, inner, entered, s, args, kwargs);
    CallsIrrelevant(ops, inner, entered, s.calls, args, kwargs);
    CallsIrrelevant(ops, inner, s, s.calls, args, kwargs);
    CallsMatch(ops, inner, entered, s, args, kwargs);
  }

  /** Two trace layers share one depth: the inner layer's lines are indented
      one level deeper than the outer layer's and nest inside them. */
  lemma NestedTraces<V>(ops: ValueOps<V>, indent: string, outer: string, name: string, inner: Wrapper<V>,
                        s: State<V>, args: seq<V>, kwargs: KwArgs<V>)
    requires Admits(inner, |args|, |kwargs|)
    requires !Has(inner, Tracer)
    ensures var o := Eval(ops, Trace(indent, outer, Trace(indent, name, inner)), s, args, kwargs);
      var shown, shownResult := ArgList(ops, args), ops.str(o.result);
      o.after.out == s.out + [
        EnterLine(indent, s.depth, outer, shown),
        EnterLine(indent, s.depth + 1, name, shown),
        ExitLine(indent, s.depth + 1, name, shown, shownResult),
        ExitLine(indent, s.depth, outer, shown, shownResult)]
  {
    var shown := ArgList(ops, args);
    var entered := s.(out := s.out + [EnterLine(indent, s.depth, outer, shown)], depth := s.depth + 1);
    var mid := Eval(ops, Trace(indent, name, inner), entered, args, kwargs);
    OuterTraceExit(ops, indent, outer, name, inner, s, args, kwargs);
    TraceLines(ops, indent, name, inner, entered, args, kwargs);
    Regroup(s.out, EnterLine(indent, s.depth, outer, shown), EnterLine(indent, s.depth + 1, name, shown),
      ExitLine(indent, s.depth + 1, name, shown, ops.str(mid.result)), ExitLine(indent, s.depth, outer, shown, ops.str(mid.result)));
  }

  /** The four lines of two nested trace layers written out: with P the
      outer prefix (indent repeated depth times), the inner lines start with
      P followed by one more indent. */
  lemma NestedTracePrefixes<V>(ops: ValueOps<V>, indent: string, outer: string, name: string, inner: Wrapper<V>,
                               s: State<V>, args: seq<V>, kwargs: KwArgs<V>)
    requires Admits(inner, |args|, |kwargs|)
    requires !Has(inner, Tracer)
    requires s.depth >= 0
    ensures var o := Eval(ops, Trace(indent, outer, Trace(indent, name, inner)), s, args, kwargs);
      var p, shown, shownResult := Repeat(indent, s.depth), ArgList(ops, args), ops.str(o.result);
      o.after.out == s.out + [
        p + " --> " + outer + shown,
        p + indent + " --> " + name + shown,
        p + indent + " <-- " + name + shown + " == " + shownResult,
        p + " <-- " + outer + shown + " == " + shownResult]
  {
    NestedTraces(ops, indent, outer, name, inner, s, args, kwargs);
    RepeatOneMore(indent, s.depth);
  }

  /** The outer of two trace layers returns the inner one's result and adds
      its exit line, at the outer depth, after the inner one's output. */
  lemma OuterTraceExit<V>(ops: ValueOps<V>, indent: string, outer: string, name: string, inner: Wrapper<V>,
                          s: State<V>, args: seq<V>, kwargs: KwArgs<V>)
    requires Admits(inner, |args|, |kwargs|)
    ensures var shown := ArgList(ops, args);
      var entered := s.(out := s.out + [EnterLine(indent, s.depth, outer, shown)], depth := s.depth + 1);
      var mid := Eval(ops, Trace(indent, name, inner), entered, args, kwargs);
      var o := Eval(ops, Trace(indent, outer, Trace(indent, name, inner)), s, args, kwargs);
      o.result == mid.result && o.after.out == mid.after.out + [ExitLine(indent, s.depth, outer, shown, ops.str(mid.result))]
  {
    var shown := ArgList(ops, args);
    var entered := s.(out := s.out + [EnterLine(indent, s.depth, outer, shown)], depth := s.depth + 1);
    TraceLines(ops, indent, name, inner, entered, args, kwargs);
    TraceStep(ops, indent, outer, Trace(indent, name, inner), s, args, kwargs);
  }

  lemma Regroup<T>(a: seq<T>, p: T, q: T, r: T, t: T)
    ensures a + [p] + [q, r] + [t] == a + [p, q, r, t]
  {
  }

  /** One unfolding of a trace layer. */
  lemma TraceStep<V>(ops: ValueOps<V>, indent: string, name: string, inner: Wrapper<V>, s: State<V>, args: seq<V>, kwargs: KwArgs<V>)
    requires Admits(inner, |args|, |kwargs|)
    ensures var shown := ArgList(ops, args);
      var o := Eval(ops, inner, s.(out := s.out + [EnterLine(indent, s.depth, name, shown)], depth := s.depth + 1), args, kwargs);
      Eval(ops, Trace(indent, name, inner), s, args, kwargs)
        == Outcome(o.result, o.after.(depth := o.after.depth - 1,
                                      out := o.after.out + [ExitLine(indent, o.after.depth - 1, name, shown, ops.str(o.result))]))
  {
  }

  /** One more level of depth is one more indent at the end of the prefix
      (when the depth is not negative). */
  lemma {:induction false} RepeatOneMore(indent: string, d: int)
    ensures d >= 0 ==> Repeat(indent, d + 1) == Repeat(indent, d) + indent
    decreases d
  {
    if d > 0 {
      RepeatOneMore(indent, d - 1);
    }
  }
}

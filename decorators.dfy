/** The decorators of deco.py as a stack of wrapper layers around one base
    function. Every layer of a stack shares ONE attribute dictionary (each
    wrapper assigns `wrap.__dict__ = f.__dict__`), so the state that a call
    reads and writes is a single State: the `calls` counter, the memo
    `cache`, the trace `depth`, plus the lines printed on standard output.
    Eval is the reference semantics of one call through a stack. */
module Decorators {

  datatype Option<T> = None | Some(value: T)

  /** What Python's built-ins make of a value: its truth value (`not v` is
      `!truthy(v)`) and `str(v)`. */
  datatype ValueOps<!V> = ValueOps(truthy: V -> bool, str: V -> string)

  /** Keyword arguments in call order: name and value. */
  type KwArgs<V> = seq<(string, V)>

  /** A callable built by the decorators around one base function, which
      takes `arity` arguments. */
  datatype Wrapper<!V> =
    | Base(f: (seq<V>, KwArgs<V>) -> V, arity: nat)
    | CountCalls(inner: Wrapper<V>)
    | Memo(inner: Wrapper<V>)
      /** memo with the lookup by presence of the key instead of by truth value */
    | MemoPresent(inner: Wrapper<V>)
    | NAry(inner: Wrapper<V>)
      /** trace(indent)(inner), where name is inner's `__name__` */
    | Trace(indent: string, name: string, inner: Wrapper<V>)

  /** The shared attribute dictionary and standard output. An absent `calls`
      attribute is None; `cache` and `depth` are created when memo and trace
      decorate (deco.py lines 53 and 106), before any call reads them. */
  datatype State<V(==)> = State(calls: Option<nat>, cache: map<seq<V>, V>, depth: int, out: seq<string>)

  datatype Outcome<V(==)> = Outcome(result: V, after: State<V>)

  datatype Layer = Counter | Cache | Tracer

  /** Whether some layer of w keeps state of the given kind. */
  predicate Has<V>(w: Wrapper<V>, k: Layer)
  {
    match w
    case Base(_, _) => false
    case CountCalls(i) => k == Counter || Has(i, k)
    case Memo(i) => k == Cache || Has(i, k)
    case MemoPresent(i) => k == Cache || Has(i, k)
    case NAry(i) => Has(i, k)
    case Trace(_, _, i) => k == Tracer || Has(i, k)
  }

  /** The calls that return normally as far as the argument counts go: the
      base function must get as many arguments as it has parameters,
      n_ary_wrap takes no keyword arguments and fails on zero positional
      ones, and it calls its inner function with exactly two. */
  predicate Admits<V>(w: Wrapper<V>, nargs: nat, nkwargs: nat)
  {
    match w
    case Base(_, arity) => nargs + nkwargs == arity
    case CountCalls(i) => Admits(i, nargs, nkwargs)
    case Memo(i) => Admits(i, nargs, nkwargs)
    case MemoPresent(i) => Admits(i, nargs, nkwargs)
    case NAry(i) => nargs >= 1 && nkwargs == 0 && (nargs >= 2 ==> Admits(i, 2, 0))
    case Trace(_, _, i) => Admits(i, nargs, nkwargs)
  }

  /** getattr(wrap, "calls", 0) */
  function CallsRead(c: Option<nat>): nat
  {
    match c
    case None => 0
    case Some(n) => n
  }

  /** kwargs.values(), in call order. */
  function Values<V>(kwargs: KwArgs<V>): (vs: seq<V>)
    ensures |vs| == |kwargs|
    ensures forall i :: 0 <= i < |kwargs| ==> vs[i] == kwargs[i].1
  {
    if kwargs == [] then [] else [kwargs[0].1] + Values(kwargs[1..])
  }

  /** The memo key: the positional arguments followed by the keyword
      values; the keyword names are not part of it. */
  function Key<V>(args: seq<V>, kwargs: KwArgs<V>): seq<V>
  {
    args + Values(kwargs)
  }

  /** cache.get(key, None) */
  function Lookup<V(==)>(cache: map<seq<V>, V>, key: seq<V>): Option<V>
  {
    if key in cache then Some(cache[key]) else None
  }

  /** Python's `s * n` for a string s: empty when n <= 0. */
  function Repeat(s: string, n: int): string
    decreases n
  {
    if n <= 0 then "" else s + Repeat(s, n - 1)
  }

  /** sep.join(parts) */
  function Join(sep: string, parts: seq<string>): string
  {
    if |parts| == 0 then ""
    else if |parts| == 1 then parts[0]
    else parts[0] + sep + Join(sep, parts[1..])
  }

  /** str(x) for x in args */
  function Strs<V>(ops: ValueOps<V>, args: seq<V>): (strs: seq<string>)
    ensures |strs| == |args|
    ensures forall i :: 0 <= i < |args| ==> strs[i] == ops.str(args[i])
  {
    if args == [] then [] else [ops.str(args[0])] + Strs(ops, args[1..])
  }

  /** "(" + ", ".join(str(x) for x in args) + ")" */
  function ArgList<V>(ops: ValueOps<V>, args: seq<V>): string
  {
    "(" + Join(", ", Strs(ops, args)) + ")"
  }

  function EnterLine(indent: string, depth: int, name: string, shown: string): string
  {
    Repeat(indent, depth) + " --> " + name + shown
  }

  function ExitLine(indent: string, depth: int, name: string, shown: string, result: string): string
  {
    Repeat(indent, depth) + " <-- " + name + shown + " == " + result
  }

  /** The memo store after a miss: cache[key] = result, on the cache as the
      inner call left it. */
  function Store<V(==)>(o: Outcome<V>, key: seq<V>): Outcome<V>
  {
    Outcome(o.result, o.after.(cache := o.after.cache[key := o.result]))
  }

  /** One normal-return call of w on args and kwargs, starting in state s. */
  function Eval<V(==)>(ops: ValueOps<V>, w: Wrapper<V>, s: State<V>, args: seq<V>, kwargs: KwArgs<V>): Outcome<V>
    requires Admits(w, |args|, |kwargs|)
    decreases w, |args|
  {
    match w
    case Base(f, _) => Outcome(f(args, kwargs), s)
    case CountCalls(inner) =>
      Eval(ops, inner, s.(calls := Some(CallsRead(s.calls) + 1)), args, kwargs)
    case Memo(inner) =>
      var key := Key(args, kwargs);
      var val := Lookup(s.cache, key);
      if val.None? || !ops.truthy(val.value) then Store(Eval(ops, inner, s, args, kwargs), key)
      else Outcome(val.value, s)
    case MemoPresent(inner) =>
      var key := Key(args, kwargs);
      if key in s.cache then Outcome(s.cache[key], s)
      else Store(Eval(ops, inner, s, args, kwargs), key)
    case NAry(inner) =>
      if |args| == 1 then Outcome(args[0], s)
      else if |args| == 2 then Eval(ops, inner, s, [args[0], args[1]], [])
      else
        var rest := Eval(ops, w, s, args[1..], []);
        Eval(ops, inner, rest.after, [args[0], rest.result], [])
    case Trace(indent, name, inner) =>
      var shown := ArgList(ops, args);
      var entered := s.(out := s.out + [EnterLine(indent, s.depth, name, shown)], depth := s.depth + 1);
      var o := Eval(ops, inner, entered, args, kwargs);
      var d := o.after.depth - 1;
      Outcome(o.result, o.after.(depth := d, out := o.after.out + [ExitLine(indent, d, name, shown, ops.str(o.result))]))
  }

  /** What a call leaves unchanged: the trace depth always comes back to
      its value before the call, output is only appended to, cache keys
      are only added, the counter only grows, and a kind of state that no
      layer of w keeps is not touched at all. */
  lemma {:induction false} EvalFrame<V>(ops: ValueOps<V>, w: Wrapper<V>, s: State<V>, args: seq<V>, kwargs: KwArgs<V>)
    requires Admits(w, |args|, |kwargs|)
    ensures var t := Eval(ops, w, s, args, kwargs).after;
      && t.depth == s.depth
      && s.out <= t.out
      && s.cache.Keys <= t.cache.Keys
      && CallsRead(s.calls) <= CallsRead(t.calls)
      && (!Has(w, Counter) ==> t.calls == s.calls)
      && (!Has(w, Cache) ==> t.cache == s.cache)
      && (!Has(w, Tracer) ==> t.out == s.out)
    decreases w, |args|, 1
  {
    match w
    case Base(_, _) =>
    case CountCalls(inner) =>
      EvalFrame(ops, inner, s.(calls := Some(CallsRead(s.calls) + 1)), args, kwargs);
    case Memo(inner) =>
      EvalFrame(ops, inner, s, args, kwargs);
    case MemoPresent(inner) =>
      EvalFrame(ops, inner, s, args, kwargs);
    case NAry(inner) =>
      if |args| == 2 {
        EvalFrame(ops, inner, s, [args[0], args[1]], []);
      } else if |args| > 2 {
        EvalFrameFold(ops, w, s, args);
      }
    case Trace(indent, name, inner) =>
      EvalFrameTrace(ops, w, s, args, kwargs);
  }

  /** EvalFrame for an n_ary layer folding more than two arguments. */
  lemma {:induction false} EvalFrameFold<V>(ops: ValueOps<V>, w: Wrapper<V>, s: State<V>, args: seq<V>)
    requires w.NAry? && |args| > 2 && Admits(w, |args|, 0)
    ensures var t := Eval(ops, w, s, args, []).after;
      && t.depth == s.depth
      && s.out <= t.out
      && s.cache.Keys <= t.cache.Keys
      && CallsRead(s.calls) <= CallsRead(t.calls)
      && (!Has(w, Counter) ==> t.calls == s.calls)
      && (!Has(w, Cache) ==> t.cache == s.cache)
      && (!Has(w, Tracer) ==> t.out == s.out)
    decreases w, |args|, 0
  {
    var rest := Eval(ops, w, s, args[1..], []);
    assert Eval(ops, w, s, args, []) == Eval(ops, w.inner, rest.after, [args[0], rest.result], []);
    EvalFrame(ops, w, s, args[1..], []);
    EvalFrame(ops, w.inner, rest.after, [args[0], rest.result], []);
  }

  /** EvalFrame for a trace layer. */
  lemma {:induction false} EvalFrameTrace<V>(ops: ValueOps<V>, w: Wrapper<V>, s: State<V>, args: seq<V>, kwargs: KwArgs<V>)
    requires w.Trace? && Admits(w, |args|, |kwargs|)
    ensures var t := Eval(ops, w, s, args, kwargs).after;
      && t.depth == s.depth
      && s.out <= t.out
      && s.cache.Keys <= t.cache.Keys
      && CallsRead(s.calls) <= CallsRead(t.calls)
      && (!Has(w, Counter) ==> t.calls == s.calls)
      && (!Has(w, Cache) ==> t.cache == s.cache)
      && (!Has(w, Tracer) ==> t.out == s.out)
    decreases w, |args|, 0
  {
    var shown := ArgList(ops, args);
    var entered := s.(out := s.out + [EnterLine(w.indent, s.depth, w.name, shown)], depth := s.depth + 1);
    EvalFrame(ops, w.inner, entered, args, kwargs);
  }

  /** The counter is write-only for every layer: starting from another
      counter value changes nothing but the counter. */
  lemma {:induction false} CallsIrrelevant<V>(ops: ValueOps<V>, w: Wrapper<V>, s: State<V>, c: Option<nat>, args: seq<V>, kwargs: KwArgs<V>)
    requires Admits(w, |args|, |kwargs|)
    ensures var o1, o2 := Eval(ops, w, s, args, kwargs), Eval(ops, w, s.(calls := c), args, kwargs);
      o1.result == o2.result && o2.after == o1.after.(calls := o2.after.calls)
    decreases w, |args|, 1
  {
    match w
    case Base(_, _) =>
    case CountCalls(inner) =>
      var s1 := s.(calls := Some(CallsRead(s.calls) + 1));
      var c1 := Some(CallsRead(c) + 1);
      assert s.(calls := c).(calls := c1) == s1.(calls := c1);
      CallsIrrelevant(ops, inner, s1, c1, args, kwargs);
    case Memo(inner) =>
      CallsIrrelevant(ops, inner, s, c, args, kwargs);
    case MemoPresent(inner) =>
      CallsIrrelevant(ops, inner, s, c, args, kwargs);
    case NAry(inner) =>
      if |args| == 2 {
        CallsIrrelevant(ops, inner, s, c, [args[0], args[1]], []);
      } else if |args| > 2 {
        CallsIrrelevantFold(ops, w, s, c, args);
      }
    case Trace(indent, name, inner) =>
      CallsIrrelevantTrace(ops, w, s, c, args, kwargs);
  }

  /** CallsIrrelevant for an n_ary layer folding more than two arguments. */
  lemma {:induction false} CallsIrrelevantFold<V>(ops: ValueOps<V>, w: Wrapper<V>, s: State<V>, c: Option<nat>, args: seq<V>)
    requires w.NAry? && |args| > 2 && Admits(w, |args|, 0)
    ensures var o1, o2 := Eval(ops, w, s, args, []), Eval(ops, w, s.(calls := c), args, []);
      o1.result == o2.result && o2.after == o1.after.(calls := o2.after.calls)
    decreases w, |args|, 0
  {
    var r1 := Eval(ops, w, s, args[1..], []);
    var r2 := Eval(ops, w, s.(calls := c), args[1..], []);
    assert Eval(ops, w, s, args, []) == Eval(ops, w.inner, r1.after, [args[0], r1.result], []);
    assert Eval(ops, w, s.(calls := c), args, []) == Eval(ops, w.inner, r2.after, [args[0], r2.result], []);
    CallsIrrelevant(ops, w, s, c, args[1..], []);
    assert r2.after == r1.after.(calls := r2.after.calls);
    CallsIrrelevant(ops, w.inner, r1.after, r2.after.calls, [args[0], r1.result], []);
  }

  /** CallsIrrelevant for a trace layer. */
  lemma {:induction false} CallsIrrelevantTrace<V>(ops: ValueOps<V>, w: Wrapper<V>, s: State<V>, c: Option<nat>, args: seq<V>, kwargs: KwArgs<V>)
    requires w.Trace? && Admits(w, |args|, |kwargs|)
    ensures var o1, o2 := Eval(ops, w, s, args, kwargs), Eval(ops, w, s.(calls := c), args, kwargs);
      o1.result == o2.result && o2.after == o1.after.(calls := o2.after.calls)
    decreases w, |args|, 0
  {
    var shown := ArgList(ops, args);
    var e1 := s.(out := s.out + [EnterLine(w.indent, s.depth, w.name, shown)], depth := s.depth + 1);
    assert s.(calls := c).(out := s.out + [EnterLine(w.indent, s.depth, w.name, shown)], depth := s.depth + 1) == e1.(calls := c);
    CallsIrrelevant(ops, w.inner, e1, c, args, kwargs);
  }

  /** A call's result and the cache it leaves depend only on the cache it
      starts from: the counter, the depth and the output never feed back
      into results. */
  lemma {:induction false} CacheDetermines<V>(ops: ValueOps<V>, w: Wrapper<V>, s1: State<V>, s2: State<V>, args: seq<V>, kwargs: KwArgs<V>)
    requires Admits(w, |args|, |kwargs|)
    requires s1.cache == s2.cache
    ensures var o1, o2 := Eval(ops, w, s1, args, kwargs), Eval(ops, w, s2, args, kwargs);
      o1.result == o2.result && o1.after.cache == o2.after.cache
    decreases w, |args|, 1
  {
    match w
    case Base(_, _) =>
    case CountCalls(inner) =>
      CacheDetermines(ops, inner, s1.(calls := Some(CallsRead(s1.calls) + 1)), s2.(calls := Some(CallsRead(s2.calls) + 1)), args, kwargs);
    case Memo(inner) =>
      CacheDetermines(ops, inner, s1, s2, args, kwargs);
    case MemoPresent(inner) =>
      CacheDetermines(ops, inner, s1, s2, args, kwargs);
    case NAry(inner) =>
      if |args| == 2 {
        CacheDetermines(ops, inner, s1, s2, [args[0], args[1]], []);
      } else if |args| > 2 {
        CacheDeterminesFold(ops, w, s1, s2, args);
      }
    case Trace(indent, name, inner) =>
      var shown := ArgList(ops, args);
      CacheDetermines(ops, inner,
        s1.(out := s1.out + [EnterLine(indent, s1.depth, name, shown)], depth := s1.depth + 1),
        s2.(out := s2.out + [EnterLine(indent, s2.depth, name, shown)], depth := s2.depth + 1),
        args, kwargs);
  }

  /** CacheDetermines for an n_ary layer folding more than two arguments. */
  lemma {:induction false} CacheDeterminesFold<V>(ops: ValueOps<V>, w: Wrapper<V>, s1: State<V>, s2: State<V>, args: seq<V>)
    requires w.NAry? && |args| > 2 && Admits(w, |args|, 0)
    requires s1.cache == s2.cache
    ensures var o1, o2 := Eval(ops, w, s1, args, []), Eval(ops, w, s2, args, []);
      o1.result == o2.result && o1.after.cache == o2.after.cache
    decreases w, |args|, 0
  {
    var r1 := Eval(ops, w, s1, args[1..], []);
    var r2 := Eval(ops, w, s2, args[1..], []);
    assert Eval(ops, w, s1, args, []) == Eval(ops, w.inner, r1.after, [args[0], r1.result], []);
    assert Eval(ops, w, s2, args, []) == Eval(ops, w.inner, r2.after, [args[0], r2.result], []);
    CacheDetermines(ops, w, s1, s2, args[1..], []);
    CacheDetermines(ops, w.inner, r1.after, r2.after, [args[0], r1.result], []);
  }

  /** The counter a call leaves depends only on the counter and the cache it
      starts from. */
  lemma {:induction false} CallsMatch<V>(ops: ValueOps<V>, w: Wrapper<V>, s1: State<V>, s2: State<V>, args: seq<V>, kwargs: KwArgs<V>)
    requires Admits(w, |args|, |kwargs|)
    requires s1.calls == s2.calls && s1.cache == s2.cache
    ensures Eval(ops, w, s1, args, kwargs).after.calls == Eval(ops, w, s2, args, kwargs).after.calls
    decreases w, |args|, 1
  {
    match w
    case Base(_, _) =>
    case CountCalls(inner) =>
      CallsMatch(ops, inner, s1.(calls := Some(CallsRead(s1.calls) + 1)), s2.(calls := Some(CallsRead(s2.calls) + 1)), args, kwargs);
    case Memo(inner) =>
      CallsMatch(ops, inner, s1, s2, args, kwargs);
    case MemoPresent(inner) =>
      CallsMatch(ops, inner, s1, s2, args, kwargs);
    case NAry(inner) =>
      if |args| == 2 {
        CallsMatch(ops, inner, s1, s2, [args[0], args[1]], []);
      } else if |args| > 2 {
        CallsMatchFold(ops, w, s1, s2, args);
      }
    case Trace(indent, name, inner) =>
      var shown := ArgList(ops, args);
      CallsMatch(ops, inner,
        s1.(out := s1.out + [EnterLine(indent, s1.depth, name, shown)], depth := s1.depth + 1),
        s2.(out := s2.out + [EnterLine(indent, s2.depth, name, shown)], depth := s2.depth + 1),
        args, kwargs);
  }

  /** CallsMatch for an n_ary layer folding more than two arguments. */
  lemma {:induction false} CallsMatchFold<V>(ops: ValueOps<V>, w: Wrapper<V>, s1: State<V>, s2: State<V>, args: seq<V>)
    requires w.NAry? && |args| > 2 && Admits(w, |args|, 0)
    requires s1.calls == s2.calls && s1.cache == s2.cache
    ensures Eval(ops, w, s1, args, []).after.calls == Eval(ops, w, s2, args, []).after.calls
    decreases w, |args|, 0
  {
    var r1 := Eval(ops, w, s1, args[1..], []);
    var r2 := Eval(ops, w, s2, args[1..], []);
    assert Eval(ops, w, s1, args, []) == Eval(ops, w.inner, r1.after, [args[0], r1.result], []);
    assert Eval(ops, w, s2, args, []) == Eval(ops, w.inner, r2.after, [args[0], r2.result], []);
    CallsMatch(ops, w, s1, s2, args[1..], []);
    CacheDetermines(ops, w, s1, s2, args[1..], []);
    CallsMatch(ops, w.inner, r1.after, r2.after, [args[0], r1.result], []);
  }

  /** One call of a sequence of calls to the same stack. */
  datatype Call<V> = Call(args: seq<V>, kwargs: KwArgs<V>)

  datatype Session<V(==)> = Session(results: seq<V>, after: State<V>)

  predicate AdmitsAll<V>(w: Wrapper<V>, cs: seq<Call<V>>)
  {
    forall i :: 0 <= i < |cs| ==> Admits(w, |cs[i].args|, |cs[i].kwargs|)
  }

  /** The calls cs made one after the other, each seeing the state the
      previous one left. */
  function RunAll<V(==)>(ops: ValueOps<V>, w: Wrapper<V>, s: State<V>, cs: seq<Call<V>>): (run: Session<V>)
    requires AdmitsAll(w, cs)
    ensures |run.results| == |cs|
    decreases |cs|
  {
    if cs == [] then Session([], s)
    else
      var o := Eval(ops, w, s, cs[0].args, cs[0].kwargs);
      var rest := RunAll(ops, w, o.after, cs[1..]);
      Session([o.result] + rest.results, rest.after)
  }
}

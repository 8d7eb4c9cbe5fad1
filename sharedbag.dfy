/** The heap side of deco.py: the one attribute dictionary that every layer
    of a decorator stack shares, updated in place by the wrappers, and
    standard output, appended to by trace. Each wrapper body of deco.py is
    a method here, proved to do what Decorators.Eval says. */
module SharedBag {
  import opened Decorators

  /** Standard output: the lines printed so far. */
  class Stdout {
    var lines: seq<string>

    constructor ()
      ensures lines == []
    {
      lines := [];
    }

    method Print(line: string)
      modifies this
      ensures lines == old(lines) + [line]
    {
      lines := lines + [line];
    }
  }

  /** The `__dict__` of the base function. Every wrapper of a stack holds
      this same object, so a counter, a cache or a depth set through one
      layer is what every other layer reads. */
  class Bag<V(==)> {
    var calls: Option<nat>
    var cache: map<seq<V>, V>
    var depth: int

    /** A new function's dictionary: no counter yet. */
    constructor ()
      ensures calls == None && cache == map[] && depth == 0
    {
      calls, cache, depth := None, map[], 0;
    }

    function Snapshot(out: Stdout): State<V>
      reads this, out
    {
      State(calls, cache, depth, out.lines)
    }

    /** memo(f): the wrapper shares f's dictionary and sets `cache = {}` on
        it, which empties a cache that an inner memo had put there. */
    method DecorateMemo(f: Wrapper<V>) returns (g: Wrapper<V>)
      modifies this
      ensures g == Memo(f)
      ensures cache == map[] && calls == old(calls) && depth == old(depth)
    {
      cache := map[];
      g := Memo(f);
    }

    /** trace(indent)(f): the wrapper shares f's dictionary and sets
        `depth = 0` on it. */
    method DecorateTrace(indent: string, name: string, f: Wrapper<V>) returns (g: Wrapper<V>)
      modifies this
      ensures g == Trace(indent, name, f)
      ensures depth == 0 && calls == old(calls) && cache == old(cache)
    {
      depth := 0;
      g := Trace(indent, name, f);
    }

    /** Calling the outermost wrapper of w. */
    method Call(ops: ValueOps<V>, w: Wrapper<V>, out: Stdout, args: seq<V>, kwargs: KwArgs<V>) returns (r: V)
      requires Admits(w, |args|, |kwargs|)
      modifies this, out
      ensures Outcome(r, Snapshot(out)) == Eval(ops, w, old(Snapshot(out)), args, kwargs)
      decreases w, |args|, 1
    {
      match w
      case Base(f, _) =>
        r := f(args, kwargs);
      case CountCalls(_) =>
        r := CountCallsWrap(ops, w, out, args, kwargs);
      case Memo(_) =>
        r := MemoWrap(ops, w, out, args, kwargs);
      case MemoPresent(_) =>
        r := MemoPresentWrap(ops, w, out, args, kwargs);
      case NAry(_) =>
        r := NAryWrap(ops, w, out, args);
      case Trace(_, _, _) =>
        r := TraceWrap(ops, w, out, args, kwargs);
    }

    /** countcalls_wrap: calls = getattr(calls, 0) + 1, then the call. */
    method CountCallsWrap(ops: ValueOps<V>, w: Wrapper<V>, out: Stdout, args: seq<V>, kwargs: KwArgs<V>) returns (r: V)
      requires w.CountCalls? && Admits(w, |args|, |kwargs|)
      modifies this, out
      ensures Outcome(r, Snapshot(out)) == Eval(ops, w, old(Snapshot(out)), args, kwargs)
      decreases w, |args|, 0
    {
      calls := Some(CallsRead(calls) + 1);
      r := Call(ops, w.inner, out, args, kwargs);
    }

    /** memo_wrap: look the key up, and on a missing or falsy value call
        and store the result. */
    method MemoWrap(ops: ValueOps<V>, w: Wrapper<V>, out: Stdout, args: seq<V>, kwargs: KwArgs<V>) returns (r: V)
      requires w.Memo? && Admits(w, |args|, |kwargs|)
      modifies this, out
      ensures Outcome(r, Snapshot(out)) == Eval(ops, w, old(Snapshot(out)), args, kwargs)
      decreases w, |args|, 0
    {
      var key := Key(args, kwargs);
      var val := Lookup(cache, key);
      if val.None? || !ops.truthy(val.value) {
        r := Call(ops, w.inner, out, args, kwargs);
        cache := cache[key := r];
      } else {
        r := val.value;
      }
    }

    /** memo_wrap with the lookup by presence of the key. */
    method MemoPresentWrap(ops: ValueOps<V>, w: Wrapper<V>, out: Stdout, args: seq<V>, kwargs: KwArgs<V>) returns (r: V)
      requires w.MemoPresent? && Admits(w, |args|, |kwargs|)
      modifies this, out
      ensures Outcome(r, Snapshot(out)) == Eval(ops, w, old(Snapshot(out)), args, kwargs)
      decreases w, |args|, 0
    {
      var key := Key(args, kwargs);
      if key in cache {
        r := cache[key];
      } else {
        r := Call(ops, w.inner, out, args, kwargs);
        cache := cache[key := r];
      }
    }

    /** n_ary_wrap(*args): positional arguments only. */
    method NAryWrap(ops: ValueOps<V>, w: Wrapper<V>, out: Stdout, args: seq<V>) returns (r: V)
      requires w.NAry? && Admits(w, |args|, 0)
      modifies this, out
      ensures Outcome(r, Snapshot(out)) == Eval(ops, w, old(Snapshot(out)), args, [])
      decreases w, |args|, 0
    {
      if |args| == 1 {
        r := args[0];
      } else if |args| == 2 {
        r := Call(ops, w.inner, out, [args[0], args[1]], []);
      } else {
        var y := NAryWrap(ops, w, out, args[1..]);
        r := Call(ops, w.inner, out, [args[0], y], []);
      }
    }

    /** trace_wrap2: print the enter line, go one level deeper, call, come
        back up, print the exit line. */
    method TraceWrap(ops: ValueOps<V>, w: Wrapper<V>, out: Stdout, args: seq<V>, kwargs: KwArgs<V>) returns (r: V)
      requires w.Trace? && Admits(w, |args|, |kwargs|)
      modifies this, out
      ensures Outcome(r, Snapshot(out)) == Eval(ops, w, old(Snapshot(out)), args, kwargs)
      decreases w, |args|, 0
    {
      ghost var s := Snapshot(out);
      var shown := ArgList(ops, args);
      out.Print(EnterLine(w.indent, depth, w.name, shown));
      depth := depth + 1;
      ghost var entered := Snapshot(out);
      r := Call(ops, w.inner, out, args, kwargs);
      ghost var o := Eval(ops, w.inner, entered, args, kwargs);
      assert Eval(ops, w, s, args, kwargs) == Outcome(o.result, o.after.(depth := o.after.depth - 1,
        out := o.after.out + [ExitLine(w.indent, o.after.depth - 1, w.name, shown, ops.str(o.result))]));
      depth := depth - 1;
      out.Print(ExitLine(w.indent, depth, w.name, shown, ops.str(r)));
    }
  }
}

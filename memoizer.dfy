/** memo: a dictionary cache in the shared attribute dictionary, keyed by
    the positional arguments followed by the keyword values. The lookup of
    deco.py tests the cached value's truth, not the key's presence, so a
    cached falsy result is computed again; MemoPresent is the lookup by
    presence that the memoizer is meant to perform. */
module Memoizer {
  import opened Decorators

  /** A hit: the key holds a truthy value, which is returned; the wrapped
      function is not called and nothing in the state changes. */
  lemma MemoHit<V>(ops: ValueOps<V>, inner: Wrapper<V>, s: State<V>, args: seq<V>, kwargs: KwArgs<V>)
    requires Admits(inner, |args|, |kwargs|)
    requires Key(args, kwargs) in s.cache && ops.truthy(s.cache[Key(args, kwargs)])
    ensures Eval(ops, Memo(inner), s, args, kwargs) == Outcome(s.cache[Key(args, kwargs)], s)
  {
  }

  /** A miss (the key is absent, or holds a falsy value): the wrapped
      function's result is returned and stored under the key, on the state
      the wrapped function leaves; when no inner layer caches too, the key's
      entry is the only change to the cache the call started with. */
  lemma MemoMiss<V>(ops: ValueOps<V>, inner: Wrapper<V>, s: State<V>, args: seq<V>, kwargs: KwArgs<V>)
    requires Admits(inner, |args|, |kwargs|)
    requires var key := Key(args, kwargs); key !in s.cache || !ops.truthy(s.cache[key])
    ensures var o, i := Eval(ops, Memo(inner), s, args, kwargs), Eval(ops, inner, s, args, kwargs);
      && o.result == i.result
      && o.after == i.after.(cache := i.after.cache[Key(args, kwargs) := i.result])
      && (!Has(inner, Cache) ==> o.after == i.after.(cache := s.cache[Key(args, kwargs) := i.result]))
  {
    EvalFrame(ops, inner, s, args, kwargs);
  }

  /** Every call leaves its result under its key. */
  lemma MemoStoresResult<V>(ops: ValueOps<V>, inner: Wrapper<V>, s: State<V>, args: seq<V>, kwargs: KwArgs<V>)
    requires Admits(inner, |args|, |kwargs|)
    ensures var o := Eval(ops, Memo(inner), s, args, kwargs);
      Key(args, kwargs) in o.after.cache && o.after.cache[Key(args, kwargs)] == o.result
  {
  }

  /** A later call whose key is the same (the same positional arguments and
      keyword values, whatever the keyword names, or the same values split
      differently between the two) is served from the first call's entry,
      provided that result is truthy: same result, nothing changes. */
  lemma SameKeyServedFromCache<V>(ops: ValueOps<V>, inner: Wrapper<V>, s: State<V>,
                                  args1: seq<V>, kwargs1: KwArgs<V>, args2: seq<V>, kwargs2: KwArgs<V>)
    requires Admits(inner, |args1|, |kwargs1|) && Admits(inner, |args2|, |kwargs2|)
    requires args1 + Values(kwargs1) == args2 + Values(kwargs2)
    ensures var o := Eval(ops, Memo(inner), s, args1, kwargs1);
      ops.truthy(o.result) ==> Eval(ops, Memo(inner), o.after, args2, kwargs2) == o
  {
    MemoStoresResult(ops, inner, s, args1, kwargs1);
  }

  /** The keyword names never reach the key: renaming keywords gives the
      same key, so the renamed call is a hit on the original entry. */
  lemma KeywordNamesIgnored<V>(ops: ValueOps<V>, inner: Wrapper<V>, s: State<V>,
                               args: seq<V>, kwargs: KwArgs<V>, names: seq<string>)
    requires Admits(inner, |args|, |kwargs|)
    requires |names| == |kwargs|
    ensures var renamed := seq(|kwargs|, i requires 0 <= i < |kwargs| => (names[i], kwargs[i].1));
      && Key(args, renamed) == Key(args, kwargs)
      && var o := Eval(ops, Memo(inner), s, args, kwargs);
         ops.truthy(o.result) ==> Eval(ops, Memo(inner), o.after, args, renamed) == o
  {
    var renamed := seq(|kwargs|, i requires 0 <= i < |kwargs| => (names[i], kwargs[i].1));
    assert Values(renamed) == Values(kwargs);
    SameKeyServedFromCache(ops, inner, s, args, kwargs, args, renamed);
  }

  /** As written: a falsy result is computed again on the next call with the
      same key, so a countcalls inside memo counts that call as well. */
  lemma FalsyResultRecounted<V>(ops: ValueOps<V>, inner: Wrapper<V>, s: State<V>, args: seq<V>, kwargs: KwArgs<V>)
    requires Admits(inner, |args|, |kwargs|)
    requires !Has(inner, Counter)
    ensures var o := Eval(ops, Memo(CountCalls(inner)), s, args, kwargs);
      var again := Eval(ops, Memo(CountCalls(inner)), o.after, args, kwargs);
      !ops.truthy(o.result) ==> again.after.calls == Some(CallsRead(o.after.calls) + 1)
  {
    var o := Eval(ops, Memo(CountCalls(inner)), s, args, kwargs);
    MemoStoresResult(ops, CountCalls(inner), s, args, kwargs);
    EvalFrame(ops, inner, o.after.(calls := Some(CallsRead(o.after.calls) + 1)), args, kwargs);
  }

  /** Corrected: with the lookup by presence every later call with the same
      key is served from the cache, whatever the result's truth value. */
  lemma PresenceSameKeyServed<V>(ops: ValueOps<V>, inner: Wrapper<V>, s: State<V>,
                                 args1: seq<V>, kwargs1: KwArgs<V>, args2: seq<V>, kwargs2: KwArgs<V>)
    requires Admits(inner, |args1|, |kwargs1|) && Admits(inner, |args2|, |kwargs2|)
    requires args1 + Values(kwargs1) == args2 + Values(kwargs2)
    ensures var o := Eval(ops, MemoPresent(inner), s, args1, kwargs1);
      Eval(ops, MemoPresent(inner), o.after, args2, kwargs2) == o
  {
    var key := Key(args1, kwargs1);
    var o := Eval(ops, MemoPresent(inner), s, args1, kwargs1);
    if key !in s.cache {
      assert o == Store(Eval(ops, inner, s, args1, kwargs1), key);
    }
    assert key in o.after.cache && o.after.cache[key] == o.result;
    assert Key(args2, kwargs2) == key;
  }

  /** Corrected: the wrapped function runs exactly once for a key that was
      not cached, however many times the call is repeated, falsy result or
      not. */
  lemma {:induction false} PresenceCountsOnce<V>(ops: ValueOps<V>, inner: Wrapper<V>, s: State<V>, c: Call<V>, n: nat)
    requires Admits(inner, |c.args|, |c.kwargs|)
    requires !Has(inner, Counter)
    requires Key(c.args, c.kwargs) !in s.cache
    requires n >= 1
    ensures var run := RunAll(ops, MemoPresent(CountCalls(inner)), s, seq(n, _ => c));
      run.after.calls == Some(CallsRead(s.calls) + 1)
    decreases n
  {
    var w := MemoPresent(CountCalls(inner));
    var o := Eval(ops, w, s, c.args, c.kwargs);
    var bumped := s.(calls := Some(CallsRead(s.calls) + 1));
    EvalFrame(ops, inner, bumped, c.args, c.kwargs);
    assert Eval(ops, CountCalls(inner), s, c.args, c.kwargs) == Eval(ops, inner, bumped, c.args, c.kwargs);
    assert o == Store(Eval(ops, CountCalls(inner), s, c.args, c.kwargs), Key(c.args, c.kwargs));
    assert o.after.calls == Some(CallsRead(s.calls) + 1);
    assert Key(c.args, c.kwargs) in o.after.cache;
    var cs := seq(n, _ => c);
    assert cs[0] == c && cs[1..] == seq(n - 1, _ => c);
    RepeatsChangeNothing(ops, w, o.after, c, n - 1);
    assert RunAll(ops, w, s, cs).after == RunAll(ops, w, o.after, cs[1..]).after;
  }

  /** Repeating a call that only hits the cache leaves the state as it is. */
  lemma {:induction false} RepeatsChangeNothing<V>(ops: ValueOps<V>, w: Wrapper<V>, s: State<V>, c: Call<V>, n: nat)
    requires w.MemoPresent? && Admits(w, |c.args|, |c.kwargs|)
    requires Key(c.args, c.kwargs) in s.cache
    ensures RunAll(ops, w, s, seq(n, _ => c)).after == s
    decreases n
  {
    if n > 0 {
      assert seq(n, _ => c)[1..] == seq(n - 1, _ => c);
      RepeatsChangeNothing(ops, w, s, c, n - 1);
    }
  }
}

/** The stacks that deco.py builds for its demonstration, on integers, and
    the memo truthiness quirk on a concrete call. */
module Scenarios {
  import opened Decorators
  import Variadic
  import NAryLayer
  import Memoizer
  import Tracer

  function DigitString(n: nat): string
    decreases n
  {
    if n < 10 then [('0' as int + n) as char]
    else DigitString(n / 10) + [('0' as int + n % 10) as char]
  }

  /** str(n) for a Python int. */
  function IntString(n: int): string
  {
    if n < 0 then "-" + DigitString(-n) else DigitString(n)
  }

  /** Python's truth value and str() on int: 0 is the only falsy int. */
  const Ints: ValueOps<int> := ValueOps(x => x != 0, IntString)

  const Fresh: State<int> := State(None, map[], 0, [])

  /** add(a, b), wrapped as Base(Add, 2): its two arguments are the
      positional ones followed by the keyword values. Addition is
      commutative, so the names that bind the keyword values do not change
      the sum. */
  function Add(a: seq<int>, k: KwArgs<int>): int
  {
    var xs := a + Values(k);
    if |xs| == 2 then xs[0] + xs[1] else 0
  }

  /** mul(a, b), wrapped as Base(Mul, 2) like Add. */
  function Mul(a: seq<int>, k: KwArgs<int>): int
  {
    var xs := a + Values(k);
    if |xs| == 2 then xs[0] * xs[1] else 0
  }

  /** add(1, b=2) through memo(countcalls(add)) is 3, cached under (1, 2). */
  lemma AddWithKeyword()
    ensures var w := Memo(CountCalls(Base(Add, 2)));
      Admits(w, 1, 1) && Eval(Ints, w, Fresh, [1], [("b", 2)]) == Outcome(3, State(Some(1), map[[1, 2] := 3], 0, []))
  {
    assert Values([("b", 2)]) == [2];
    assert Key([1], [("b", 2)]) == [1, 2];
    assert Add([1], [("b", 2)]) == 3;
    var s1 := Fresh.(calls := Some(1));
    assert Eval(Ints, CountCalls(Base(Add, 2)), Fresh, [1], [("b", 2)]) == Outcome(3, s1);
  }

  /** memo(countcalls(add))(1, 2, 3) raises in add, so it is not a call with
      a normal outcome; n_ary makes the same three arguments acceptable. */
  lemma AddArity()
    ensures !Admits(Memo(CountCalls(Base(Add, 2))), 3, 0)
    ensures Admits(NAry(Memo(CountCalls(Base(Add, 2)))), 3, 0)
  {
    assert !Admits(CountCalls(Base(Add, 2)), 3, 0);
    assert Admits(CountCalls(Base(Add, 2)), 2, 0);
    assert Admits(Memo(CountCalls(Base(Add, 2))), 2, 0);
  }

  /** A miss of memo(countcalls(g)), the key being absent or holding 0: g
      runs once and its result is stored under the arguments. */
  lemma CountedMemoMiss(g: (seq<int>, KwArgs<int>) -> int, s: State<int>, args: seq<int>)
    requires |args| == 2
    requires args !in s.cache || s.cache[args] == 0
    ensures Eval(Ints, Memo(CountCalls(Base(g, 2))), s, args, [])
         == Outcome(g(args, []), s.(calls := Some(CallsRead(s.calls) + 1), cache := s.cache[args := g(args, [])]))
  {
    assert Key(args, []) == args;
    var s1 := s.(calls := Some(CallsRead(s.calls) + 1));
    assert Eval(Ints, CountCalls(Base(g, 2)), s, args, []) == Outcome(g(args, []), s1);
  }

  /** Two calls in a row. */
  lemma RunTwo<V>(ops: ValueOps<V>, w: Wrapper<V>, s: State<V>, c: Call<V>, cs: seq<Call<V>>)
    requires Admits(w, |c.args|, |c.kwargs|) && AdmitsAll(w, cs)
    ensures AdmitsAll(w, [c] + cs)
    ensures var o := Eval(ops, w, s, c.args, c.kwargs);
      var rest := RunAll(ops, w, o.after, cs);
      RunAll(ops, w, s, [c] + cs) == Session([o.result] + rest.results, rest.after)
  {
    assert ([c] + cs)[1..] == cs;
    assert forall i :: 0 < i < |[c] + cs| ==> ([c] + cs)[i] == cs[i - 1];
  }

  /** foo(4, 3, 2) from a fresh dictionary: add runs for (3, 2), then for
      (4, 5). */
  lemma FooFirstCall()
    ensures Admits(NAry(Memo(CountCalls(Base(Add, 2)))), 3, 0)
    ensures Eval(Ints, NAry(Memo(CountCalls(Base(Add, 2)))), Fresh, [4, 3, 2], [])
         == Outcome(9, State(Some(2), map[[3, 2] := 5, [4, 5] := 9], 0, []))
  {
    var foo := NAry(Memo(CountCalls(Base(Add, 2))));
    assert Admits(CountCalls(Base(Add, 2)), 2, 0);
    CountedMemoMiss(Add, Fresh, [3, 2]);
    var s1 := State(Some(1), map[[3, 2] := 5], 0, []);
    assert Eval(Ints, foo, Fresh, [3, 2], []) == Outcome(5, s1);
    CountedMemoMiss(Add, s1, [4, 5]);
    assert [4, 3, 2][1..] == [3, 2];
  }

  /** foo(4, 3) next: the key (4, 3) is new, so add runs a third time. */
  lemma FooSecondCall()
    ensures Admits(NAry(Memo(CountCalls(Base(Add, 2)))), 2, 0)
    ensures Eval(Ints, NAry(Memo(CountCalls(Base(Add, 2)))), State(Some(2), map[[3, 2] := 5, [4, 5] := 9], 0, []), [4, 3], [])
         == Outcome(7, State(Some(3), map[[3, 2] := 5, [4, 5] := 9, [4, 3] := 7], 0, []))
  {
    assert Admits(CountCalls(Base(Add, 2)), 2, 0);
    CountedMemoMiss(Add, State(Some(2), map[[3, 2] := 5, [4, 5] := 9], 0, []), [4, 3]);
  }

  /** foo = n_ary(memo(countcalls(add))) called with (4, 3, 2), (4, 3) and
      (4): the results are 9, 7 and 4, and add ran three times, for the keys
      (3, 2), (4, 5) and (4, 3); the single argument never reaches it. */
  lemma FooScenario()
    ensures var foo := NAry(Memo(CountCalls(Base(Add, 2))));
      var cs := [Call([4, 3, 2], []), Call([4, 3], []), Call([4], [])];
      AdmitsAll(foo, cs) && var run := RunAll(Ints, foo, Fresh, cs);
      run.results == [9, 7, 4] && run.after.calls == Some(3)
  {
    var foo := NAry(Memo(CountCalls(Base(Add, 2))));
    FooFirstCall();
    FooSecondCall();
    var s2 := State(Some(2), map[[3, 2] := 5, [4, 5] := 9], 0, []);
    var s3 := State(Some(3), map[[3, 2] := 5, [4, 5] := 9, [4, 3] := 7], 0, []);
    assert Eval(Ints, foo, s3, [4], []) == Outcome(4, s3);
    RunTwo(Ints, foo, s3, Call([4], []), []);
    RunTwo(Ints, foo, s2, Call([4, 3], []), [Call([4], [])]);
    RunTwo(Ints, foo, Fresh, Call([4, 3, 2], []), [Call([4, 3], []), Call([4], [])]);
  }

  /** A miss of memo(n_ary(countcalls(g))): the fold runs, g runs once per
      folded pair, and the fold's result is stored under the whole argument
      list. */
  lemma MemoOverNAryMiss(g: (seq<int>, KwArgs<int>) -> int, s: State<int>, args: seq<int>)
    requires |args| >= 2 && args !in s.cache
    ensures Admits(Memo(NAry(CountCalls(Base(g, 2)))), |args|, 0)
    ensures var v := Variadic.NAry(NAryLayer.Binary(g), args);
      Eval(Ints, Memo(NAry(CountCalls(Base(g, 2)))), s, args, [])
        == Outcome(v, s.(calls := Some(CallsRead(s.calls) + |args| - 1), cache := s.cache[args := v]))
  {
    assert Key(args, []) == args;
    var w := NAry(CountCalls(Base(g, 2)));
    assert Admits(CountCalls(Base(g, 2)), 2, 0);
    NAryLayer.NAryCountsEveryPair(Ints, g, s, args);
    assert Eval(Ints, Memo(w), s, args, []) == Store(Eval(Ints, w, s, args, []), args);
  }

  /** The products bar folds: 4 * 3, 4 * (3 * 2) and 4 * (3 * (2 * 1)). */
  lemma BarFolds()
    ensures var mul := NAryLayer.Binary(Mul);
      && Variadic.NAry(mul, [4, 3]) == 12
      && Variadic.NAry(mul, [4, 3, 2]) == 24
      && Variadic.NAry(mul, [4, 3, 2, 1]) == 24
  {
    var mul := NAryLayer.Binary(Mul);
    assert mul(4, 3) == Mul([4, 3], []) == 12;
    assert mul(3, 2) == Mul([3, 2], []) == 6;
    assert mul(2, 1) == Mul([2, 1], []) == 2;
    assert mul(4, 6) == Mul([4, 6], []) == 24;
    assert mul(3, 2) == Mul([3, 2], []) == 6;
    assert [4, 3, 2][1..] == [3, 2];
    assert [4, 3, 2, 1][1..] == [3, 2, 1] && [3, 2, 1][1..] == [2, 1];
    assert Variadic.NAry(mul, [3, 2, 1]) == 6;
  }

  /** The three calls of bar, each a miss on a new argument list. */
  lemma BarCalls()
    ensures var bar := Memo(NAry(CountCalls(Base(Mul, 2))));
      && Admits(bar, 2, 0) && Admits(bar, 3, 0) && Admits(bar, 4, 0)
      && Eval(Ints, bar, Fresh, [4, 3], [])
         == Outcome(12, State(Some(1), map[[4, 3] := 12], 0, []))
      && Eval(Ints, bar, State(Some(1), map[[4, 3] := 12], 0, []), [4, 3, 2], [])
         == Outcome(24, State(Some(3), map[[4, 3] := 12, [4, 3, 2] := 24], 0, []))
      && Eval(Ints, bar, State(Some(3), map[[4, 3] := 12, [4, 3, 2] := 24], 0, []), [4, 3, 2, 1], [])
         == Outcome(24, State(Some(6), map[[4, 3] := 12, [4, 3, 2] := 24, [4, 3, 2, 1] := 24], 0, []))
  {
    BarFolds();
    MemoOverNAryMiss(Mul, Fresh, [4, 3]);
    MemoOverNAryMiss(Mul, State(Some(1), map[[4, 3] := 12], 0, []), [4, 3, 2]);
    MemoOverNAryMiss(Mul, State(Some(3), map[[4, 3] := 12, [4, 3, 2] := 24], 0, []), [4, 3, 2, 1]);
  }

  /** bar = memo(n_ary(countcalls(mul))) called with (4, 3), (4, 3, 2) and
      (4, 3, 2, 1): the results are 12, 24 and 24, and since memo sees only
      whole argument lists, mul ran once per folded pair: 1 + 2 + 3 times. */
  lemma BarScenario()
    ensures var bar := Memo(NAry(CountCalls(Base(Mul, 2))));
      var cs := [Call([4, 3], []), Call([4, 3, 2], []), Call([4, 3, 2, 1], [])];
      AdmitsAll(bar, cs) && var run := RunAll(Ints, bar, Fresh, cs);
      run.results == [12, 24, 24] && run.after.calls == Some(6)
  {
    var bar := Memo(NAry(CountCalls(Base(Mul, 2))));
    BarCalls();
    var s1 := State(Some(1), map[[4, 3] := 12], 0, []);
    var s2 := State(Some(3), map[[4, 3] := 12, [4, 3, 2] := 24], 0, []);
    RunTwo(Ints, bar, s2, Call([4, 3, 2, 1], []), []);
    RunTwo(Ints, bar, s1, Call([4, 3, 2], []), [Call([4, 3, 2, 1], [])]);
    RunTwo(Ints, bar, Fresh, Call([4, 3], []), [Call([4, 3, 2], []), Call([4, 3, 2, 1], [])]);
  }

  /** trace("____") around add, called with (4, 3) at depth 0: the two
      lines " --> add(4, 3)" and " <-- add(4, 3) == 7". */
  lemma TraceFormat()
    ensures var o := Eval(Ints, Trace("____", "add", Base(Add, 2)), Fresh, [4, 3], []);
      o.result == 7 && o.after.out == [" --> add(4, 3)", " <-- add(4, 3) == 7"] && o.after.depth == 0
  {
    var shown := ArgList(Ints, [4, 3]);
    assert Ints.str(4) == IntString(4) == "4";
    assert Ints.str(3) == IntString(3) == "3";
    assert Ints.str(7) == IntString(7) == "7";
    assert Strs(Ints, [4, 3]) == ["4", "3"];
    assert ["4", "3"][1..] == ["3"];
    assert Join(", ", ["4", "3"]) == "4, 3";
    assert shown == "(4, 3)";
    assert Repeat("____", 0) == "";
    assert EnterLine("____", 0, "add", shown) == " --> add(4, 3)";
    assert ExitLine("____", 0, "add", shown, "7") == " <-- add(4, 3) == 7";
    assert Eval(Ints, Base(Add, 2), Fresh, [4, 3], []).result == 7;
    Tracer.TraceLines(Ints, "____", "add", Base(Add, 2), Fresh, [4, 3], []);
    Tracer.TraceTransparent(Ints, "____", "add", Base(Add, 2), Fresh, [4, 3], []);
  }

  /** As written: foo(0, 0) twice. n_ary passes the pair to memo, whose
      entry for (0, 0) holds 0, which is falsy, so the second call misses
      as well and add runs again: the counter reads 2, not 1. */
  lemma FooZeroRecounted()
    ensures var foo := NAry(Memo(CountCalls(Base(Add, 2))));
      var cs := [Call([0, 0], []), Call([0, 0], [])];
      AdmitsAll(foo, cs) && var run := RunAll(Ints, foo, Fresh, cs);
      run.results == [0, 0] && run.after.calls == Some(2)
  {
    var foo := NAry(Memo(CountCalls(Base(Add, 2))));
    assert Admits(CountCalls(Base(Add, 2)), 2, 0);
    assert Admits(Memo(CountCalls(Base(Add, 2))), 2, 0);
    CountedMemoMiss(Add, Fresh, [0, 0]);
    var s1 := State(Some(1), map[[0, 0] := 0], 0, []);
    assert Eval(Ints, foo, Fresh, [0, 0], []) == Outcome(0, s1);
    CountedMemoMiss(Add, s1, [0, 0]);
    var s2 := State(Some(2), map[[0, 0] := 0], 0, []);
    assert Eval(Ints, foo, s1, [0, 0], []) == Outcome(0, s2);
    RunTwo(Ints, foo, s1, Call([0, 0], []), []);
    RunTwo(Ints, foo, Fresh, Call([0, 0], []), [Call([0, 0], [])]);
  }

  /** Corrected: with the lookup by presence, the second foo(0, 0) is served
      from the cache and add ran once. */
  lemma FooZeroCachedByPresence()
    ensures var foo := NAry(MemoPresent(CountCalls(Base(Add, 2))));
      var cs := [Call([0, 0], []), Call([0, 0], [])];
      AdmitsAll(foo, cs) && var run := RunAll(Ints, foo, Fresh, cs);
      run.results == [0, 0] && run.after.calls == Some(1)
  {
    var inner := MemoPresent(CountCalls(Base(Add, 2)));
    var foo := NAry(inner);
    assert Admits(CountCalls(Base(Add, 2)), 2, 0);
    assert Admits(inner, 2, 0);
    assert Key([0, 0], []) == [0, 0];
    var s0 := Fresh.(calls := Some(1));
    assert Eval(Ints, Base(Add, 2), s0, [0, 0], []) == Outcome(0, s0);
    assert Eval(Ints, CountCalls(Base(Add, 2)), Fresh, [0, 0], []) == Outcome(0, s0);
    var s1 := State(Some(1), map[[0, 0] := 0], 0, []);
    assert Eval(Ints, inner, Fresh, [0, 0], []) == Outcome(0, s1);
    assert Eval(Ints, foo, Fresh, [0, 0], []) == Outcome(0, s1);
    assert Eval(Ints, foo, s1, [0, 0], []) == Outcome(0, s1);
    RunTwo(Ints, foo, s1, Call([0, 0], []), []);
    RunTwo(Ints, foo, Fresh, Call([0, 0], []), [Call([0, 0], [])]);
  }
}

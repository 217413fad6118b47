/**
  `lua::function` on the native side: a shared, immutable box of a
  `(tuple) -> tuple` callable, built either from a function pointer (arity =
  parameter count) or from a closure with an explicit arity `N`. The
  per-parameter conversions of the callable's C++ parameter types are part of
  the callable `f` itself (see module Values for the conversions).
*/
module Functions {

  import opened Values
  import opened Tuples

  datatype Function = Boxed(box: Tuple -> Tuple)

  /** `call(t)`: whatever the boxed callable returns on `t`. */
  function Call(fn: Function, t: Tuple): (r: Tuple)
    ensures r == fn.box(t)
  {
    fn.box(t)
  }

  /**
    `function(R (*f)(Args...))` with `arity` = `sizeof...(Args)`, and
    `function(args<N>, f)` with `arity` = `N`: both box `t.apply(...)`.
  */
  function Native(arity: nat, f: seq<Value> -> NativeResult): (fn: Function)
    ensures forall t: Tuple :: fn.box(t) == Repack(f(Elements(Resize(t, arity))))
  {
    Boxed(t => Apply(t, arity, f))
  }

  /** `operator()(args...)`: a call with a tuple of exactly those arguments. */
  function Invoke(fn: Function, args: seq<Value>): (r: Tuple)
    ensures forall t: Tuple {:trigger Call(fn, t)} :: Elements(t) == args ==> r == Call(fn, t)
  {
    Call(fn, Make(args))
  }

  /** `operator()(returns<N>, args...)`: the call's result expanded to exactly `n` values. */
  function InvokeReturning(fn: Function, n: nat, args: seq<Value>): (r: seq<Value>)
    ensures |r| == n
    ensures forall i :: 0 <= i < n ==> r[i] == At(Invoke(fn, args), i)
  {
    Expand(Invoke(fn, args), n)
  }

  /**
    A native function of arity `n` hands its callable exactly `n` values: the
    tuple's elements cut or nil-padded to `n`; the result is repacked.
  */
  lemma NativeCallSeesArity(n: nat, f: seq<Value> -> NativeResult, t: Tuple)
    ensures Call(Native(n, f), t) == Repack(f(Elements(Resize(t, n))))
    ensures Call(Native(n, f), t) ==
      Repack(f(if n <= Size(t) then Elements(t)[..n] else Elements(t) + Nils(n - Size(t))))
  {
    ExpandTruncatesOrPads(t, n);
  }

  /** Calling with fewer arguments than the arity is calling with them nil-padded to the arity. */
  lemma {:induction false} InvokePadsMissingArguments(n: nat, f: seq<Value> -> NativeResult, args: seq<Value>)
    requires |args| <= n
    ensures Invoke(Native(n, f), args) == Invoke(Native(n, f), args + Nils(n - |args|))
    ensures Invoke(Native(n, f), args) == Repack(f(args + Nils(n - |args|)))
  {
    var padded := args + Nils(n - |args|);
    ApplyMissingArgumentsAreNil(args, n, f);
    ApplyExtraArgumentsIgnored(padded, [], n, f);
    assert padded + [] == padded;
    assert padded[..n] == padded;
  }

  /** Arguments beyond the arity are ignored. */
  lemma {:induction false} InvokeIgnoresExtraArguments(n: nat, f: seq<Value> -> NativeResult,
                                                       args: seq<Value>, extra: seq<Value>)
    requires n <= |args|
    ensures Invoke(Native(n, f), args + extra) == Invoke(Native(n, f), args)
  {
    ApplyExtraArgumentsIgnored(args, extra, n, f);
  }

  /**
    Requesting `n` results gives the first `n` values the call produced, and
    nil for every position past what it produced.
  */
  lemma {:induction false} InvokeReturningPadsResults(fn: Function, n: nat, args: seq<Value>)
    ensures var res := Invoke(fn, args);
      InvokeReturning(fn, n, args) ==
        if n <= Size(res) then Elements(res)[..n] else Elements(res) + Nils(n - Size(res))
  {
    ExpandTruncatesOrPads(Invoke(fn, args), n);
  }

  /**
    Result repacking seen through a call: a single returned value is the only
    result, and `void` gives no results, whatever the arguments.
  */
  lemma {:induction false} NativeResultShapes(n: nat, f: seq<Value> -> NativeResult, args: seq<Value>, k: nat)
    ensures f(Expand(Make(args), n)).ReturnsVoid? ==>
      Size(Invoke(Native(n, f), args)) == 0 && InvokeReturning(Native(n, f), k, args) == Nils(k)
    ensures f(Expand(Make(args), n)).ReturnsValue? && k >= 1 ==>
      InvokeReturning(Native(n, f), k, args) == [f(Expand(Make(args), n)).v] + Nils(k - 1)
  {
    var res := Invoke(Native(n, f), args);
    InvokeReturningPadsResults(Native(n, f), k, args);
    if f(Expand(Make(args), n)).ReturnsValue? && k >= 1 {
      assert Elements(res) == [f(Expand(Make(args), n)).v];
      if k == 1 {
        assert Elements(res)[..1] == Elements(res) + Nils(0);
      }
    }
    if f(Expand(Make(args), n)).ReturnsVoid? {
      assert Elements(res) + Nils(k) == Nils(k);
    }
  }
}

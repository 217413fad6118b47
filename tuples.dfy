/**
  `lua::tuple` as a value: the stored vector of a tuple, i.e. its logical
  elements followed by one trailing nil sentinel, and the read-only
  operations over it (`size`, `at`, `expand`, `apply`, conversion to the first
  value). Mutation in place is in module TupleObject.
*/
module Tuples {

  import opened Values
  import opened Wrappers

  /** A stored vector: never empty, since `size()` is its length minus one. */
  type Stored = s: seq<Value> | |s| >= 1 witness [Nil]

  /** The intended invariant: the last stored element is the nil sentinel. */
  predicate IsTuple(s: seq<Value>) {
    |s| >= 1 && s[|s| - 1] == Nil
  }

  /** A well-formed tuple. */
  type Tuple = s: seq<Value> | IsTuple(s) witness [Nil]

  /** A run of `n` nils. */
  function Nils(n: nat): (r: seq<Value>)
    ensures |r| == n && forall i :: 0 <= i < n ==> r[i] == Nil
  {
    seq(n, _ => Nil)
  }

  /**
    `size()`: the stored length minus the sentinel, i.e. the index of the last
    stored slot, which holds nil exactly when the stored vector is a tuple.
  */
  function Size(s: Stored): (r: nat)
    ensures r + 1 == |s|
    ensures s[r] == s[|s| - 1]
    ensures IsTuple(s) <==> s[r] == Nil
  {
    |s| - 1
  }

  /** The logical elements, sentinel excluded. */
  function Elements(s: Stored): (r: seq<Value>)
    ensures |r| == Size(s)
    ensures s == r + [s[|s| - 1]]
  {
    s[..Size(s)]
  }

  /**
    `tuple(std::vector<value>)` and the variadic constructor: the arguments in
    order, then one nil.
  */
  function Make(args: seq<Value>): (t: Tuple)
    ensures Size(t) == |args| && Elements(t) == args
  {
    args + [Nil]
  }

  /** A tuple is determined by its logical elements. */
  lemma MakeElementsRoundTrip(t: Tuple)
    ensures Make(Elements(t)) == t
  {
    assert Elements(t) + [Nil] == t;
  }

  /**
    `at(i)`: the stored element, or the last stored element for any index past
    the end. On a well-formed tuple every index at or past `size()` reads nil.
  */
  function At(s: Stored, i: nat): (r: Value)
    ensures i < |s| ==> r == s[i]
    ensures i >= |s| ==> r == s[|s| - 1]
    ensures IsTuple(s) ==> r == if i < Size(s) then s[i] else Nil
  {
    if i < |s| then s[i] else s[|s| - 1]
  }

  /** `operator const value&`: the first stored element, nil for an empty tuple. */
  function First(s: Stored): (r: Value)
    ensures r == At(s, 0)
    ensures IsTuple(s) && Size(s) == 0 ==> r == Nil
  {
    s[0]
  }

  /**
    `expand<N>()`: exactly `n` values, element `i` being `at(i)`; positions at
    or past `size()` are nil.
  */
  function Expand(s: Stored, n: nat): (r: seq<Value>)
    ensures |r| == n
    ensures forall i :: 0 <= i < n ==> r[i] == At(s, i)
  {
    seq(n, i requires 0 <= i < n => At(s, i))
  }

  /** `expand<N>` of a tuple truncates its elements to `n`, or pads them with nils up to `n`. */
  lemma ExpandTruncatesOrPads(t: Tuple, n: nat)
    ensures Expand(t, n) ==
      if n <= Size(t) then Elements(t)[..n] else Elements(t) + Nils(n - Size(t))
  {
    var r := if n <= Size(t) then Elements(t)[..n] else Elements(t) + Nils(n - Size(t));
    assert |r| == n;
    forall i | 0 <= i < n ensures Expand(t, n)[i] == r[i] {
      if i < Size(t) {
        assert r[i] == t[i];
      } else {
        assert r[i] == Nil;
      }
    }
  }

  /** `std::vector<value>::resize(m)`: truncate to `m`, or pad with nils up to `m`. */
  function VectorResize(v: seq<Value>, m: nat): (r: seq<Value>)
    ensures |r| == m
    ensures forall i :: 0 <= i < m ==> r[i] == if i < |v| then v[i] else Nil
  {
    if m <= |v| then v[..m] else v + Nils(m - |v|)
  }

  /**
    `resize(n)` as written: the stored vector, whatever its last element, is
    resized to `n + 1`. Slots up to `n` keep their old contents and new slots
    are nil; when it shrinks, the old element at index `n` becomes the last
    stored one, where the sentinel belongs.
  */
  function ResizeAsWritten(s: Stored, n: nat): (r: Stored)
    ensures Size(r) == n
    ensures forall i :: 0 <= i <= n ==> r[i] == if i < |s| then s[i] else Nil
  {
    VectorResize(s, n + 1)
  }

  /**
    `resize(n)` corrected to keep the sentinel: the first `n` elements as `at`
    reads them, then nil.
  */
  function Resize(t: Tuple, n: nat): (r: Tuple)
    ensures Size(r) == n
    ensures Elements(r) == Expand(t, n)
  {
    var v := VectorResize(t, n + 1);
    v[..n] + [Nil]
  }

  /**
    Shrinking with the resize as written keeps the tuple well formed exactly
    when the element that becomes the sentinel is nil; whenever it does, it
    agrees with the corrected resize.
  */
  lemma {:induction false} ResizeAsWrittenKeepsSentinelIff(t: Tuple, n: nat)
    ensures IsTuple(ResizeAsWritten(t, n)) <==> n >= Size(t) || t[n] == Nil
    ensures IsTuple(ResizeAsWritten(t, n)) ==> ResizeAsWritten(t, n) == Resize(t, n)
  {
    var r := ResizeAsWritten(t, n);
    if IsTuple(r) {
      assert r[..n] == Resize(t, n)[..n];
      assert r == r[..n] + [Nil];
    }
  }

  /**
    The discrepancy: resizing `{1, 2}` to one element as written leaves `2` as
    the sentinel, so `at(5)` reads `2` instead of nil.
  */
  lemma ResizeAsWrittenCounterexample()
    ensures var r := ResizeAsWritten(Make([Integer(1), Integer(2)]), 1);
      Size(r) == 1 && At(r, 5) == Integer(2) && !IsTuple(r)
    ensures At(Resize(Make([Integer(1), Integer(2)]), 1), 5) == Nil
  {
    var r := ResizeAsWritten(Make([Integer(1), Integer(2)]), 1);
    assert r == [Integer(1), Integer(2)];
  }

  /**
    The stale sentinel does not stay hidden: resizing `{1, 2}` to one element
    and back to two as written gives `{1, 2}` again, where the corrected resize
    gives `{1, nil}`.
  */
  lemma ShrinkThenGrowResurrects()
    ensures Elements(ResizeAsWritten(ResizeAsWritten(Make([Integer(1), Integer(2)]), 1), 2)) ==
      [Integer(1), Integer(2)]
    ensures Elements(Resize(Resize(Make([Integer(1), Integer(2)]), 1), 2)) == [Integer(1), Nil]
  {
    var r := ResizeAsWritten(ResizeAsWritten(Make([Integer(1), Integer(2)]), 1), 2);
    assert r == [Integer(1), Integer(2), Nil];
    var c := Resize(Resize(Make([Integer(1), Integer(2)]), 1), 2);
    assert c == [Integer(1), Nil, Nil];
  }

  /**
    The mutable `operator[]` of src/type.cpp as written, followed by a write of
    `v`: it throws `out_of_range` only when `i` is past the STORED length, so
    the sentinel slot at `size()` can be overwritten.
  */
  function CheckedWriteAsWritten(s: Stored, i: nat, v: Value): (r: (Outcome, Stored))
    ensures r.0 == Fail(OutOfRange) <==> i >= |s|
    ensures r.0.Pass? ==> r.1 == s[i := v]
    ensures r.0.Fail? ==> r.1 == s
  {
    if i >= |s| then (Fail(OutOfRange), s) else (Pass, s[i := v])
  }

  /**
    The discrepancy: writing `true` at index 0 of an empty tuple is accepted,
    and afterwards every past-the-end read gives `true`.
  */
  lemma CheckedWriteAsWrittenCounterexample()
    ensures var r := CheckedWriteAsWritten(Make([]), 0, Boolean(true));
      r.0 == Pass && Size(r.1) == 0 && At(r.1, 7) == Boolean(true) && !IsTuple(r.1)
  {
  }

  /**
    What a native callable returns, by the kind of its C++ return type: a
    tuple, `void`, or any other value.
  */
  datatype NativeResult = ReturnsTuple(t: Tuple) | ReturnsVoid | ReturnsValue(v: Value)

  /**
    Result repacking of `apply`: a tuple passes through, `void` gives an empty
    tuple and any other value a one-element tuple.
  */
  function Repack(res: NativeResult): (t: Tuple)
    ensures res.ReturnsTuple? ==> t == res.t
    ensures res.ReturnsVoid? ==> Size(t) == 0
    ensures res.ReturnsValue? ==> Elements(t) == [res.v] && First(t) == res.v
  {
    match res
    case ReturnsTuple(r) => r
    case ReturnsVoid => Make([])
    case ReturnsValue(v) => Make([v])
  }

  /**
    `apply(f)` with arity `n` (the parameter count of a function pointer, or
    the explicit `N`): `f` receives `at(0)`, ..., `at(n - 1)`.
  */
  function Apply(s: Stored, n: nat, f: seq<Value> -> NativeResult): (r: Tuple)
    ensures IsTuple(s) ==> r == Repack(f(Elements(Resize(s, n))))
  {
    Repack(f(Expand(s, n)))
  }

  /** Missing arguments are nil: fewer elements than the arity are padded with nils. */
  lemma {:induction false} ApplyMissingArgumentsAreNil(args: seq<Value>, n: nat, f: seq<Value> -> NativeResult)
    requires |args| <= n
    ensures Apply(Make(args), n, f) == Repack(f(args + Nils(n - |args|)))
  {
    ExpandTruncatesOrPads(Make(args), n);
    if n == |args| {
      assert args + Nils(0) == args == Elements(Make(args))[..n];
    }
  }

  /** Extra arguments are ignored: only the first `n` elements reach `f`. */
  lemma {:induction false} ApplyExtraArgumentsIgnored(args: seq<Value>, extra: seq<Value>, n: nat,
                                                      f: seq<Value> -> NativeResult)
    requires n <= |args|
    ensures Apply(Make(args + extra), n, f) == Apply(Make(args), n, f)
    ensures Apply(Make(args), n, f) == Repack(f(args[..n]))
  {
    ExpandTruncatesOrPads(Make(args + extra), n);
    ExpandTruncatesOrPads(Make(args), n);
    assert (args + extra)[..n] == args[..n];
  }
}

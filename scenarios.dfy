/**
  The behaviour the value tests pin down (test/value.cpp), stated over the
  model: truthiness, equality, narrowing and the calling conventions of
  native functions with missing, extra and mistyped arguments.
*/
module Scenarios {

  import opened Wrappers
  import UD = Userdata
  import opened Values
  import opened Tuples
  import opened Functions

  /** The `i`-th parameter a callable receives (it always receives its full arity). */
  function Arg(a: seq<Value>, i: nat): Value {
    if i < |a| then a[i] else Nil
  }

  /** `[](value a, value b, value c) { return tuple{(bool)a, (bool)b, (bool)c}; }` */
  function Truths(a: seq<Value>): NativeResult {
    ReturnsTuple(Make([Boolean(Truthy(Arg(a, 0))), Boolean(Truthy(Arg(a, 1))), Boolean(Truthy(Arg(a, 2)))]))
  }

  function Bools(bs: seq<bool>): (r: seq<Value>)
    ensures |r| == |bs| && forall i :: 0 <= i < |bs| ==> r[i] == Boolean(bs[i])
  {
    seq(|bs|, i requires 0 <= i < |bs| => Boolean(bs[i]))
  }

  /**
    The basic value checks: truthiness, equality, the `is_*` predicates, the
    empty `optional<string>` of nil and narrowing to `variant<nil, integer, floating>`.
  */
  lemma BasicValues()
    ensures !Truthy(Nil) && Truthy(Integer(1)) && Truthy(Floating(1.0)) && Truthy(String("1"))
    ensures !Truthy(Boolean(false)) && Truthy(Boolean(true))
    ensures Equal(Nil, Nil) && Equal(Integer(1), Floating(1.0)) && Equal(String("1"), String("1"))
    ensures Equal(Boolean(false), Boolean(false)) && Equal(Boolean(true), Boolean(true))
    ensures !Equal(Nil, Integer(1)) && !Equal(Integer(1), String("1")) && !Equal(Nil, Boolean(true))
    ensures Is(Nil, NilTag) && Is(Integer(1), IntegerTag) && Is(Floating(1.0), FloatingTag)
    ensures Is(String("1"), StringTag) && Is(Boolean(false), BooleanTag) && Is(Boolean(true), BooleanTag)
    ensures ToOptionalString(Nil) == None
    ensures Narrow(Integer(1), {IntegerTag, FloatingTag}) == Integer(1)
    ensures Narrow(Floating(1.0), {IntegerTag, FloatingTag}) == Floating(1.0)
  {
  }

  /** A userdata made in place casts to its type and to the const-qualified type. */
  lemma UserdataCasts(custom: nat, obj: nat)
    ensures var g := Userdata(UD.FromObject(UD.NativeType(custom, false, false), obj));
      Is(g, UserdataTag) &&
      ToSharedPtr(g, UD.NativeType(custom, false, false)) == UD.Ptr(obj) &&
      ToSharedPtr(g, UD.NativeType(custom, true, false)) == UD.Ptr(obj)
  {
  }

  /** Padding the arguments with nil does not change what the truthiness function sees. */
  lemma {:induction false} TruthsOfPadded(args: seq<Value>)
    requires |args| <= 3
    ensures Truths(args + Nils(3 - |args|)) ==
      ReturnsTuple(Make(Bools([Truthy(Arg(args, 0)), Truthy(Arg(args, 1)), Truthy(Arg(args, 2))])))
  {
    var padded := args + Nils(3 - |args|);
    assert Arg(padded, 0) == Arg(args, 0);
    assert Arg(padded, 1) == Arg(args, 1);
    assert Arg(padded, 2) == Arg(args, 2);
  }

  /**
    What the truthiness function reports for up to three arguments, with `k`
    results requested.
  */
  lemma {:induction false} TruthsResult(args: seq<Value>, k: nat)
    requires |args| <= 3 <= k
    ensures InvokeReturning(Native(3, Truths), k, args) ==
      Bools([Truthy(Arg(args, 0)), Truthy(Arg(args, 1)), Truthy(Arg(args, 2))]) + Nils(k - 3)
  {
    var bs := Bools([Truthy(Arg(args, 0)), Truthy(Arg(args, 1)), Truthy(Arg(args, 2))]);
    InvokePadsMissingArguments(3, Truths, args);
    TruthsOfPadded(args);
    var res := Invoke(Native(3, Truths), args);
    assert res == Make(bs);
    assert Size(res) == 3 && Elements(res) == bs;
    InvokeReturningPadsResults(Native(3, Truths), k, args);
    assert bs[..3] == bs + Nils(0);
  }

  /** With no arguments every parameter is nil, so every result is false. */
  lemma {:induction false} NoArgumentsAllFalse()
    ensures InvokeReturning(Native(3, Truths), 3, []) == Bools([false, false, false])
  {
    TruthsResult([], 3);
  }

  /** Missing arguments are nil. */
  lemma {:induction false} MissingArgumentsFalse()
    ensures InvokeReturning(Native(3, Truths), 3, [Floating(1.0), Floating(2.0)]) == Bools([true, true, false])
  {
    TruthsResult([Floating(1.0), Floating(2.0)], 3);
  }

  /** Extra requested returns are nil, and a nil argument is falsy. */
  lemma {:induction false} ExtraReturnsNil()
    ensures InvokeReturning(Native(3, Truths), 4, [Floating(1.0), Nil, Floating(2.0)]) ==
      Bools([true, false, true]) + [Nil]
  {
    TruthsResult([Floating(1.0), Nil, Floating(2.0)], 4);
  }

  /** Integer 0 and floating 0.0 are truthy; only false is falsy. */
  lemma {:induction false} ZerosAreTruthy()
    ensures InvokeReturning(Native(3, Truths), 3, [Boolean(false), Integer(0), Floating(0.0)]) ==
      Bools([false, true, true])
  {
    TruthsResult([Boolean(false), Integer(0), Floating(0.0)], 3);
  }

  /** A `void` function of no parameters ignores its arguments and returns nothing. */
  lemma {:induction false} VoidIgnoresArguments()
    ensures Size(Invoke(Native(0, _ => ReturnsVoid), [Floating(1.0), Floating(2.0), Floating(3.0)])) == 0
  {
  }

  /** An explicit arity of 2 with a string result: the call converts to that string. */
  lemma {:induction false} ExplicitArityResult()
    ensures Is(First(Invoke(Native(2, _ => ReturnsValue(String("hello"))), [])), StringTag)
  {
  }

  /**
    `[](std::shared_ptr<const custom> a, std::optional<floating> b,
    std::variant<nil, integer, floating> c)` returning whether `a` is non-null,
    whether `b` is present and whether `c` holds a floating.
  */
  function Conversions(custom: nat, a: seq<Value>): NativeResult {
    ReturnsTuple(Make([
      Boolean(ToSharedPtr(Arg(a, 0), UD.NativeType(custom, true, false)) != UD.Null),
      Boolean(ToOptionalFloating(Arg(a, 1)).Some?),
      Boolean(Narrow(Arg(a, 2), {IntegerTag, FloatingTag}).Floating?)]))
  }

  /** Padding the arguments with nil does not change what the conversion-checking function sees. */
  lemma {:induction false} ConversionsOfPadded(custom: nat, args: seq<Value>)
    requires |args| <= 3
    ensures Conversions(custom, args + Nils(3 - |args|)) == ReturnsTuple(Make(Bools([
      ToSharedPtr(Arg(args, 0), UD.NativeType(custom, true, false)) != UD.Null,
      ToOptionalFloating(Arg(args, 1)).Some?,
      Narrow(Arg(args, 2), {IntegerTag, FloatingTag}).Floating?])))
  {
    var padded := args + Nils(3 - |args|);
    assert Arg(padded, 0) == Arg(args, 0);
    assert Arg(padded, 1) == Arg(args, 1);
    assert Arg(padded, 2) == Arg(args, 2);
  }

  /** What the conversion-checking function reports for up to three arguments. */
  lemma {:induction false} ConversionsResult(custom: nat, args: seq<Value>)
    requires |args| <= 3
    ensures InvokeReturning(Native(3, a => Conversions(custom, a)), 3, args) == Bools([
      ToSharedPtr(Arg(args, 0), UD.NativeType(custom, true, false)) != UD.Null,
      ToOptionalFloating(Arg(args, 1)).Some?,
      Narrow(Arg(args, 2), {IntegerTag, FloatingTag}).Floating?])
  {
    var g := a => Conversions(custom, a);
    var bs := Bools([
      ToSharedPtr(Arg(args, 0), UD.NativeType(custom, true, false)) != UD.Null,
      ToOptionalFloating(Arg(args, 1)).Some?,
      Narrow(Arg(args, 2), {IntegerTag, FloatingTag}).Floating?]);
    InvokePadsMissingArguments(3, g, args);
    ConversionsOfPadded(custom, args);
    var res := Invoke(Native(3, g), args);
    assert res == Make(bs);
    assert Size(res) == 3 && Elements(res) == bs;
    InvokeReturningPadsResults(Native(3, g), 3, args);
    assert bs[..3] == bs;
  }

  /**
    Mistyped and missing arguments degrade instead of failing: the cast gives
    null, the optional is empty, the variant holds nil; an integer is widened
    for the optional floating but stays integer in the variant.
  */
  lemma {:induction false} ConversionsDegrade(custom: nat, obj: nat)
    ensures var udata := Userdata(UD.FromObject(UD.NativeType(custom, false, false), obj));
      var f := Native(3, a => Conversions(custom, a));
      && InvokeReturning(f, 3, [udata, Floating(1.0), Integer(1)]) == Bools([true, true, false])
      && InvokeReturning(f, 3, [udata]) == Bools([true, false, false])
      && InvokeReturning(f, 3, [Floating(1.0), String("wrong type"), Floating(1.0)]) == Bools([false, false, true])
      && InvokeReturning(f, 3, [Nil, Integer(1), Integer(2)]) == Bools([false, true, false])
  {
    var udata := Userdata(UD.FromObject(UD.NativeType(custom, false, false), obj));
    ConversionsResult(custom, [udata, Floating(1.0), Integer(1)]);
    ConversionsResult(custom, [udata]);
    ConversionsResult(custom, [Floating(1.0), String("wrong type"), Floating(1.0)]);
    ConversionsResult(custom, [Nil, Integer(1), Integer(2)]);
  }

  /** With no arguments the conversion-checking function reports three falses. */
  lemma {:induction false} ConversionsOfNothing(custom: nat)
    ensures Invoke(Native(3, a => Conversions(custom, a)), []) == Make(Bools([false, false, false]))
  {
    InvokePadsMissingArguments(3, a => Conversions(custom, a), []);
    ConversionsOfPadded(custom, []);
    assert ToSharedPtr(Nil, UD.NativeType(custom, true, false)) == UD.Null;
    assert ToOptionalFloating(Nil) == None;
    assert Narrow(Nil, {IntegerTag, FloatingTag}) == Nil;
  }

  /** With no arguments every result, and every index past them, reads as falsy. */
  lemma {:induction false} NoArgumentsEveryIndexFalsy(custom: nat, i: nat)
    ensures !Truthy(At(Invoke(Native(3, a => Conversions(custom, a)), []), i))
  {
    ConversionsOfNothing(custom);
  }
}

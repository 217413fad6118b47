# luapp value bridge — a Dafny model

This project models the pure value vocabulary of luapp, a C++ binding for
Lua, and the arity adapter built on it. Together they decide how host
callables exchange data with Lua values:

- `lua::value` (module `Values`): a closed tagged union over nil, floating,
  integer, boolean, string, function, userdata and table. It has truthiness,
  the `is_*` predicates and the forgiving conversions: `get_or` defaulting,
  optional extraction with integer-to-floating widening, narrowing to
  `std::variant<nil, T...>`, and the `shared_ptr<T>` cast of userdata.
- `value::from_ref` (module `References`): the tag dispatch that turns a
  registry reference into a value.
- `lua::userdata` (module `Userdata`): an opaque payload holding a
  `shared_ptr<T>`. It has the constructors and both versions of `cast<T>`:
  the exact one of `include/luapp/type.hpp` and the `decay_t` one of
  `include/luapp/userdata.hpp`.
- `lua::tuple`: a vector of values that always ends in a nil sentinel.
  Module `Tuples` holds its read-only view: `size`, `at`, `expand<N>`,
  `apply` with result repacking, and conversion to the first value. Module
  `TupleObject` holds the class `MutableTuple`, whose constructors, `resize`
  and mutable `operator[]` change the stored vector in place.
- `lua::function` on the native side (module `Functions`): a
  `(tuple) -> tuple` box. It is built from a function pointer or from a
  closure with an explicit arity. It has `call`, `operator()(args...)` and
  `operator()(returns<N>, args...)`.
- Module `Scenarios` states the behaviour that `test/value.cpp` checks.

Modelling choices:

- `floating` (`lua_Number`, a double) is `real`, and `integer` is `int`.
  Widening is `i as real`.
- Function and table values carry abstract handles, because their Lua side
  is not visible here.
- A C++ type, as the userdata casts see it, is an identity plus its cv
  qualifiers. `std::decay_t` drops the qualifiers.
- A native callable is a Dafny function from its positional parameters to
  its C++ result kind: a tuple, `void`, or another value. Per-parameter
  conversions are written inside the callable.

`lua::tuple` is defined twice, in src/tuple.cpp and in src/type.cpp. The
two copies of the constructors (src/type.cpp:10-18), `at` and `size`
(src/type.cpp:29-37) and the conversion to the first value are identical, so
one member models each. The const `operator[]` (src/tuple.cpp:16) is `at`,
so `Tuples.At` models it too. The copies differ in the mutable
`operator[]`: `MutableTuple.Set` models the asserting one and
`MutableTuple.SetChecked` the throwing one. `resize` exists only in
src/tuple.cpp. `lua::userdata` is also defined twice. A value's
`shared_ptr<T>` conversion uses the `decay_t` cast, which is the one the
value tests rely on (`cast<const T>` of a `T` payload).

Three behaviours of the code are modelled as written:

- `from_ref` turns Lua functions and full userdata into nil; both cases
  are marked TODO in the code.
- `from_ref` reads a string with `lua_tostring` into a C string, so the
  value holds the Lua string only up to its first zero character.
- `at(i)` returns the last STORED element, not nil as such. The two agree
  only while the sentinel is nil; see Findings.

A native function's box is typed over well-formed tuples
(`Functions.Boxed(box: Tuple -> Tuple)`). So a tuple whose sentinel was
overwritten, as `Tuples.ResizeAsWritten` or `Tuples.CheckedWriteAsWritten`
can produce, is never a call's argument or result in the model.
`Functions.InvokeReturningPadsResults` relies on this: past the results a
call produced, it reads nil.

## Model

| member | source | states |
|---|---|---|
| `Userdata.Decay` | include/luapp/userdata.hpp:53 | `decay_t` keeps the base type, drops cv-qualifiers, and is the identity on decayed types |
| `Userdata.Empty` | include/luapp/userdata.hpp:18 | a default userdata holds no payload |
| `Userdata.FromShared` | include/luapp/userdata.hpp:20-26 | construction from `shared_ptr<T>` stores exactly that pointer as `shared_ptr<T>` |
| `Userdata.FromObject` | include/luapp/userdata.hpp:28-42 | by-value and in-place construction store a non-null `shared_ptr<T>` to the new object |
| `Userdata.Cast` | include/luapp/userdata.hpp:50-56 | the cast is non-null only when the payload is `shared_ptr<decay_t<T>>`, and then returns the stored pointer |
| `Userdata.CastExact` | include/luapp/type.hpp:72-77 | the older cast is non-null only when the payload is exactly `shared_ptr<T>`, and then returns the stored pointer |
| `Userdata.EmptyCastsToNull` | include/luapp/type.hpp:53 | a default userdata casts to null for every `T`, in both versions |
| `Userdata.ObjectRoundTrip` | include/luapp/userdata.hpp:28-56 | an object stored by value or in place comes back non-null from `cast<T>` and `cast<const T>`; any other type gives null |
| `Userdata.CastSucceedsIff` | include/luapp/userdata.hpp:53-55 | with a non-null payload, the cast succeeds if and only if the payload type is the decayed requested type |
| `Userdata.ConstCastDiffers` | include/luapp/type.hpp:74 | `cast<const X>` finds an `X` payload with `decay_t` and misses it with the exact `any_cast` |
| `Userdata.ExactCastRefinesCast` | include/luapp/type.hpp:72-77 | when the exact cast succeeds, the decaying cast gives the same pointer if and only if `T` is unqualified |
| `Values.Is` | include/luapp/value.hpp:59-62 | `is<T>` holds exactly when the value holds alternative T, one case per alternative |
| `Values.Truthy` | include/luapp/value.hpp:54-57 | a value is falsy exactly when it is nil or boolean false; numbers (0 included) and strings are truthy |
| `Values.IsNumber` | include/luapp/value.hpp:68 | `is_number` holds exactly for floating and integer |
| `Values.IsNumberIff` | include/luapp/value.hpp:68 | `is_number` holds exactly for floating and integer, which are exactly the values whose `get_number_or` ignores the default |
| `Values.GetOr` | include/luapp/value.hpp:77-83 | `get_or<T>(d)` returns the held value when it is a `T`, else `d` unchanged; the result is always a `T` |
| `Values.GetBooleanOr` | include/luapp/value.hpp:85-88 | the held boolean, else the default |
| `Values.GetNumberOr` | include/luapp/value.hpp:90-95 | an integer is widened, a floating is returned as is, any other alternative gives the default |
| `Values.GetFloatingOr` | include/luapp/value.hpp:97-100 | the held floating, else the default (no widening of integers) |
| `Values.GetIntegerOr` | include/luapp/value.hpp:102-105 | the held integer, else the default |
| `Values.GetStringOr` | src/value.cpp:50 | the held string, else the default |
| `Values.GetFunctionOr` | src/value.cpp:52-55 | the held function, else the default |
| `Values.GetUserdataOr` | src/value.cpp:57-60 | the held userdata, else the default |
| `Values.GetTableOr` | src/value.cpp:62-65 | the held table, else the default |
| `Values.ToOptionalBoolean` | include/luapp/value.hpp:112-117 | present exactly for a boolean |
| `Values.ToOptionalFloating` | include/luapp/value.hpp:119-126 | present exactly for a number, widening integers |
| `Values.ToOptionalInteger` | include/luapp/value.hpp:128-133 | present exactly for an integer |
| `Values.ToOptionalString` | src/value.cpp:67-72 | present exactly for a string |
| `Values.ToOptionalFunction` | src/value.cpp:74-79 | present exactly for a function |
| `Values.ToOptionalUserdata` | src/value.cpp:81-86 | present exactly for a userdata |
| `Values.ToOptionalTable` | src/value.cpp:88-93 | present exactly for a table |
| `Values.OptionalAgreesWithGetOr` | include/luapp/value.hpp:77-133 | each optional conversion, with a default, equals the matching `get_*_or` |
| `Values.Narrow` | include/luapp/value.hpp:140-152 | narrowing to `variant<nil, T...>` keeps the value exactly when its alternative is listed (or it is nil), otherwise gives nil |
| `Values.NarrowIdempotent` | include/luapp/value.hpp:144-151 | narrowing twice equals narrowing once, and never changes the alternative except to nil (an integer stays an integer) |
| `Values.ToSharedPtr` | include/luapp/value.hpp:154-164 | the conversion is the userdata's `cast<T>` and null for every other alternative |
| `Values.FromSharedPtr` | include/luapp/value.hpp:34 | a value built from `shared_ptr<T>` is a userdata storing that pointer |
| `Values.SharedPtrRoundTrip` | include/luapp/value.hpp:154-164 | a pointer stored in a value comes back exactly from a cast to a type that decays to the stored type, and null otherwise; a pointer stored under a cv-qualified type never comes back |
| `Values.Equal` | include/luapp/value.hpp:166 | values of different alternatives are equal only when both are numbers, and two numbers are equal exactly when their floating values are |
| `Values.EqualIsEquivalence` | include/luapp/value.hpp:166 | on nil, booleans, numbers and strings, equality is reflexive, symmetric and transitive |
| `Values.EqualAcrossNumbers` | include/luapp/value.hpp:166-167 | integer `i` equals floating `f` if and only if `i` widens to `f` |
| `Values.EqualPreservesTruthiness` | include/luapp/value.hpp:54-57 | equal values are equally truthy |
| `References.CPrefix` | src/value.cpp:33 | the C-string view of a string: its longest prefix without a zero character, cut exactly at the first zero |
| `References.CPrefixOfPlainString` | src/value.cpp:33 | a string without a zero character is read whole |
| `References.FromRef` | src/value.cpp:14-46 | an invalid reference gives nil; numbers keep their subtype; booleans are read; a string is read up to its first zero character; a table wraps the same slot; no function or userdata ever results |
| `References.FromRefCutsAtZero` | src/value.cpp:33 | the Lua string `"a\0b"` is read as `"a"` |
| `References.FromRefNilIff` | src/value.cpp:16-17 | the result is nil exactly for an invalid reference and for nil, function, userdata, light userdata and thread slots |
| `References.FromRefNumbers` | src/value.cpp:25-29 | a numeric slot becomes a number, and an integer slot becomes an integer |
| `Tuples.Size` | src/tuple.cpp:29 | `size()` is the stored length minus one, the index of the last stored slot, which is nil exactly when the stored vector is a well-formed tuple |
| `Tuples.Make` | include/luapp/tuple.hpp:20-24 | the variadic constructor gives a well-formed tuple whose size and elements are its arguments, in order |
| `Tuples.MakeElementsRoundTrip` | src/tuple.cpp:11-14 | a well-formed tuple is rebuilt by its constructor from its elements |
| `Tuples.At` | src/tuple.cpp:24-27 | `at(i)` reads the stored slot, and the last stored slot for any index past the stored end; on a well-formed tuple every index at or past `size()` reads nil |
| `Tuples.First` | src/tuple.cpp:33 | conversion to `value` is `at(0)`, nil for an empty tuple |
| `Tuples.Expand` | include/luapp/tuple.hpp:69-73 | `expand<N>` gives exactly N values, element i being `at(i)` |
| `Tuples.ExpandTruncatesOrPads` | include/luapp/tuple.hpp:46-50 | `expand<N>` is the elements cut to N, or padded with nils up to N |
| `Tuples.ResizeAsWritten` | src/tuple.cpp:31 | `resize(n)` as written, on any stored vector: `size()` becomes n; each stored slot up to and including n keeps its value, and slots that did not exist are nil, so the old slot n becomes the sentinel |
| `Tuples.Resize` | src/tuple.cpp:31 | the corrected `resize(n)` sets `size()` to n; its elements are what `at` read below n, nil beyond; the sentinel stays nil |
| `Tuples.ResizeAsWrittenKeepsSentinelIff` | src/tuple.cpp:31 | the resize as written keeps the sentinel nil exactly when it grows or the element moved into the sentinel position is nil, and then it equals the corrected resize |
| `Tuples.ResizeAsWrittenCounterexample` | include/luapp/tuple.hpp:75 | resizing `{1, 2}` to 1 as written leaves 2 as the sentinel, so `at(5)` reads 2; the corrected resize reads nil |
| `Tuples.ShrinkThenGrowResurrects` | src/tuple.cpp:31 | resizing `{1, 2}` to 1 and back to 2 as written gives `{1, 2}` again; the corrected resizes give `{1, nil}` |
| `Tuples.CheckedWriteAsWritten` | src/type.cpp:22-27 | the throwing `operator[]` as written fails exactly when the index is past the stored length |
| `Tuples.CheckedWriteAsWrittenCounterexample` | src/type.cpp:24-25 | writing `true` at index 0 of an empty tuple is accepted, after which every past-the-end read is `true` |
| `Tuples.Repack` | include/luapp/tuple.hpp:61-66 | a tuple result passes through, `void` gives an empty tuple, any other value a one-element tuple |
| `Tuples.Apply` | include/luapp/tuple.hpp:26-39 | on a well-formed tuple, `apply` with arity N passes the callable the elements of the tuple resized to N and repacks its result |
| `Tuples.ApplyMissingArgumentsAreNil` | include/luapp/tuple.hpp:26-31 | with fewer elements than the arity, the missing arguments are nil |
| `Tuples.ApplyExtraArgumentsIgnored` | include/luapp/tuple.hpp:58-67 | elements beyond the arity never reach the callable |
| `TupleObject.MutableTuple.constructor` | src/tuple.cpp:9 | the default tuple stores only the nil sentinel |
| `TupleObject.MutableTuple.FromValues` | src/tuple.cpp:11-14 | construction from a vector stores it followed by one nil; `size()` is its length |
| `TupleObject.MutableTuple.Resize` | src/tuple.cpp:31 | the corrected `resize(s)`: `size()` becomes s, elements below s are unchanged, the sentinel stays nil |
| `TupleObject.MutableTuple.Set` | src/tuple.cpp:18-22 | a write through the mutable `operator[]` needs `i < size()` and changes only slot i |
| `TupleObject.MutableTuple.SetChecked` | src/type.cpp:22-27 | the throwing `operator[]`, bound corrected to `size()`: fails with `out_of_range` exactly when `i >= size()` and then changes nothing, else writes slot i |
| `Functions.InvokeReturning` | include/luapp/function.hpp:49-54 | `operator()(returns<N>, args...)` gives exactly N values, element i being `at(i)` of the call's result |
| `Functions.Call` | src/type.cpp:48 | `call(t)` returns exactly what the boxed callable returns on t |
| `Functions.Native` | include/luapp/function.hpp:18-34 | both native constructors box a callable that, on every tuple, applies `f` to the tuple's elements resized to the arity and repacks the result |
| `Functions.Invoke` | include/luapp/function.hpp:44-47 | `operator()(args...)` equals `call` on any tuple whose elements are exactly the arguments |
| `Functions.NativeCallSeesArity` | include/luapp/function.hpp:18-34 | a native function of arity N passes its callable the arguments cut or nil-padded to N, and repacks the result |
| `Functions.InvokePadsMissingArguments` | include/luapp/function.hpp:26-34 | calling with fewer arguments than the arity equals calling with them nil-padded to the arity |
| `Functions.InvokeIgnoresExtraArguments` | include/luapp/function.hpp:18-24 | arguments beyond the arity do not change the result |
| `Functions.InvokeReturningPadsResults` | include/luapp/function.hpp:44-54 | N requested results are the first N produced, with nil for each position past what the call produced |
| `Functions.NativeResultShapes` | include/luapp/tuple.hpp:61-66 | a `void` callable gives no results and N nils; a single-value callable gives that value, then nils |
| `Scenarios.BasicValues` | test/value.cpp:19-52 | truthiness, equality (booleans included), the `is_*` checks, `optional<string>` of nil and narrowing as the value test asserts |
| `Scenarios.UserdataCasts` | test/value.cpp:60-63 | an in-place userdata casts to `shared_ptr<T>` and to `shared_ptr<const T>` |
| `Scenarios.TruthsOfPadded` | test/value.cpp:71-86 | nil-padding the arguments does not change what the truthiness function sees |
| `Scenarios.TruthsResult` | test/value.cpp:71-103 | for up to three arguments and k >= 3 requested results, the truthiness function reports each argument's truthiness, then nils |
| `Scenarios.NoArgumentsAllFalse` | test/value.cpp:73-78 | a zero-argument call of the 3-parameter truthiness function gives three false results |
| `Scenarios.MissingArgumentsFalse` | test/value.cpp:80-86 | missing arguments are nil |
| `Scenarios.ExtraReturnsNil` | test/value.cpp:88-96 | a fourth requested result is nil |
| `Scenarios.ZerosAreTruthy` | test/value.cpp:98-103 | integer 0 and floating 0.0 are truthy, false is not |
| `Scenarios.VoidIgnoresArguments` | test/value.cpp:106-110 | a `void` function of no parameters returns an empty tuple whatever it is passed |
| `Scenarios.ExplicitArityResult` | test/value.cpp:112-117 | an explicit-arity closure returning a string converts to a string value |
| `Scenarios.ConversionsOfPadded` | test/value.cpp:123-126 | nil-padding the arguments does not change what the conversion-checking function sees |
| `Scenarios.ConversionsResult` | test/value.cpp:123-126 | the function taking `shared_ptr<const T>`, `optional<floating>` and `variant<nil, integer, floating>` reports the cast, the optional and the variant of its nil-padded arguments |
| `Scenarios.ConversionsDegrade` | test/value.cpp:123-158 | mistyped and missing arguments give null, empty or nil parameters and the call proceeds; an integer widens for `optional<floating>` but stays integer in the variant |
| `Scenarios.ConversionsOfNothing` | test/value.cpp:160-163 | with no arguments the conversion-checking function returns three falses |
| `Scenarios.NoArgumentsEveryIndexFalsy` | test/value.cpp:160-168 | with no arguments, every index of the result reads falsy |

## Left out

- Lua C API glue: state bootstrap, `do_string`, tables' `get`/`set`,
  `push` of every kind, the C-closure trampoline, and `luaL_ref`/`luaL_unref`.
  These are foreign calls whose semantics are not visible here.
- Reference lifetime, shared and weak ownership, and GC interplay. They
  depend on destructor timing and the runtime registry. A reference is
  reduced to its validity, its slot and the slot's contents.
- The stack traffic of `from_ref` (push, then a deferred pop). The slot's
  type and contents are an input.
- `value(std::optional<T>)` constructors and the body of
  `value::operator==`: they are declared in include/luapp/value.hpp but not
  defined in the code at hand. `Values.Equal` makes this choice: numbers
  compare by their floating value, and every other alternative compares
  only with itself. Functions, tables and userdata compare by handle
  identity.
- Values.EqualIsEquivalence: proved only for nil, booleans, numbers and
  strings. For tables, `table::operator==` is a TODO that always returns
  false (src/table.cpp:68-72), so it is not even reflexive. For userdata,
  `userdata::operator==` pushes both and asks `lua_compare`
  (src/userdata.cpp:35-49), which is not modelled. Numbers widen exactly, so
  the double rounding that makes integer 2^53+1 equal to floating 2^53 is
  not captured.
- Values.EqualAcrossNumbers: widening is the exact embedding of `int` into
  `real`, so floating-point rounding and 64-bit integer overflow are not
  modelled.
- Values.SharedPtrRoundTrip: `value(shared_ptr<T>)` calls the one-argument
  userdata constructor of include/luapp/type.hpp:55, which accepts a
  cv-qualified `T`, while the value's cast is the decaying one of
  include/luapp/userdata.hpp:53. The model pairs the two, so a payload
  stored as `shared_ptr<const X>` is lost: no cast finds it. With
  include/luapp/userdata.hpp alone such a payload is rejected at compile
  time (line 24); with include/luapp/type.hpp alone its exact cast would
  return it for `const X`.
- References.FromRef: Lua strings are byte strings, and the model reads
  them as Dafny character sequences. Encodings are not modelled; only the
  cut at the first zero character is.
- Compile-time checks (`static_assert`, `index_sequence`, `decltype`
  dispatch). The arity is a parameter, and the result kind is a runtime case
  of `NativeResult`. The code does not compile an explicit-arity closure
  returning `void`; the model does not reject one.
- The `boolean` wrapper. Dafny's `bool` plays its role: a default
  `boolean` is false, and conversion back gives the wrapped `bool`.
- A function backed by a Lua reference, and calls into the runtime: the
  native-function header has no such state.
- The userdata's metatable reference and the metatable registry. They
  serve `push`, and `userdata::operator==` takes its Lua state from the
  metatable reference (src/userdata.cpp:37). Both need the runtime.
- `Tuples.Resize` and `TupleObject.MutableTuple.Resize` model the corrected
  `resize`; the code as written is `Tuples.ResizeAsWritten`.
- `TupleObject.MutableTuple.SetChecked` models the corrected bound; the code
  as written is `Tuples.CheckedWriteAsWritten`.

## Findings

| source | as written | input that shows it | evidently intended | confidence | as-written member | corrected member |
|---|---|---|---|---|---|---|
| src/tuple.cpp:31 | `values_.resize(s + 1)` truncates the stored vector, so the old element at index `s` becomes the sentinel; a later grow brings it back (`Tuples.ShrinkThenGrowResurrects`) | `tuple{1, 2}.resize(1)`: stored `{1, 2}`, `size()` 1, `at(5)` returns 2 | the last stored element stays nil (the comment at include/luapp/tuple.hpp:75), so past-the-end reads give nil | high, not executed | `Tuples.ResizeAsWrittenCounterexample` | `Tuples.Resize` |
| src/type.cpp:24 | the throwing `operator[]` compares against the stored length, so index `size()` (the sentinel slot) is writable | `tuple{}[0] = true`: no exception, then `at(7)` returns true | reject `i >= size()`, as the `assert` at src/tuple.cpp:20 and the exception text say | medium, not executed | `Tuples.CheckedWriteAsWrittenCounterexample` | `TupleObject.MutableTuple.SetChecked` |

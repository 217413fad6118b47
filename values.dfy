/**
  The Lua value as the host sees it: a closed tagged union over nil, floating,
  integer, boolean, string, function, userdata and table, with the forgiving
  conversions of `lua::value`. Runtime-resident kinds carry abstract handles.
  `floating` (a C `double`) is modelled as `real` and `integer` as `int`.
*/
module Values {

  import opened Wrappers
  import UD = Userdata

  /** A function value: the identity of the boxed callable it shares. */
  datatype FunctionRef = FunctionRef(id: nat)

  /** A table value: the registry slot of the reference it wraps. */
  datatype TableRef = TableRef(slot: int)

  datatype Value =
    | Nil
    | Floating(f: real)
    | Integer(i: int)
    | Boolean(b: bool)
    | String(s: string)
    | Function(fn: FunctionRef)
    | Userdata(u: UD.Userdata)
    | Table(t: TableRef)

  /** The alternatives of the variant, used for `is<T>` and for narrowing. */
  datatype Tag = NilTag | FloatingTag | IntegerTag | BooleanTag | StringTag | FunctionTag | UserdataTag | TableTag

  function TagOf(v: Value): Tag {
    match v
    case Nil => NilTag
    case Floating(_) => FloatingTag
    case Integer(_) => IntegerTag
    case Boolean(_) => BooleanTag
    case String(_) => StringTag
    case Function(_) => FunctionTag
    case Userdata(_) => UserdataTag
    case Table(_) => TableTag
  }

  /**
    `is<T>()`: whether the alternative `t` is the one held. Exactly one
    alternative is held at a time, since `TagOf` is a function of the value.
  */
  predicate Is(v: Value, t: Tag)
    ensures Is(v, t) <==>
      || (t == NilTag && v.Nil?) || (t == FloatingTag && v.Floating?)
      || (t == IntegerTag && v.Integer?) || (t == BooleanTag && v.Boolean?)
      || (t == StringTag && v.String?) || (t == FunctionTag && v.Function?)
      || (t == UserdataTag && v.Userdata?) || (t == TableTag && v.Table?)
  {
    TagOf(v) == t
  }

  /** `explicit operator bool`: only nil and boolean false are falsy. */
  function Truthy(v: Value): (r: bool)
    ensures !r <==> v == Nil || v == Boolean(false)
    ensures v.Integer? || v.Floating? || v.String? ==> r
  {
    if v.Boolean? then v.b else !v.Nil?
  }

  /** `is_number()`: either numeric alternative. */
  predicate IsNumber(v: Value)
    ensures IsNumber(v) <==> v.Floating? || v.Integer?
  {
    Is(v, FloatingTag) || Is(v, IntegerTag)
  }

  /** `is_number` holds exactly for the values `get_number_or` reads a number from. */
  lemma IsNumberIff(v: Value)
    ensures IsNumber(v) <==> forall d: real :: GetNumberOr(v, d) == GetNumberOr(v, d + 1.0)
  {
    if !IsNumber(v) {
      assert GetNumberOr(v, 0.0) != GetNumberOr(v, 0.0 + 1.0);
    }
  }

  /**
    `get_or<T>(d)`: the held payload when the held alternative is `T`, the
    default otherwise. `T` is the alternative of the default itself.
  */
  function GetOr(v: Value, d: Value): (r: Value)
    ensures TagOf(r) == TagOf(d)
    ensures Is(v, TagOf(d)) ==> r == v
    ensures !Is(v, TagOf(d)) ==> r == d
  {
    if Is(v, TagOf(d)) then v else d
  }

  /** `get_boolean_or(d)` */
  function GetBooleanOr(v: Value, d: bool): (r: bool)
    ensures v.Boolean? ==> r == v.b
    ensures !v.Boolean? ==> r == d
  {
    GetOr(v, Boolean(d)).b
  }

  /** `get_floating_or(d)`: no widening of integers. */
  function GetFloatingOr(v: Value, d: real): (r: real)
    ensures v.Floating? ==> r == v.f
    ensures !v.Floating? ==> r == d
  {
    GetOr(v, Floating(d)).f
  }

  /** `get_integer_or(d)` */
  function GetIntegerOr(v: Value, d: int): (r: int)
    ensures v.Integer? ==> r == v.i
    ensures !v.Integer? ==> r == d
  {
    GetOr(v, Integer(d)).i
  }

  /** `get_number_or(d)`: an integer is widened to floating, a floating is returned as is. */
  function GetNumberOr(v: Value, d: real): (r: real)
    ensures v.Integer? ==> r == v.i as real
    ensures v.Floating? ==> r == v.f
    ensures !IsNumber(v) ==> r == d
  {
    if Is(v, IntegerTag) then v.i as real else GetFloatingOr(v, d)
  }

  /** `get_string_or(d)` */
  function GetStringOr(v: Value, d: string): (r: string)
    ensures v.String? ==> r == v.s
    ensures !v.String? ==> r == d
  {
    GetOr(v, String(d)).s
  }

  /** `get_function_or(d)` */
  function GetFunctionOr(v: Value, d: FunctionRef): (r: FunctionRef)
    ensures v.Function? ==> r == v.fn
    ensures !v.Function? ==> r == d
  {
    GetOr(v, Function(d)).fn
  }

  /** `get_userdata_or(d)` */
  function GetUserdataOr(v: Value, d: UD.Userdata): (r: UD.Userdata)
    ensures v.Userdata? ==> r == v.u
    ensures !v.Userdata? ==> r == d
  {
    GetOr(v, Userdata(d)).u
  }

  /** `get_table_or(d)` */
  function GetTableOr(v: Value, d: TableRef): (r: TableRef)
    ensures v.Table? ==> r == v.t
    ensures !v.Table? ==> r == d
  {
    GetOr(v, Table(d)).t
  }

  /** `operator std::optional<boolean>` */
  function ToOptionalBoolean(v: Value): (r: Option<bool>)
    ensures r.Some? <==> v.Boolean?
  {
    if Is(v, BooleanTag) then Some(v.b) else None
  }

  /** `operator std::optional<floating>`: present for both numeric alternatives, widening integers. */
  function ToOptionalFloating(v: Value): (r: Option<real>)
    ensures r.Some? <==> IsNumber(v)
  {
    if Is(v, FloatingTag) then Some(v.f)
    else if Is(v, IntegerTag) then Some(v.i as real)
    else None
  }

  /** `operator std::optional<integer>`: present only for an integer, floats are not narrowed. */
  function ToOptionalInteger(v: Value): (r: Option<int>)
    ensures r.Some? <==> v.Integer?
  {
    if Is(v, IntegerTag) then Some(v.i) else None
  }

  /** `operator std::optional<string>` */
  function ToOptionalString(v: Value): (r: Option<string>)
    ensures r.Some? <==> v.String?
  {
    if Is(v, StringTag) then Some(v.s) else None
  }

  /** `operator std::optional<function>` */
  function ToOptionalFunction(v: Value): (r: Option<FunctionRef>)
    ensures r.Some? <==> v.Function?
  {
    if Is(v, FunctionTag) then Some(v.fn) else None
  }

  /** `operator std::optional<userdata>` */
  function ToOptionalUserdata(v: Value): (r: Option<UD.Userdata>)
    ensures r.Some? <==> v.Userdata?
  {
    if Is(v, UserdataTag) then Some(v.u) else None
  }

  /** `operator std::optional<table>` */
  function ToOptionalTable(v: Value): (r: Option<TableRef>)
    ensures r.Some? <==> v.Table?
  {
    if Is(v, TableTag) then Some(v.t) else None
  }

  /**
    Each optional conversion agrees with the matching `get_*_or`: what it holds
    is what `get_*_or` returns on a match, and when it is empty `get_*_or`
    returns its default.
  */
  lemma OptionalAgreesWithGetOr(v: Value, db: bool, dn: real, di: int, ds: string,
                                df: FunctionRef, du: UD.Userdata, dt: TableRef)
    ensures ToOptionalBoolean(v).GetOr(db) == GetBooleanOr(v, db)
    ensures ToOptionalFloating(v).GetOr(dn) == GetNumberOr(v, dn)
    ensures ToOptionalInteger(v).GetOr(di) == GetIntegerOr(v, di)
    ensures ToOptionalString(v).GetOr(ds) == GetStringOr(v, ds)
    ensures ToOptionalFunction(v).GetOr(df) == GetFunctionOr(v, df)
    ensures ToOptionalUserdata(v).GetOr(du) == GetUserdataOr(v, du)
    ensures ToOptionalTable(v).GetOr(dt) == GetTableOr(v, dt)
  {
  }

  /**
    `operator std::variant<nil, T...>`: keeps the value when its alternative is
    one of `allowed` (nil is always allowed), and gives nil otherwise.
  */
  function Narrow(v: Value, allowed: set<Tag>): (r: Value)
    ensures TagOf(r) in allowed || r == Nil
    ensures r == v <==> TagOf(v) in allowed || v == Nil
    ensures r != v ==> r == Nil
  {
    if TagOf(v) in allowed then v else Nil
  }

  /** Narrowing is idempotent and never converts between numeric alternatives. */
  lemma NarrowIdempotent(v: Value, allowed: set<Tag>)
    ensures Narrow(Narrow(v, allowed), allowed) == Narrow(v, allowed)
    ensures TagOf(Narrow(v, allowed)) in {TagOf(v), NilTag}
  {
  }

  /**
    `operator std::shared_ptr<T>`: the userdata's cast to `T`, and null for
    every other alternative. Never fails.
  */
  function ToSharedPtr(v: Value, t: UD.NativeType): (r: UD.SharedPtr)
    ensures r != UD.Null ==> v.Userdata? && UD.Cast(v.u, t) == r
    ensures v.Userdata? ==> r == UD.Cast(v.u, t)
  {
    match v
    case Userdata(u) => UD.Cast(u, t)
    case _ => UD.Null
  }

  /** `value(std::shared_ptr<T>)`: wraps the pointer in a userdata. */
  function FromSharedPtr(t: UD.NativeType, p: UD.SharedPtr): (v: Value)
    ensures v.Userdata? && v.u.data == Some(UD.Held(t, p))
  {
    Userdata(UD.FromShared(t, p))
  }

  /**
    A pointer stored into a value comes back exactly on a cast to a type that
    decays to the stored one. A pointer stored as `shared_ptr<const X>` (or
    another cv-qualified type) never comes back, since the cast looks for the
    decayed type.
  */
  lemma SharedPtrRoundTrip(t: UD.NativeType, p: UD.SharedPtr, asked: UD.NativeType)
    ensures ToSharedPtr(FromSharedPtr(t, p), asked) == (if UD.Decay(asked) == t then p else UD.Null)
    ensures !UD.IsDecayed(t) ==> ToSharedPtr(FromSharedPtr(t, p), asked) == UD.Null
  {
  }

  /** The numeric payload of a number, widened to floating. */
  function NumberOf(v: Value): (r: real)
    requires IsNumber(v)
    ensures ToOptionalFloating(v) == Some(r)
  {
    GetNumberOr(v, 0.0)
  }

  /**
    `operator==` as the value tests use it: numbers compare by their common
    floating representation, every other alternative only with itself.
    Functions, tables and userdata are compared by handle identity here; the
    runtime's own comparison of them is not part of this model.
  */
  predicate Equal(a: Value, b: Value)
    ensures Equal(a, b) && TagOf(a) != TagOf(b) ==> IsNumber(a) && IsNumber(b)
    ensures IsNumber(a) && IsNumber(b) ==> (Equal(a, b) <==> GetNumberOr(a, 0.0) == GetNumberOr(b, 0.0))
  {
    if IsNumber(a) && IsNumber(b) then NumberOf(a) == NumberOf(b) else a == b
  }

  /** The plain-data alternatives: nil, numbers, booleans and strings. */
  predicate IsData(v: Value) {
    v.Nil? || IsNumber(v) || v.Boolean? || v.String?
  }

  /**
    On plain data, equality is an equivalence, and it relates different
    alternatives only when both are numbers.
  */
  lemma EqualIsEquivalence(a: Value, b: Value, c: Value)
    requires IsData(a) && IsData(b) && IsData(c)
    ensures Equal(a, a)
    ensures Equal(a, b) ==> Equal(b, a)
    ensures Equal(a, b) && Equal(b, c) ==> Equal(a, c)
  {
  }

  /** Integer and floating values are equal exactly when the integer widens to the float. */
  lemma EqualAcrossNumbers(i: int, f: real)
    ensures Equal(Integer(i), Floating(f)) <==> i as real == f
  {
  }

  /** Equal values agree on truthiness. */
  lemma EqualPreservesTruthiness(a: Value, b: Value)
    requires Equal(a, b)
    ensures Truthy(a) == Truthy(b)
  {
  }
}

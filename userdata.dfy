/**
  The opaque host payload carried by a Lua userdata value.

  A userdata stores a `std::any` that, whichever constructor built it, holds a
  `std::shared_ptr<T>` for the payload's native type `T`. Native types are
  modelled by an abstract identity plus the cv-qualifiers that `std::decay_t`
  strips; shared pointers by the identity of the object they point to.
*/
module Userdata {

  import opened Wrappers

  /** A C++ type as the casts see it: a base identity and its cv-qualifiers. */
  datatype NativeType = NativeType(base: nat, isConst: bool, isVolatile: bool)

  /** `std::decay_t<T>` for the object types used here: drops cv-qualifiers. */
  function Decay(t: NativeType): (d: NativeType)
    ensures d.base == t.base && !d.isConst && !d.isVolatile
    ensures IsDecayed(t) ==> d == t
  {
    NativeType(t.base, false, false)
  }

  predicate IsDecayed(t: NativeType) {
    !t.isConst && !t.isVolatile
  }

  /** `std::shared_ptr<T>`: null, or owning the object with the given identity. */
  datatype SharedPtr = Null | Ptr(target: nat)

  /** What the `std::any` holds: a `std::shared_ptr<elem>`. */
  datatype Held = Held(elem: NativeType, ptr: SharedPtr)

  /** A userdata: an empty `std::any` (default-constructed) or a held shared pointer. */
  datatype Userdata = Userdata(data: Option<Held>)

  /** `userdata()`: holds nothing. */
  function Empty(): (u: Userdata)
    ensures u.data.None?
  {
    Userdata(None)
  }

  /** `userdata(std::shared_ptr<T>)`: stores the given pointer as `shared_ptr<t>`. */
  function FromShared(t: NativeType, p: SharedPtr): (u: Userdata)
    ensures u.data == Some(Held(t, p))
  {
    Userdata(Some(Held(t, p)))
  }

  /**
    `userdata(T value)` and `userdata(std::in_place_type<T>, args...)`: both
    allocate a fresh `T` and store a non-null `shared_ptr<T>` to it. The
    allocation is not modelled; `obj` is the identity of the new object.
  */
  function FromObject(t: NativeType, obj: nat): (u: Userdata)
    ensures u.data == Some(Held(t, Ptr(obj)))
  {
    FromShared(t, Ptr(obj))
  }

  /**
    `cast<T>()` of include/luapp/userdata.hpp: the stored pointer when the
    `any` holds exactly `shared_ptr<decay_t<T>>`, else null. Never fails.
  */
  function Cast(u: Userdata, t: NativeType): (r: SharedPtr)
    ensures r != Null ==> u.data.Some? && u.data.value.elem == Decay(t)
    ensures u.data.Some? && u.data.value.elem == Decay(t) ==> r == u.data.value.ptr
  {
    match u.data
    case Some(h) => if h.elem == Decay(t) then h.ptr else Null
    case None => Null
  }

  /**
    `cast<T>()` of include/luapp/type.hpp: the stored pointer only when the
    `any` holds exactly `shared_ptr<T>`, qualifiers included.
  */
  function CastExact(u: Userdata, t: NativeType): (r: SharedPtr)
    ensures r != Null ==> u.data.Some? && u.data.value.elem == t
    ensures u.data.Some? && u.data.value.elem == t ==> r == u.data.value.ptr
  {
    match u.data
    case Some(h) => if h.elem == t then h.ptr else Null
    case None => Null
  }

  /** A default userdata casts to null whatever type is asked for, in both versions. */
  lemma EmptyCastsToNull(t: NativeType)
    ensures Cast(Empty(), t) == Null && CastExact(Empty(), t) == Null
  {
  }

  /**
    Round trip: a userdata built from a `T` value or in place casts back to a
    non-null pointer to that very object, for `T` and for any cv-qualified `T`;
    the exact cast of the older version succeeds for `T` itself.
  */
  lemma ObjectRoundTrip(t: NativeType, obj: nat, asked: NativeType)
    requires IsDecayed(t)
    ensures Cast(FromObject(t, obj), asked) == (if Decay(asked) == t then Ptr(obj) else Null)
    ensures CastExact(FromObject(t, obj), t) == Ptr(obj)
  {
  }

  /** A cast succeeds exactly when the payload type is the decayed requested type. */
  lemma CastSucceedsIff(u: Userdata, t: NativeType)
    requires u.data.Some? && u.data.value.ptr != Null
    ensures Cast(u, t) != Null <==> u.data.value.elem == Decay(t)
  {
  }

  /**
    The two versions differ on cv-qualified requests: `cast<const X>` finds an
    `X` payload with `decay_t`, and misses it with the exact `any_cast`.
  */
  lemma ConstCastDiffers(x: nat, obj: nat)
    ensures Cast(FromObject(NativeType(x, false, false), obj), NativeType(x, true, false)) == Ptr(obj)
    ensures CastExact(FromObject(NativeType(x, false, false), obj), NativeType(x, true, false)) == Null
  {
  }

  /**
    Where the exact cast succeeds, the decaying cast agrees with it exactly for
    an unqualified `T`; for a cv-qualified `T` (a `shared_ptr<const X>`
    payload, which the older constructor accepts) only the exact cast finds it.
  */
  lemma ExactCastRefinesCast(u: Userdata, t: NativeType)
    requires CastExact(u, t) != Null
    ensures Cast(u, t) == CastExact(u, t) <==> IsDecayed(t)
  {
  }
}

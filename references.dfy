/**
  Materialising a value from a registry reference (`value(const reference&)`).
  The stack traffic around the read (push, then a deferred pop) is not
  modelled: the reference carries the slot it names and what the runtime's
  read primitives see in it.
*/
module References {

  import opened Values

  /** What the runtime holds in a slot: its type tag and, for data kinds, its payload. */
  datatype Slot =
    | LuaNil
    | LuaInteger(i: int)       // LUA_TNUMBER with the integer subtype
    | LuaFloat(f: real)        // LUA_TNUMBER with the float subtype
    | LuaBoolean(b: bool)
    | LuaString(s: string)
    | LuaTable
    | LuaFunction
    | LuaUserdata
    | LuaLightUserdata
    | LuaThread

  /**
    A reference: whether `valid()` holds (runtime alive and a real slot), the
    registry slot, and the value stored there.
  */
  datatype Reference = Reference(valid: bool, slot: int, target: Slot)

  /**
    `std::string(const char*)` of what `lua_tostring` returns: the C string
    ends at the first zero character, so only the part before it is copied.
  */
  function CPrefix(s: string): (r: string)
    ensures |r| <= |s| && r == s[..|r|]
    ensures '\0' !in r
    ensures |r| < |s| ==> s[|r|] == '\0'
  {
    if s == [] || s[0] == '\0' then [] else [s[0]] + CPrefix(s[1..])
  }

  /** A string without a zero character is copied whole. */
  lemma CPrefixOfPlainString(s: string)
    requires '\0' !in s
    ensures CPrefix(s) == s
  {
  }

  /** A Lua string with an embedded zero is cut there: `"a\0b"` is read as `"a"`. */
  lemma FromRefCutsAtZero(slot: int)
    ensures FromRef(Reference(true, slot, LuaString("a\0b"))) == String("a")
  {
    assert "a\0b"[1] == '\0';
  }

  /** `value::from_ref`: the tag dispatch of a referenced slot. */
  function FromRef(r: Reference): (v: Value)
    ensures !r.valid ==> v == Nil
    ensures r.valid && r.target.LuaInteger? ==> v == Integer(r.target.i)
    ensures r.valid && r.target.LuaFloat? ==> v == Floating(r.target.f)
    ensures r.valid && r.target.LuaBoolean? ==> v == Boolean(r.target.b)
    ensures r.valid && r.target.LuaString? ==> v == String(CPrefix(r.target.s))
    ensures v.Table? <==> r.valid && r.target == LuaTable
    ensures v.Table? ==> v.t == TableRef(r.slot)
    ensures !v.Function? && !v.Userdata?
  {
    if !r.valid then Nil
    else
      match r.target
      case LuaInteger(i) => Integer(i)
      case LuaFloat(f) => Floating(f)
      case LuaBoolean(b) => Boolean(b)
      case LuaString(s) => String(CPrefix(s))
      case LuaTable => Table(TableRef(r.slot))
      case LuaFunction => Nil
      case LuaUserdata => Nil
      case LuaLightUserdata => Nil
      case LuaThread => Nil
      case LuaNil => Nil
  }

  /** The kinds that fall through to nil: an invalid reference, and every kind without a case. */
  lemma FromRefNilIff(r: Reference)
    ensures FromRef(r) == Nil <==>
      !r.valid || r.target in {LuaNil, LuaFunction, LuaUserdata, LuaLightUserdata, LuaThread}
  {
  }

  /** A number keeps its subtype: integers stay integer, floats stay floating, and both are numbers. */
  lemma FromRefNumbers(r: Reference)
    requires r.valid
    ensures r.target.LuaInteger? || r.target.LuaFloat? <==> IsNumber(FromRef(r))
    ensures r.target.LuaInteger? ==> Is(FromRef(r), IntegerTag)
  {
  }
}

/**
  `lua::tuple` as an object whose stored vector is changed in place: the
  constructors append the sentinel, `resize` resizes the vector, and the
  mutable `operator[]` hands out a slot to overwrite. Two versions of the
  mutable `operator[]` exist: one asserts `i < size()` (src/tuple.cpp), the
  other throws `out_of_range` (src/type.cpp).
*/
module TupleObject {

  import opened Values
  import opened Wrappers
  import opened Tuples

  class MutableTuple {
    /** `values_`: the stored vector, last element the sentinel. */
    var values: seq<Value>

    ghost predicate Valid()
      reads this
    {
      IsTuple(values)
    }

    /** `tuple()`: only the sentinel. */
    constructor ()
      ensures Valid() && values == Make([]) && Size(values) == 0
    {
      values := [];
      values := values + [Nil];
    }

    /** `tuple(std::vector<value>)`: the given values, then one appended nil. */
    constructor FromValues(vs: seq<Value>)
      ensures Valid() && values == Make(vs)
      ensures Size(values) == |vs| && Elements(values) == vs
    {
      values := vs;
      values := values + [Nil];
    }

    /**
      `resize(s)`, keeping the sentinel nil: `size()` becomes `s`, elements
      below `s` are kept and new positions read nil.
    */
    method Resize(s: nat)
      requires Valid()
      modifies this
      ensures Valid() && values == Tuples.Resize(old(values), s)
      ensures Size(values) == s
      ensures forall i :: 0 <= i < s ==> At(values, i) == At(old(values), i)
    {
      values := VectorResize(values, s + 1);
      values := values[..s] + [Nil];
    }

    /**
      Mutable `operator[]` of src/tuple.cpp, then a write through the returned
      reference: the index must be below `size()`; only slot `i` changes.
    */
    method Set(i: nat, v: Value)
      requires Valid() && i < Size(values)
      modifies this
      ensures Valid() && values == old(values)[i := v]
      ensures Size(values) == Size(old(values)) && At(values, i) == v
      ensures forall j :: 0 <= j && j != i ==> At(values, j) == At(old(values), j)
    {
      values := values[i := v];
    }

    /**
      Mutable `operator[]` of src/type.cpp, then a write through the returned
      reference, with the bound corrected to `size()`: an index at or past the
      end throws `out_of_range` and changes nothing.
    */
    method SetChecked(i: nat, v: Value) returns (r: Outcome)
      requires Valid()
      modifies this
      ensures Valid()
      ensures r == Fail(OutOfRange) <==> i >= Size(old(values))
      ensures r.Pass? ==> values == old(values)[i := v]
      ensures r.Fail? ==> values == old(values)
    {
      if i >= |values| - 1 {
        return Fail(OutOfRange);
      }
      values := values[i := v];
      r := Pass;
    }
  }
}

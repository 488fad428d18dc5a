/**
 * CallableArrayType: the `callable-array` variant, an array that is also a
 * callable (`[$classNameOrObject, 'method']`). It narrows the truthiness,
 * object-ness and iteration answers it would otherwise inherit from the
 * array types. Every answer depends on the receiver's nullability at most;
 * the code-base argument of the source is unused and is not modelled.
 */
module CallableArrayType {
  import opened Types
  import opened Values

  /** A receiver of this class. */
  predicate IsCallableArrayType(t: Type)
  {
    t.kind == CallableArray
  }

  /** `isAlwaysTruthy`: a non-nullable callable array is never empty. */
  predicate IsAlwaysTruthy(t: Type)
    requires IsCallableArrayType(t)
  {
    !t.isNullable
  }

  /** `isPossiblyObject`: never (overriding the iterable types, which may be Traversable objects). */
  predicate IsPossiblyObject(t: Type)
    requires IsCallableArrayType(t)
  {
    false
  }

  /** `isPossiblyTruthy`: always. */
  predicate IsPossiblyTruthy(t: Type)
    requires IsCallableArrayType(t)
  {
    true
  }

  /** `isPossiblyFalsey`: only through null. */
  predicate IsPossiblyFalsey(t: Type)
    requires IsCallableArrayType(t)
  {
    t.isNullable
  }

  /** `iterableKeyUnionType`: the non-nullable `int`. */
  function IterableKeyUnionType(t: Type): UnionType
    requires IsCallableArrayType(t)
  {
    AsUnionType(Type(Int, false))
  }

  /** `iterableValueUnionType`: `string|object`. */
  function IterableValueUnionType(t: Type): UnionType
    requires IsCallableArrayType(t)
  {
    {Type(String, false), Type(Object, false)}
  }

  /** A callable array naming a static method by class name: `['C', 'm']`. */
  const StaticCallable := ArrayValue([(IntKey(0), StringValue("C")), (IntKey(1), StringValue("m"))])

  /** A callable array naming a method of an object: `[$c, 'm']`. */
  const InstanceCallable := ArrayValue([(IntKey(0), ObjectValue("C")), (IntKey(1), StringValue("m"))])

  /** Every value of a callable-array type is null (when nullable) or a truthy two-entry array. */
  lemma ValuesAreNullOrCallableArrays(t: Type, v: Value)
    requires IsCallableArrayType(t) && Inhabits(v, t)
    ensures (t.isNullable && v.NullValue?) || (IsCallableArrayValue(v) && IsTruthy(v))
  {
  }

  /** `isAlwaysTruthy` is exact: all values are truthy precisely when the type is not nullable. */
  lemma AlwaysTruthyIsExact(t: Type)
    requires IsCallableArrayType(t)
    ensures IsAlwaysTruthy(t) <==> forall v :: Inhabits(v, t) ==> IsTruthy(v)
  {
    if t.isNullable {
      assert Inhabits(NullValue, t) && !IsTruthy(NullValue);
    }
  }

  /** `isPossiblyTruthy` is exact: both nullabilities admit a truthy callable array. */
  lemma PossiblyTruthyIsExact(t: Type)
    requires IsCallableArrayType(t)
    ensures IsPossiblyTruthy(t) <==> exists v :: Inhabits(v, t) && IsTruthy(v)
  {
    assert Inhabits(StaticCallable, t) && IsTruthy(StaticCallable);
  }

  /** `isPossiblyFalsey` is exact: the only falsey value is null, admitted only when nullable. */
  lemma PossiblyFalseyIsExact(t: Type)
    requires IsCallableArrayType(t)
    ensures IsPossiblyFalsey(t) <==> exists v :: Inhabits(v, t) && !IsTruthy(v)
  {
    if t.isNullable {
      assert Inhabits(NullValue, t) && !IsTruthy(NullValue);
    }
  }

  /** The three truthiness answers agree: always truthy means possibly truthy and never falsey. */
  lemma TruthinessIsConsistent(t: Type)
    requires IsCallableArrayType(t)
    ensures IsAlwaysTruthy(t) ==> IsPossiblyTruthy(t) && !IsPossiblyFalsey(t)
    ensures IsAlwaysTruthy(t) != IsPossiblyFalsey(t)
  {
  }

  /** `isPossiblyObject` is exact: no callable array is an object, for either nullability. */
  lemma PossiblyObjectIsExact(t: Type)
    requires IsCallableArrayType(t)
    ensures IsPossiblyObject(t) <==> exists v :: Inhabits(v, t) && v.ObjectValue?
  {
  }

  /** Every key met when iterating a callable array is admitted by the key union. */
  lemma IterableKeysAreCovered(t: Type, v: Value, i: int)
    requires IsCallableArrayType(t) && Inhabits(v, t) && v.ArrayValue?
    requires 0 <= i < |v.entries|
    ensures InhabitsUnion(KeyAsValue(v.entries[i].0), IterableKeyUnionType(t))
  {
  }

  /** Every value met when iterating a callable array is admitted by the value union. */
  lemma IterableValuesAreCovered(t: Type, v: Value, i: int)
    requires IsCallableArrayType(t) && Inhabits(v, t) && v.ArrayValue?
    requires 0 <= i < |v.entries|
    ensures InhabitsUnion(v.entries[i].1, IterableValueUnionType(t))
  {
  }

  /**
   * The unions are no broader than needed: each member type is met by some
   * key or value of some callable array of this type.
   */
  lemma IterableUnionsAreTight(t: Type)
    requires IsCallableArrayType(t)
    ensures forall k :: k in IterableKeyUnionType(t) ==> Inhabits(KeyAsValue(StaticCallable.entries[0].0), k)
    ensures Inhabits(StaticCallable, t) && Inhabits(InstanceCallable, t)
    ensures forall m :: m in IterableValueUnionType(t) ==>
              Inhabits(StaticCallable.entries[0].1, m) || Inhabits(InstanceCallable.entries[0].1, m)
  {
  }

  /** The iteration unions are exactly `{int}` and `{string, object}`, for either nullability. */
  lemma IterableUnionsIgnoreNullability(t: Type)
    requires IsCallableArrayType(t)
    ensures IterableKeyUnionType(t) == {Type(Int, false)}
    ensures IterableValueUnionType(t) == {Type(String, false), Type(Object, false)}
    ensures |IterableValueUnionType(t)| == 2
    ensures IterableKeyUnionType(t) == IterableKeyUnionType(WithIsNullable(t, !t.isNullable))
    ensures IterableValueUnionType(t) == IterableValueUnionType(WithIsNullable(t, !t.isNullable))
  {
  }
}

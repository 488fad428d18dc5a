/**
 * ScalarType: the behaviour shared by Phan's scalar variants (bool, false,
 * int, float, string, scalar and null): the policy-driven cast decision,
 * the narrowing test, and the fixed classification and truthiness answers.
 * Every member takes the receiver `t` explicitly and requires it to be of
 * the scalar family, as a method of ScalarType can only be called on one.
 */
module ScalarType {
  import opened Types
  import opened Values
  import opened Policy

  /** A structural cast rule between two types: `parent::canCastToNonNullableType`. */
  type CastRule = (Type, Type) -> bool

  /** A cast rule between union types: `UnionType::canCastToUnionType`. */
  type UnionCastRule = (UnionType, UnionType) -> bool

  // ---------------------------------------------------------------------------
  // The cast decision

  /**
   * `canCastToNonNullableType`: a scalar target is accepted outright under
   * implicit casting, or when the partial map is non-empty and lists the
   * target's name (strictly) under the receiver's name; in every other case
   * the parent's structural rule decides.
   */
  function CanCastToNonNullableType(policy: CastPolicy, parent: CastRule, t: Type, target: Type): (r: bool)
    requires IsScalarFamily(t.kind)
    ensures IsScalarFamily(target.kind) && policy.implicitCast ==> r
    ensures !IsScalarFamily(target.kind) ==> r == parent(t, target)
    ensures parent(t, target) ==> r
  {
    if IsScalarFamily(target.kind) then
      if policy.implicitCast then
        true
      else if |policy.partial| > 0 && InArrayStrict(Name(target.kind), PermittedTargets(policy, Name(t.kind))) then
        true
      else
        parent(t, target)
    else
      parent(t, target)
  }

  /**
   * What the policy alone permits: a scalar target under implicit casting,
   * or one whose name the map lists under the source's name. Unlike the
   * source, this reads the map without first asking whether it is empty.
   */
  predicate PolicyGrants(policy: CastPolicy, t: Type, target: Type)
  {
    IsScalarFamily(target.kind) &&
    (policy.implicitCast || Name(target.kind) in PermittedTargets(policy, Name(t.kind)))
  }

  /**
   * The policy only adds permissions to the structural rule, and the
   * `count(...) > 0` guard is redundant: an empty map lists nothing.
   */
  lemma CastIsStructuralOrPolicy(policy: CastPolicy, parent: CastRule, t: Type, target: Type)
    requires IsScalarFamily(t.kind)
    ensures CanCastToNonNullableType(policy, parent, t, target) == (parent(t, target) || PolicyGrants(policy, t, target))
  {
  }

  /** With implicit casting on, every scalar-family target is accepted, whatever the map holds. */
  lemma ImplicitCastAcceptsEveryScalar(policy: CastPolicy, parent: CastRule, t: Type, target: Type)
    requires IsScalarFamily(t.kind) && IsScalarFamily(target.kind)
    requires policy.implicitCast
    ensures forall partial :: CanCastToNonNullableType(policy.(partial := partial), parent, t, target)
  {
  }

  /**
   * A further ScalarType subclass such as `true` is a scalar target too: the
   * policy grants int to `true` under implicit casting, or when the map
   * lists it under "int", whatever the structural rule says.
   */
  lemma PolicyReachesFurtherScalarTargets(parent: CastRule)
    ensures CanCastToNonNullableType(CastPolicy(true, map[]), parent, Type(Int, false), Type(OtherScalar("true"), false))
    ensures CanCastToNonNullableType(CastPolicy(false, map["int" := ["true"]]), parent,
                                     Type(Int, false), Type(OtherScalar("true"), false))
  {
  }

  /**
   * With implicit casting off, a scalar source reaches a scalar target exactly
   * when the structural rule allows it or the target's name is in the list
   * kept under the source's name (a missing key being the empty list).
   */
  lemma PartialCastIsExact(policy: CastPolicy, parent: CastRule, t: Type, target: Type)
    requires IsScalarFamily(t.kind) && IsScalarFamily(target.kind)
    requires !policy.implicitCast
    ensures CanCastToNonNullableType(policy, parent, t, target) <==>
            (parent(t, target) ||
             (Name(t.kind) in policy.partial && Name(target.kind) in policy.partial[Name(t.kind)]))
  {
  }

  /** For a target outside the scalar family only the structural rule counts; the policy is irrelevant. */
  lemma NonScalarTargetIgnoresPolicy(p: CastPolicy, q: CastPolicy, parent: CastRule, t: Type, target: Type)
    requires IsScalarFamily(t.kind) && !IsScalarFamily(target.kind)
    ensures CanCastToNonNullableType(p, parent, t, target) == CanCastToNonNullableType(q, parent, t, target)
    ensures CanCastToNonNullableType(p, parent, t, target) == parent(t, target)
  {
  }

  /** Under the default configuration the decision is the structural rule alone. */
  lemma DefaultPolicyIsStructural(parent: CastRule, t: Type, target: Type)
    requires IsScalarFamily(t.kind)
    ensures CanCastToNonNullableType(DefaultPolicy, parent, t, target) == parent(t, target)
  {
  }

  /** A policy that permits more never turns an accepted cast into a rejected one. */
  lemma CastIsMonotoneInPolicy(p: CastPolicy, q: CastPolicy, parent: CastRule, t: Type, target: Type)
    requires IsScalarFamily(t.kind)
    requires Extends(q, p)
    ensures CanCastToNonNullableType(p, parent, t, target) ==> CanCastToNonNullableType(q, parent, t, target)
  {
  }

  /** Switching implicit casting on keeps every cast that was accepted before. */
  lemma ImplicitCastOnlyAdds(p: CastPolicy, parent: CastRule, t: Type, target: Type)
    requires IsScalarFamily(t.kind)
    ensures CanCastToNonNullableType(p, parent, t, target) ==>
            CanCastToNonNullableType(p.(implicitCast := true), parent, t, target)
  {
  }

  /** `{"int": ["string"]}`: the lookup is keyed by the source's name. */
  const IntToStringOnly := CastPolicy(false, map["int" := ["string"]])

  /** int may cast to string by policy; string to int gets only the structural answer. */
  lemma PartialLookupIsDirectional(parent: CastRule)
    ensures CanCastToNonNullableType(IntToStringOnly, parent, Type(Int, false), Type(String, false))
    ensures CanCastToNonNullableType(IntToStringOnly, parent, Type(String, false), Type(Int, false)) ==
            parent(Type(String, false), Type(Int, false))
  {
  }

  /** `{"float": ["int"]}` with implicit casting off. */
  const FloatToIntOnly := CastPolicy(false, map["float" := ["int"]])

  /**
   * With a structural rule that only ever relates a kind to itself, float
   * casts to int, while int to float and float to string are rejected.
   */
  lemma FloatToIntScenario(parent: CastRule)
    requires forall a, b :: parent(a, b) ==> a.kind == b.kind
    ensures CanCastToNonNullableType(FloatToIntOnly, parent, Type(Float, false), Type(Int, false))
    ensures !CanCastToNonNullableType(FloatToIntOnly, parent, Type(Int, false), Type(Float, false))
    ensures !CanCastToNonNullableType(FloatToIntOnly, parent, Type(Float, false), Type(String, false))
  {
  }

  // ---------------------------------------------------------------------------
  // Narrowing

  /**
   * `isExclusivelyNarrowedFormOrEquivalentTo`: the union already holds this
   * type, or the singleton union of this type casts to it.
   */
  function IsExclusivelyNarrowedFormOrEquivalentTo(unionCast: UnionCastRule, t: Type, u: UnionType): (r: bool)
    requires IsScalarFamily(t.kind)
    ensures t in u ==> r
    ensures t !in u ==> r == unionCast(AsUnionType(t), u)
  {
    t in u || unionCast(AsUnionType(t), u)
  }

  /**
   * When every union casts to each union containing it, the membership
   * test is only a shortcut: the answer is the union cast alone.
   */
  lemma NarrowingMembershipIsShortcut(unionCast: UnionCastRule, t: Type, u: UnionType)
    requires IsScalarFamily(t.kind)
    requires forall a, b :: a <= b ==> unionCast(a, b)
    ensures IsExclusivelyNarrowedFormOrEquivalentTo(unionCast, t, u) == unionCast(AsUnionType(t), u)
  {
  }

  // ---------------------------------------------------------------------------
  // Truthiness

  /** `isAlwaysTruthy`: never, for a scalar. */
  function IsAlwaysTruthy(t: Type): bool
    requires IsScalarFamily(t.kind)
  {
    false
  }

  /** `asNonTruthyType`: the scalar itself. */
  function AsNonTruthyType(t: Type): Type
    requires IsScalarFamily(t.kind)
  {
    t
  }

  /** A falsey value of each named scalar kind: false, 0, 0.0, "" or null. */
  function FalseyValue(k: Kind): Value
    requires IsNamedScalar(k)
  {
    match k
    case Bool => BoolValue(false)
    case False => BoolValue(false)
    case Int => IntValue(0)
    case Float => FloatValue(0.0)
    case String => StringValue("")
    case Null => NullValue
    case ScalarRaw => IntValue(0)
  }

  /** Every type of a named scalar kind, nullable or not, admits a falsey value. */
  lemma ScalarAdmitsFalseyValue(t: Type)
    requires IsNamedScalar(t.kind)
    ensures exists v :: Inhabits(v, t) && !IsTruthy(v)
  {
    var v := FalseyValue(t.kind);
    assert Inhabits(v, t) && !IsTruthy(v);
  }

  /** `isAlwaysTruthy` is exact: no type of a named scalar kind has only truthy values. */
  lemma AlwaysTruthyIsExact(t: Type)
    requires IsNamedScalar(t.kind)
    ensures IsAlwaysTruthy(t) <==> forall v :: Inhabits(v, t) ==> IsTruthy(v)
  {
    ScalarAdmitsFalseyValue(t);
  }

  /**
   * `asNonTruthyType` returns the type unchanged, which keeps every falsey
   * value of the type and still admits one.
   */
  lemma AsNonTruthyTypeKeepsFalseyValues(t: Type)
    requires IsNamedScalar(t.kind)
    ensures AsNonTruthyType(t) == t
    ensures forall v :: Inhabits(v, t) && !IsTruthy(v) ==> Inhabits(v, AsNonTruthyType(t))
    ensures exists v :: Inhabits(v, AsNonTruthyType(t)) && !IsTruthy(v)
  {
    ScalarAdmitsFalseyValue(t);
  }

  // ---------------------------------------------------------------------------
  // Scalar form and classes

  /** `asScalarType`: this type with its nullability cleared. */
  function AsScalarType(t: Type): Option<Type>
    requires IsScalarFamily(t.kind)
  {
    Some(WithIsNullable(t, false))
  }

  /**
   * `asScalarType` gives the non-nullable form of the same kind: it admits
   * only values of the original type, and all of them except null.
   */
  lemma AsScalarTypeIsNonNullableForm(t: Type)
    requires IsScalarFamily(t.kind)
    ensures AsScalarType(t).Some?
    ensures var s := AsScalarType(t).value;
            && s.kind == t.kind && !s.isNullable && IsScalarFamily(s.kind)
            && (forall v :: Inhabits(v, s) ==> Inhabits(v, t))
            && (forall v :: Inhabits(v, t) && !v.NullValue? ==> Inhabits(v, s))
  {
  }

  /** `canPossiblyCastToClass`: never, for a scalar. */
  function CanPossiblyCastToClass(t: Type, classType: Type): bool
    requires IsScalarFamily(t.kind)
  {
    false
  }

  /** `canPossiblyCastToClass` is exact: no value of a scalar type is an object of any class. */
  lemma CanPossiblyCastToClassIsExact(t: Type, classType: Type)
    requires IsScalarFamily(t.kind)
    ensures CanPossiblyCastToClass(t, classType) <==>
            exists v :: Inhabits(v, t) && Inhabits(v, classType) && v.ObjectValue?
  {
  }

  // ---------------------------------------------------------------------------
  // Classification

  predicate IsScalar(t: Type) requires IsScalarFamily(t.kind) { true }
  predicate IsPrintableScalar(t: Type) requires IsScalarFamily(t.kind) { true }
  predicate IsValidBitwiseOperand(t: Type) requires IsScalarFamily(t.kind) { true }
  predicate IsValidNumericOperand(t: Type) requires IsScalarFamily(t.kind) { true }
  predicate IsSelfType(t: Type) requires IsScalarFamily(t.kind) { false }
  predicate IsStaticType(t: Type) requires IsScalarFamily(t.kind) { false }
  predicate IsIterable(t: Type) requires IsScalarFamily(t.kind) { false }
  predicate IsArrayLike(t: Type) requires IsScalarFamily(t.kind) { false }
  predicate IsGenericArray(t: Type) requires IsScalarFamily(t.kind) { false }
  predicate IsDefiniteNonObjectType(t: Type) requires IsScalarFamily(t.kind) { true }
  predicate IsDefiniteNonCallableType(t: Type) requires IsScalarFamily(t.kind) { true }
  predicate ShouldBeReplacedBySpecificTypes(t: Type) requires IsScalarFamily(t.kind) { false }

  /** `isScalar` holds, and apart from null every value a scalar type admits is a PHP scalar. */
  lemma IsScalarMatchesValues(t: Type)
    requires IsScalarFamily(t.kind)
    ensures IsScalar(t)
    ensures forall v :: Inhabits(v, t) && !v.NullValue? ==> IsScalarValue(v)
  {
  }

  /**
   * The structural classification is exact against the values: a scalar
   * type admits no array and no (Traversable or ArrayAccess) object, so it
   * is neither iterable, nor array-like, nor a generic array.
   */
  lemma ArrayClassificationMatchesValues(t: Type)
    requires IsScalarFamily(t.kind)
    ensures IsIterable(t) <==> exists v :: Inhabits(v, t) && (v.ArrayValue? || v.ObjectValue?)
    ensures IsArrayLike(t) <==> exists v :: Inhabits(v, t) && (v.ArrayValue? || v.ObjectValue?)
    ensures IsGenericArray(t) <==> exists v :: Inhabits(v, t) && v.ArrayValue?
  {
  }

  /** `isDefiniteNonObjectType` is exact: no value of a scalar type is an object. */
  lemma DefiniteNonObjectMatchesValues(t: Type)
    requires IsScalarFamily(t.kind)
    ensures IsDefiniteNonObjectType(t) <==> forall v :: Inhabits(v, t) ==> !v.ObjectValue?
  {
  }

  /**
   * The printable, bitwise and self/static answers of the base class, which
   * it returns as constants for every receiver and both nullabilities.
   */
  lemma FixedOperandAndSelfAnswers(t: Type)
    requires IsScalarFamily(t.kind)
    ensures IsPrintableScalar(t) && IsValidBitwiseOperand(t)
    ensures !IsSelfType(t) && !IsStaticType(t)
  {
  }

  /** The replacement, numeric-operand and non-callable answers, likewise constants of the base class. */
  lemma FixedNumericAndCallableAnswers(t: Type)
    requires IsScalarFamily(t.kind)
    ensures !ShouldBeReplacedBySpecificTypes(t) && IsValidNumericOperand(t)
    ensures IsDefiniteNonCallableType(t)
  {
  }
}

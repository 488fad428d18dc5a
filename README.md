# Phan scalar cast policy and callable-array types, in Dafny

This project models two classes of Phan's static type lattice.

- `ScalarType` is the base of the scalar variants: bool, false, int, float, string, scalar and null. It decides whether a scalar may be cast to another type under the `scalar_implicit_cast` and `scalar_implicit_partial` options. It also answers a fixed table of classification and truthiness questions.
- `CallableArrayType` is the `callable-array` variant, an array such as `[$classNameOrObject, 'method']`. It narrows the truthiness, object-ness and iteration answers it inherits.

Every operation there is a pure function of the variant, its nullability and the cast configuration. So the model is datatypes, functions and lemmas:

- `Types`: the variant tag `Kind`, the type value `Type(kind, isNullable)`, union types as `set<Type>`, and the name each variant is known by.
- `Policy`: `CastPolicy(implicitCast, partial)`. It holds the two options as an immutable value passed to each call, where the source reads global configuration. The module also models `in_array(..., true)` and the `?? []` lookup.
- `Values`: a reference model of PHP runtime values. It gives PHP's truthiness rule and the values each modelled type admits (`Inhabits`). These answers are proved exact against it:
  - the CallableArrayType truthiness and object-ness answers;
  - the ScalarType truthiness answers (`isAlwaysTruthy`, `asNonTruthyType`);
  - `isScalar`, the array classification (`isIterable`, `isArrayLike`, `isGenericArray`), `isDefiniteNonObjectType` and `canPossiblyCastToClass`.

  For example, `isAlwaysTruthy` is true exactly when every admitted value is truthy. The remaining ScalarType answers have no counterpart in the value model and are stated only as the constants the source returns: `isPrintableScalar`, `isValidBitwiseOperand`, `isValidNumericOperand`, `isSelfType`, `isStaticType`, `isDefiniteNonCallableType` and `shouldBeReplacedBySpecificTypes`.
- `ScalarType`: the cast decision `CanCastToNonNullableType`, the narrowing test, and the classification answers, each with its lemmas.
- `CallableArrayType`: the overrides, and lemmas that the iteration unions cover every key and value of a callable array and are no broader than needed.

Two collaborators are parameters. The parent's structural cast rule (`parent::canCastToNonNullableType`) is a function `(Type, Type) -> bool`. The union-to-union cast (`UnionType::canCastToUnionType`) is a function `(UnionType, UnionType) -> bool`. Two lemmas assume something about these functions. `ScalarType.FloatToIntScenario` assumes a structural rule that relates only equal kinds. `ScalarType.NarrowingMembershipIsShortcut` assumes a union cast that accepts every superset. Every other result holds for any such function.

## Model

| member | source | states |
|---|---|---|
| Policy.InArrayStrict | vendor/phan/phan/src/Phan/Language/Type/ScalarType.php:73 | strict `in_array` holds exactly when the name is an element of the list |
| Policy.PermittedTargets | vendor/phan/phan/src/Phan/Language/Type/ScalarType.php:73 | `partial[name] ?? []`: the list under the name, or the empty list when the name is not a key |
| Policy.MissingKeyPermitsNothing | vendor/phan/phan/src/Phan/Language/Type/ScalarType.php:73 | a source name that is not a key of the map counts as an empty list, so it grants no target |
| Policy.EmptyMapPermitsNothing | vendor/phan/phan/src/Phan/Language/Type/ScalarType.php:71-73 | under an empty map no source name grants any target |
| Types.Name | vendor/phan/phan/src/Phan/Language/Type/ScalarType.php:73 | `getName()`: the variant's NAME constant without the leading `?` (`"int"`, `"scalar"`, `"callable-array"`, ...), the key and the element the partial map is read with; nullability does not affect it |
| Types.IsScalarFamily | vendor/phan/phan/src/Phan/Language/Type/ScalarType.php:66 | `instanceof ScalarType`: the seven named scalar kinds and every further ScalarType subclass (`OtherScalar`), NullType included |
| Types.WithIsNullable | vendor/phan/phan/src/Phan/Language/Type/ScalarType.php:151 | `withIsNullable` keeps the kind and sets exactly the requested nullability |
| Types.AsUnionType | vendor/phan/phan/src/Phan/Language/Type/ScalarType.php:92 | `asPHPDocUnionType` is the one-element union holding the type |
| Types.ScalarNamesAreDistinct | vendor/phan/phan/src/Phan/Language/Type/ScalarType.php:73 | two of the seven named scalar kinds have the same name only if they are the same kind, so a name-keyed lookup identifies the kind |
| ScalarType.CanCastToNonNullableType | vendor/phan/phan/src/Phan/Language/Type/ScalarType.php:62-80 | under implicit casting every scalar-family target is accepted; a non-scalar target gets exactly the parent's answer; whatever the parent accepts is accepted |
| ScalarType.CastIsStructuralOrPolicy | vendor/phan/phan/src/Phan/Language/Type/ScalarType.php:62-80 | the decision equals `parent(src, tgt) or policyGrants(src, tgt)`, where `policyGrants` reads the map with no emptiness guard; so the `count > 0` guard changes nothing |
| ScalarType.ImplicitCastAcceptsEveryScalar | vendor/phan/phan/src/Phan/Language/Type/ScalarType.php:66-69 | with implicit casting on, the cast to any scalar-family target (null included) succeeds, whatever the partial map holds |
| ScalarType.PolicyReachesFurtherScalarTargets | vendor/phan/phan/src/Phan/Language/Type/ScalarType.php:66-75 | a further ScalarType subclass such as `true` is a scalar target: int to `true` is granted under implicit casting, and under `{"int": ["true"]}`, whatever the structural rule says |
| ScalarType.PartialCastIsExact | vendor/phan/phan/src/Phan/Language/Type/ScalarType.php:70-79 | with implicit casting off, scalar to scalar succeeds iff the parent allows it or the target's name is in the list under the source's name (a missing key grants none) |
| ScalarType.NonScalarTargetIgnoresPolicy | vendor/phan/phan/src/Phan/Language/Type/ScalarType.php:66-79 | for a target outside the scalar family, any two policies give the same answer, and it is the parent's |
| ScalarType.DefaultPolicyIsStructural | vendor/phan/phan/src/Phan/Language/Type/ScalarType.php:67-79 | with both options at their defaults the decision is the parent's rule alone |
| ScalarType.CastIsMonotoneInPolicy | vendor/phan/phan/src/Phan/Language/Type/ScalarType.php:62-80 | a policy that permits at least as much never rejects a cast the weaker policy accepts |
| ScalarType.ImplicitCastOnlyAdds | vendor/phan/phan/src/Phan/Language/Type/ScalarType.php:66-69 | switching implicit casting on never turns an accepted cast into a rejected one |
| ScalarType.PartialLookupIsDirectional | vendor/phan/phan/src/Phan/Language/Type/ScalarType.php:73 | with `{"int": ["string"]}`, int to string is granted, and string to int gets only the parent's answer |
| ScalarType.FloatToIntScenario | vendor/phan/phan/src/Phan/Language/Type/ScalarType.php:70-79 | with `{"float": ["int"]}` and a parent that relates only equal kinds, float to int succeeds, while int to float and float to string fail |
| ScalarType.IsExclusivelyNarrowedFormOrEquivalentTo | vendor/phan/phan/src/Phan/Language/Type/ScalarType.php:87-93 | true when the union contains the type; otherwise exactly whether the type's singleton union casts to the union |
| ScalarType.NarrowingMembershipIsShortcut | vendor/phan/phan/src/Phan/Language/Type/ScalarType.php:92 | when every union casts to the unions containing it, the membership test adds nothing beyond the union cast |
| ScalarType.IsAlwaysTruthy | vendor/phan/phan/src/Phan/Language/Type/ScalarType.php:103-108 | false for every scalar receiver |
| ScalarType.AsNonTruthyType | vendor/phan/phan/src/Phan/Language/Type/ScalarType.php:110-114 | the receiver itself |
| ScalarType.AsScalarType | vendor/phan/phan/src/Phan/Language/Type/ScalarType.php:149-152 | present: the receiver with its nullability cleared |
| ScalarType.CanPossiblyCastToClass | vendor/phan/phan/src/Phan/Language/Type/ScalarType.php:154-157 | false for every class argument |
| ScalarType.IsScalar | vendor/phan/phan/src/Phan/Language/Type/ScalarType.php:17-20 | true |
| ScalarType.IsPrintableScalar | vendor/phan/phan/src/Phan/Language/Type/ScalarType.php:22-25 | true |
| ScalarType.IsValidBitwiseOperand | vendor/phan/phan/src/Phan/Language/Type/ScalarType.php:27-30 | true |
| ScalarType.IsSelfType | vendor/phan/phan/src/Phan/Language/Type/ScalarType.php:32-35 | false |
| ScalarType.IsStaticType | vendor/phan/phan/src/Phan/Language/Type/ScalarType.php:37-40 | false |
| ScalarType.IsIterable | vendor/phan/phan/src/Phan/Language/Type/ScalarType.php:42-45 | false |
| ScalarType.IsArrayLike | vendor/phan/phan/src/Phan/Language/Type/ScalarType.php:47-50 | false |
| ScalarType.IsGenericArray | vendor/phan/phan/src/Phan/Language/Type/ScalarType.php:52-55 | false |
| ScalarType.ShouldBeReplacedBySpecificTypes | vendor/phan/phan/src/Phan/Language/Type/ScalarType.php:119-122 | false |
| ScalarType.IsValidNumericOperand | vendor/phan/phan/src/Phan/Language/Type/ScalarType.php:124-127 | true |
| ScalarType.IsDefiniteNonObjectType | vendor/phan/phan/src/Phan/Language/Type/ScalarType.php:134-137 | true |
| ScalarType.IsDefiniteNonCallableType | vendor/phan/phan/src/Phan/Language/Type/ScalarType.php:144-147 | true |
| ScalarType.ScalarAdmitsFalseyValue | vendor/phan/phan/src/Phan/Language/Type/ScalarType.php:103-114 | every type of a named scalar kind, of either nullability, admits a falsey value (false, 0, 0.0, "" or null) |
| ScalarType.AlwaysTruthyIsExact | vendor/phan/phan/src/Phan/Language/Type/ScalarType.php:103-108 | for the named scalar kinds, `isAlwaysTruthy` (false) holds iff every value of the type is truthy |
| ScalarType.AsNonTruthyTypeKeepsFalseyValues | vendor/phan/phan/src/Phan/Language/Type/ScalarType.php:110-114 | for the named scalar kinds, `asNonTruthyType` returns the type unchanged; the result keeps every falsey value of the type and admits at least one |
| ScalarType.AsScalarTypeIsNonNullableForm | vendor/phan/phan/src/Phan/Language/Type/ScalarType.php:149-152 | `asScalarType` is present and gives the same kind, non-nullable; it admits only values of the original type, and all of them except null |
| ScalarType.CanPossiblyCastToClassIsExact | vendor/phan/phan/src/Phan/Language/Type/ScalarType.php:154-157 | `canPossiblyCastToClass` (false, for every class argument) holds iff some value of the type is an object admitted by the class type |
| ScalarType.IsScalarMatchesValues | vendor/phan/phan/src/Phan/Language/Type/ScalarType.php:17-20 | `isScalar` holds, and every non-null value of the type is a PHP scalar |
| ScalarType.ArrayClassificationMatchesValues | vendor/phan/phan/src/Phan/Language/Type/ScalarType.php:42-55 | `isIterable` and `isArrayLike` hold iff an array or object is admitted; `isGenericArray` holds iff an array is admitted; all are false |
| ScalarType.DefiniteNonObjectMatchesValues | vendor/phan/phan/src/Phan/Language/Type/ScalarType.php:134-137 | `isDefiniteNonObjectType` holds iff no admitted value is an object |
| ScalarType.FixedOperandAndSelfAnswers | vendor/phan/phan/src/Phan/Language/Type/ScalarType.php:22-40 | the base class's constants, with no value-model counterpart: printable and bitwise-operand answers are true, self and static answers false, for every scalar receiver |
| ScalarType.FixedNumericAndCallableAnswers | vendor/phan/phan/src/Phan/Language/Type/ScalarType.php:119-147 | the base class's constants, with no value-model counterpart: `shouldBeReplacedBySpecificTypes` is false; numeric-operand and definite-non-callable answers are true, for every scalar receiver |
| Values.CallableArrayIgnoresEntryOrder | vendor/phan/phan/src/Phan/Language/Type/CallableArrayType.php:8-11 | a two-entry array with indices 0 and 1 is a callable array in either entry order, and one with the parts swapped is not |
| CallableArrayType.IsAlwaysTruthy | vendor/phan/phan/src/Phan/Language/Type/CallableArrayType.php:16-19 | `!is_nullable` |
| CallableArrayType.IsPossiblyObject | vendor/phan/phan/src/Phan/Language/Type/CallableArrayType.php:21-24 | false |
| CallableArrayType.IsPossiblyTruthy | vendor/phan/phan/src/Phan/Language/Type/CallableArrayType.php:26-29 | true |
| CallableArrayType.IsPossiblyFalsey | vendor/phan/phan/src/Phan/Language/Type/CallableArrayType.php:31-34 | `is_nullable` |
| CallableArrayType.IterableKeyUnionType | vendor/phan/phan/src/Phan/Language/Type/CallableArrayType.php:40-44 | the union `{int}`, non-nullable |
| CallableArrayType.IterableValueUnionType | vendor/phan/phan/src/Phan/Language/Type/CallableArrayType.php:49-52 | the union `{string, object}`, both non-nullable |
| CallableArrayType.ValuesAreNullOrCallableArrays | vendor/phan/phan/src/Phan/Language/Type/CallableArrayType.php:8-12 | every value of a callable-array type is null (only when nullable) or a truthy two-entry callable array |
| CallableArrayType.AlwaysTruthyIsExact | vendor/phan/phan/src/Phan/Language/Type/CallableArrayType.php:16-19 | `isAlwaysTruthy` is `!is_nullable`, and that holds iff every admitted value is truthy |
| CallableArrayType.PossiblyObjectIsExact | vendor/phan/phan/src/Phan/Language/Type/CallableArrayType.php:21-24 | `isPossiblyObject` (false for both nullabilities) holds iff some admitted value is an object |
| CallableArrayType.PossiblyTruthyIsExact | vendor/phan/phan/src/Phan/Language/Type/CallableArrayType.php:26-29 | `isPossiblyTruthy` (true) holds iff some admitted value is truthy |
| CallableArrayType.PossiblyFalseyIsExact | vendor/phan/phan/src/Phan/Language/Type/CallableArrayType.php:31-34 | `isPossiblyFalsey` is `is_nullable`, and that holds iff some admitted value is falsey |
| CallableArrayType.TruthinessIsConsistent | vendor/phan/phan/src/Phan/Language/Type/CallableArrayType.php:16-34 | always-truthy implies possibly-truthy and not possibly-falsey; always-truthy and possibly-falsey are complementary |
| CallableArrayType.IterableKeysAreCovered | vendor/phan/phan/src/Phan/Language/Type/CallableArrayType.php:40-44 | every key met when iterating a callable array is admitted by the key union |
| CallableArrayType.IterableValuesAreCovered | vendor/phan/phan/src/Phan/Language/Type/CallableArrayType.php:49-52 | every value met when iterating a callable array is admitted by the value union |
| CallableArrayType.IterableUnionsAreTight | vendor/phan/phan/src/Phan/Language/Type/CallableArrayType.php:40-52 | each member of the key union and of the value union is met by a key or value of some callable array of the type |
| CallableArrayType.IterableUnionsIgnoreNullability | vendor/phan/phan/src/Phan/Language/Type/CallableArrayType.php:40-52 | the key union is `{int}` and the value union the two-element `{string, object}`, all non-nullable, for either nullability of the receiver |

## Left out

- `Config::getValue` (ScalarType.php:67, 70): the global configuration lookup is replaced by an explicit `CastPolicy` argument. Loading and validating the configuration is not modelled.
- `scalar_implicit_partial` lists are modelled as lists of strings. A PHP configuration could hold non-string entries, which strict `in_array` never matches. The model has no such entries.
- The parent rules `NativeType::canCastToNonNullableType` and the `ArrayType` ancestry of `CallableArrayType` are not part of this model. The structural rule is a function parameter. Every lemma except `ScalarType.FloatToIntScenario` holds for any such rule.
- `UnionType::fromFullyQualifiedPHPDocString`, `hasType` and `canCastToUnionType` are not modelled. Unions are sets, membership is `in`, and the union cast is a function parameter.
- The `CodeBase` and `Context` arguments are unused in the source and are dropped. So "the answer ignores the code base" holds by construction and has no lemma.
- `asFQSENString` (ScalarType.php:98-101) only returns the name. `Types.Name` stands in for it.
- The `\class_exists` calls (ScalarType.php:159-160) are autoloading and not modelled.
- Overrides in subclasses not shown are not modelled, for example `BoolType::isPrintableScalar`. ScalarType subclasses beyond the seven named kinds, such as `TrueType` and the literal int and string types, are the single kind `OtherScalar(name)`. They take part in the cast decision as scalar targets and sources, and their answers are the base class's. Their admitted values are over-approximated as all PHP scalars.
- ScalarType.ScalarAdmitsFalseyValue: stated for the seven named kinds only, because `TrueType` and some literal types admit no falsey value.
- ScalarType.AlwaysTruthyIsExact: stated for the seven named kinds only, because `TrueType` and the literal types override `isAlwaysTruthy`.
- ScalarType.AsNonTruthyTypeKeepsFalseyValues: stated for the seven named kinds only, for the same reason: a type with no falsey value has none to keep.
- ScalarType.IsDefiniteNonCallableType: callable strings (`'strlen'`, `'C::m'`) are not modelled. Against PHP's runtime values, the base answer `true` is too strong for `string` and `scalar` receivers. Any `StringType` override is not part of this model, so only the constant is stated.
- `canCastTo` is not modelled: the nullable wrapper that calls `canCastToNonNullableType` lives in the base `Type` class.
- `Other` stands for every variant outside ScalarType that the model does not describe. It places no constraint on the values it admits. It appears in the cast lemmas only as a possible non-scalar target, where the structural rule alone decides.
- Values: floats are mathematical reals. NaN and infinities are not modelled, and neither is PHP's object-to-boolean behaviour for special classes such as SimpleXMLElement. The value model is a reference semantics for the fixed answers. It is not part of the source.
- `Inhabits` for `Null` admits null whatever the nullability flag says. Phan's own `NullType::withIsNullable` is not part of this model.

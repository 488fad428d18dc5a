/**
 * The variants of Phan's static type lattice that this model needs, a type
 * value (variant plus nullability) and union types as sets of type values.
 */
module Types {

  datatype Option<+T> = None | Some(value: T)

  /**
   * The variant tag of a type. The first seven are the named subclasses of
   * ScalarType (NullType included, as the source notes); OtherScalar stands
   * for every further subclass of ScalarType (such as `true` or a literal
   * int or string type), under its own name; CallableArray and Object are
   * the non-scalar variants the model refers to; Other stands for every
   * variant outside ScalarType that the model does not describe.
   */
  datatype Kind =
    | Bool | False | Int | Float | String | Null | ScalarRaw
    | OtherScalar(scalarName: string)
    | CallableArray
    | Object
    | Other(otherName: string)

  /** A type value: two values with the same kind and nullability are interchangeable. */
  datatype Type = Type(kind: Kind, isNullable: bool)

  /** A union type: "any of these"; order is irrelevant and duplicates collapse. */
  type UnionType = set<Type>

  /** The name of a variant, as `getName()` returns it (without the leading `?`). */
  function Name(k: Kind): string
  {
    match k
    case Bool => "bool"
    case False => "false"
    case Int => "int"
    case Float => "float"
    case String => "string"
    case Null => "null"
    case ScalarRaw => "scalar"
    case OtherScalar(n) => n
    case CallableArray => "callable-array"
    case Object => "object"
    case Other(n) => n
  }

  /** The `instanceof ScalarType` test: true for the scalar family, NullType included. */
  predicate IsScalarFamily(k: Kind)
  {
    IsNamedScalar(k) || k.OtherScalar?
  }

  /**
   * The seven named scalar kinds. Unlike some further subclasses, they all
   * keep the base class's truthiness answers.
   */
  predicate IsNamedScalar(k: Kind)
  {
    k.Bool? || k.False? || k.Int? || k.Float? || k.String? || k.Null? || k.ScalarRaw?
  }

  /** `withIsNullable`: a new type value of the same kind; nothing is changed in place. */
  function WithIsNullable(t: Type, nullable: bool): (r: Type)
    ensures r.kind == t.kind && r.isNullable == nullable
  {
    t.(isNullable := nullable)
  }

  /** `asPHPDocUnionType`: the union holding just this type. */
  function AsUnionType(t: Type): (u: UnionType)
    ensures t in u && |u| == 1
  {
    {t}
  }

  /** The names of the named scalar kinds are pairwise distinct, so the name identifies the kind. */
  lemma ScalarNamesAreDistinct(a: Kind, b: Kind)
    requires IsNamedScalar(a) && IsNamedScalar(b)
    ensures Name(a) == Name(b) <==> a == b
  {
  }
}

/**
 * A reference model of the PHP runtime values that Phan's types describe,
 * with PHP's truthiness rule and the set of values each modelled type admits.
 * The predicates of the type lattice are proved against this model: it is
 * the meaning the fixed answers of ScalarType and CallableArrayType promise.
 */
module Values {
  import opened Types

  /** An array key: PHP arrays are keyed by integers or strings. */
  datatype Key = IntKey(i: int) | StringKey(s: string)

  /** A PHP value. Arrays are ordered (key, value) entries; objects carry their class name. */
  datatype Value =
    | NullValue
    | BoolValue(b: bool)
    | IntValue(i: int)
    | FloatValue(f: real)
    | StringValue(s: string)
    | ArrayValue(entries: seq<(Key, Value)>)
    | ObjectValue(className: string)

  /** PHP's boolean coercion: null, false, 0, 0.0, "", "0" and the empty array are falsey. */
  predicate IsTruthy(v: Value)
  {
    match v
    case NullValue => false
    case BoolValue(b) => b
    case IntValue(i) => i != 0
    case FloatValue(f) => f != 0.0
    case StringValue(s) => s != "" && s != "0"
    case ArrayValue(entries) => |entries| > 0
    case ObjectValue(_) => true
  }

  /** PHP's `is_scalar`: bool, int, float and string (null is not a scalar). */
  predicate IsScalarValue(v: Value)
  {
    v.BoolValue? || v.IntValue? || v.FloatValue? || v.StringValue?
  }

  /** The two parts of a callable: a class name or an object, and a method name. */
  predicate IsCallableParts(receiver: Value, methodName: Value)
  {
    (receiver.StringValue? || receiver.ObjectValue?) && methodName.StringValue?
  }

  /**
   * A callable array: `[$classNameOrObject, 'method']`, a two-entry array
   * whose entry at index 0 is a class name or an object and whose entry at
   * index 1 is a method name; the two entries may be in either order.
   */
  predicate IsCallableArrayValue(v: Value)
  {
    && v.ArrayValue?
    && |v.entries| == 2
    && ((v.entries[0].0 == IntKey(0) && v.entries[1].0 == IntKey(1) &&
         IsCallableParts(v.entries[0].1, v.entries[1].1)) ||
        (v.entries[0].0 == IntKey(1) && v.entries[1].0 == IntKey(0) &&
         IsCallableParts(v.entries[1].1, v.entries[0].1)))
  }

  /** `[1 => 'm', 0 => 'C']` is a callable array as much as `['C', 'm']`: entry order does not matter. */
  lemma CallableArrayIgnoresEntryOrder()
    ensures IsCallableArrayValue(ArrayValue([(IntKey(0), StringValue("C")), (IntKey(1), StringValue("m"))]))
    ensures IsCallableArrayValue(ArrayValue([(IntKey(1), StringValue("m")), (IntKey(0), StringValue("C"))]))
    ensures !IsCallableArrayValue(ArrayValue([(IntKey(0), StringValue("m")), (IntKey(1), ObjectValue("C"))]))
  {
  }

  /**
   * The values a type admits; a nullable type also admits null. For a
   * further ScalarType subclass this is an over-approximation: `true` or a
   * literal type admits only some of the bool, int, float and string values.
   */
  predicate Inhabits(v: Value, t: Type)
  {
    (t.isNullable && v.NullValue?) ||
    match t.kind
    case Bool => v.BoolValue?
    case False => v == BoolValue(false)
    case Int => v.IntValue?
    case Float => v.FloatValue?
    case String => v.StringValue?
    case Null => v.NullValue?
    case ScalarRaw => IsScalarValue(v)
    case OtherScalar(_) => IsScalarValue(v)
    case CallableArray => IsCallableArrayValue(v)
    case Object => v.ObjectValue?
    case Other(_) => true
  }

  /** The values a union type admits: those of any of its members. */
  predicate InhabitsUnion(v: Value, u: UnionType)
  {
    exists t :: t in u && Inhabits(v, t)
  }

  /** An array key read back as a value, as `foreach ($a as $k => $_)` binds it. */
  function KeyAsValue(k: Key): Value
  {
    match k
    case IntKey(i) => IntValue(i)
    case StringKey(s) => StringValue(s)
  }
}

/**
 * The handful of PHP runtime notions the instrumentation inspects: values,
 * `is_string`, `is_a`, and reading an object's property with a default.
 */
module Php {
  import opened Wrappers

  /** A PHP value, as far as the instrumentation looks at it. */
  datatype Value =
    | Null
    | Str(s: string)
    | Obj(obj: PhpObject)
    | OtherScalar  // int, float, bool, array, resource: never inspected further

  /**
   * An object: every class it is an instance of (its own class, its ancestors
   * and its interfaces), lower-cased, and its properties by name.
   */
  datatype PhpObject = PhpObject(classes: set<string>, props: map<string, Value>)

  /** The declared type `?object` of an intercepted call's receiver. */
  type ObjectOrNull = v: Value | v.Null? || v.Obj? witness Null

  /** The declared type `?string`. */
  type NullableString = v: Value | v.Null? || v.Str? witness Null

  predicate IsString(v: Value) {
    v.Str?
  }

  /**
   * `is_a($v, $className)`: only objects are instances of a class. PHP compares
   * class names case-insensitively; `classes` holds lower-cased names and every
   * class name asked about here is lower case.
   */
  predicate IsA(v: Value, className: string) {
    v.Obj? && className in v.obj.classes
  }

  /** The property `name` of an object, or `default` when it has none. */
  function PropertyOr(receiver: ObjectOrNull, name: string, default: Value): Value {
    if receiver.Obj? && name in receiver.obj.props then receiver.obj.props[name] else default
  }

  /** A `?string` value as an optional string. */
  function AsOption(v: NullableString): Option<string> {
    if v.Str? then Some(v.s) else None
  }
}

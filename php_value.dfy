/** The PHP values that travel through the Laravel/Monolog logging path: what a log call's
    context array may hold. A PHP array is either a list or a string-keyed map; both are
    "arrays" to `is_array`. */
module Php {

  /** What a `\Throwable` exposes through its getters. `getCode()` is an int for most
      throwables and a string for a `PDOException` (its SQLSTATE, which Laravel's
      `QueryException` copies). */
  datatype ThrowableInfo = ThrowableInfo(
    className: string,
    message: string,
    code: Value,
    file: string,
    line: int,
    trace: string)

  datatype Value =
    | Null
    | Bool(b: bool)
    | Int(i: int)
    | Str(s: string)
    | List(items: seq<Value>)
    | Arr(entries: map<string, Value>)
    | Throwable(ex: ThrowableInfo)
    | Obj(className: string)
  {
    /** PHP `is_array($value)`. */
    predicate IsArray() {
      List? || Arr?
    }

    /** PHP `is_array($value) && empty($value)`. */
    predicate IsEmptyArray() {
      (List? && |items| == 0) || (Arr? && |entries| == 0)
    }
  }
}

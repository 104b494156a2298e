/**
  * The building blocks of the request schemas: the field checks Zod applies
  * (`z.string().min().max()`, `z.enum`, `z.number().positive()`, …) on the
  * JavaScript value of one field of the request object.
  */
module Validation {
  import opened Wrappers
  import opened JsValues

  /**
    * The checks the schemas borrow from Zod and the runtime without this model
    * defining them: `.email()`, `.uuid()`, `z.coerce.date()` (`new Date(v)`,
    * `None` for an invalid date) and `z.coerce.number()` (`Number(v)`, `None`
    * for NaN).
    */
  datatype Library = Library(
    isEmail: string -> bool,
    isUuid: string -> bool,
    coerceDate: Value -> Option<int>,
    coerceNumber: Value -> Option<real>)

  /** The field `key` of a request object; `undefined` when it is absent. */
  function Get(input: map<string, Value>, key: string): (v: Value)
    ensures key !in input ==> v == Undefined
  {
    if key in input then input[key] else Undefined
  }

  /** `z.string().min(min)`, with `.max(max)` when one is given. */
  predicate StringBetween(v: Value, min: nat, max: Option<nat>) {
    v.Str? && min <= |v.s| && (max.None? || |v.s| <= max.value)
  }

  /** `z.enum([...])` or `z.nativeEnum(E)` over a string enum. */
  predicate OneOfNames(v: Value, names: set<string>) {
    v.Str? && v.s in names
  }

  /** `z.array(z.string())`. */
  predicate StringArray(v: Value) {
    v.Arr? && forall i :: 0 <= i < |v.items| ==> v.items[i].Str?
  }

  /** `z.number().positive()`. */
  predicate Positive(v: Value) {
    v.Num? && v.r > 0.0
  }

  /** `z.number().min(lo).max(hi)`, both bounds inclusive. */
  predicate NumberBetween(v: Value, lo: real, hi: real) {
    v.Num? && lo <= v.r <= hi
  }

  /** `Number.isInteger`. */
  predicate IsInteger(r: real) {
    r.Floor as real == r
  }

  /** `z.string().email()`. */
  predicate Email(lib: Library, v: Value) {
    v.Str? && lib.isEmail(v.s)
  }

  /** `z.string().uuid()`. */
  predicate Uuid(lib: Library, v: Value) {
    v.Str? && lib.isUuid(v.s)
  }

  /** `.optional()`: an absent field passes, a present one must pass `check`. */
  predicate Optional(v: Value, check: bool) {
    v == Undefined || check
  }
}

/**
 * JavaScript values the OCR document layer relies on: nullable values and
 * the truthiness tests (`if (x)`, `x || y`) its code uses on them.
 */
module JsValues {

  /** A value that may be `null` or `undefined`. */
  datatype Option<+T> = None | Some(value: T)

  /** `if (x)` on a nullable number: `null`, `undefined` and `0` are all falsy. */
  predicate TruthyNum(x: Option<int>) {
    x.Some? && x.value != 0
  }

  /** `if (s)` on a nullable string: `null`, `undefined` and `""` are all falsy. */
  predicate TruthyStr(s: Option<string>) {
    s.Some? && s.value != ""
  }

  /** `s || fallback` on a nullable string. */
  function StrOr(s: Option<string>, fallback: string): string {
    if TruthyStr(s) then s.value else fallback
  }

  /** `s.slice(0, 1)`: the first character, or the empty string. */
  function FirstChar(s: string): (r: string)
    ensures |r| == if s == "" then 0 else 1
    ensures r <= s
  {
    if s == "" then "" else s[..1]
  }
}

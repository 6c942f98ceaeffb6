/**
 * The pieces of JavaScript semantics the browser client relies on, over Json values:
 * truthiness, `String(v)` and the loose comparison `v == 0`.
 */
module JsSem {
  import opened Json

  /** `!!v`: null, false, 0 and "" are falsy; every array and object is truthy. */
  predicate Truthy(v: Value) {
    match v
    case Null => false
    case Bool(b) => b
    case Num(n) => n != 0
    case Str(s) => s != ""
    case _ => true
  }

  /** `String(v)`; inside an array, null elements print as the empty string. */
  function ToString(v: Value): string {
    match v
    case Null => "null"
    case Bool(b) => if b then "true" else "false"
    case Num(n) => IntToDecimal(n)
    case Str(s) => s
    case Arr(items) => JoinItems(items)
    case Obj(_) => "[object Object]"
  }

  /** `items.join(",")`. */
  function JoinItems(items: seq<Value>): string
    decreases items
  {
    if items == [] then ""
    else
      var first := if items[0].Null? then "" else ToString(items[0]);
      if |items| == 1 then first else first + "," + JoinItems(items[1..])
  }

  /**
   * The characters `Number(text)` skips around its digits, as far as modelled: the ASCII ones, NBSP
   * and BOM; U+2028, U+2029 and the other Unicode space separators are left out.
   */
  predicate IsSpace(c: char) {
    c == ' ' || c == '\t' || c == '\n' || c == '\r' || c == '\U{B}' || c == '\U{C}'
    || c == '\U{A0}' || c == '\U{FEFF}'
  }

  function Trim(s: string): (r: string)
    ensures |r| <= |s|
  {
    if s != [] && IsSpace(s[0]) then Trim(s[1..])
    else if s != [] && IsSpace(s[|s| - 1]) then Trim(s[..|s| - 1])
    else s
  }

  predicate AllZeros(s: string) {
    forall i :: 0 <= i < |s| ==> s[i] == '0'
  }

  /**
   * `Number(text) === 0` for decimal text: blank text, or an optional sign followed by zeros
   * with at most one decimal point. Exponent, hexadecimal and binary forms are not modelled.
   */
  predicate TextIsZero(text: string) {
    var t := Trim(text);
    var body := if t != [] && (t[0] == '+' || t[0] == '-') then t[1..] else t;
    t == []
    || (body != [] && body != "." && AllZeros(body))
    || (exists i :: 0 <= i < |body| && body[i] == '.' && body != "."
                    && AllZeros(body[..i]) && AllZeros(body[i + 1..]))
  }

  /**
   * The loose comparison `v == 0`: null is never equal to 0, booleans and strings convert to
   * numbers, arrays and objects convert through their string form.
   */
  predicate LooseEqualsZero(v: Value) {
    match v
    case Null => false
    case Bool(b) => !b
    case Num(n) => n == 0
    case Str(s) => TextIsZero(s)
    case Arr(_) => TextIsZero(ToString(v))
    case Obj(_) => false
  }
}

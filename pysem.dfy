/**
 * The pieces of Python's built-in semantics the backend relies on, over Json values:
 * truthiness (what `if x:` and `a or b` test), `str()` / `repr()`, `str.strip()`,
 * `str.lower()`, `str.split(sep)` with a one-character separator, and `int(text)`.
 */
module PySem {
  import opened Wrappers
  import opened Json

  /** `bool(v)`: None, False, 0, "", [] and {} are false. */
  predicate Truthy(v: Value) {
    match v
    case Null => false
    case Bool(b) => b
    case Num(n) => n != 0
    case Str(s) => s != ""
    case Arr(items) => items != []
    case Obj(ms) => ms != []
  }

  /** `a or b`: `a` when it is truthy, otherwise `b`. */
  function Or(a: Value, b: Value): (r: Value)
    ensures Truthy(r) <==> Truthy(a) || Truthy(b)
    ensures Truthy(a) ==> r == a
    ensures !Truthy(a) ==> r == b
  {
    if Truthy(a) then a else b
  }

  /** Value of an optional string field: None and "" are both falsy. */
  function StrOrNull(s: Option<string>): Value {
    if s.Some? then Str(s.value) else Null
  }

  /** The characters `str.strip()` removes (the ASCII ones; Unicode spaces are not modelled). */
  predicate IsSpace(c: char) {
    c == ' ' || c == '\t' || c == '\n' || c == '\r' || c == '\U{B}' || c == '\U{C}'
    || ('\U{1C}' <= c <= '\U{1F}')
  }

  function TrimLeft(s: string): (r: string)
    ensures |r| <= |s| && r == s[|s| - |r|..]
    ensures r != [] ==> !IsSpace(r[0])
    ensures forall i :: 0 <= i < |s| - |r| ==> IsSpace(s[i])
  {
    if s != [] && IsSpace(s[0]) then TrimLeft(s[1..]) else s
  }

  function TrimRight(s: string): (r: string)
    ensures |r| <= |s| && r == s[..|r|]
    ensures r != [] ==> !IsSpace(r[|r| - 1])
    ensures forall i :: |r| <= i < |s| ==> IsSpace(s[i])
  {
    if s != [] && IsSpace(s[|s| - 1]) then TrimRight(s[..|s| - 1]) else s
  }

  /** `s.strip()`. */
  function Strip(s: string): (r: string)
    ensures r != [] ==> !IsSpace(r[0]) && !IsSpace(r[|r| - 1])
    ensures forall c :: c in r ==> c in s
  {
    TrimRight(TrimLeft(s))
  }

  /** A string that `strip()` leaves as it is. */
  predicate Stripped(s: string) {
    s != [] ==> !IsSpace(s[0]) && !IsSpace(s[|s| - 1])
  }

  lemma {:induction false} StripIdentity(s: string)
    requires Stripped(s)
    ensures Strip(s) == s
  {
  }

  function LowerChar(c: char): char {
    if 'A' <= c <= 'Z' then (c as int + 32) as char else c
  }

  /** `s.lower()` for ASCII letters (Unicode case mapping is not modelled). */
  function Lower(s: string): (r: string)
    ensures |r| == |s|
    ensures forall i :: 0 <= i < |s| ==> r[i] == LowerChar(s[i])
  {
    if s == [] then [] else [LowerChar(s[0])] + Lower(s[1..])
  }

  /** `s.replace(a, b)` for single characters. */
  function ReplaceChar(s: string, a: char, b: char): (r: string)
    ensures |r| == |s|
    ensures forall i :: 0 <= i < |s| ==> r[i] == (if s[i] == a then b else s[i])
  {
    if s == [] then [] else [if s[0] == a then b else s[0]] + ReplaceChar(s[1..], a, b)
  }

  /** `s.split(sep)` with a one-character separator: never empty, pieces free of `sep`. */
  function Split(s: string, sep: char): (parts: seq<string>)
    ensures |parts| >= 1
    ensures forall i :: 0 <= i < |parts| ==> sep !in parts[i]
  {
    if sep !in s then [s]
    else
      var i := IndexOf(s, sep);
      [s[..i]] + Split(s[i + 1..], sep)
  }

  function IndexOf(s: string, c: char): (i: nat)
    requires c in s
    ensures i < |s| && s[i] == c && c !in s[..i]
  {
    if s[0] == c then 0 else 1 + IndexOf(s[1..], c)
  }

  /** `sep.join(parts)`. */
  function Join(parts: seq<string>, sep: string): string {
    if parts == [] then ""
    else if |parts| == 1 then parts[0]
    else parts[0] + sep + Join(parts[1..], sep)
  }

  /** Splitting a join on the same separator gives the pieces back when none contains it. */
  lemma {:induction false} SplitJoin(parts: seq<string>, sep: char)
    requires |parts| >= 1
    requires forall i :: 0 <= i < |parts| ==> sep !in parts[i]
    ensures Split(Join(parts, [sep]), sep) == parts
  {
    if |parts| == 1 {
      assert Join(parts, [sep]) == parts[0];
    } else {
      var rest := Join(parts[1..], [sep]);
      var s := Join(parts, [sep]);
      assert s == parts[0] + [sep] + rest;
      assert s[|parts[0]|] == sep;
      assert s[..|parts[0]|] == parts[0];
      assert sep in s;
      var i := IndexOf(s, sep);
      assert i == |parts[0]|;
      assert s[i + 1..] == rest;
      SplitJoin(parts[1..], sep);
    }
  }

  /** Every character of a piece comes from the split text. */
  lemma {:induction false} SplitPiecesFrom(s: string, sep: char, i: nat)
    requires i < |Split(s, sep)|
    ensures forall c :: c in Split(s, sep)[i] ==> c in s
  {
    if sep in s {
      var k := IndexOf(s, sep);
      if i > 0 {
        SplitPiecesFrom(s[k + 1..], sep, i - 1);
      }
    }
  }

  /** `str(v)`: None, True/False, decimal numbers, strings as themselves, containers by repr. */
  function ToStr(v: Value): string {
    match v
    case Str(s) => s
    case _ => Repr(v)
  }

  /**
   * `repr(v)`: strings in single quotes, lists as `[a, b]`, dicts as `{'k': v}`.
   * The escaping Python applies to quotes and control characters inside strings is not modelled.
   */
  function Repr(v: Value): string {
    match v
    case Str(s) => "'" + s + "'"
    case Arr(items) => "[" + ReprItems(items) + "]"
    case Obj(ms) => "{" + ReprMembers(ms) + "}"
    case Null => "None"
    case Bool(b) => if b then "True" else "False"
    case Num(n) => IntToDecimal(n)
  }

  function ReprItems(items: seq<Value>): string
    decreases items
  {
    if items == [] then ""
    else if |items| == 1 then Repr(items[0])
    else Repr(items[0]) + ", " + ReprItems(items[1..])
  }

  function ReprMembers(ms: seq<(string, Value)>): string
    decreases ms
  {
    if ms == [] then ""
    else
      assert ms[0] in ms;
      assert ms[0].1 < ms[0];
      var m := "'" + ms[0].0 + "': " + Repr(ms[0].1);
      if |ms| == 1 then m else m + ", " + ReprMembers(ms[1..])
  }

  predicate IsDigit(c: char) { '0' <= c <= '9' }

  function DigitOf(c: char): nat
    requires IsDigit(c)
  {
    c as int - '0' as int
  }

  /** The value of a non-empty run of decimal digits. */
  function DigitsValue(s: string): nat
    requires forall i :: 0 <= i < |s| ==> IsDigit(s[i])
  {
    if s == [] then 0 else DigitsValue(s[..|s| - 1]) * 10 + DigitOf(s[|s| - 1])
  }

  /** The text after an optional leading sign. */
  function Unsigned(t: string): string
  {
    if t != [] && (t[0] == '-' || t[0] == '+') then t[1..] else t
  }

  /**
   * `int(text)`: surrounding whitespace, an optional sign, then one or more decimal digits.
   * None stands for the ValueError. Underscore digit separators, non-ASCII decimal digits and
   * non-ASCII whitespace, all of which Python accepts, are not modelled.
   */
  function ParseInt(text: string): (r: Option<int>)
  {
    var t := Strip(text);
    var neg := t != [] && t[0] == '-';
    var body := Unsigned(t);
    if body != [] && forall i :: 0 <= i < |body| ==> IsDigit(body[i]) then
      var m: int := DigitsValue(body);
      Some(if neg then -m else m)
    else None
  }

  lemma {:induction false} DigitsOfDecimal(n: nat)
    ensures var s := NatToDecimal(n); DigitsValue(s) == n
    decreases n
  {
    var s := NatToDecimal(n);
    if n >= 10 {
      DigitsOfDecimal(n / 10);
      assert s[..|s| - 1] == NatToDecimal(n / 10);
    }
  }

  /** `int(str(n))` gives back `n` for a natural number. */
  lemma ParseIntOfDecimal(n: nat)
    ensures ParseInt(NatToDecimal(n)) == Some(n)
  {
    var s := NatToDecimal(n);
    assert Stripped(s) by {
      assert IsDigit(s[0]) && IsDigit(s[|s| - 1]);
    }
    StripIdentity(s);
    DigitsOfDecimal(n);
    assert s[0] != '-' && s[0] != '+' by { assert IsDigit(s[0]); }
    assert Unsigned(Strip(s)) == s;
    assert forall i :: 0 <= i < |s| ==> IsDigit(s[i]);
    assert DigitsValue(Unsigned(Strip(s))) == n;
  }

  /** `int(text)` raises on text without a single decimal digit. */
  lemma ParseIntNeedsDigit(text: string)
    requires forall c :: c in text ==> !IsDigit(c)
    ensures ParseInt(text) == None
  {
    var t := Strip(text);
    var body := Unsigned(t);
    if body != [] {
      assert body[0] == t[0] || body[0] == t[1];
      assert body[0] in t;
      assert !IsDigit(body[0]);
    }
  }
}

/**
 * The part of JavaScript's value semantics that the calculators rely on:
 * numbers with their non-finite values, the `null`/`undefined`/string/number
 * values that form fields hold, `Number(x)`, the relational operators,
 * `String.prototype.trim`, `Math.ceil`, `Math.sqrt(3)` and `toFixed(2)`.
 * Numbers are exact reals: IEEE rounding and overflow are not modelled.
 */
module Js {

  datatype Option<+T> = None | Some(value: T)

  /** A JavaScript number: a finite value or one of the three non-finite values. */
  datatype Num = Finite(v: real) | NaN | PosInfinity | NegInfinity

  /**
   * A JavaScript string together with the number that `Number(s)` reads from
   * it. Parsing numerals is not modelled: the reading comes with the string.
   */
  datatype Text = Text(chars: string, asNumber: Num)

  /** The values a form field can hold at run time. */
  datatype Value = Null | Undefined | Str(text: Text) | Number(num: Num)

  /** `Number(x)`: null reads as 0, undefined as NaN. */
  function ToNumber(x: Value): Num
  {
    match x
    case Null => Finite(0.0)
    case Undefined => NaN
    case Str(t) => t.asNumber
    case Number(n) => n
  }

  /** `x === s` for a string literal `s`. */
  predicate IsString(x: Value, s: string)
  {
    x.Str? && x.text.chars == s
  }

  /** `a < b` on numbers: false as soon as one side is NaN. */
  predicate Less(a: Num, b: Num)
  {
    if a.NaN? || b.NaN? then false
    else if a.Finite? && b.Finite? then a.v < b.v
    else if a == b then false
    else a.NegInfinity? || b.PosInfinity?
  }

  /** `a <= b` on numbers. */
  predicate LessEq(a: Num, b: Num)
  {
    !a.NaN? && !b.NaN? && !Less(b, a)
  }

  /** `s < t` on strings: lexicographic order of the characters. */
  predicate StringLess(s: string, t: string)
  {
    if |t| == 0 then false
    else if |s| == 0 then true
    else if s[0] != t[0] then s[0] < t[0]
    else StringLess(s[1..], t[1..])
  }

  /**
   * `a >= b` on two field values: two strings compare as strings, anything
   * else compares as the numbers `Number(a)` and `Number(b)`.
   */
  predicate GreaterEq(a: Value, b: Value)
  {
    if a.Str? && b.Str? then !StringLess(a.text.chars, b.text.chars)
    else LessEq(ToNumber(b), ToNumber(a))
  }

  /** `a / b` on finite numbers, with the non-finite results of a zero divisor. */
  function Divide(a: real, b: real): (q: Num)
    ensures q.Finite? <==> b != 0.0
    ensures q.Finite? ==> q.v * b == a
  {
    if b != 0.0 then Finite(a / b)
    else if a > 0.0 then PosInfinity
    else if a < 0.0 then NegInfinity
    else NaN
  }

  /** `Math.sqrt(3)`, as the shortest decimal that reads back as the double the runtime returns. */
  const Sqrt3: real := 1.7320508075688772

  /** `Math.ceil(x)`: the least integer not below `x`. */
  function Ceil(x: real): (c: int)
    ensures x <= c as real < x + 1.0
  {
    -((-x).Floor)
  }

  /** The integer nearest to `y >= 0`, halves rounded up. */
  function RoundHalfUp(y: real): (n: int)
    requires y >= 0.0
    ensures y - 0.5 < n as real <= y + 0.5
    ensures n >= 0
  {
    (y + 0.5).Floor
  }

  /**
   * `Number(x.toFixed(2))`: the nearest multiple of 0.01, halves rounded away
   * from zero.
   */
  function Round2(x: real): (r: real)
    ensures -0.005 <= r - x <= 0.005
    ensures (r * 100.0).Floor as real == r * 100.0
    ensures x >= 0.0 ==> r >= 0.0
  {
    var n := if x >= 0.0 then RoundHalfUp(x * 100.0) else -RoundHalfUp(-x * 100.0);
    assert (n as real / 100.0) * 100.0 == n as real;
    n as real / 100.0
  }

  /**
   * The characters `String.prototype.trim` removes: the WhiteSpace and
   * LineTerminator code points of ECMAScript (section 12.2 and 12.3 of
   * ECMA-262).
   */
  predicate IsWhiteSpace(c: char)
  {
    || c == '\t' || c == '\n' || c == '\U{000B}' || c == '\U{000C}' || c == '\r'
    || c == ' ' || c == '\U{00A0}' || c == '\U{1680}'
    || ('\U{2000}' <= c <= '\U{200A}')
    || c == '\U{2028}' || c == '\U{2029}' || c == '\U{202F}' || c == '\U{205F}'
    || c == '\U{3000}' || c == '\U{FEFF}'
  }

  /** Drops leading white space. */
  function TrimStart(s: string): (r: string)
    ensures |r| <= |s|
  {
    if |s| > 0 && IsWhiteSpace(s[0]) then TrimStart(s[1..]) else s
  }

  /** What `TrimStart` keeps is a suffix of `s`, after white space only, starting with a visible character. */
  lemma {:induction false} TrimStartKeepsSuffix(s: string)
    ensures var r := TrimStart(s);
      && r == s[|s| - |r|..]
      && (forall i :: 0 <= i < |s| - |r| ==> IsWhiteSpace(s[i]))
      && (r != [] ==> !IsWhiteSpace(r[0]))
  {
    if |s| > 0 && IsWhiteSpace(s[0]) {
      TrimStartKeepsSuffix(s[1..]);
      var r := TrimStart(s);
      assert r == TrimStart(s[1..]);
      forall i | 0 <= i < |s| - |r| ensures IsWhiteSpace(s[i]) {
        if i > 0 {
          assert s[i] == s[1..][i - 1];
        }
      }
    }
  }

  /** Drops trailing white space. */
  function TrimEnd(s: string): (r: string)
    ensures |r| <= |s|
  {
    if |s| > 0 && IsWhiteSpace(s[|s| - 1]) then TrimEnd(s[..|s| - 1]) else s
  }

  /** What `TrimEnd` keeps is a prefix of `s`, before white space only, ending with a visible character. */
  lemma {:induction false} TrimEndKeepsPrefix(s: string)
    ensures var r := TrimEnd(s);
      && r == s[..|r|]
      && (forall i :: |r| <= i < |s| ==> IsWhiteSpace(s[i]))
      && (r != [] ==> !IsWhiteSpace(r[|r| - 1]))
  {
    if |s| > 0 && IsWhiteSpace(s[|s| - 1]) {
      var p := s[..|s| - 1];
      TrimEndKeepsPrefix(p);
      var r := TrimEnd(s);
      assert r == TrimEnd(p);
      forall i | |r| <= i < |s| ensures IsWhiteSpace(s[i]) {
        if i < |s| - 1 {
          assert s[i] == p[i];
        }
      }
    }
  }

  /** `s.trim()`. */
  function Trim(s: string): string
  {
    TrimEnd(TrimStart(s))
  }

  /** `s.trim() === ""` holds exactly when every character of `s` is white space. */
  lemma TrimEmptyIffBlank(s: string)
    ensures Trim(s) == [] <==> forall i :: 0 <= i < |s| ==> IsWhiteSpace(s[i])
  {
    var t := TrimStart(s);
    TrimStartKeepsSuffix(s);
    TrimEndKeepsPrefix(t);
    if Trim(s) == [] {
      assert t == [];
    } else {
      var u := Trim(s);
      assert u[0] == t[0];
      assert t[0] == s[|s| - |t|];
    }
  }
}

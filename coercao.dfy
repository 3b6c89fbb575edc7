/**
 * The pieces of JavaScript's runtime semantics that `api_produtos.js` relies on:
 * the values a JSON request body can hold in a field, and the coercions
 * `String(v)`, `String.prototype.trim`, `Number(v)`, `Boolean(v)` / truthiness.
 *
 * Numbers are modelled as integers; the fractions JavaScript numbers can carry are not.
 * Strings are sequences of Unicode code points; `Utf16Length` gives the length
 * JavaScript reports for them.
 */
module Coercao {
  import opened Wrappers

  /** A property read on a request body. `Undefined` is what JavaScript yields for an absent key. */
  datatype Value = Undefined | Null | Bool(b: bool) | Num(n: int) | Str(s: string)

  // ---------------------------------------------------------------------------
  // String.prototype.trim
  // ---------------------------------------------------------------------------

  /** ECMAScript WhiteSpace and LineTerminator code points: what `trim` removes. */
  predicate IsSpace(c: char)
  {
    if c < '\U{00A0}' then
      c == ' ' || ('\t' <= c <= '\r')
    else
      (c == '\U{00A0}' || c == '\U{1680}' || ('\U{2000}' <= c <= '\U{200A}')
       || c == '\U{2028}' || c == '\U{2029}' || c == '\U{202F}' || c == '\U{205F}'
       || c == '\U{3000}' || c == '\U{FEFF}')
  }

  /** `s` neither starts nor ends with white space. */
  predicate Trimmed(s: string)
  {
    s == [] || (!IsSpace(s[0]) && !IsSpace(s[|s| - 1]))
  }

  /** Drops the leading white space. */
  function TrimStart(s: string): (r: string)
    ensures |r| <= |s|
    ensures r == [] || !IsSpace(r[0])
    ensures s == [] || !IsSpace(s[0]) ==> r == s
  {
    if s != [] && IsSpace(s[0]) then TrimStart(s[1..]) else s
  }

  /** Drops the trailing white space. */
  function TrimEnd(s: string): (r: string)
    ensures |r| <= |s|
    ensures r == [] || (!IsSpace(r[|r| - 1]) && r[0] == s[0])
    ensures s == [] || !IsSpace(s[|s| - 1]) ==> r == s
  {
    if s != [] && IsSpace(s[|s| - 1]) then TrimEnd(s[..|s| - 1]) else s
  }

  /** `TrimStart(s)` is the suffix of `s` that follows a run of white space. */
  lemma {:induction false} TrimStartSuffix(s: string)
    ensures var r := TrimStart(s);
      r == s[|s| - |r|..] && forall i :: 0 <= i < |s| - |r| ==> IsSpace(s[i])
  {
    if s != [] && IsSpace(s[0]) {
      TrimStartSuffix(s[1..]);
    }
  }

  /** `TrimEnd(s)` is the prefix of `s` that precedes a run of white space. */
  lemma {:induction false} TrimEndPrefix(s: string)
    ensures var r := TrimEnd(s);
      r == s[..|r|] && forall i :: |r| <= i < |s| ==> IsSpace(s[i])
  {
    if s != [] && IsSpace(s[|s| - 1]) {
      TrimEndPrefix(s[..|s| - 1]);
    }
  }

  /**
   * `String.prototype.trim`: `s` without its leading and trailing white space.
   * The result is the slice `s[i..j]` where `s[..i]` and `s[j..]` are all white space.
   */
  function Trim(s: string): (r: string)
    ensures Trimmed(r) && |r| <= |s|
    ensures Trimmed(s) ==> r == s
  {
    TrimEnd(TrimStart(s))
  }

  /** `trim` removes exactly the white space around the text: what it keeps is a slice of `s` bordered by white space only. */
  lemma TrimSlice(s: string)
    ensures var i := |s| - |TrimStart(s)|; var j := i + |Trim(s)|;
      && 0 <= i <= j <= |s| && Trim(s) == s[i..j]
      && (forall k :: 0 <= k < i ==> IsSpace(s[k]))
      && (forall k :: j <= k < |s| ==> IsSpace(s[k]))
  {
    var t := TrimStart(s);
    TrimStartSuffix(s);
    TrimEndPrefix(t);
    var i := |s| - |t|;
    assert Trim(s) == s[i..i + |Trim(s)|];
  }

  /** `trim` is idempotent. */
  lemma TrimIdempotent(s: string)
    ensures Trim(Trim(s)) == Trim(s)
  {
  }

  /** UTF-16 code units from position `i` of `s` on: two for a code point above U+FFFF, one for any other. */
  function Unidades(s: string, i: nat): (n: nat)
    requires i <= |s|
    ensures |s| - i <= n <= 2 * (|s| - i)
    decreases |s| - i
  {
    if i == |s| then 0 else (if s[i] > '\U{FFFF}' then 2 else 1) + Unidades(s, i + 1)
  }

  /**
   * `s.length` in JavaScript: the number of UTF-16 code units, a code point above
   * U+FFFF being written as a surrogate pair.
   */
  function Utf16Length(s: string): (n: nat)
    ensures |s| <= n <= 2 * |s|
  {
    Unidades(s, 0)
  }

  /** From position `i` on, the code units are as many as the code points exactly when none lies above U+FFFF. */
  lemma {:induction false} UnidadesBmp(s: string, i: nat)
    requires i <= |s|
    ensures Unidades(s, i) == |s| - i <==> forall k :: i <= k < |s| ==> s[k] <= '\U{FFFF}'
    decreases |s| - i
  {
    if i < |s| {
      UnidadesBmp(s, i + 1);
    }
  }

  /** The JavaScript `length` is the number of code points exactly when none lies above U+FFFF. */
  lemma Utf16LengthBmp(s: string)
    ensures Utf16Length(s) == |s| <==> forall k :: 0 <= k < |s| ==> s[k] <= '\U{FFFF}'
  {
    UnidadesBmp(s, 0);
  }

  // ---------------------------------------------------------------------------
  // Number -> String and String -> Number for integers
  // ---------------------------------------------------------------------------

  predicate IsDigit(c: char) { '0' <= c <= '9' }

  /** A non-empty run of decimal digits. */
  predicate IsDigits(s: string)
  {
    |s| > 0 && forall i :: 0 <= i < |s| ==> IsDigit(s[i])
  }

  function DigitChar(d: nat): (c: char)
    requires d < 10
    ensures IsDigit(c)
  {
    ['0', '1', '2', '3', '4', '5', '6', '7', '8', '9'][d]
  }

  function DigitValue(c: char): (d: nat)
    requires IsDigit(c)
    ensures d < 10
  {
    (c as int - '0' as int) as nat
  }

  /** Value of a run of decimal digits, most significant first. */
  function DigitsValue(s: string): nat
    requires forall i :: 0 <= i < |s| ==> IsDigit(s[i])
  {
    if s == [] then 0 else 10 * DigitsValue(s[..|s| - 1]) + DigitValue(s[|s| - 1])
  }

  /** Decimal text of a natural number, without leading zeros. */
  function NatText(n: nat): (t: string)
    ensures IsDigits(t)
  {
    if n < 10 then [DigitChar(n)] else NatText(n / 10) + [DigitChar(n % 10)]
  }

  /** `String(n)` for an integer `n`: a minus sign exactly for a negative number, then its decimal digits. */
  function IntText(n: int): string
  {
    if n < 0 then "-" + NatText(-n) else NatText(n)
  }

  /**
   * `Number(s)` for a string, restricted to integers: surrounding white space is
   * ignored, the empty string is 0, and an optional sign followed by decimal digits
   * is its value. Every other string is `NaN` (`None`).
   */
  function ParseNumber(s: string): Option<int>
  {
    var t := Trim(s);
    if t == [] then Some(0)
    else if t[0] == '-' then (if IsDigits(t[1..]) then Some(-(DigitsValue(t[1..]) as int)) else None)
    else if t[0] == '+' then (if IsDigits(t[1..]) then Some(DigitsValue(t[1..])) else None)
    else if IsDigits(t) then Some(DigitsValue(t))
    else None
  }

  lemma {:induction false} NatTextValue(n: nat)
    ensures DigitsValue(NatText(n)) == n
  {
    if n >= 10 {
      var t := NatText(n / 10);
      NatTextValue(n / 10);
      assert (t + [DigitChar(n % 10)])[..|t|] == t;
    }
  }

  /** `Number(String(n)) === n` for a non-negative integer: its decimal text reads back as `n`. */
  lemma NaoNegativoLido(n: int)
    requires n >= 0
    ensures ParseNumber(IntText(n)) == Some(n)
  {
    var d := NatText(n);
    assert IntText(n) == d;
    assert IsDigit(d[0]) && IsDigit(d[|d| - 1]);
    assert Trimmed(d) && d[0] != '-' && d[0] != '+';
    NatTextValue(n);
  }

  /** `Number(String(n)) === n` for a negative integer: a minus sign, then the decimal text of `-n`. */
  lemma NegativoLido(n: int)
    requires n < 0
    ensures ParseNumber(IntText(n)) == Some(n)
  {
    var d := NatText(-n);
    var t := IntText(n);
    assert t == "-" + d;
    assert IsDigit(d[|d| - 1]) && t[|t| - 1] == d[|d| - 1];
    assert Trimmed(t) && t[0] == '-' && t[1..] == d;
    NatTextValue(-n);
  }

  /** `Number(String(n)) === n` for every integer `n`. */
  lemma IntTextRoundTrip(n: int)
    ensures ParseNumber(IntText(n)) == Some(n)
  {
    if n < 0 {
      NegativoLido(n);
    } else {
      NaoNegativoLido(n);
    }
  }

  // ---------------------------------------------------------------------------
  // The coercions applied to a body field
  // ---------------------------------------------------------------------------

  /** `String(v)`. */
  function ToText(v: Value): string
  {
    match v
    case Undefined => "undefined"
    case Null => "null"
    case Bool(b) => if b then "true" else "false"
    case Num(n) => IntText(n)
    case Str(s) => s
  }

  /** `Number(v)`; `None` is `NaN`. */
  function ToNumber(v: Value): Option<int>
  {
    match v
    case Undefined => None
    case Null => Some(0)
    case Bool(b) => Some(if b then 1 else 0)
    case Num(n) => Some(n)
    case Str(s) => ParseNumber(s)
  }

  /** `Boolean(v)`, which is also what `!v` negates. */
  predicate Truthy(v: Value)
  {
    match v
    case Undefined => false
    case Null => false
    case Bool(b) => b
    case Num(n) => n != 0
    case Str(s) => s != []
  }
}

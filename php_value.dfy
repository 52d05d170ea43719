/**
 * PHP values as the core meets them in its parameter bags: the union of what a
 * bag may hold, `isset`, the truthiness `?:` tests, and the `(int)` cast.
 */
module PhpValue {
  import opened Common
  import opened Domain

  const PHP_INT_MAX: int := 0x7fff_ffff_ffff_ffff
  const PHP_INT_MIN: int := -0x8000_0000_0000_0000

  /** PHP integers are 64-bit. */
  type PhpInt = n: int | PHP_INT_MIN <= n <= PHP_INT_MAX

  /** A value of a parameter bag or an option map (PHP `mixed`). */
  datatype Value =
    | Null
    | BoolV(b: bool)
    | IntV(i: PhpInt)
    | Str(s: string)
    | LangObj(language: Language)
    | LocObj(location: Location)
    | CTObj(contentType: ContentType)
    | FormObj(form: Form)
    | FormViewObj(ofForm: Form)   // the FormView that createView() makes of a form

  type Parameters = map<string, Value>

  /** `isset($p[$key])`: the key is present and its value is not null. */
  function IsSet(p: Parameters, key: string): (r: bool)
    ensures r <==> key in p && p[key] != Null
  {
    key in p && !p[key].Null?
  }

  /** PHP truthiness of a string-or-null: null, "" and "0" are falsy. */
  function Truthy(s: Option<string>): (r: bool)
    ensures r <==> s != None && s.value !in {"", "0"}
  {
    s.Some? && s.value != "" && s.value != "0"
  }

  // ---- `(int)` -------------------------------------------------------------

  predicate IsWhitespace(c: char) {
    c == ' ' || c == '\t' || c == '\n' || c == '\r' || c == '\U{000B}' || c == '\U{000C}'
  }

  predicate IsDigit(c: char) {
    '0' <= c <= '9'
  }

  predicate AllDigits(s: string) {
    forall i :: 0 <= i < |s| ==> IsDigit(s[i])
  }

  /** The string with its leading whitespace removed. */
  function SkipWhitespace(s: string): (t: string)
    ensures |t| <= |s| && t == s[|s| - |t|..]
    ensures t == [] || !IsWhitespace(t[0])
  {
    if s != [] && IsWhitespace(s[0]) then SkipWhitespace(s[1..]) else s
  }

  /** The length of the longest run of decimal digits that starts the string. */
  function DigitPrefix(s: string): (k: nat)
    ensures k <= |s| && AllDigits(s[..k])
    ensures k == |s| || !IsDigit(s[k])
  {
    if s != [] && IsDigit(s[0]) then
      var k := 1 + DigitPrefix(s[1..]);
      assert s[..k] == [s[0]] + s[1..][..k - 1];
      k
    else 0
  }

  /** The number a run of decimal digits denotes. */
  function DigitsValue(ds: string): nat
    requires AllDigits(ds)
  {
    if ds == [] then 0
    else
      assert AllDigits(ds[..|ds| - 1]);
      10 * DigitsValue(ds[..|ds| - 1]) + (ds[|ds| - 1] as int - '0' as int)
  }

  /** Out-of-range results saturate at the 64-bit bounds. */
  function Clamp(n: int): (r: PhpInt)
    ensures PHP_INT_MIN <= n <= PHP_INT_MAX ==> r == n
    ensures n > PHP_INT_MAX ==> r == PHP_INT_MAX
    ensures n < PHP_INT_MIN ==> r == PHP_INT_MIN
  {
    if n > PHP_INT_MAX then PHP_INT_MAX else if n < PHP_INT_MIN then PHP_INT_MIN else n
  }

  /** The number the leading digits of a string denote (0 when there are none). */
  function UnsignedValue(u: string): nat {
    DigitsValue(u[..DigitPrefix(u)])
  }

  /** An optional sign followed by leading digits. */
  function SignedValue(t: string): int {
    if t != [] && t[0] == '-' then -(UnsignedValue(t[1..]) as int)
    else if t != [] && t[0] == '+' then UnsignedValue(t[1..])
    else UnsignedValue(t)
  }

  /**
   * `(int) $s`: leading whitespace, an optional sign and the digits that follow;
   * whatever comes after them is ignored, and a string without leading digits is 0.
   */
  function StringToInt(s: string): (r: PhpInt)
    ensures var t := SkipWhitespace(s);
      var u := if t != [] && (t[0] == '-' || t[0] == '+') then t[1..] else t;
      (u == [] || !IsDigit(u[0])) ==> r == 0
  {
    Clamp(SignedValue(SkipWhitespace(s)))
  }

  /** `(int) $v` for any bag value; an object converts to 1 (with a notice). */
  function ToInt(v: Value): (r: PhpInt)
    ensures v.IntV? ==> r == v.i
    ensures v.Null? ==> r == 0
    ensures v.BoolV? ==> r == (if v.b then 1 else 0)
    ensures v.Str? ==> r == StringToInt(v.s)
    ensures v.LangObj? || v.LocObj? || v.CTObj? || v.FormObj? || v.FormViewObj? ==> r == 1
  {
    match v
    case Null => 0
    case BoolV(b) => if b then 1 else 0
    case IntV(i) => i
    case Str(s) => StringToInt(s)
    case _ => 1
  }

  // ---- decimal strings, the inverse of the cast -----------------------------

  function DigitChar(d: nat): (c: char)
    requires d < 10
    ensures IsDigit(c) && c as int - '0' as int == d
  {
    ('0' as int + d) as char
  }

  /** The decimal digits of a natural number, without leading zeros. */
  function NatDigits(n: nat): (ds: string)
    ensures ds != [] && AllDigits(ds)
  {
    if n < 10 then [DigitChar(n)] else NatDigits(n / 10) + [DigitChar(n % 10)]
  }

  /** `(string) $n`: the decimal form PHP gives an integer. */
  function DecimalString(n: int): string {
    if n < 0 then "-" + NatDigits(-n) else NatDigits(n)
  }

  lemma {:induction false} NatDigitsValue(n: nat)
    ensures DigitsValue(NatDigits(n)) == n
  {
    if n >= 10 {
      var ds := NatDigits(n);
      assert ds[..|ds| - 1] == NatDigits(n / 10);
      NatDigitsValue(n / 10);
    }
  }

  lemma {:induction false} SkipLeadingWhitespace(ws: string, x: string)
    requires forall i :: 0 <= i < |ws| ==> IsWhitespace(ws[i])
    requires x == [] || !IsWhitespace(x[0])
    ensures SkipWhitespace(ws + x) == x
  {
    if ws != [] {
      assert (ws + x)[1..] == ws[1..] + x;
      SkipLeadingWhitespace(ws[1..], x);
    } else {
      assert ws + x == x;
    }
  }

  lemma {:induction false} DigitPrefixOfDigitsThenTail(ds: string, tail: string)
    requires AllDigits(ds)
    requires tail == [] || !IsDigit(tail[0])
    ensures DigitPrefix(ds + tail) == |ds|
  {
    if ds != [] {
      assert (ds + tail)[1..] == ds[1..] + tail;
      DigitPrefixOfDigitsThenTail(ds[1..], tail);
    } else {
      assert ds + tail == tail;
    }
  }

  lemma UnsignedValueOfNatDigits(m: nat, tail: string)
    requires tail == [] || !IsDigit(tail[0])
    ensures UnsignedValue(NatDigits(m) + tail) == m
  {
    var ds := NatDigits(m);
    NatDigitsValue(m);
    DigitPrefixOfDigitsThenTail(ds, tail);
    assert (ds + tail)[..|ds|] == ds;
  }

  lemma SignedValueOfUnsigned(u: string)
    requires u != [] && IsDigit(u[0])
    ensures SignedValue(u) == UnsignedValue(u)
  {
  }

  lemma SignedValueOfNegative(u: string)
    ensures SignedValue(['-'] + u) == -(UnsignedValue(u) as int)
  {
    assert (['-'] + u)[1..] == u;
  }

  lemma SignedValueOfDecimalString(n: int, tail: string)
    requires tail == [] || !IsDigit(tail[0])
    ensures SignedValue(DecimalString(n) + tail) == n
  {
    if n < 0 {
      var m: nat := -n;
      var u := NatDigits(m) + tail;
      UnsignedValueOfNatDigits(m, tail);
      SignedValueOfNegative(u);
      assert DecimalString(n) + tail == ['-'] + u;
    } else {
      var ds := NatDigits(n);
      UnsignedValueOfNatDigits(n, tail);
      assert IsDigit(ds[0]);
      SignedValueOfUnsigned(ds + tail);
    }
  }

  /** A decimal form starts with a digit or a minus sign, so it starts with no whitespace. */
  lemma DecimalStringStart(n: int, tail: string)
    ensures !IsWhitespace((DecimalString(n) + tail)[0])
  {
    if n < 0 {
      assert (DecimalString(n) + tail)[0] == '-';
    } else {
      var ds := NatDigits(n);
      assert (DecimalString(n) + tail)[0] == ds[0] && IsDigit(ds[0]);
    }
  }

  /**
   * `(int)` skips leading whitespace and ignores whatever follows the digits: the
   * decimal form of a 64-bit integer, padded so, casts back to that integer.
   */
  lemma IntCastOfPaddedDecimalString(n: PhpInt, ws: string, tail: string)
    requires forall i :: 0 <= i < |ws| ==> IsWhitespace(ws[i])
    requires tail == [] || !IsDigit(tail[0])
    ensures StringToInt(ws + DecimalString(n) + tail) == n
  {
    var x := DecimalString(n) + tail;
    DecimalStringStart(n, tail);
    SkipLeadingWhitespace(ws, x);
    assert ws + DecimalString(n) + tail == ws + x;
    SignedValueOfDecimalString(n, tail);
  }

  lemma UnsignedValueOfDigitsThenTail(ds: string, tail: string)
    requires AllDigits(ds)
    requires tail == [] || !IsDigit(tail[0])
    ensures UnsignedValue(ds + tail) == DigitsValue(ds)
  {
    DigitPrefixOfDigitsThenTail(ds, tail);
    assert (ds + tail)[..|ds|] == ds;
  }

  lemma SignedValueOfSign(sign: string, u: string)
    requires sign == "" || sign == "+" || sign == "-"
    requires u != [] && IsDigit(u[0])
    ensures SignedValue(sign + u) == if sign == "-" then -(UnsignedValue(u) as int) else UnsignedValue(u)
  {
    if sign == "-" {
      SignedValueOfNegative(u);
    } else if sign == "+" {
      assert (sign + u)[0] == '+' && (sign + u)[1..] == u;
    } else {
      assert sign + u == u;
      SignedValueOfUnsigned(u);
    }
  }

  lemma SignStart(sign: string, u: string)
    requires sign == "" || sign == "+" || sign == "-"
    requires u != [] && IsDigit(u[0])
    ensures !IsWhitespace((sign + u)[0])
  {
    if sign == "" {
      assert (sign + u)[0] == u[0];
    } else {
      assert (sign + u)[0] == sign[0];
    }
  }

  lemma Concat4<T>(a: seq<T>, b: seq<T>, c: seq<T>, d: seq<T>)
    ensures a + b + c + d == a + (b + (c + d))
  {
  }

  lemma SkipToSign(ws: string, sign: string, ds: string, tail: string)
    requires forall i :: 0 <= i < |ws| ==> IsWhitespace(ws[i])
    requires sign == "" || sign == "+" || sign == "-"
    requires ds != [] && IsDigit(ds[0])
    ensures SkipWhitespace(ws + sign + ds + tail) == sign + (ds + tail)
  {
    var u := ds + tail;
    assert u[0] == ds[0];
    SignStart(sign, u);
    SkipLeadingWhitespace(ws, sign + u);
    Concat4(ws, sign, ds, tail);
  }

  lemma SignedDigitsThenTail(sign: string, ds: string, tail: string)
    requires sign == "" || sign == "+" || sign == "-"
    requires ds != [] && AllDigits(ds)
    requires tail == [] || !IsDigit(tail[0])
    ensures SignedValue(sign + (ds + tail)) == if sign == "-" then -(DigitsValue(ds) as int) else DigitsValue(ds)
  {
    var u := ds + tail;
    UnsignedValueOfDigitsThenTail(ds, tail);
    assert u[0] == ds[0];
    SignedValueOfSign(sign, u);
  }

  /**
   * The general shape of the cast: leading whitespace, an optional `+` or `-`, a run of
   * digits (leading zeros allowed) and a tail that does not continue the run give the
   * signed value of the digits, saturated at the 64-bit bounds.
   */
  lemma IntCastOfSignedDigits(ws: string, sign: string, ds: string, tail: string)
    requires forall i :: 0 <= i < |ws| ==> IsWhitespace(ws[i])
    requires sign == "" || sign == "+" || sign == "-"
    requires ds != [] && AllDigits(ds)
    requires tail == [] || !IsDigit(tail[0])
    ensures StringToInt(ws + sign + ds + tail)
         == Clamp(if sign == "-" then -(DigitsValue(ds) as int) else DigitsValue(ds))
  {
    SkipToSign(ws, sign, ds, tail);
    SignedDigitsThenTail(sign, ds, tail);
  }

  /** Casting the decimal form of a 64-bit integer back with `(int)` gives that integer. */
  lemma IntCastOfDecimalString(n: PhpInt)
    ensures ToInt(Str(DecimalString(n))) == n
  {
    IntCastOfPaddedDecimalString(n, [], []);
    assert [] + DecimalString(n) + [] == DecimalString(n);
  }
}

/** Python's text rendering of the values the program formats: `str(n)` of an
    int, `repr` of a str, and `str`/`repr` of a decoded JSON value, as used by
    f-strings and by `str(e)` of the exceptions the drivers raise. */
module PyText {
  import opened Wrappers
  import opened Json

  /** How Python renders a float: `repr(x)` (which `str(x)` equals) and
      `format(x, '.2f')`. Their digit-level behaviour on binary floats is left
      open: every lemma below holds for any choice of both. */
  datatype FloatFormat = FloatFormat(repr: real -> string, fixed2: real -> string)

  predicate IsDigit(c: char) {
    '0' <= c <= '9'
  }

  predicate AllDigits(s: string) {
    forall i :: 0 <= i < |s| ==> IsDigit(s[i])
  }

  function DigitChar(d: nat): (c: char)
    requires d < 10
    ensures IsDigit(c) && (c as int) - ('0' as int) == d
  {
    (('0' as int) + d) as char
  }

  /** Decimal digits of a natural number, without leading zeros. */
  function NatText(n: nat): (s: string)
    ensures |s| >= 1 && AllDigits(s)
    ensures s[0] == '0' ==> n == 0
    decreases n
  {
    if n < 10 then [DigitChar(n)] else NatText(n / 10) + [DigitChar(n % 10)]
  }

  /** Python's `str(n)` for an int. */
  function IntText(n: int): (s: string)
    ensures |s| >= 1
    ensures n < 0 <==> s[0] == '-'
  {
    if n < 0 then "-" + NatText(-n) else NatText(n)
  }

  /** The number a string of decimal digits denotes. */
  function ParseNat(s: string): nat
    requires AllDigits(s)
  {
    if s == [] then 0
    else ParseNat(s[..|s| - 1]) * 10 + ((s[|s| - 1] as int) - ('0' as int))
  }

  /** Python's `int(s)` restricted to an optional minus sign and decimal digits. */
  function ParseInt(s: string): Option<int> {
    if |s| >= 2 && s[0] == '-' && AllDigits(s[1..]) then Some(0 - ParseNat(s[1..]) as int)
    else if |s| >= 1 && AllDigits(s) then Some(ParseNat(s))
    else None
  }

  lemma {:induction false} NatTextRoundTrip(n: nat)
    ensures ParseNat(NatText(n)) == n
    decreases n
  {
    if n >= 10 {
      var t := NatText(n / 10);
      NatTextRoundTrip(n / 10);
      assert (t + [DigitChar(n % 10)])[..|t|] == t;
    }
  }

  lemma ParseNegative(t: string)
    requires |t| >= 1 && AllDigits(t)
    ensures ParseInt("-" + t) == Some(0 - ParseNat(t) as int)
  {
    assert ("-" + t)[1..] == t;
  }

  lemma ParseDigits(t: string)
    requires |t| >= 1 && AllDigits(t)
    ensures ParseInt(t) == Some(ParseNat(t))
  {
    assert t[0] != '-';
  }

  /** `str(n)` loses nothing: reading the digits back gives `n`. */
  lemma IntTextRoundTrip(n: int)
    ensures ParseInt(IntText(n)) == Some(n)
  {
    if n < 0 {
      NatTextRoundTrip(-n);
      ParseNegative(NatText(-n));
    } else {
      NatTextRoundTrip(n);
      ParseDigits(NatText(n));
    }
  }

  /** Different ints render differently, so a text that shows `IntText(n)`
      determines `n`. */
  lemma IntTextInjective(m: int, n: int)
    requires IntText(m) == IntText(n)
    ensures m == n
  {
    IntTextRoundTrip(m);
    IntTextRoundTrip(n);
  }

  // ---- repr of a str -------------------------------------------------------

  const HexDigits := "0123456789abcdef"

  /** The quote `repr(s)` uses: double quotes only when `s` holds a single
      quote and no double quote. */
  function QuoteFor(s: string): char {
    if '\'' in s && '"' !in s then '"' else '\''
  }

  predicate IsControl(c: char) {
    c < ' ' || c as int == 127
  }

  /** The escape `repr` writes for one character inside quotes `q`. */
  function EscapeChar(c: char, q: char): (t: string)
    ensures |t| >= 1
  {
    if c == q || c == '\\' then ['\\', c]
    else if c == '\t' then "\\t"
    else if c == '\n' then "\\n"
    else if c == '\r' then "\\r"
    else if IsControl(c) then "\\x" + [HexDigits[(c as int) / 16], HexDigits[(c as int) % 16]]
    else [c]
  }

  function Escape(s: string, q: char): string {
    if s == [] then [] else EscapeChar(s[0], q) + Escape(s[1..], q)
  }

  /** Python's `repr(s)` for a str. */
  function Quote(s: string): (r: string)
    ensures |r| >= 2 && r[0] == r[|r| - 1] == QuoteFor(s)
  {
    [QuoteFor(s)] + Escape(s, QuoteFor(s)) + [QuoteFor(s)]
  }

  function HexValue(h: char): Option<nat> {
    if '0' <= h <= '9' then Some((h as int) - ('0' as int))
    else if 'a' <= h <= 'f' then Some((h as int) - ('a' as int) + 10)
    else None
  }

  /** Reads back the escapes `Escape` writes. */
  function Unescape(t: string, q: char): Option<string>
    decreases |t|
  {
    if t == [] then Some([])
    else if t[0] != '\\' then
      match Unescape(t[1..], q)
      case Some(rest) => Some([t[0]] + rest)
      case None => None
    else if |t| < 2 then None
    else
      var c := t[1];
      if c == q || c == '\\' || c == 't' || c == 'n' || c == 'r' then
        var d := if c == 't' then '\t' else if c == 'n' then '\n' else if c == 'r' then '\r' else c;
        match Unescape(t[2..], q)
        case Some(rest) => Some([d] + rest)
        case None => None
      else if c == 'x' && |t| >= 4 && HexValue(t[2]).Some? && HexValue(t[3]).Some? then
        var d := (HexValue(t[2]).value * 16 + HexValue(t[3]).value) as char;
        match Unescape(t[4..], q)
        case Some(rest) => Some([d] + rest)
        case None => None
      else None
  }

  /** Reads back a quoted string as `repr` writes it. */
  function Unquote(r: string): Option<string> {
    if |r| >= 2 && (r[0] == '\'' || r[0] == '"') && r[|r| - 1] == r[0] then
      Unescape(r[1..|r| - 1], r[0])
    else None
  }

  lemma EscapeCharThenRest(c: char, q: char, rest: string)
    requires q == '\'' || q == '"'
    ensures Unescape(EscapeChar(c, q) + rest, q) ==
      match Unescape(rest, q)
      case Some(r) => Some([c] + r)
      case None => None
  {
    var t := EscapeChar(c, q) + rest;
    if c == q || c == '\\' || c == '\t' || c == '\n' || c == '\r' {
      assert t[2..] == rest;
    } else if IsControl(c) {
      assert t[4..] == rest;
      var hi, lo := (c as int) / 16, (c as int) % 16;
      assert HexValue(HexDigits[hi]) == Some(hi);
      assert HexValue(HexDigits[lo]) == Some(lo);
    } else {
      assert t[1..] == rest;
    }
  }

  lemma {:induction false} EscapeRoundTrip(s: string, q: char)
    requires q == '\'' || q == '"'
    ensures Unescape(Escape(s, q), q) == Some(s)
  {
    if s != [] {
      EscapeRoundTrip(s[1..], q);
      EscapeCharThenRest(s[0], q, Escape(s[1..], q));
      assert [s[0]] + s[1..] == s;
    }
  }

  /** `repr` of a str loses nothing: the quoted text reads back to the string. */
  lemma QuoteRoundTrip(s: string)
    ensures Unquote(Quote(s)) == Some(s)
  {
    var r := Quote(s);
    assert r[1..|r| - 1] == Escape(s, QuoteFor(s));
    EscapeRoundTrip(s, QuoteFor(s));
  }

  /** A character `repr` writes as itself inside single quotes. */
  predicate Plain(c: char) {
    c != '\'' && c != '\\' && !IsControl(c)
  }

  lemma {:induction false} EscapePlain(s: string)
    requires forall i :: 0 <= i < |s| ==> Plain(s[i])
    ensures Escape(s, '\'') == s
  {
    if s != [] {
      EscapePlain(s[1..]);
      assert [s[0]] + s[1..] == s;
    }
  }

  /** `repr` of a str with only plain characters, such as a dict key like
      `'count'`, is the text between single quotes. */
  lemma QuotePlain(s: string)
    requires forall i :: 0 <= i < |s| ==> Plain(s[i])
    ensures Quote(s) == "'" + s + "'"
  {
    EscapePlain(s);
  }

  // ---- str / repr of JSON values -------------------------------------------

  function Join(parts: seq<string>, sep: string): string {
    if parts == [] then ""
    else if |parts| == 1 then parts[0]
    else parts[0] + sep + Join(parts[1..], sep)
  }

  /** Python's `repr` of a decoded JSON value (`str` of a dict or list is the same). */
  function Repr(j: Json, fmt: FloatFormat): (r: string)
    ensures !j.JFloat? ==> |r| >= 1
    ensures j.JArr? ==> r[0] == '[' && r[|r| - 1] == ']'
    ensures j.JObj? ==> r[0] == '{' && r[|r| - 1] == '}'
    ensures j.JStr? ==> Unquote(r) == Some(j.s)
    decreases j
  {
    match j
    case JNull => "None"
    case JBool(b) => if b then "True" else "False"
    case JInt(i) => IntText(i)
    case JFloat(f) => fmt.repr(f)
    case JStr(s) => QuoteRoundTrip(s); Quote(s)
    case JArr(items) =>
      "[" + Join(seq(|items|, k requires 0 <= k < |items| => Repr(items[k], fmt)), ", ") + "]"
    case JObj(fields) =>
      "{" + Join(seq(|fields|, k requires 0 <= k < |fields| =>
                   Quote(fields[k].0) + ": " + Repr(fields[k].1, fmt)), ", ") + "}"
  }

  /** Python's `str` of a decoded JSON value, what an f-string inserts. */
  function Str(j: Json, fmt: FloatFormat): (t: string)
    ensures j.JStr? ==> t == j.s
    ensures j.JInt? ==> t == IntText(j.i)
    ensures !j.JStr? ==> t == Repr(j, fmt)
  {
    if j.JStr? then j.s else Repr(j, fmt)
  }

  /** `part` occurs somewhere in `text`. */
  predicate Contains(text: string, part: string) {
    exists i :: 0 <= i <= |text| && part <= text[i..]
  }

  /** A text contains its own suffix. */
  lemma ContainsSuffix(a: string, b: string)
    ensures Contains(a + b, b)
  {
    assert (a + b)[|a|..] == b;
  }

  /** Appending to a text keeps what it contains. */
  lemma ContainsExtend(a: string, c: string, b: string)
    requires Contains(a, b)
    ensures Contains(a + c, b)
  {
    var i :| 0 <= i <= |a| && b <= a[i..];
    assert (a + c)[i..] == a[i..] + c;
  }
}

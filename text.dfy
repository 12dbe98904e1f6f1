/** Python values and the string coercions the chatbot helpers rely on: truthiness,
    `str()`, `int()`, ASCII `strip`/`lower`/`upper`/`title`, zero-padded formatting,
    the day-name table and the `[,/\s]+` regex split. */
module Text {
  import opened Base

  /** A JSON-decoded Python value. Objects keep their keys in insertion order; as in a
      decoded dict, a key occurs at most once, so `Get` finds its only entry. Numbers are
      integers: floats are not represented. */
  datatype Json =
    | JNull
    | JBool(b: bool)
    | JInt(i: int)
    | JStr(s: string)
    | JList(items: seq<Json>)
    | JObj(fields: seq<(string, Json)>)

  /** Python truthiness (`if not x:`). */
  predicate Truthy(j: Json) {
    match j
    case JNull => false
    case JBool(b) => b
    case JInt(i) => i != 0
    case JStr(s) => s != ""
    case JList(items) => items != []
    case JObj(fields) => fields != []
  }

  /** `d.get(key)` on a dict: the value stored under the key, if any. */
  function Get(fields: seq<(string, Json)>, key: string): (r: Option<Json>)
    ensures r.Some? <==> exists i :: 0 <= i < |fields| && fields[i].0 == key
  {
    if fields == [] then None
    else if fields[0].0 == key then Some(fields[0].1)
    else
      var r := Get(fields[1..], key);
      assert forall i :: 1 <= i < |fields| ==> fields[i] == fields[1..][i - 1];
      r
  }

  /** The first entry under a key is the one `Get` finds. */
  lemma {:induction false} GetAt(fields: seq<(string, Json)>, key: string, i: nat)
    requires i < |fields| && fields[i].0 == key
    requires forall j :: 0 <= j < i ==> fields[j].0 != key
    ensures Get(fields, key) == Some(fields[i].1)
  {
    if i > 0 {
      GetAt(fields[1..], key, i - 1);
    }
  }

  /** `d[key] = value`: replaces the value in place when the key exists, else appends. */
  function SetField(fields: seq<(string, Json)>, key: string, value: Json): (r: seq<(string, Json)>)
    ensures Get(r, key) == Some(value)
    ensures forall k :: k != key ==> Get(r, k) == Get(fields, k)
  {
    if fields == [] then [(key, value)]
    else if fields[0].0 == key then [(key, value)] + fields[1..]
    else [fields[0]] + SetField(fields[1..], key, value)
  }

  // ---------------------------------------------------------------- characters

  /** Python's whitespace (`str.isspace`), which `strip`, `int()` and the regex class `\s`
      all use: tab to carriage return, the separators 0x1C to 0x1F, the space, and the
      Unicode spaces. */
  predicate IsSpace(c: char) {
    ('\U{0009}' <= c <= '\U{000D}') || ('\U{001C}' <= c <= '\U{0020}') ||
    c == '\U{0085}' || c == '\U{00A0}' || c == '\U{1680}' || ('\U{2000}' <= c <= '\U{200A}') ||
    c == '\U{2028}' || c == '\U{2029}' || c == '\U{202F}' || c == '\U{205F}' || c == '\U{3000}'
  }

  predicate IsUpper(c: char) { 'A' <= c <= 'Z' }
  predicate IsLower(c: char) { 'a' <= c <= 'z' }
  predicate IsCased(c: char) { IsUpper(c) || IsLower(c) }
  predicate IsDigit(c: char) { '0' <= c <= '9' }

  function LowerChar(c: char): char {
    if IsUpper(c) then (c as int + 32) as char else c
  }

  function UpperChar(c: char): char {
    if IsLower(c) then (c as int - 32) as char else c
  }

  /** `str.lower()` on the ASCII letters. */
  function Lower(s: string): (r: string)
    ensures |r| == |s|
  {
    seq(|s|, i requires 0 <= i < |s| => LowerChar(s[i]))
  }

  /** `str.title()`: a cased letter is upper-cased when the character before it is not a
      cased letter, and lower-cased otherwise. */
  function Title(s: string): (r: string)
    ensures |r| == |s|
  {
    seq(|s|, i requires 0 <= i < |s| =>
      if i > 0 && IsCased(s[i - 1]) then LowerChar(s[i]) else UpperChar(s[i]))
  }

  /** Title-casing only looks backwards, so it commutes with taking a prefix:
      `k[:3].title() == k.title()[:3]`. */
  lemma TitlePrefix(s: string, k: nat)
    requires k <= |s|
    ensures Title(s[..k]) == Title(s)[..k]
  {
  }

  function StripLeft(s: string): (r: string)
    ensures |r| <= |s| && r == s[|s| - |r|..]
    ensures r != [] ==> !IsSpace(r[0])
  {
    if s != [] && IsSpace(s[0]) then StripLeft(s[1..]) else s
  }

  function StripRight(s: string): (r: string)
    ensures |r| <= |s| && r == s[..|r|]
    ensures r != [] ==> !IsSpace(r[|r| - 1])
  {
    if s != [] && IsSpace(s[|s| - 1]) then StripRight(s[..|s| - 1]) else s
  }

  /** `str.strip()`: drops leading and trailing whitespace. */
  function Strip(s: string): (r: string)
    ensures |r| <= |s|
    ensures r != [] ==> !IsSpace(r[0]) && !IsSpace(r[|r| - 1])
  {
    StripRight(StripLeft(s))
  }

  lemma StripLeftNoop(s: string)
    requires s == [] || !IsSpace(s[0])
    ensures StripLeft(s) == s
  {
  }

  lemma StripRightNoop(s: string)
    requires s == [] || !IsSpace(s[|s| - 1])
    ensures StripRight(s) == s
  {
  }

  /** A string with no whitespace at either end is its own strip. */
  lemma StripNoop(s: string)
    requires s == [] || (!IsSpace(s[0]) && !IsSpace(s[|s| - 1]))
    ensures Strip(s) == s
  {
    StripLeftNoop(s);
    StripRightNoop(s);
  }

  // ---------------------------------------------------------------- integers

  function DigitChar(d: nat): char
    requires d < 10
  {
    ('0' as int + d) as char
  }

  /** Decimal digits of n, most significant first, without leading zeros. */
  function Digits(n: nat): (r: string)
    ensures r != [] && forall i :: 0 <= i < |r| ==> IsDigit(r[i])
  {
    if n < 10 then [DigitChar(n)] else Digits(n / 10) + [DigitChar(n % 10)]
  }

  function DigitValue(c: char): nat
    requires IsDigit(c)
  {
    c as int - '0' as int
  }

  /** Value of a string of decimal digits. */
  function DigitsValue(s: string): nat
    requires forall i :: 0 <= i < |s| ==> IsDigit(s[i])
  {
    if s == [] then 0 else DigitsValue(s[..|s| - 1]) * 10 + DigitValue(s[|s| - 1])
  }

  lemma {:induction false} DigitsRoundTrip(n: nat)
    ensures DigitsValue(Digits(n)) == n
  {
    if n >= 10 {
      var s := Digits(n);
      assert s[..|s| - 1] == Digits(n / 10);
      DigitsRoundTrip(n / 10);
    }
  }

  function Zeros(k: nat): (r: string)
    ensures |r| == k && forall i :: 0 <= i < k ==> r[i] == '0'
  {
    if k == 0 then [] else Zeros(k - 1) + ['0']
  }

  /** Leading zeros do not change the value of a digit string. */
  lemma {:induction false} LeadingZeros(k: nat, s: string)
    requires forall i :: 0 <= i < |s| ==> IsDigit(s[i])
    ensures forall i :: 0 <= i < |Zeros(k) + s| ==> IsDigit((Zeros(k) + s)[i])
    ensures DigitsValue(Zeros(k) + s) == DigitsValue(s)
    decreases |s|
  {
    var z := Zeros(k) + s;
    if s == [] {
      assert z == Zeros(k);
      ZerosValue(k);
    } else {
      assert z[..|z| - 1] == Zeros(k) + s[..|s| - 1];
      LeadingZeros(k, s[..|s| - 1]);
    }
  }

  lemma {:induction false} ZerosValue(k: nat)
    ensures DigitsValue(Zeros(k)) == 0
  {
    if k > 0 {
      assert Zeros(k)[..k - 1] == Zeros(k - 1);
      ZerosValue(k - 1);
    }
  }

  predicate AllDigits(s: string) {
    forall i :: 0 <= i < |s| ==> IsDigit(s[i])
  }

  /** Decimal digits, optionally grouped by single underscores between digits ("1_000"):
      a digit, then an optional underscore before each further digit. */
  predicate Grouped(s: string)
    decreases |s|
  {
    && s != [] && IsDigit(s[0])
    && (|s| == 1 || if s[1] == '_' then Grouped(s[2..]) else Grouped(s[1..]))
  }

  /** The digits of a grouped numeral, underscores removed. */
  function Ungrouped(s: string): (r: string)
    requires Grouped(s)
    ensures r != [] && AllDigits(r) && |r| <= |s|
    decreases |s|
  {
    if |s| == 1 then [s[0]]
    else if s[1] == '_' then [s[0]] + Ungrouped(s[2..])
    else [s[0]] + Ungrouped(s[1..])
  }

  /** The value of a grouped numeral; None for anything else. */
  function Numeral(body: string): (r: Option<nat>)
    ensures r.Some? <==> Grouped(body)
  {
    if Grouped(body) then Some(DigitsValue(Ungrouped(body))) else None
  }

  /** The value of a stripped, non-empty text with an optional sign. */
  function Signed(t: string): (r: Option<int>)
    requires t != []
  {
    if t[0] == '-' then (if Numeral(t[1..]).Some? then Some(-(Numeral(t[1..]).value as int)) else None)
    else if t[0] == '+' then (if Numeral(t[1..]).Some? then Some(Numeral(t[1..]).value as int) else None)
    else if Numeral(t).Some? then Some(Numeral(t).value as int) else None
  }

  /** `int(s)` for a string: surrounding whitespace, an optional sign, then decimal digits
      with optional single underscores between them; anything else raises ValueError
      (None here). */
  function ParseInt(s: string): (r: Option<int>)
    ensures r.Some? ==> Strip(s) != []
  {
    var t := Strip(s);
    if t == [] then None else Signed(t)
  }

  /** Underscores between digits are ignored: `int("1_000") == 1000`. */
  lemma GroupedThousand()
    ensures ParseInt("1_000") == Some(1000)
  {
    var s := "1_000";
    ThousandNumeral();
    StripNoop(s);
    Unsigned(s);
  }

  /** Text without sign or surrounding whitespace is read as a numeral. */
  lemma Unsigned(t: string)
    requires t != [] && Strip(t) == t && t[0] != '-' && t[0] != '+' && Numeral(t).Some?
    ensures ParseInt(t) == Some(Numeral(t).value as int)
  {
  }

  lemma ThousandNumeral()
    ensures Numeral("1_000") == Some(1000)
  {
    var s := "1_000";
    DigitsGrouped("000");
    assert s[2..] == "000";
    assert Grouped(s);
    assert Ungrouped(s) == "1000";
    assert DigitsValue("1000") == 1000 by {
      assert "1000"[..3] == "100" && "100"[..2] == "10" && "10"[..1] == "1";
    }
  }

  /** `str(i)` for an int. */
  function FormatInt(i: int): (r: string)
    ensures r != []
  {
    (if i < 0 then "-" else "") + Digits(if i < 0 then -i else i)
  }

  /** `f"{i:03}"`: the sign, then zeros up to a total width of three, then the digits. */
  function Pad3(i: int): (r: string)
    ensures r != []
  {
    var sign := if i < 0 then "-" else "";
    var ds := Digits(if i < 0 then -i else i);
    var width := |sign| + |ds|;
    sign + Zeros(if width < 3 then 3 - width else 0) + ds
  }

  /** `int()` reads a digit string back to its value. */
  lemma ParseDigits(body: string)
    requires body != [] && AllDigits(body)
    ensures ParseInt(body) == Some(DigitsValue(body) as int)
  {
    DigitsGrouped(body);
    StripNoop(body);
  }

  /** A plain digit string is a grouped numeral without underscores. */
  lemma {:induction false} DigitsGrouped(body: string)
    requires body != [] && AllDigits(body)
    ensures Grouped(body) && Ungrouped(body) == body
    ensures Numeral(body) == Some(DigitsValue(body))
    decreases |body|
  {
    if |body| > 1 {
      DigitsGrouped(body[1..]);
      assert body[1] == body[1..][0];
    }
  }

  /** `int()` reads a negated digit string back to its negated value. */
  lemma ParseNegatedDigits(body: string)
    requires body != [] && AllDigits(body)
    ensures ParseInt("-" + body) == Some(-(DigitsValue(body) as int))
  {
    var p := "-" + body;
    DigitsGrouped(body);
    assert p[|p| - 1] == body[|body| - 1];
    StripNoop(p);
    assert p[0] == '-' && p[1..] == body;
  }

  /** Formatting with `:03` and reading back with `int()` is the identity, so distinct
      integers get distinct padded codes. */
  lemma Pad3RoundTrip(i: int)
    ensures ParseInt(Pad3(i)) == Some(i)
  {
    if i < 0 {
      var body := Pad3Body(i);
      assert Pad3(i) == "-" + body;
      ParseNegatedDigits(body);
    } else {
      var body := Pad3Body(i);
      assert Pad3(i) == body;
      ParseDigits(body);
    }
  }

  /** The zero-padded digits of `Pad3(i)`, after the sign. */
  function Pad3Body(i: int): (body: string)
    ensures body != [] && AllDigits(body)
    ensures DigitsValue(body) == (if i < 0 then -i else i)
    ensures Pad3(i) == (if i < 0 then "-" else "") + body
  {
    var n: nat := if i < 0 then -i else i;
    var ds := Digits(n);
    var width := (if i < 0 then 1 else 0) + |ds|;
    var k: nat := if width < 3 then 3 - width else 0;
    LeadingZeros(k, ds);
    DigitsRoundTrip(n);
    Zeros(k) + ds
  }

  lemma Pad3Injective(i: int, j: int)
    requires Pad3(i) == Pad3(j)
    ensures i == j
  {
    Pad3RoundTrip(i);
    Pad3RoundTrip(j);
  }

  // ---------------------------------------------------------------- str() and int()

  function Join(parts: seq<string>, sep: string): string {
    if parts == [] then ""
    else if |parts| == 1 then parts[0]
    else Join(parts[..|parts| - 1], sep) + sep + parts[|parts| - 1]
  }

  function HexDigit(d: nat): char
    requires d < 16
  {
    if d < 10 then DigitChar(d) else ('a' as int + d - 10) as char
  }

  /** The quote `repr` puts around a string: double quotes when it holds a single quote
      and no double quote, single quotes otherwise. */
  function QuoteFor(s: string): char {
    if '\'' in s && '"' !in s then '"' else '\''
  }

  /** One character inside `repr`: the quote and the backslash get a backslash, tab, newline
      and carriage return their escapes, other ASCII control characters `\xhh`. */
  function EscapeChar(c: char, quote: char): string {
    if c == quote || c == '\\' then ['\\', c]
    else if c == '\t' then "\\t"
    else if c == '\n' then "\\n"
    else if c == '\r' then "\\r"
    else if c < ' ' || c == '\U{007F}' then "\\x" + [HexDigit(c as int / 16), HexDigit(c as int % 16)]
    else [c]
  }

  function Escaped(s: string, quote: char): string {
    if s == [] then [] else EscapeChar(s[0], quote) + Escaped(s[1..], quote)
  }

  /** `repr(s)` of a string. */
  function StrRepr(s: string): string {
    var q := QuoteFor(s);
    [q] + Escaped(s, q) + [q]
  }

  /** Text with no quote, backslash or control character is shown in single quotes as is. */
  lemma {:induction false} EscapedPlain(s: string, quote: char)
    requires forall i :: 0 <= i < |s| ==> s[i] != quote && s[i] != '\\' && ' ' <= s[i] && s[i] != '\U{007F}'
    ensures Escaped(s, quote) == s
  {
    if s != [] {
      EscapedPlain(s[1..], quote);
    }
  }

  /** A printable ASCII string holding a single quote and no double quote or backslash is
      shown in double quotes, unescaped. */
  lemma ReprApostrophe(s: string)
    requires '\'' in s && '"' !in s && '\\' !in s
    requires forall i :: 0 <= i < |s| ==> ' ' <= s[i] && s[i] != '\U{007F}'
    ensures StrRepr(s) == "\"" + s + "\""
  {
    EscapedPlain(s, '"');
  }

  /** `repr(j)`, as used inside `str()` of a list or dict. */
  function Repr(j: Json): string
    decreases j, 1
  {
    match j
    case JStr(s) => StrRepr(s)
    case _ => PyStr(j)
  }

  /** `str(j)`. */
  function PyStr(j: Json): string
    decreases j, 0
  {
    match j
    case JNull => "None"
    case JBool(b) => if b then "True" else "False"
    case JInt(i) => FormatInt(i)
    case JStr(s) => s
    case JList(items) =>
      "[" + Join(seq(|items|, k requires 0 <= k < |items| => Repr(items[k])), ", ") + "]"
    case JObj(fields) =>
      "{" + Join(seq(|fields|, k requires 0 <= k < |fields| =>
                   var f := fields[k];
                   assert f in fields;
                   StrRepr(f.0) + ": " + Repr(f.1)), ", ") + "}"
  }

  /** `int(j)`: None where Python raises TypeError or ValueError. */
  function PyInt(j: Json): (r: Option<int>)
    ensures j.JInt? ==> r == Some(j.i)
    ensures j.JNull? || j.JList? || j.JObj? ==> r == None
  {
    match j
    case JInt(i) => Some(i)
    case JBool(b) => Some(if b then 1 else 0)
    case JStr(s) => ParseInt(s)
    case _ => None
  }

  // ---------------------------------------------------------------- tables and splitting

  /** Day names and their Thai equivalents, mapped to three-letter English abbreviations. */
  const DayMap: map<string, string> := map[
    "mon" := "Mon", "monday" := "Mon", "จันทร์" := "Mon",
    "tue" := "Tue", "tuesday" := "Tue", "อังคาร" := "Tue",
    "wed" := "Wed", "wednesday" := "Wed", "พุธ" := "Wed",
    "thu" := "Thu", "thursday" := "Thu", "พฤหัส" := "Thu", "พฤหัสบดี" := "Thu",
    "fri" := "Fri", "friday" := "Fri", "ศุกร์" := "Fri",
    "sat" := "Sat", "saturday" := "Sat", "เสาร์" := "Sat",
    "sun" := "Sun", "sunday" := "Sun", "อาทิตย์" := "Sun"
  ]

  /** The separator class `[,/\s]` of the day-list regexes. */
  predicate IsSep(c: char) {
    c == ',' || c == '/' || IsSpace(c)
  }

  function TakeToken(s: string): (r: string)
    ensures |r| <= |s| && r == s[..|r|]
    ensures forall i :: 0 <= i < |r| ==> !IsSep(r[i])
    ensures |r| < |s| ==> IsSep(s[|r|])
  {
    if s == [] || IsSep(s[0]) then [] else [s[0]] + TakeToken(s[1..])
  }

  function DropSeps(s: string): (r: string)
    ensures |r| <= |s| && r == s[|s| - |r|..]
    ensures r != [] ==> !IsSep(r[0])
  {
    if s != [] && IsSep(s[0]) then DropSeps(s[1..]) else s
  }

  /** `re.split(r"[,/\s]+", s)`: the pieces between maximal runs of separators; a leading
      or trailing run yields an empty first or last piece. */
  function Split(s: string): (r: seq<string>)
    ensures r != []
    ensures forall k, i :: 0 <= k < |r| && 0 <= i < |r[k]| ==> !IsSep(r[k][i])
    decreases |s|
  {
    var tok := TakeToken(s);
    if |tok| == |s| then [tok]
    else [tok] + Split(DropSeps(s[|tok|..]))
  }
}

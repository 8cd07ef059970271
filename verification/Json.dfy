/** Decimal texts, and a request body as each runtime serialises it before hashing. */
module Texts {

  function Digit(n: int): (c: char)
    requires 0 <= n < 16
    ensures '0' <= c <= '9' || 'A' <= c <= 'F'
  {
    if n < 10 then '0' + n as char else 'A' + (n - 10) as char
  }

  lemma DigitsDiffer(m: int, n: int)
    requires 0 <= m < 16 && 0 <= n < 16 && Digit(m) == Digit(n)
    ensures m == n
  {
  }

  predicate IsDigit(c: char) {
    '0' <= c <= '9'
  }

  /** The decimal text of `n`. */
  function Decimal(n: nat): (r: string)
    ensures r != "" && forall k | 0 <= k < |r| :: IsDigit(r[k])
  {
    (if n < 10 then "" else Decimal(n / 10)) + [Digit(n % 10)]
  }

  lemma {:induction false} DecimalDiffers(m: nat, n: nat)
    requires Decimal(m) == Decimal(n)
    ensures m == n
  {
    var s, t := Decimal(m), Decimal(n);
    assert s[|s| - 1] == Digit(m % 10) && t[|t| - 1] == Digit(n % 10);
    DigitsDiffer(m % 10, n % 10);
    assert s[..|s| - 1] == (if m < 10 then "" else Decimal(m / 10));
    assert t[..|t| - 1] == (if n < 10 then "" else Decimal(n / 10));
    if m >= 10 && n >= 10 {
      DecimalDiffers(m / 10, n / 10);
    }
  }

  /** The number a text of digits stands for. */
  function NumberOf(text: string): int {
    if text == "" then 0 else NumberOf(text[..|text| - 1]) * 10 + (text[|text| - 1] as int - '0' as int)
  }

  lemma {:induction false} DecimalRoundTrip(n: nat)
    ensures NumberOf(Decimal(n)) == n
  {
    var text := Decimal(n);
    assert text[..|text| - 1] == if n < 10 then "" else Decimal(n / 10);
    if n >= 10 {
      DecimalRoundTrip(n / 10);
    }
  }

  /** With a sign where there is one. */
  function Str(v: int): (r: string)
    ensures r != ""
  {
    if v < 0 then "-" + Decimal(-v) else Decimal(v)
  }
}

/** json.dumps(body, ensure_ascii=False, separators=(",", ":")) and json.Marshal(req). */
module Json {
  import opened Schema
  import opened Texts

  // ---- strings

  /** The characters only Go escapes: <, >, & and the two line separators. */
  predicate OnlyGoEscapes(c: char) {
    var n := c as int;
    n == 0x3C || n == 0x3E || n == 0x26 || n == 0x2028 || n == 0x2029
  }

  function Hex(n: int): char
    requires 0 <= n < 16
  {
    if n < 10 then '0' + n as char else 'a' + (n - 10) as char
  }

  function Hex4(n: int): (r: string)
    requires 0 <= n < 0x1_0000
    ensures |r| == 4
  {
    [Hex(n / 0x1000), Hex(n / 0x100 % 16), Hex(n / 16 % 16), Hex(n % 16)]
  }

  /** The letter of a short escape, if the character has one. */
  function Short(c: char): Option<char> {
    var n := c as int;
    if n == 0x22 || n == 0x5C then Some(c)
    else if n == 8 then Some('b')
    else if n == 9 then Some('t')
    else if n == 10 then Some('n')
    else if n == 12 then Some('f')
    else if n == 13 then Some('r')
    else None
  }

  predicate LongEscaped(runtime: Runtime, c: char) {
    Short(c).None? && (c as int < 0x20 || (runtime.Go? && OnlyGoEscapes(c)))
  }

  function Escape(runtime: Runtime, c: char): (r: string)
    ensures r != ""
  {
    if Short(c).Some? then ['\\', Short(c).value]
    else if LongEscaped(runtime, c) then "\\u" + Hex4(c as int)
    else [c]
  }

  function Escaped(runtime: Runtime, s: string): string {
    if s == "" then "" else Escape(runtime, s[0]) + Escaped(runtime, s[1..])
  }

  function Quoted(runtime: Runtime, s: string): string {
    "\"" + Escaped(runtime, s) + "\""
  }

  // ---- objects

  datatype Value = Null | Number(n: int) | Text(s: string)

  datatype Field = Field(name: string, value: Value)

  function ValueText(runtime: Runtime, v: Value): string {
    match v
    case Null => "null"
    case Number(n) => Str(n)
    case Text(s) => Quoted(runtime, s)
  }

  /** Field names hold no character to escape. */
  function Label(f: Field): string {
    "\"" + f.name + "\":"
  }

  function FieldText(runtime: Runtime, f: Field): string {
    Label(f) + ValueText(runtime, f.value)
  }

  function FieldTexts(runtime: Runtime, fields: seq<Field>): string {
    if fields == [] then "}"
    else FieldText(runtime, fields[0]) + ((if |fields| == 1 then "" else ",") + FieldTexts(runtime, fields[1..]))
  }

  function ObjectText(runtime: Runtime, fields: seq<Field>): string {
    "{" + FieldTexts(runtime, fields)
  }

  function OfInt(v: Option<int>): Value {
    if v.None? then Null else Number(v.value)
  }

  function OfText(v: Option<string>): Value {
    if v.None? then Null else Text(v.value)
  }

  function MethodText(m: Method): string {
    match m
    case Card => "CARD"
    case Qr => "QR"
    case RfCard => "RF_CARD"
    case Other(name) => name
  }

  /** The fields, in the order both runtimes declare them. */
  function FieldsOf(b: Body): (r: seq<Field>)
    ensures |r| == 7
  {
    [Field("station_program_id", OfInt(b.program)),
     Field("payment_method", Text(MethodText(b.paymentMethod))),
     Field("configuration_version", Number(b.configurationVersion)),
     Field("displayed_price_minor", OfInt(b.displayedPrice)),
     Field("qr_token", OfText(b.qrToken)),
     Field("rf_uid", OfText(b.rfUid)),
     Field("test_scenario", OfText(b.testScenario))]
  }

  function JsonText(runtime: Runtime, b: Body): string {
    ObjectText(runtime, FieldsOf(b))
  }

  // ---- which texts both runtimes write alike

  predicate PlainText(s: string) {
    forall k | 0 <= k < |s| :: !OnlyGoEscapes(s[k])
  }

  predicate PlainValue(v: Value) {
    v.Text? ==> PlainText(v.s)
  }

  /** No text of the body holds a character that only Go escapes. */
  predicate Plain(b: Body) {
    && PlainText(MethodText(b.paymentMethod))
    && (b.qrToken.Some? ==> PlainText(b.qrToken.value))
    && (b.rfUid.Some? ==> PlainText(b.rfUid.value))
    && (b.testScenario.Some? ==> PlainText(b.testScenario.value))
  }

  // ---- a text is read in one way only, whichever runtime wrote it

  lemma HexDiffers(m: int, n: int)
    requires 0 <= m < 16 && 0 <= n < 16 && Hex(m) == Hex(n)
    ensures m == n
  {
  }

  lemma Hex4Differs(m: int, n: int)
    requires 0 <= m < 0x1_0000 && 0 <= n < 0x1_0000 && Hex4(m) == Hex4(n)
    ensures m == n
  {
    var s, t := Hex4(m), Hex4(n);
    assert s[0] == t[0] && s[1] == t[1] && s[2] == t[2] && s[3] == t[3];
    HexDiffers(m / 0x1000, n / 0x1000);
    HexDiffers(m / 0x100 % 16, n / 0x100 % 16);
    HexDiffers(m / 16 % 16, n / 16 % 16);
    HexDiffers(m % 16, n % 16);
    assert m / 0x100 == m / 16 / 16 && m / 0x1000 == m / 0x100 / 16;
    assert n / 0x100 == n / 16 / 16 && n / 0x1000 == n / 0x100 / 16;
  }

  lemma ShortDiffers(c: char, d: char)
    requires Short(c).Some? && Short(c) == Short(d)
    ensures c == d
  {
  }

  /** The escapes form a prefix code: the first one of a text fixes the character. */
  lemma EscapeReads(r1: Runtime, c: char, r2: Runtime, d: char, x: string, y: string)
    requires Escape(r1, c) + x == Escape(r2, d) + y
    ensures c == d && Escape(r1, c) == Escape(r2, d) && x == y
  {
    var s, t := Escape(r1, c) + x, Escape(r2, d) + y;
    assert s[0] == t[0];
    if Short(c).Some? || LongEscaped(r1, c) {
      assert Short(d).Some? || LongEscaped(r2, d);
      assert s[1] == t[1];
      if Short(c).Some? {
        assert Short(d) == Short(c);
        ShortDiffers(c, d);
      } else {
        assert Short(d).None?;
        assert s[2..6] == Hex4(c as int) && t[2..6] == Hex4(d as int);
        Hex4Differs(c as int, d as int);
      }
    }
    Tails(Escape(r1, c), x, Escape(r2, d), y);
  }

  lemma Tails(a: string, x: string, b: string, y: string)
    requires a + x == b + y && |a| == |b|
    ensures a == b && x == y
  {
    assert (a + x)[..|a|] == a && (b + y)[..|b|] == b;
    assert (a + x)[|a|..] == x && (b + y)[|b|..] == y;
  }

  /** A character of a string is never mistaken for the closing quote. */
  lemma NotAQuote(runtime: Runtime, s: string, rest: string, x: string)
    requires s != ""
    ensures Escaped(runtime, s) + rest != "\"" + x
  {
    assert (Escaped(runtime, s) + rest)[0] == Escape(runtime, s[0])[0] != '\"';
    assert ("\"" + x)[0] == '\"';
  }

  lemma {:induction false} EscapedReads(r1: Runtime, s: string, r2: Runtime, t: string, x: string, y: string)
    requires Escaped(r1, s) + ("\"" + x) == Escaped(r2, t) + ("\"" + y)
    ensures s == t && Escaped(r1, s) == Escaped(r2, t) && x == y
  {
    if s == "" && t == "" {
      assert Escaped(r1, s) + ("\"" + x) == "\"" + x && Escaped(r2, t) + ("\"" + y) == "\"" + y;
      Tails("\"", x, "\"", y);
    } else if s == "" {
      NotAQuote(r2, t, "\"" + y, x);
      assert false;
    } else if t == "" {
      NotAQuote(r1, s, "\"" + x, y);
      assert false;
    } else {
      var u, v := Escaped(r1, s[1..]) + ("\"" + x), Escaped(r2, t[1..]) + ("\"" + y);
      Regroup(Escape(r1, s[0]), Escaped(r1, s[1..]), "\"" + x);
      Regroup(Escape(r2, t[0]), Escaped(r2, t[1..]), "\"" + y);
      EscapeReads(r1, s[0], r2, t[0], u, v);
      EscapedReads(r1, s[1..], r2, t[1..], x, y);
      assert s == [s[0]] + s[1..] && t == [t[0]] + t[1..];
    }
  }

  lemma Regroup(a: string, b: string, c: string)
    ensures a + b + c == a + (b + c)
  {
  }

  lemma QuotedReads(r1: Runtime, s: string, r2: Runtime, t: string, x: string, y: string)
    requires Quoted(r1, s) + x == Quoted(r2, t) + y
    ensures s == t && Quoted(r1, s) == Quoted(r2, t) && x == y
  {
    Regroup("\"" + Escaped(r1, s), "\"", x);
    Regroup("\"", Escaped(r1, s), "\"" + x);
    Regroup("\"" + Escaped(r2, t), "\"", y);
    Regroup("\"", Escaped(r2, t), "\"" + y);
    Tails("\"", Escaped(r1, s) + ("\"" + x), "\"", Escaped(r2, t) + ("\"" + y));
    EscapedReads(r1, s, r2, t, x, y);
  }

  /** What follows a value does not continue a number. */
  predicate Stops(rest: string) {
    rest != "" && (rest[0] == ',' || rest[0] == '}')
  }

  lemma NotLonger(s: string, x: string, t: string, y: string)
    requires (forall k | 0 <= k < |s| :: IsDigit(s[k])) && Stops(y)
    ensures |s| > |t| ==> s + x != t + y
  {
    if |s| > |t| {
      assert (s + x)[|t|] == s[|t|] && (t + y)[|t|] == y[0];
    }
  }

  lemma DecimalReads(m: nat, n: nat, x: string, y: string)
    requires Decimal(m) + x == Decimal(n) + y && Stops(x) && Stops(y)
    ensures m == n && x == y
  {
    var s, t := Decimal(m), Decimal(n);
    NotLonger(s, x, t, y);
    NotLonger(t, y, s, x);
    Tails(s, x, t, y);
    DecimalDiffers(m, n);
  }

  lemma StrReads(m: int, n: int, x: string, y: string)
    requires Str(m) + x == Str(n) + y && Stops(x) && Stops(y)
    ensures m == n && x == y
  {
    assert (Str(m) + x)[0] == Str(m)[0] && (Str(n) + y)[0] == Str(n)[0];
    if m < 0 {
      Regroup("-", Decimal(-m), x);
      Regroup("-", Decimal(-n), y);
      Tails("-", Decimal(-m) + x, "-", Decimal(-n) + y);
      DecimalReads(-m, -n, x, y);
    } else {
      DecimalReads(m, n, x, y);
    }
  }

  lemma ValueReads(r1: Runtime, v: Value, r2: Runtime, w: Value, x: string, y: string)
    requires ValueText(r1, v) + x == ValueText(r2, w) + y && Stops(x) && Stops(y)
    ensures v == w && ValueText(r1, v) == ValueText(r2, w) && x == y
  {
    assert (ValueText(r1, v) + x)[0] == ValueText(r1, v)[0] && (ValueText(r2, w) + y)[0] == ValueText(r2, w)[0];
    match v
    case Null => Tails("null", x, "null", y);
    case Number(n) => StrReads(n, w.n, x, y);
    case Text(s) => QuotedReads(r1, s, r2, w.s, x, y);
  }

  lemma FieldReads(r1: Runtime, f: Field, r2: Runtime, g: Field, x: string, y: string)
    requires FieldText(r1, f) + x == FieldText(r2, g) + y && f.name == g.name && Stops(x) && Stops(y)
    ensures f == g && ValueText(r1, f.value) == ValueText(r2, g.value) && x == y
  {
    Regroup(Label(f), ValueText(r1, f.value), x);
    Regroup(Label(g), ValueText(r2, g.value), y);
    Tails(Label(f), ValueText(r1, f.value) + x, Label(g), ValueText(r2, g.value) + y);
    ValueReads(r1, f.value, r2, g.value, x, y);
  }

  predicate SameNames(fs: seq<Field>, gs: seq<Field>) {
    |fs| == |gs| && forall k | 0 <= k < |fs| :: fs[k].name == gs[k].name
  }

  lemma {:induction false} FieldsRead(r1: Runtime, fs: seq<Field>, r2: Runtime, gs: seq<Field>)
    requires SameNames(fs, gs) && FieldTexts(r1, fs) == FieldTexts(r2, gs)
    ensures fs == gs
    ensures forall k | 0 <= k < |fs| :: ValueText(r1, fs[k].value) == ValueText(r2, fs[k].value)
  {
    if fs != [] {
      var sep := if |fs| == 1 then "" else ",";
      FieldReads(r1, fs[0], r2, gs[0], sep + FieldTexts(r1, fs[1..]), sep + FieldTexts(r2, gs[1..]));
      Tails(sep, FieldTexts(r1, fs[1..]), sep, FieldTexts(r2, gs[1..]));
      FieldsRead(r1, fs[1..], r2, gs[1..]);
      assert fs == [fs[0]] + fs[1..] && gs == [gs[0]] + gs[1..];
    }
  }

  // ---- when two serialised bodies are the same text

  lemma {:induction false} EscapedAlike(s: string)
    ensures Escaped(Python, s) == Escaped(Go, s) <==> PlainText(s)
  {
    if s != "" {
      EscapedAlike(s[1..]);
      var head, tail := s[0], s[1..];
      assert s == [head] + tail;
      if Escaped(Python, s) == Escaped(Go, s) {
        EscapeReads(Python, head, Go, head, Escaped(Python, tail), Escaped(Go, tail));
        assert !OnlyGoEscapes(head);
        assert forall k | 0 < k < |s| :: s[k] == tail[k - 1];
      }
      if PlainText(s) {
        assert !OnlyGoEscapes(s[0]) && forall k | 0 <= k < |tail| :: tail[k] == s[k + 1];
      }
    }
  }

  lemma ValueAlike(v: Value)
    ensures ValueText(Python, v) == ValueText(Go, v) <==> PlainValue(v)
  {
    if v.Text? {
      EscapedAlike(v.s);
      if Quoted(Python, v.s) == Quoted(Go, v.s) {
        QuotedSame(v.s);
      }
    }
  }

  lemma QuotedSame(s: string)
    requires Quoted(Python, s) == Quoted(Go, s)
    ensures Escaped(Python, s) == Escaped(Go, s)
  {
    var p, g := Quoted(Python, s), Quoted(Go, s);
    assert p[1..|p| - 1] == Escaped(Python, s) && g[1..|g| - 1] == Escaped(Go, s);
  }

  lemma PlainFields(b: Body)
    ensures Plain(b) <==> forall k | 0 <= k < 7 :: PlainValue(FieldsOf(b)[k].value)
  {
    var f := FieldsOf(b);
    assert f[0].value == OfInt(b.program) && f[1].value == Text(MethodText(b.paymentMethod));
    assert f[2].value == Number(b.configurationVersion) && f[3].value == OfInt(b.displayedPrice);
    assert f[4].value == OfText(b.qrToken) && f[5].value == OfText(b.rfUid) && f[6].value == OfText(b.testScenario);
  }

  lemma FieldsFixTheBody(b: Body, c: Body)
    requires FieldsOf(b) == FieldsOf(c)
    ensures b == c
  {
    var f, g := FieldsOf(b), FieldsOf(c);
    assert f[0].value == g[0].value && f[1].value == g[1].value && f[2].value == g[2].value && f[3].value == g[3].value;
    assert f[4].value == g[4].value && f[5].value == g[5].value && f[6].value == g[6].value;
    MethodTextFixes(b.paymentMethod, c.paymentMethod);
  }

  lemma MethodTextFixes(m: Method, n: Method)
    requires MethodText(m) == MethodText(n)
    ensures m == n
  {
    assert |"CARD"| == 4 && |"QR"| == 2 && |"RF_CARD"| == 7;
  }

  lemma {:induction false} PlainFieldTexts(fields: seq<Field>)
    requires forall k | 0 <= k < |fields| :: PlainValue(fields[k].value)
    ensures FieldTexts(Python, fields) == FieldTexts(Go, fields)
  {
    if fields != [] {
      ValueAlike(fields[0].value);
      PlainFieldTexts(fields[1..]);
    }
  }

  lemma NamesAreFixed(b: Body, c: Body)
    ensures SameNames(FieldsOf(b), FieldsOf(c))
  {
  }

  /** Two serialised bodies are the same text exactly when the bodies are equal and either the same runtime wrote both,
      or no character in them is escaped by Go alone.  */
  lemma SameTextExactly(r1: Runtime, b: Body, r2: Runtime, c: Body)
    ensures JsonText(r1, b) == JsonText(r2, c) <==> b == c && (r1 == r2 || Plain(b))
  {
    PlainFields(b);
    if JsonText(r1, b) == JsonText(r2, c) {
      SameText(r1, b, r2, c);
    }
    if Plain(b) {
      PlainFieldTexts(FieldsOf(b));
    }
  }

  lemma SameText(r1: Runtime, b: Body, r2: Runtime, c: Body)
    requires JsonText(r1, b) == JsonText(r2, c)
    ensures b == c && (r1 == r2 || Plain(b))
  {
    var fs, gs := FieldsOf(b), FieldsOf(c);
    NamesAreFixed(b, c);
    Tails("{", FieldTexts(r1, fs), "{", FieldTexts(r2, gs));
    FieldsRead(r1, fs, r2, gs);
    FieldsFixTheBody(b, c);
    if r1 != r2 {
      forall k | 0 <= k < 7
        ensures PlainValue(fs[k].value)
      {
        ValueAlike(fs[k].value);
      }
      PlainFields(b);
    }
  }

  // ---- reading a string back (section 7 of RFC 8259)

  function Nibble(c: char): Option<int> {
    if '0' <= c <= '9' then Some(c as int - '0' as int)
    else if 'a' <= c <= 'f' then Some(c as int - 'a' as int + 10)
    else if 'A' <= c <= 'F' then Some(c as int - 'A' as int + 10)
    else None
  }

  /** The character after a backslash that stands for one character. */
  function ShortMeaning(c: char): Option<char> {
    if c == '"' || c == '\\' || c == '/' then Some(c)
    else if c == 'b' then Some(8 as char)
    else if c == 't' then Some(9 as char)
    else if c == 'n' then Some(10 as char)
    else if c == 'f' then Some(12 as char)
    else if c == 'r' then Some(13 as char)
    else None
  }

  /** The number of four hexadecimal digits, outside the surrogates. */
  function CodeUnit(s: string): Option<char>
    requires |s| == 4
  {
    var (a, b, c, d) := (Nibble(s[0]), Nibble(s[1]), Nibble(s[2]), Nibble(s[3]));
    if a.None? || b.None? || c.None? || d.None? then None
    else
      var n := ((a.value * 16 + b.value) * 16 + c.value) * 16 + d.value;
      if 0 <= n < 0xD800 || 0xE000 <= n < 0x1_0000 then Some(n as char) else None
  }

  /** The characters between the quotes of a JSON string. */
  function ReadString(s: string): Option<string> {
    if s == "" then Some("")
    else if s[0] == '"' || s[0] as int < 0x20 then None
    else if s[0] != '\\' then Prefixed(s[0], ReadString(s[1..]))
    else if |s| >= 2 && ShortMeaning(s[1]).Some? then Prefixed(ShortMeaning(s[1]).value, ReadString(s[2..]))
    else if |s| >= 6 && s[1] == 'u' && CodeUnit(s[2..6]).Some? then Prefixed(CodeUnit(s[2..6]).value, ReadString(s[6..]))
    else None
  }

  function Prefixed(c: char, rest: Option<string>): Option<string> {
    if rest.None? then None else Some([c] + rest.value)
  }

  lemma CodeUnitOfHex(c: char)
    requires c as int < 0x20 || OnlyGoEscapes(c)
    ensures CodeUnit(Hex4(c as int)) == Some(c)
  {
    var n := c as int;
    HexRead(n / 0x1000);
    HexRead(n / 0x100 % 16);
    HexRead(n / 16 % 16);
    HexRead(n % 16);
    FourNibbles(n);
  }

  lemma HexRead(n: int)
    requires 0 <= n < 16
    ensures Nibble(Hex(n)) == Some(n)
  {
  }

  lemma FourNibbles(n: int)
    requires 0 <= n < 0x1_0000
    ensures ((n / 0x1000 * 16 + n / 0x100 % 16) * 16 + n / 16 % 16) * 16 + n % 16 == n
    ensures 0 <= n / 0x1000 < 16
  {
    assert n / 0x100 == n / 16 / 16 && n / 0x1000 == n / 0x100 / 16;
  }

  lemma ReadEscape(runtime: Runtime, c: char, rest: string)
    ensures ReadString(Escape(runtime, c) + rest) == Prefixed(c, ReadString(rest))
  {
    var e := Escape(runtime, c);
    assert (e + rest)[|e|..] == rest;
    if LongEscaped(runtime, c) {
      CodeUnitOfHex(c);
      assert (e + rest)[2..6] == Hex4(c as int);
    }
  }

  /** A JSON reader recovers every text from what either runtime writes between the quotes. */
  lemma {:induction false} StringRoundTrip(runtime: Runtime, s: string)
    ensures ReadString(Escaped(runtime, s)) == Some(s)
  {
    if s != "" {
      StringRoundTrip(runtime, s[1..]);
      ReadEscape(runtime, s[0], Escaped(runtime, s[1..]));
      assert s == [s[0]] + s[1..];
    }
  }

  // ---- the text of a whole body

  function NumberText(v: Option<int>): string {
    if v.None? then "null" else Str(v.value)
  }

  function StringText(runtime: Runtime, v: Option<string>): string {
    if v.None? then "null" else "\"" + Escaped(runtime, v.value) + "\""
  }

  lemma FirstField(runtime: Runtime, f: Field, rest: seq<Field>)
    ensures FieldTexts(runtime, [f] + rest) == FieldText(runtime, f) + ((if rest == [] then "" else ",") + FieldTexts(runtime, rest))
  {
    assert ([f] + rest)[1..] == rest && ([f] + rest)[0] == f;
  }

  lemma ThreeFields(runtime: Runtime, a: Field, b: Field, c: Field)
    ensures FieldTexts(runtime, [a, b, c]) ==
            FieldText(runtime, a) + ("," + (FieldText(runtime, b) + ("," + (FieldText(runtime, c) + ("" + "}")))))
  {
    FirstField(runtime, c, []);
    FirstField(runtime, b, [c]);
    FirstField(runtime, a, [b, c]);
    assert [c] + [] == [c] && [b] + [c] == [b, c] && [a] + [b, c] == [a, b, c];
  }

  lemma FourMoreFields(runtime: Runtime, a: Field, b: Field, c: Field, d: Field, rest: seq<Field>)
    requires rest != []
    ensures FieldTexts(runtime, [a, b, c, d] + rest) ==
            FieldText(runtime, a) + ("," + (FieldText(runtime, b) + ("," + (FieldText(runtime, c) + ("," + (FieldText(runtime, d)
            + ("," + FieldTexts(runtime, rest))))))))
  {
    FirstField(runtime, d, rest);
    FirstField(runtime, c, [d] + rest);
    FirstField(runtime, b, [c] + ([d] + rest));
    FirstField(runtime, a, [b] + ([c] + ([d] + rest)));
    assert [a] + ([b] + ([c] + ([d] + rest))) == [a, b, c, d] + rest;
  }

  /** One member of the object. */
  function Named(name: string, text: string): string {
    "\"" + name + "\":" + text
  }

  function NameOf(m: Method): string {
    if m.Card? then "CARD" else if m.Qr? then "QR" else if m.RfCard? then "RF_CARD" else m.name
  }

  /** Both runtimes write the seven fields in one order, under these names, with null for what is missing. */
  lemma BodyText(runtime: Runtime, b: Body)
    ensures JsonText(runtime, b) ==
            "{" + (Named("station_program_id", NumberText(b.program))
            + ("," + (Named("payment_method", StringText(runtime, Some(NameOf(b.paymentMethod))))
            + ("," + (Named("configuration_version", NumberText(Some(b.configurationVersion)))
            + ("," + (Named("displayed_price_minor", NumberText(b.displayedPrice))
            + ("," + (Named("qr_token", StringText(runtime, b.qrToken))
            + ("," + (Named("rf_uid", StringText(runtime, b.rfUid))
            + ("," + (Named("test_scenario", StringText(runtime, b.testScenario))
            + ("" + "}"))))))))))))))
  {
    var f := FieldsOf(b);
    FourMoreFields(runtime, f[0], f[1], f[2], f[3], [f[4], f[5], f[6]]);
    ThreeFields(runtime, f[4], f[5], f[6]);
    assert f == [f[0], f[1], f[2], f[3]] + [f[4], f[5], f[6]];
  }
}

/** Canonical JSON text: `json.dumps(value, ensure_ascii=False, separators=(",", ":"), sort_keys=True)`, with the string
    escapes of section 7 of RFC 8259. Objects list their fields in sorted order. */
module Json {
  datatype Json =
    | JNull | JString(text: string) | JNumber(n: nat)
    | JArray(items: seq<Json>) | JObject(fields: seq<Field>)

  datatype Field = Field(name: string, value: Json)

  // ----- Strings.

  function HexDigit(n: nat): char
    requires n < 16
  {
    "0123456789abcdef"[n]
  }

  function EscapeChar(c: char): string {
    if c == '\"' then "\\\""
    else if c == '\\' then "\\\\"
    else if c == '\n' then "\\n"
    else if c == '\r' then "\\r"
    else if c == '\t' then "\\t"
    else if c as int == 12 then "\\f"
    else if c as int == 8 then "\\b"
    else if c as int < 32 then "\\u00" + [HexDigit(c as int / 16), HexDigit(c as int % 16)]
    else [c]
  }

  /** The escaped characters of `s`, followed by `rest`. */
  function EscapeText(s: string, rest: string): string {
    if s == [] then rest else EscapeChar(s[0]) + EscapeText(s[1..], rest)
  }

  function StringText(s: string, rest: string): string {
    "\"" + EscapeText(s, "\"" + rest)
  }

  lemma HexDigitInjective(m: nat, n: nat)
    requires m < 16 && n < 16 && HexDigit(m) == HexDigit(n)
    ensures m == n
  {
  }

  /** One escaped character can be told from whatever follows it, and never starts with a closing quote. */
  lemma EscapedCharDecodes(c: char, d: char, x: string, y: string)
    requires EscapeChar(c) + x == EscapeChar(d) + y
    ensures c == d && x == y
  {
    var s, t := EscapeChar(c), EscapeChar(d);
    assert (s + x)[0] == s[0] && (t + y)[0] == t[0];
    if s[0] != '\\' {
      assert x == (s + x)[1..] && y == (t + y)[1..];
    } else {
      assert |s| >= 2 && |t| >= 2;
      assert (s + x)[1] == s[1] && (t + y)[1] == t[1];
      if s[1] == 'u' {
        assert (s + x)[4] == s[4] && (t + y)[4] == t[4] && (s + x)[5] == s[5] && (t + y)[5] == t[5];
        HexDigitInjective(c as int / 16, d as int / 16);
        HexDigitInjective(c as int % 16, d as int % 16);
        assert x == (s + x)[6..] && y == (t + y)[6..];
      } else {
        assert x == (s + x)[2..] && y == (t + y)[2..];
      }
    }
  }

  lemma EscapedNeverCloses(s: string, rest: string)
    requires s != []
    ensures EscapeText(s, rest) != [] && EscapeText(s, rest)[0] != '\"'
  {
    assert EscapeText(s, rest)[0] == EscapeChar(s[0])[0];
  }

  lemma {:induction false} EscapeDecodes(s: string, t: string, x: string, y: string)
    requires EscapeText(s, "\"" + x) == EscapeText(t, "\"" + y)
    ensures s == t && x == y
    decreases |s| + |t|
  {
    if s == [] && t == [] {
      assert x == ("\"" + x)[1..] && y == ("\"" + y)[1..];
    } else if s == [] {
      EscapedNeverCloses(t, "\"" + y);
    } else if t == [] {
      EscapedNeverCloses(s, "\"" + x);
    } else {
      EscapedCharDecodes(s[0], t[0], EscapeText(s[1..], "\"" + x), EscapeText(t[1..], "\"" + y));
      EscapeDecodes(s[1..], t[1..], x, y);
      assert s == [s[0]] + s[1..] && t == [t[0]] + t[1..];
    }
  }

  lemma Same(c: string, x: string, y: string)
    requires |c| == 1 && c + x == c + y
    ensures x == y
  {
    assert x == (c + x)[1..] && y == (c + y)[1..];
  }

  lemma StringDecodes(s: string, t: string, x: string, y: string)
    requires StringText(s, x) == StringText(t, y)
    ensures s == t && x == y
  {
    Same("\"", EscapeText(s, "\"" + x), EscapeText(t, "\"" + y));
    EscapeDecodes(s, t, x, y);
  }

  // ----- Numbers.

  predicate IsDigit(c: char) {
    '0' <= c <= '9'
  }

  function Digit(n: nat): char
    requires n < 10
    ensures IsDigit(Digit(n))
  {
    (n + '0' as int) as char
  }

  function DumpNumber(n: nat): (s: string)
    ensures s != [] && forall i :: 0 <= i < |s| ==> IsDigit(s[i])
  {
    if n < 10 then [Digit(n)] else DumpNumber(n / 10) + [Digit(n % 10)]
  }

  lemma {:induction false} NumberInjective(m: nat, n: nat)
    requires DumpNumber(m) == DumpNumber(n)
    ensures m == n
    decreases m
  {
    var s, t := DumpNumber(m), DumpNumber(n);
    assert s[|s| - 1] == Digit(m % 10) && t[|t| - 1] == Digit(n % 10);
    if m >= 10 && n >= 10 {
      assert s[..|s| - 1] == DumpNumber(m / 10) && t[..|t| - 1] == DumpNumber(n / 10);
      NumberInjective(m / 10, n / 10);
    }
  }

  predicate NoDigitFirst(x: string) {
    x == [] || !IsDigit(x[0])
  }

  lemma Shorter(s: string, t: string, x: string, y: string)
    requires s + x == t + y && |s| < |t| && forall i :: 0 <= i < |t| ==> IsDigit(t[i])
    ensures x != [] && IsDigit(x[0])
  {
    assert |s + x| == |t + y|;
    assert (s + x)[|s|] == x[0];
    assert (t + y)[|s|] == t[|s|];
  }

  lemma NumberDecodes(m: nat, n: nat, x: string, y: string)
    requires DumpNumber(m) + x == DumpNumber(n) + y && NoDigitFirst(x) && NoDigitFirst(y)
    ensures m == n && x == y
  {
    var s, t := DumpNumber(m), DumpNumber(n);
    if |s| < |t| {
      Shorter(s, t, x, y);
    } else if |t| < |s| {
      Shorter(t, s, y, x);
    } else {
      assert s == (s + x)[..|s|] && t == (t + y)[..|t|];
      assert x == (s + x)[|s|..] && y == (t + y)[|t|..];
      NumberInjective(m, n);
    }
  }

  // ----- Values.

  /** The text of a value, followed by `rest`. */
  function Text(j: Json, rest: string): string
    decreases j
  {
    match j
    case JNull => "null" + rest
    case JString(s) => StringText(s, rest)
    case JNumber(n) => DumpNumber(n) + rest
    case JArray(items) => "[" + if items == [] then "]" + rest else Text(items[0], MoreItems(items[1..], rest))
    case JObject(fields) => "{" + if fields == [] then "}" + rest else FieldText(fields, rest)
  }

  function MoreItems(items: seq<Json>, rest: string): string
    decreases items
  {
    if items == [] then "]" + rest else "," + Text(items[0], MoreItems(items[1..], rest))
  }

  function FieldText(fields: seq<Field>, rest: string): string
    requires fields != []
    decreases fields, 0
  {
    StringText(fields[0].name, ":" + Text(fields[0].value, MoreFields(fields[1..], rest)))
  }

  function MoreFields(fields: seq<Field>, rest: string): string
    decreases fields, 1
  {
    if fields == [] then "}" + rest else "," + FieldText(fields, rest)
  }

  function Dump(j: Json): string {
    Text(j, "")
  }

  /** The first character tells the kind of value. */
  function Kind(j: Json): string {
    match j
    case JNull => "n"
    case JString(_) => "\""
    case JNumber(_) => "0123456789"
    case JArray(_) => "["
    case JObject(_) => "{"
  }

  lemma FirstChar(j: Json, rest: string)
    ensures Text(j, rest) != [] && Text(j, rest)[0] in Kind(j)
  {
    if j.JNumber? {
      assert IsDigit(DumpNumber(j.n)[0]);
    }
  }

  lemma MoreNoDigit(items: seq<Json>, fields: seq<Field>, rest: string)
    ensures NoDigitFirst(MoreItems(items, rest)) && NoDigitFirst(MoreFields(fields, rest))
  {
  }

  /** A value can be told from whatever follows it: JSON text is uniquely decodable. */
  lemma {:induction false} ValueDecodes(a: Json, b: Json, x: string, y: string)
    requires Text(a, x) == Text(b, y) && NoDigitFirst(x) && NoDigitFirst(y)
    ensures a == b && x == y
    decreases a
  {
    FirstChar(a, x);
    FirstChar(b, y);
    match a
    case JNull => assert x == ("null" + x)[4..] && y == ("null" + y)[4..];
    case JString(s) => StringDecodes(s, b.text, x, y);
    case JNumber(n) => NumberDecodes(n, b.n, x, y);
    case JArray(items) => ArrayDecodes(items, b.items, x, y);
    case JObject(fields) => ObjectDecodes(fields, b.fields, x, y);
  }

  lemma {:induction false} ArrayDecodes(a: seq<Json>, b: seq<Json>, x: string, y: string)
    requires Text(JArray(a), x) == Text(JArray(b), y) && NoDigitFirst(x) && NoDigitFirst(y)
    ensures a == b && x == y
    decreases a
  {
    Same("[", if a == [] then "]" + x else Text(a[0], MoreItems(a[1..], x)),
         if b == [] then "]" + y else Text(b[0], MoreItems(b[1..], y)));
    if a == [] && b == [] {
      Same("]", x, y);
    } else if a == [] {
      FirstChar(b[0], MoreItems(b[1..], y));
    } else if b == [] {
      FirstChar(a[0], MoreItems(a[1..], x));
    } else {
      ItemDecodes(a, b, x, y);
    }
  }

  lemma {:induction false} ItemDecodes(a: seq<Json>, b: seq<Json>, x: string, y: string)
    requires a != [] && b != [] && NoDigitFirst(x) && NoDigitFirst(y)
    requires Text(a[0], MoreItems(a[1..], x)) == Text(b[0], MoreItems(b[1..], y))
    ensures a == b && x == y
    decreases a, 0
  {
    MoreNoDigit(a[1..], [], x);
    MoreNoDigit(b[1..], [], y);
    ValueDecodes(a[0], b[0], MoreItems(a[1..], x), MoreItems(b[1..], y));
    ItemsDecode(a[1..], b[1..], x, y);
    assert a == [a[0]] + a[1..] && b == [b[0]] + b[1..];
  }

  lemma {:induction false} ItemsDecode(a: seq<Json>, b: seq<Json>, x: string, y: string)
    requires MoreItems(a, x) == MoreItems(b, y) && NoDigitFirst(x) && NoDigitFirst(y)
    ensures a == b && x == y
    decreases a, 1
  {
    assert MoreItems(a, x)[0] == if a == [] then ']' else ',';
    assert MoreItems(b, y)[0] == if b == [] then ']' else ',';
    if a == [] {
      Same("]", x, y);
    } else {
      Same(",", Text(a[0], MoreItems(a[1..], x)), Text(b[0], MoreItems(b[1..], y)));
      ItemDecodes(a, b, x, y);
    }
  }

  lemma {:induction false} ObjectDecodes(a: seq<Field>, b: seq<Field>, x: string, y: string)
    requires Text(JObject(a), x) == Text(JObject(b), y) && NoDigitFirst(x) && NoDigitFirst(y)
    ensures a == b && x == y
    decreases a
  {
    var s, t := if a == [] then "}" + x else FieldText(a, x), if b == [] then "}" + y else FieldText(b, y);
    Same("{", s, t);
    assert s[0] == (if a == [] then '}' else '\"') && t[0] == (if b == [] then '}' else '\"');
    if a == [] {
      Same("}", x, y);
    } else {
      FieldDecodes(a, b, x, y);
    }
  }

  lemma {:induction false} FieldDecodes(a: seq<Field>, b: seq<Field>, x: string, y: string)
    requires a != [] && b != [] && FieldText(a, x) == FieldText(b, y) && NoDigitFirst(x) && NoDigitFirst(y)
    ensures a == b && x == y
    decreases a, 0
  {
    var s, t := Text(a[0].value, MoreFields(a[1..], x)), Text(b[0].value, MoreFields(b[1..], y));
    StringDecodes(a[0].name, b[0].name, ":" + s, ":" + t);
    Same(":", s, t);
    MoreNoDigit([], a[1..], x);
    MoreNoDigit([], b[1..], y);
    ValueDecodes(a[0].value, b[0].value, MoreFields(a[1..], x), MoreFields(b[1..], y));
    FieldsDecode(a[1..], b[1..], x, y);
    assert a == [a[0]] + a[1..] && b == [b[0]] + b[1..];
  }

  lemma {:induction false} FieldsDecode(a: seq<Field>, b: seq<Field>, x: string, y: string)
    requires MoreFields(a, x) == MoreFields(b, y) && NoDigitFirst(x) && NoDigitFirst(y)
    ensures a == b && x == y
    decreases a, 1
  {
    assert MoreFields(a, x)[0] == if a == [] then '}' else ',';
    assert MoreFields(b, y)[0] == if b == [] then '}' else ',';
    if a == [] {
      Same("}", x, y);
    } else {
      Same(",", FieldText(a, x), FieldText(b, y));
      FieldDecodes(a, b, x, y);
    }
  }

  /** Two values with the same canonical text are the same value. */
  lemma DumpInjective(a: Json, b: Json)
    requires Dump(a) == Dump(b)
    ensures a == b
  {
    ValueDecodes(a, b, "", "");
  }
}

/**
  The generic JSON value attached to a field instance, with the compact printer
  and the parser that the data compiler uses to embed it: the value is printed to
  text when the code is generated and parsed back when the generated constant is
  first built.  The printer escapes strings the way section 7 of RFC 8259 requires
  (quote, backslash and control characters only, with the short escapes where they
  exist), and the parser accepts RFC 8259 text restricted to integers, with no
  insignificant whitespace and no surrogate escapes.
 */
module Json {
  import opened Basics

  datatype JsonValue =
    | Null
    | Bool(b: bool)
    | Number(n: int)
    | Str(s: string)
    | Array(items: seq<JsonValue>)
    | Object(members: seq<Member>)

  /** One `"key": value` pair of an object, kept in document order. */
  datatype Member = Member(key: string, value: JsonValue)

  // ---------------------------------------------------------------------------
  // Printing
  // ---------------------------------------------------------------------------

  predicate IsDigit(c: char) {
    '0' <= c <= '9'
  }

  function Digit(d: int): (c: char)
    requires 0 <= d < 10
    ensures IsDigit(c)
  {
    "0123456789"[d]
  }

  function HexDigit(d: int): char
    requires 0 <= d < 16
  {
    "0123456789abcdef"[d]
  }

  /** Decimal digits of `n`, most significant first, without leading zeros. */
  function PrintNat(n: nat): (ds: string)
    ensures |ds| > 0
    ensures forall i :: 0 <= i < |ds| ==> IsDigit(ds[i])
    ensures |ds| > 1 ==> ds[0] != '0'
  {
    if n < 10 then [Digit(n)] else PrintNat(n / 10) + [Digit(n % 10)]
  }

  function PrintInt(n: int): string
  {
    if n < 0 then "-" + PrintNat(-n) else PrintNat(n)
  }

  /** The escape sequence (or the character itself) that stands for `c` inside a string literal. */
  function EscapeChar(c: char): string
  {
    if c == '"' then ['\\', '"']
    else if c == '\\' then ['\\', '\\']
    else if c == '\n' then ['\\', 'n']
    else if c == '\r' then ['\\', 'r']
    else if c == '\t' then ['\\', 't']
    else if c as int == 0x08 then ['\\', 'b']
    else if c as int == 0x0C then ['\\', 'f']
    else if c as int < 0x20 then ['\\', 'u', '0', '0', HexDigit(c as int / 16), HexDigit(c as int % 16)]
    else [c]
  }

  function Escape(s: string): string
  {
    if |s| == 0 then "" else EscapeChar(s[0]) + Escape(s[1..])
  }

  function PrintString(s: string): string
  {
    "\"" + Escape(s) + "\""
  }

  /** Compact text of a value, as `serde_json::Value::to_string` produces it. */
  function Print(v: JsonValue): string
  {
    match v
    case Null => "null"
    case Bool(b) => if b then "true" else "false"
    case Number(n) => PrintInt(n)
    case Str(s) => PrintString(s)
    case Array(items) => "[" + PrintItems(items) + "]"
    case Object(members) => "{" + PrintMembers(members) + "}"
  }

  /** The elements of an array, separated by commas. */
  function PrintItems(items: seq<JsonValue>): string
  {
    if |items| == 0 then ""
    else if |items| == 1 then Print(items[0])
    else Print(items[0]) + "," + PrintItems(items[1..])
  }

  function PrintMember(m: Member): string
  {
    PrintString(m.key) + ":" + Print(m.value)
  }

  /** The members of an object, separated by commas. */
  function PrintMembers(members: seq<Member>): string
  {
    if |members| == 0 then ""
    else if |members| == 1 then PrintMember(members[0])
    else PrintMember(members[0]) + "," + PrintMembers(members[1..])
  }

  // ---------------------------------------------------------------------------
  // Parsing: every parser returns the value read and the unread rest of the text
  // ---------------------------------------------------------------------------

  function DigitValue(c: char): int
    requires IsDigit(c)
  {
    c as int - '0' as int
  }

  /** Number of leading decimal digits of `s`. */
  function SpanDigits(s: string): (k: nat)
    ensures k <= |s|
    ensures forall i :: 0 <= i < k ==> IsDigit(s[i])
    ensures k < |s| ==> !IsDigit(s[k])
  {
    if |s| > 0 && IsDigit(s[0]) then 1 + SpanDigits(s[1..]) else 0
  }

  /** The number a run of decimal digits denotes. */
  function DigitsValue(ds: string): nat
    requires forall i :: 0 <= i < |ds| ==> IsDigit(ds[i])
  {
    if |ds| == 0 then 0 else DigitsValue(ds[..|ds| - 1]) * 10 + DigitValue(ds[|ds| - 1])
  }

  /** An optional minus sign and an integer part without superfluous leading zero. */
  function ParseNumber(s: string): (r: Option<(JsonValue, string)>)
    ensures r.Some? ==> |r.value.1| < |s|
  {
    var negative := |s| > 0 && s[0] == '-';
    var t := if negative then s[1..] else s;
    var k := SpanDigits(t);
    if k == 0 || (k > 1 && t[0] == '0') then None
    else
      var magnitude := DigitsValue(t[..k]);
      Some((Number(if negative then 0 - magnitude else magnitude), t[k..]))
  }

  function HexValue(c: char): (r: Option<int>)
    ensures r.Some? ==> 0 <= r.value < 16
  {
    if '0' <= c <= '9' then Some(c as int - '0' as int)
    else if 'a' <= c <= 'f' then Some(c as int - 'a' as int + 10)
    else if 'A' <= c <= 'F' then Some(c as int - 'A' as int + 10)
    else None
  }

  /** The character a one-letter escape stands for. */
  function ShortEscape(c: char): Option<char>
  {
    if c == '"' then Some('"')
    else if c == '\\' then Some('\\')
    else if c == '/' then Some('/')
    else if c == 'b' then Some(0x08 as char)
    else if c == 'f' then Some(0x0C as char)
    else if c == 'n' then Some('\n')
    else if c == 'r' then Some('\r')
    else if c == 't' then Some('\t')
    else None
  }

  /** The character a `\uXXXX` escape stands for; `h` are the four hex digits. */
  function UnicodeEscape(h: string): Option<char>
    requires |h| == 4
  {
    match (HexValue(h[0]), HexValue(h[1]), HexValue(h[2]), HexValue(h[3]))
    case (Some(h0), Some(h1), Some(h2), Some(h3)) =>
      var code := ((h0 * 16 + h1) * 16 + h2) * 16 + h3;
      assert code < 0x1_0000 by {
        assert h0 * 16 + h1 < 0x100;
        assert (h0 * 16 + h1) * 16 + h2 < 0x1000;
      }
      // surrogate pairs are not modelled: a lone surrogate escape is rejected
      if 0xD800 <= code < 0xE000 then None else Some(code as char)
    case _ => None
  }

  /** The character an escape sequence stands for; `s` starts just after the backslash. */
  function Unescape(s: string): (r: Option<(char, string)>)
    ensures r.Some? ==> |r.value.1| < |s|
  {
    if |s| == 0 then None
    else if ShortEscape(s[0]).Some? then Some((ShortEscape(s[0]).value, s[1..]))
    else if s[0] == 'u' && |s| >= 5 then
      match UnicodeEscape(s[1..5])
      case None => None
      case Some(c) => Some((c, s[5..]))
    else None
  }

  /** The contents of a string literal; `s` starts just after the opening quote. */
  function ParseStringBody(s: string): (r: Option<(string, string)>)
    ensures r.Some? ==> |r.value.1| < |s|
  {
    if |s| == 0 then None
    else if s[0] == '"' then Some(("", s[1..]))
    else if s[0] == '\\' then
      match Unescape(s[1..])
      case None => None
      case Some((c, rest)) =>
        match ParseStringBody(rest)
        case None => None
        case Some((t, rest')) => Some(([c] + t, rest'))
    else if s[0] as int < 0x20 then None
    else
      match ParseStringBody(s[1..])
      case None => None
      case Some((t, rest)) => Some(([s[0]] + t, rest))
  }

  function ParseWord(s: string, word: string, v: JsonValue): (r: Option<(JsonValue, string)>)
    requires |word| > 0
    ensures r.Some? ==> |r.value.1| < |s|
  {
    if StartsWith(s, word) then Some((v, s[|word|..])) else None
  }

  function ParseValue(s: string): (r: Option<(JsonValue, string)>)
    ensures r.Some? ==> |r.value.1| < |s|
    decreases |s|, 1
  {
    if |s| == 0 then None
    else if s[0] == 'n' then ParseWord(s, "null", Null)
    else if s[0] == 't' then ParseWord(s, "true", Bool(true))
    else if s[0] == 'f' then ParseWord(s, "false", Bool(false))
    else if s[0] == '-' || IsDigit(s[0]) then ParseNumber(s)
    else if s[0] == '"' then ParseStringValue(s)
    else if s[0] == '[' then ParseArray(s)
    else if s[0] == '{' then ParseObject(s)
    else None
  }

  function ParseStringValue(s: string): (r: Option<(JsonValue, string)>)
    requires |s| > 0
    ensures r.Some? ==> |r.value.1| < |s|
  {
    match ParseStringBody(s[1..])
    case None => None
    case Some((t, rest)) => Some((Str(t), rest))
  }

  /** An array; `s` starts with the opening bracket. */
  function ParseArray(s: string): (r: Option<(JsonValue, string)>)
    requires |s| > 0
    ensures r.Some? ==> |r.value.1| < |s|
    decreases |s|, 0
  {
    if |s| >= 2 && s[1] == ']' then Some((Array([]), s[2..]))
    else
      match ParseItems(s[1..])
      case None => None
      case Some((items, rest)) => Some((Array(items), rest))
  }

  /** An object; `s` starts with the opening brace. */
  function ParseObject(s: string): (r: Option<(JsonValue, string)>)
    requires |s| > 0
    ensures r.Some? ==> |r.value.1| < |s|
    decreases |s|, 0
  {
    if |s| >= 2 && s[1] == '}' then Some((Object([]), s[2..]))
    else
      match ParseMembers(s[1..])
      case None => None
      case Some((members, rest)) => Some((Object(members), rest))
  }

  /** One or more elements and the closing bracket. */
  function ParseItems(s: string): (r: Option<(seq<JsonValue>, string)>)
    ensures r.Some? ==> |r.value.1| < |s|
    decreases |s|, 2
  {
    match ParseValue(s)
    case None => None
    case Some((v, rest)) =>
      if |rest| > 0 && rest[0] == ',' then
        match ParseItems(rest[1..])
        case None => None
        case Some((vs, rest')) => Some(([v] + vs, rest'))
      else if |rest| > 0 && rest[0] == ']' then Some(([v], rest[1..]))
      else None
  }

  /** One or more members and the closing brace. */
  function ParseMembers(s: string): (r: Option<(seq<Member>, string)>)
    ensures r.Some? ==> |r.value.1| < |s|
    decreases |s|, 2
  {
    match ParseMember(s)
    case None => None
    case Some((m, rest)) =>
      if |rest| > 0 && rest[0] == ',' then
        match ParseMembers(rest[1..])
        case None => None
        case Some((ms, rest')) => Some(([m] + ms, rest'))
      else if |rest| > 0 && rest[0] == '}' then Some(([m], rest[1..]))
      else None
  }

  /** One member: a string key, a colon and a value. */
  function ParseMember(s: string): (r: Option<(Member, string)>)
    ensures r.Some? ==> |r.value.1| < |s|
    decreases |s|, 1
  {
    if |s| == 0 || s[0] != '"' then None
    else
      match ParseStringBody(s[1..])
      case None => None
      case Some((key, rest)) =>
        if |rest| == 0 || rest[0] != ':' then None
        else
          match ParseValue(rest[1..])
          case None => None
          case Some((v, rest')) => Some((Member(key, v), rest'))
  }

  /** A whole document: one value and nothing after it (`serde_json::from_str`). */
  function ParseDocument(text: string): Option<JsonValue>
  {
    match ParseValue(text)
    case Some((v, rest)) => if |rest| == 0 then Some(v) else None
    case None => None
  }

  // ---------------------------------------------------------------------------
  // Round trip
  // ---------------------------------------------------------------------------

  /** What may follow a printed value: a number must not run on into further digits. */
  predicate EndsNumber(rest: string) {
    |rest| == 0 || !IsDigit(rest[0])
  }

  lemma {:induction false} DigitsValuePrintNat(n: nat)
    ensures DigitsValue(PrintNat(n)) == n
  {
    if n >= 10 {
      var ds := PrintNat(n);
      assert ds[..|ds| - 1] == PrintNat(n / 10);
      DigitsValuePrintNat(n / 10);
    }
  }

  /** The digit run of a printed natural number ends exactly where the print ends. */
  lemma {:induction false} SpanPrintNat(n: nat, rest: string)
    requires EndsNumber(rest)
    ensures SpanDigits(PrintNat(n) + rest) == |PrintNat(n)|
  {
    SpanAllDigits(PrintNat(n), rest);
  }

  lemma {:induction false} SpanAllDigits(ds: string, rest: string)
    requires forall i :: 0 <= i < |ds| ==> IsDigit(ds[i])
    requires EndsNumber(rest)
    ensures SpanDigits(ds + rest) == |ds|
  {
    if |ds| > 0 {
      assert (ds + rest)[1..] == ds[1..] + rest;
      SpanAllDigits(ds[1..], rest);
    } else {
      assert ds + rest == rest;
    }
  }

  /** The digits of a printed natural number, followed by a non-digit, read back as that number. */
  lemma ReadPrintNat(m: nat, rest: string)
    requires EndsNumber(rest)
    ensures var ds := PrintNat(m);
            var t := ds + rest;
            && SpanDigits(t) == |ds| && t[..|ds|] == ds && t[|ds|..] == rest
            && (|ds| > 1 ==> t[0] != '0')
            && DigitsValue(t[..|ds|]) == m
  {
    var ds := PrintNat(m);
    var t := ds + rest;
    SpanPrintNat(m, rest);
    DigitsValuePrintNat(m);
    assert t[..|ds|] == ds;
    assert t[|ds|..] == rest;
    assert t[0] == ds[0];
  }

  lemma ParseDigitsOf(s: string, t: string, negative: bool, m: nat, rest: string)
    requires negative <==> |s| > 0 && s[0] == '-'
    requires t == if negative then s[1..] else s
    requires var ds := PrintNat(m);
             && SpanDigits(t) == |ds| && |ds| > 0 && t[|ds|..] == rest
             && !(|ds| > 1 && t[0] == '0')
             && DigitsValue(t[..|ds|]) == m
    ensures ParseNumber(s) == Some((Number(if negative then 0 - m else m), rest))
  {
  }

  lemma {:induction false} ParsePrintNumber(n: int, rest: string)
    requires EndsNumber(rest)
    ensures ParseNumber(PrintInt(n) + rest) == Some((Number(n), rest))
  {
    var m: nat := if n < 0 then -n else n;
    var ds := PrintNat(m);
    var t := ds + rest;
    ReadPrintNat(m, rest);
    var s := PrintInt(n) + rest;
    if n < 0 {
      assert PrintInt(n) == "-" + ds;
      Regroup("-", ds, rest, "");
      assert s == "-" + t;
      ParseDigitsOf(s, t, true, m, rest);
    } else {
      assert PrintInt(n) == ds;
      assert t[0] == ds[0];
      ParseDigitsOf(s, t, false, m, rest);
    }
  }

  lemma {:induction false} ParseEscapeChar(c: char, rest: string)
    requires ParseStringBody(rest).Some?
    ensures ParseStringBody(EscapeChar(c) + rest)
            == Some(([c] + ParseStringBody(rest).value.0, ParseStringBody(rest).value.1))
  {
    var e := EscapeChar(c);
    var s := e + rest;
    if c == '"' || c == '\\' || c == '\n' || c == '\r' || c == '\t' || c as int == 0x08 || c as int == 0x0C {
      assert |e| == 2 && e[0] == '\\';
      assert s[1..] == [e[1]] + rest;
      assert Unescape(s[1..]) == Some((c, rest));
    } else if c as int < 0x20 {
      assert s[0] == '\\';
      UnescapeControl(c, rest);
      assert s[1..] == e[1..] + rest;
    } else {
      assert s[1..] == rest;
    }
  }

  /** A `\u00XX` escape of a control character reads back as that character. */
  lemma UnescapeControl(c: char, rest: string)
    requires c as int < 0x20
    ensures var hi := c as int / 16;
            var lo := c as int % 16;
            Unescape(['u', '0', '0', HexDigit(hi), HexDigit(lo)] + rest) == Some((c, rest))
  {
    var hi := c as int / 16;
    var lo := c as int % 16;
    var u := ['u', '0', '0', HexDigit(hi), HexDigit(lo)] + rest;
    assert HexValue(HexDigit(hi)) == Some(hi);
    assert HexValue(HexDigit(lo)) == Some(lo);
    assert u[1..5] == ['0', '0', HexDigit(hi), HexDigit(lo)];
    assert UnicodeEscape(u[1..5]) == Some(c);
    assert u[5..] == rest;
  }

  lemma {:induction false} ParsePrintStringBody(str: string, rest: string)
    ensures ParseStringBody(Escape(str) + "\"" + rest) == Some((str, rest))
  {
    if |str| == 0 {
      assert Escape(str) + "\"" + rest == ['"'] + rest;
      assert (['"'] + rest)[1..] == rest;
    } else {
      var tail := Escape(str[1..]) + "\"" + rest;
      assert Escape(str) + "\"" + rest == EscapeChar(str[0]) + tail;
      ParsePrintStringBody(str[1..], rest);
      ParseEscapeChar(str[0], tail);
      assert [str[0]] + str[1..] == str;
    }
  }

  lemma ParsePrintString(str: string, rest: string)
    ensures ParseStringBody((PrintString(str) + rest)[1..]) == Some((str, rest))
  {
    assert (PrintString(str) + rest)[1..] == Escape(str) + "\"" + rest;
    ParsePrintStringBody(str, rest);
  }

  /** A printed value never starts with a closing bracket or brace. */
  lemma PrintHead(v: JsonValue)
    ensures |Print(v)| > 0
    ensures Print(v)[0] != ']' && Print(v)[0] != '}'
  {
    match v
    case Number(n) =>
      var m: nat := if n < 0 then -n else n;
      if n >= 0 {
        assert Print(v)[0] == PrintNat(m)[0];
      }
    case _ =>
  }

  lemma {:induction false} ParsePrint(v: JsonValue, rest: string)
    requires EndsNumber(rest)
    ensures ParseValue(Print(v) + rest) == Some((v, rest))
    decreases v, 2
  {
    match v
    case Null => ParsePrintWord(v, "null", rest);
    case Bool(b) => ParsePrintWord(v, if b then "true" else "false", rest);
    case Number(n) => ParsePrintNumberValue(n, rest);
    case Str(str) => ParsePrintStringValue(str, rest);
    case Array(items) => ParsePrintArray(items, rest);
    case Object(members) => ParsePrintObject(members, rest);
  }

  lemma ParsePrintWord(v: JsonValue, word: string, rest: string)
    requires v.Null? || v.Bool?
    requires word == Print(v)
    ensures ParseValue(Print(v) + rest) == Some((v, rest))
  {
    var s := Print(v) + rest;
    assert s[..|word|] == word;
    assert s[|word|..] == rest;
    assert s[0] == word[0];
  }

  lemma ParsePrintNumberValue(n: int, rest: string)
    requires EndsNumber(rest)
    ensures ParseValue(Print(Number(n)) + rest) == Some((Number(n), rest))
  {
    var s := PrintInt(n) + rest;
    ParsePrintNumber(n, rest);
    var m: nat := if n < 0 then -n else n;
    if n >= 0 {
      assert s[0] == PrintNat(m)[0];
      assert IsDigit(s[0]);
    } else {
      assert s[0] == '-';
    }
  }

  lemma ParsePrintStringValue(str: string, rest: string)
    ensures ParseValue(Print(Str(str)) + rest) == Some((Str(str), rest))
  {
    var s := PrintString(str) + rest;
    assert s[0] == '"';
    ParsePrintString(str, rest);
    assert ParseStringValue(s) == Some((Str(str), rest));
  }

  lemma {:induction false} ParsePrintArray(items: seq<JsonValue>, rest: string)
    ensures ParseValue(Print(Array(items)) + rest) == Some((Array(items), rest))
    decreases items, 1
  {
    var s := Print(Array(items)) + rest;
    assert s[0] == '[';
    if |items| == 0 {
      assert PrintItems(items) == "";
      assert Print(Array(items)) == "[]";
      assert s[1] == ']' && s[2..] == rest;
    } else {
      assert s[1..] == PrintItems(items) + "]" + rest;
      PrintItemsHead(items);
      ParsePrintItems(items, rest);
    }
    assert ParseArray(s) == Some((Array(items), rest));
  }

  lemma {:induction false} ParsePrintObject(members: seq<Member>, rest: string)
    ensures ParseValue(Print(Object(members)) + rest) == Some((Object(members), rest))
    decreases members, 1
  {
    var s := Print(Object(members)) + rest;
    assert s[0] == '{';
    if |members| == 0 {
      assert PrintMembers(members) == "";
      assert Print(Object(members)) == "{}";
      assert s[1] == '}' && s[2..] == rest;
    } else {
      assert s[1..] == PrintMembers(members) + "}" + rest;
      PrintMembersHead(members);
      ParsePrintMembers(members, rest);
    }
    assert ParseObject(s) == Some((Object(members), rest));
  }

  lemma PrintItemsHead(items: seq<JsonValue>)
    requires |items| > 0
    ensures |PrintItems(items)| > 0 && PrintItems(items)[0] == Print(items[0])[0]
  {
    PrintHead(items[0]);
  }

  lemma PrintMembersHead(members: seq<Member>)
    requires |members| > 0
    ensures |PrintMembers(members)| > 0 && PrintMembers(members)[0] == '"'
  {
  }

  /** The element list parser after one element and a comma. */
  lemma ParseItemsMore(s: string, v: JsonValue, after: string, vs: seq<JsonValue>, rest: string)
    requires ParseValue(s) == Some((v, after))
    requires |after| > 0 && after[0] == ',' && ParseItems(after[1..]) == Some((vs, rest))
    ensures ParseItems(s) == Some(([v] + vs, rest))
  {
  }

  /** The element list parser after its last element. */
  lemma ParseItemsLast(s: string, v: JsonValue, after: string)
    requires ParseValue(s) == Some((v, after))
    requires |after| > 0 && after[0] == ']'
    ensures ParseItems(s) == Some(([v], after[1..]))
  {
  }

  lemma {:induction false} ParsePrintItems(items: seq<JsonValue>, rest: string)
    requires |items| > 0
    ensures ParseItems(PrintItems(items) + "]" + rest) == Some((items, rest))
    decreases items, 0
  {
    var s := PrintItems(items) + "]" + rest;
    if |items| == 1 {
      var after := "]" + rest;
      assert s == Print(items[0]) + after;
      ParsePrint(items[0], after);
      assert after[1..] == rest;
      ParseItemsLast(s, items[0], after);
      assert [items[0]] == items;
    } else {
      var tail := PrintItems(items[1..]) + "]" + rest;
      var after := "," + tail;
      assert PrintItems(items) == Print(items[0]) + "," + PrintItems(items[1..]);
      assert s == Print(items[0]) + after;
      ParsePrint(items[0], after);
      assert after[1..] == tail;
      ParsePrintItems(items[1..], rest);
      ParseItemsMore(s, items[0], after, items[1..], rest);
      assert [items[0]] + items[1..] == items;
    }
  }

  lemma {:induction false} ParsePrintMember(m: Member, rest: string)
    requires EndsNumber(rest)
    ensures ParseMember(PrintMember(m) + rest) == Some((m, rest))
    decreases m, 3
  {
    var s := PrintMember(m) + rest;
    var after := ":" + Print(m.value) + rest;
    PrintMemberSplit(m, rest);
    assert after[1..] == Print(m.value) + rest;
    ParsePrint(m.value, rest);
    ParseMemberOf(s, after, m, rest);
  }

  lemma ParseMemberOf(s: string, after: string, m: Member, rest: string)
    requires |s| > 0 && s[0] == '"' && ParseStringBody(s[1..]) == Some((m.key, after))
    requires |after| > 0 && after[0] == ':' && ParseValue(after[1..]) == Some((m.value, rest))
    ensures ParseMember(s) == Some((m, rest))
  {
  }

  lemma PrintMemberSplit(m: Member, rest: string)
    ensures var s := PrintMember(m) + rest;
            |s| > 0 && s[0] == '"' && ParseStringBody(s[1..]) == Some((m.key, ":" + Print(m.value) + rest))
  {
    var s := PrintMember(m) + rest;
    var after := ":" + Print(m.value) + rest;
    assert s == ['"'] + (Escape(m.key) + "\"" + after);
    assert s[1..] == Escape(m.key) + "\"" + after;
    ParsePrintStringBody(m.key, after);
  }

  /** The member list parser after one member and a comma. */
  lemma ParseMembersMore(s: string, m: Member, after: string, ms: seq<Member>, rest: string)
    requires ParseMember(s) == Some((m, after))
    requires |after| > 0 && after[0] == ',' && ParseMembers(after[1..]) == Some((ms, rest))
    ensures ParseMembers(s) == Some(([m] + ms, rest))
  {
  }

  /** The member list parser after its last member. */
  lemma ParseMembersLast(s: string, m: Member, after: string)
    requires ParseMember(s) == Some((m, after))
    requires |after| > 0 && after[0] == '}'
    ensures ParseMembers(s) == Some(([m], after[1..]))
  {
  }

  lemma PrintMembersSplit(members: seq<Member>, rest: string)
    requires |members| > 1
    ensures PrintMembers(members) + ("}" + rest)
            == PrintMember(members[0]) + ("," + (PrintMembers(members[1..]) + ("}" + rest)))
  {
    var head := PrintMember(members[0]);
    var tail := PrintMembers(members[1..]);
    assert PrintMembers(members) == head + "," + tail;
    Regroup(head, ",", tail, "}" + rest);
  }

  lemma Regroup(a: string, b: string, c: string, d: string)
    ensures a + b + c + d == a + (b + (c + d))
  {
  }

  lemma {:induction false} ParsePrintMembers(members: seq<Member>, rest: string)
    requires |members| > 0
    ensures ParseMembers(PrintMembers(members) + "}" + rest) == Some((members, rest))
    decreases members, 0
  {
    var closing := "}" + rest;
    var s := PrintMembers(members) + closing;
    assert PrintMembers(members) + "}" + rest == s;
    if |members| == 1 {
      assert s == PrintMember(members[0]) + closing;
      ParsePrintMember(members[0], closing);
      assert closing[1..] == rest;
      ParseMembersLast(s, members[0], closing);
      assert [members[0]] == members;
    } else {
      var tail := PrintMembers(members[1..]) + closing;
      var after := "," + tail;
      PrintMembersSplit(members, rest);
      assert s == PrintMember(members[0]) + after;
      ParsePrintMember(members[0], after);
      assert after[1..] == tail;
      ParsePrintMembers(members[1..], rest);
      assert tail == PrintMembers(members[1..]) + "}" + rest;
      ParseMembersMore(s, members[0], after, members[1..], rest);
      assert [members[0]] + members[1..] == members;
    }
  }

  /** Reparsing the printed text of any value gives back that value. */
  lemma ParsePrintDocument(v: JsonValue)
    ensures ParseDocument(Print(v)) == Some(v)
  {
    ParsePrint(v, "");
    assert Print(v) + "" == Print(v);
  }
}

/**
 The part of JSON that Keyleport emits: objects, arrays, integers and strings,
 printed without white space and read back by recursive descent. The grammar is
 that of RFC 8259, sections 4 (objects), 5 (arrays), 6 (numbers) and 7 (strings).
 */
module Json {
  import opened Prelude

  datatype Member = Member(key: string, value: Value)

  datatype Value =
    | Int(n: int)
    | Str(s: string)
    | Arr(items: seq<Value>)
    | Obj(members: seq<Member>)

  datatype Parsed<+T> = Fail | Ok(value: T, rest: string)

  /** The value stored under a key; when a key is repeated, the last one wins. */
  function Lookup(members: seq<Member>, key: string): Option<Value> {
    if members == [] then None
    else if members[|members| - 1].key == key then Some(members[|members| - 1].value)
    else Lookup(members[..|members| - 1], key)
  }

  // ---------- Integers ----------

  predicate IsDigit(c: char) {
    '0' <= c <= '9'
  }

  function DigitOf(d: int): char
    requires 0 <= d < 10
  {
    '0' + (d as char)
  }

  function ValueOf(c: char): nat
    requires IsDigit(c)
  {
    (c - '0') as nat
  }

  function DumpNat(n: nat): string {
    if n < 10 then [DigitOf(n)] else DumpNat(n / 10) + [DigitOf(n % 10)]
  }

  function DumpInt(n: int): string {
    if n < 0 then "-" + DumpNat(-n) else DumpNat(n)
  }

  predicate AllDigits(s: string) {
    forall i :: 0 <= i < |s| ==> IsDigit(s[i])
  }

  function NatOf(s: string): nat
    requires AllDigits(s)
  {
    if s == "" then 0 else 10 * NatOf(s[..|s| - 1]) + ValueOf(s[|s| - 1])
  }

  /** The length of the longest prefix of decimal digits. */
  function DigitSpan(s: string): (k: nat)
    ensures k <= |s| && AllDigits(s[..k])
    ensures k < |s| ==> !IsDigit(s[k])
  {
    if s == "" || !IsDigit(s[0]) then 0
    else
      var k := 1 + DigitSpan(s[1..]);
      assert s[..k] == [s[0]] + s[1..][..k - 1];
      k
  }

  /** int = zero / ( digit1-9 *DIGIT ): at least one digit and no leading zero. */
  function ParseNat(s: string): (p: Parsed<int>)
    ensures p.Ok? ==> |p.rest| < |s|
  {
    var k := DigitSpan(s);
    if k == 0 || (k > 1 && s[0] == '0') then Fail else Ok(NatOf(s[..k]), s[k..])
  }

  function ParseInt(s: string): (p: Parsed<int>)
    ensures p.Ok? ==> |p.rest| < |s|
  {
    if s != "" && s[0] == '-' then
      var p := ParseNat(s[1..]);
      if p.Fail? then Fail else Ok(-p.value, p.rest)
    else
      var p := ParseNat(s);
      if p.Fail? then Fail else Ok(p.value, p.rest)
  }

  // ---------- Strings ----------

  function HexDigit(d: int): char
    requires 0 <= d < 16
  {
    if d < 10 then '0' + (d as char) else 'a' + ((d - 10) as char)
  }

  function HexValue(c: char): Option<nat> {
    if '0' <= c <= '9' then Some((c - '0') as nat)
    else if 'a' <= c <= 'f' then Some((c - 'a') as nat + 10)
    else if 'A' <= c <= 'F' then Some((c - 'A') as nat + 10)
    else None
  }

  /** What the printer writes for one character of a string. */
  function Escape(c: char): string {
    if c == '\"' then "\\\""
    else if c == '\\' then "\\\\"
    else if c == 8 as char then "\\b"
    else if c == 12 as char then "\\f"
    else if c == '\n' then "\\n"
    else if c == '\r' then "\\r"
    else if c == '\t' then "\\t"
    else if c < ' ' then "\\u00" + [HexDigit(c as int / 16), HexDigit(c as int % 16)]
    else [c]
  }

  function EscapeAll(s: string): string {
    if s == "" then "" else Escape(s[0]) + EscapeAll(s[1..])
  }

  function DumpString(s: string): string {
    "\"" + EscapeAll(s) + "\""
  }

  function ParseHex4(s: string): (p: Parsed<char>)
    ensures p.Ok? ==> |p.rest| < |s|
  {
    if |s| < 4 then Fail
    else
      match (HexValue(s[0]), HexValue(s[1]), HexValue(s[2]), HexValue(s[3]))
      case (Some(a), Some(b), Some(c), Some(d)) =>
        var code := ((a * 16 + b) * 16 + c) * 16 + d;
        if 0 <= code < 0xD800 || 0xE000 <= code < 0x1_0000 then Ok(code as char, s[4..]) else Fail
      case _ => Fail
  }

  /** The character after a backslash. */
  function ParseEscape(s: string): (p: Parsed<char>)
    ensures p.Ok? ==> |p.rest| < |s|
  {
    if s == "" then Fail
    else if s[0] == '\"' then Ok('\"', s[1..])
    else if s[0] == '\\' then Ok('\\', s[1..])
    else if s[0] == '/' then Ok('/', s[1..])
    else if s[0] == 'b' then Ok(8 as char, s[1..])
    else if s[0] == 'f' then Ok(12 as char, s[1..])
    else if s[0] == 'n' then Ok('\n', s[1..])
    else if s[0] == 'r' then Ok('\r', s[1..])
    else if s[0] == 't' then Ok('\t', s[1..])
    else if s[0] == 'u' then ParseHex4(s[1..])
    else Fail
  }

  /** One possibly escaped character of a string body. */
  function ParseChar(s: string): (p: Parsed<char>)
    ensures p.Ok? ==> |p.rest| < |s|
  {
    if s == "" || s[0] < ' ' || s[0] == '\"' then Fail
    else if s[0] == '\\' then ParseEscape(s[1..])
    else Ok(s[0], s[1..])
  }

  /** The body of a string, up to and including the closing quotation mark. */
  function ParseChars(s: string): (p: Parsed<string>)
    ensures p.Ok? ==> |p.rest| < |s|
    decreases |s|
  {
    if s != "" && s[0] == '\"' then Ok("", s[1..])
    else
      var c := ParseChar(s);
      if c.Fail? then Fail
      else
        var p := ParseChars(c.rest);
        if p.Fail? then Fail else Ok([c.value] + p.value, p.rest)
  }

  // ---------- Values ----------

  function Dump(v: Value): string
    decreases v, 0
  {
    match v
    case Int(n) => DumpInt(n)
    case Str(s) => DumpString(s)
    case Arr(items) => "[" + DumpItems(items) + "]"
    case Obj(members) => "{" + DumpMembers(members) + "}"
  }

  function DumpItems(items: seq<Value>): string
    decreases items, 1
  {
    if items == [] then ""
    else if |items| == 1 then Dump(items[0])
    else Dump(items[0]) + "," + DumpItems(items[1..])
  }

  function DumpMember(m: Member): string
    decreases m, 1
  {
    DumpString(m.key) + ":" + Dump(m.value)
  }

  function DumpMembers(members: seq<Member>): string
    decreases members, 1
  {
    if members == [] then ""
    else if |members| == 1 then DumpMember(members[0])
    else DumpMember(members[0]) + "," + DumpMembers(members[1..])
  }

  function ParseValue(s: string): (p: Parsed<Value>)
    ensures p.Ok? ==> |p.rest| < |s|
    decreases |s|, 0
  {
    if s == "" then Fail
    else if s[0] == '\"' then
      var p := ParseChars(s[1..]);
      if p.Fail? then Fail else Ok(Str(p.value), p.rest)
    else if s[0] == '[' then
      if |s| > 1 && s[1] == ']' then Ok(Arr([]), s[2..])
      else
        var p := ParseItems(s[1..]);
        if p.Fail? then Fail else Ok(Arr(p.value), p.rest)
    else if s[0] == '{' then
      if |s| > 1 && s[1] == '}' then Ok(Obj([]), s[2..])
      else
        var p := ParseMembers(s[1..]);
        if p.Fail? then Fail else Ok(Obj(p.value), p.rest)
    else
      var p := ParseInt(s);
      if p.Fail? then Fail else Ok(Int(p.value), p.rest)
  }

  /** value *( "," value ) "]" */
  function ParseItems(s: string): (p: Parsed<seq<Value>>)
    ensures p.Ok? ==> |p.rest| < |s|
    decreases |s|, 1
  {
    var v := ParseValue(s);
    if v.Fail? || v.rest == "" then Fail
    else if v.rest[0] == ']' then Ok([v.value], v.rest[1..])
    else if v.rest[0] == ',' then
      var p := ParseItems(v.rest[1..]);
      if p.Fail? then Fail else Ok([v.value] + p.value, p.rest)
    else Fail
  }

  /** string ":" value */
  function ParseMember(s: string): (p: Parsed<Member>)
    ensures p.Ok? ==> |p.rest| < |s|
    decreases |s|, 1
  {
    if s == "" || s[0] != '\"' then Fail
    else
      var k := ParseChars(s[1..]);
      if k.Fail? || k.rest == "" || k.rest[0] != ':' then Fail
      else
        var v := ParseValue(k.rest[1..]);
        if v.Fail? then Fail else Ok(Member(k.value, v.value), v.rest)
  }

  /** member *( "," member ) "}" */
  function ParseMembers(s: string): (p: Parsed<seq<Member>>)
    ensures p.Ok? ==> |p.rest| < |s|
    decreases |s|, 2
  {
    var m := ParseMember(s);
    if m.Fail? || m.rest == "" then Fail
    else if m.rest[0] == '}' then Ok([m.value], m.rest[1..])
    else if m.rest[0] == ',' then
      var p := ParseMembers(m.rest[1..]);
      if p.Fail? then Fail else Ok([m.value] + p.value, p.rest)
    else Fail
  }

  /** A whole text: one value and nothing after it. */
  function Parse(s: string): Option<Value> {
    var p := ParseValue(s);
    if p.Ok? && p.rest == "" then Some(p.value) else None
  }

  // ---------- Reading back what was printed ----------

  /** What may follow a printed value without running into it. */
  predicate Delimited(rest: string) {
    rest != "" ==> !IsDigit(rest[0])
  }

  lemma {:induction false} NatRoundTrip(n: nat)
    ensures DumpNat(n) != "" && AllDigits(DumpNat(n)) && NatOf(DumpNat(n)) == n
    ensures DumpNat(n)[0] == '0' ==> n == 0
    ensures |DumpNat(n)| > 1 ==> DumpNat(n)[0] != '0'
  {
    if n >= 10 {
      NatRoundTrip(n / 10);
      assert DumpNat(n)[..|DumpNat(n)| - 1] == DumpNat(n / 10);
      assert DumpNat(n)[0] == DumpNat(n / 10)[0];
    }
  }

  lemma {:induction false} DigitSpanOfDigits(ds: string, rest: string)
    requires AllDigits(ds) && Delimited(rest)
    ensures DigitSpan(ds + rest) == |ds|
  {
    if ds == "" {
      assert ds + rest == rest;
    } else {
      DigitSpanOfDigits(ds[1..], rest);
      assert (ds + rest)[1..] == ds[1..] + rest;
    }
  }

  lemma ParseNatRoundTrip(n: nat, rest: string)
    requires Delimited(rest)
    ensures ParseNat(DumpNat(n) + rest) == Ok(n, rest)
  {
    var ds := DumpNat(n);
    NatRoundTrip(n);
    DigitSpanOfDigits(ds, rest);
    assert (ds + rest)[..|ds|] == ds && (ds + rest)[|ds|..] == rest;
  }

  lemma ParseSigned(ds: string, n: int, rest: string)
    requires ds != "" && IsDigit(ds[0]) && ParseNat(ds + rest) == Ok(n, rest)
    ensures ParseInt(ds + rest) == Ok(n, rest)
    ensures ParseInt("-" + ds + rest) == Ok(-n, rest)
  {
    assert ("-" + ds + rest)[1..] == ds + rest;
  }

  lemma ParseIntRoundTrip(n: int, rest: string)
    requires Delimited(rest)
    ensures ParseInt(DumpInt(n) + rest) == Ok(n, rest)
    ensures DumpInt(n) != "" && (IsDigit(DumpInt(n)[0]) || DumpInt(n)[0] == '-')
  {
    var m := if n < 0 then -n else n;
    NatRoundTrip(m);
    ParseNatRoundTrip(m, rest);
    ParseSigned(DumpNat(m), m, rest);
  }

  lemma ParseCharRoundTrip(c: char, rest: string)
    ensures ParseChar(Escape(c) + rest) == Ok(c, rest)
    ensures Escape(c)[0] != '\"'
  {
    var t := Escape(c) + rest;
    if |Escape(c)| == 6 {
      var code := c as int;
      assert t[2..] == ['0', '0', HexDigit(code / 16), HexDigit(code % 16)] + rest;
      assert t[1..][1..] == t[2..];
      assert t[2..][4..] == rest;
    } else if |Escape(c)| == 2 {
      assert t[1..][1..] == rest;
    } else {
      assert t[1..] == rest;
    }
  }

  lemma CharsStep(c: char, text: string, tail: string, more: string, rest: string)
    requires text != "" && text[0] != '\"' && ParseChar(text) == Ok(c, tail)
    requires ParseChars(tail) == Ok(more, rest)
    ensures ParseChars(text) == Ok([c] + more, rest)
  {
  }

  lemma EscapeText(s: string, rest: string)
    requires s != ""
    ensures EscapeAll(s) + "\"" + rest == Escape(s[0]) + (EscapeAll(s[1..]) + "\"" + rest)
  {
    var first, others := Escape(s[0]), EscapeAll(s[1..]);
    assert first + others + "\"" + rest == first + (others + "\"" + rest);
  }

  lemma {:induction false} ParseCharsRoundTrip(s: string, rest: string)
    ensures ParseChars(EscapeAll(s) + "\"" + rest) == Ok(s, rest)
  {
    if s == "" {
      assert EscapeAll(s) + "\"" + rest == "\"" + rest;
      assert ("\"" + rest)[1..] == rest;
    } else {
      var tail := EscapeAll(s[1..]) + "\"" + rest;
      EscapeText(s, rest);
      ParseCharRoundTrip(s[0], tail);
      ParseCharsRoundTrip(s[1..], rest);
      CharsStep(s[0], Escape(s[0]) + tail, tail, s[1..], rest);
      assert [s[0]] + s[1..] == s;
    }
  }

  lemma QuotedText(body: string, rest: string)
    ensures "\"" + body + "\"" + rest == "\"" + (body + "\"" + rest)
    ensures ("\"" + body + "\"" + rest)[1..] == body + "\"" + rest
  {
  }

  lemma ParseStringRoundTrip(s: string, rest: string)
    ensures var t := DumpString(s) + rest; t[0] == '\"' && ParseChars(t[1..]) == Ok(s, rest)
  {
    ParseCharsRoundTrip(s, rest);
    QuotedText(EscapeAll(s), rest);
  }

  // One unfolding of each list reader, for arbitrary text.

  lemma ItemsStep(first: string, v: Value, tail: string)
    ensures ParseValue(first + ("]" + tail)) == Ok(v, "]" + tail) ==>
              ParseItems(first + ("]" + tail)) == Ok([v], tail)
    ensures ParseValue(first + ("," + tail)) == Ok(v, "," + tail) && ParseItems(tail).Ok? ==>
              ParseItems(first + ("," + tail)) == Ok([v] + ParseItems(tail).value, ParseItems(tail).rest)
  {
    assert ("]" + tail)[1..] == tail;
    assert ("," + tail)[1..] == tail;
  }

  lemma MembersStep(first: string, m: Member, tail: string)
    ensures ParseMember(first + ("}" + tail)) == Ok(m, "}" + tail) ==>
              ParseMembers(first + ("}" + tail)) == Ok([m], tail)
    ensures ParseMember(first + ("," + tail)) == Ok(m, "," + tail) && ParseMembers(tail).Ok? ==>
              ParseMembers(first + ("," + tail)) == Ok([m] + ParseMembers(tail).value, ParseMembers(tail).rest)
  {
    assert ("}" + tail)[1..] == tail;
    assert ("," + tail)[1..] == tail;
  }

  lemma ArrayStep(body: string, items: seq<Value>, rest: string)
    requires body != "" && body[0] != ']' && ParseItems(body) == Ok(items, rest)
    ensures ParseValue("[" + body) == Ok(Arr(items), rest)
  {
    assert ("[" + body)[1..] == body;
  }

  lemma ObjectStep(body: string, members: seq<Member>, rest: string)
    requires body != "" && body[0] != '}' && ParseMembers(body) == Ok(members, rest)
    ensures ParseValue("{" + body) == Ok(Obj(members), rest)
  {
    assert ("{" + body)[1..] == body;
  }

  lemma MemberStep(key: string, v: Value, text: string, rest: string)
    requires ParseValue(text) == Ok(v, rest)
    ensures ParseMember(DumpString(key) + ":" + text) == Ok(Member(key, v), rest)
  {
    ParseStringRoundTrip(key, ":" + text);
    assert DumpString(key) + ":" + text == DumpString(key) + (":" + text);
    assert (":" + text)[1..] == text;
  }

  lemma IntStep(text: string, n: int, rest: string)
    requires text != "" && (IsDigit(text[0]) || text[0] == '-') && ParseInt(text) == Ok(n, rest)
    ensures ParseValue(text) == Ok(Int(n), rest)
  {
  }

  lemma StringStep(body: string, s: string, rest: string)
    requires ParseChars(body) == Ok(s, rest)
    ensures ParseValue("\"" + body) == Ok(Str(s), rest)
  {
    assert ("\"" + body)[1..] == body;
  }

  lemma ParseIntValueRoundTrip(n: int, rest: string)
    requires Delimited(rest)
    ensures ParseValue(DumpInt(n) + rest) == Ok(Int(n), rest)
    ensures DumpInt(n) != "" && DumpInt(n)[0] != ']'
  {
    ParseIntRoundTrip(n, rest);
    IntStep(DumpInt(n) + rest, n, rest);
  }

  lemma ParseStringValueRoundTrip(s: string, rest: string)
    ensures ParseValue(DumpString(s) + rest) == Ok(Str(s), rest)
  {
    ParseCharsRoundTrip(s, rest);
    StringStep(EscapeAll(s) + "\"" + rest, s, rest);
    QuotedText(EscapeAll(s), rest);
  }

  /** Reading inverts printing for every value, whatever delimiter follows it. */
  lemma {:induction false} ParseValueRoundTrip(v: Value, rest: string)
    requires Delimited(rest)
    ensures ParseValue(Dump(v) + rest) == Ok(v, rest)
    ensures Dump(v) != "" && Dump(v)[0] != ']'
    decreases v, 0
  {
    match v
    case Int(n) => ParseIntValueRoundTrip(n, rest);
    case Str(s) => ParseStringValueRoundTrip(s, rest);
    case Arr(items) => ParseArrayRoundTrip(items, rest);
    case Obj(members) => ParseObjectRoundTrip(members, rest);
  }

  lemma {:induction false} ParseArrayRoundTrip(items: seq<Value>, rest: string)
    ensures ParseValue("[" + DumpItems(items) + "]" + rest) == Ok(Arr(items), rest)
    decreases items, 2
  {
    if items == [] {
      assert "[" + DumpItems(items) + "]" + rest == "[]" + rest;
    } else {
      var body := DumpItems(items) + "]" + rest;
      ParseItemsRoundTrip(items, rest);
      ArrayStep(body, items, rest);
      assert "[" + DumpItems(items) + "]" + rest == "[" + body;
    }
  }

  lemma {:induction false} ParseObjectRoundTrip(members: seq<Member>, rest: string)
    ensures ParseValue("{" + DumpMembers(members) + "}" + rest) == Ok(Obj(members), rest)
    decreases members, 2
  {
    if members == [] {
      assert "{" + DumpMembers(members) + "}" + rest == "{}" + rest;
    } else {
      var body := DumpMembers(members) + "}" + rest;
      ParseMembersRoundTrip(members, rest);
      MembersStart(members);
      ObjectStep(body, members, rest);
      assert "{" + DumpMembers(members) + "}" + rest == "{" + body;
    }
  }

  lemma Regroup(a: string, b: string, close: string, rest: string)
    ensures a + close + rest == a + (close + rest)
    ensures a + "," + b + close + rest == a + ("," + (b + close + rest))
  {
  }

  lemma RegroupMember(key: string, text: string, rest: string)
    ensures key + ":" + text + rest == key + ":" + (text + rest)
  {
  }

  lemma ItemsText(items: seq<Value>, rest: string)
    requires items != []
    ensures |items| == 1 ==> DumpItems(items) + "]" + rest == Dump(items[0]) + ("]" + rest)
    ensures |items| > 1 ==>
              DumpItems(items) + "]" + rest == Dump(items[0]) + ("," + (DumpItems(items[1..]) + "]" + rest))
  {
    Regroup(Dump(items[0]), DumpItems(items[1..]), "]", rest);
  }

  lemma OneItem(v: Value, rest: string)
    requires ParseValue(Dump(v) + ("]" + rest)) == Ok(v, "]" + rest)
    ensures ParseItems(DumpItems([v]) + "]" + rest) == Ok([v], rest)
  {
    ItemsText([v], rest);
    ItemsStep(Dump(v), v, rest);
  }

  lemma MoreItems(v: Value, others: seq<Value>, rest: string)
    requires others != []
    requires var tail := DumpItems(others) + "]" + rest;
             ParseValue(Dump(v) + ("," + tail)) == Ok(v, "," + tail) && ParseItems(tail) == Ok(others, rest)
    ensures ParseItems(DumpItems([v] + others) + "]" + rest) == Ok([v] + others, rest)
  {
    assert ([v] + others)[1..] == others;
    ItemsText([v] + others, rest);
    ItemsStep(Dump(v), v, DumpItems(others) + "]" + rest);
  }

  lemma ItemsStart(items: seq<Value>)
    requires items != [] && Dump(items[0]) != ""
    ensures DumpItems(items) != "" && DumpItems(items)[0] == Dump(items[0])[0]
  {
  }

  lemma {:induction false} ParseItemsRoundTrip(items: seq<Value>, rest: string)
    requires items != []
    ensures ParseItems(DumpItems(items) + "]" + rest) == Ok(items, rest)
    ensures DumpItems(items) != "" && DumpItems(items)[0] != ']'
    decreases items, 1
  {
    var v, others := items[0], items[1..];
    if others == [] {
      ParseValueRoundTrip(v, "]" + rest);
      OneItem(v, rest);
      assert items == [v];
    } else {
      ParseValueRoundTrip(v, "," + (DumpItems(others) + "]" + rest));
      ParseItemsRoundTrip(others, rest);
      MoreItems(v, others, rest);
      assert items == [v] + others;
    }
    ItemsStart(items);
  }

  lemma {:induction false} ParseMemberRoundTrip(m: Member, rest: string)
    requires Delimited(rest)
    ensures ParseMember(DumpMember(m) + rest) == Ok(m, rest)
    decreases m, 1
  {
    ParseValueRoundTrip(m.value, rest);
    MemberStep(m.key, m.value, Dump(m.value) + rest, rest);
    RegroupMember(DumpString(m.key), Dump(m.value), rest);
  }

  lemma MembersText(members: seq<Member>, rest: string)
    requires members != []
    ensures |members| == 1 ==> DumpMembers(members) + "}" + rest == DumpMember(members[0]) + ("}" + rest)
    ensures |members| > 1 ==>
              DumpMembers(members) + "}" + rest ==
              DumpMember(members[0]) + ("," + (DumpMembers(members[1..]) + "}" + rest))
  {
    Regroup(DumpMember(members[0]), DumpMembers(members[1..]), "}", rest);
  }

  lemma OneMember(m: Member, rest: string)
    requires ParseMember(DumpMember(m) + ("}" + rest)) == Ok(m, "}" + rest)
    ensures ParseMembers(DumpMembers([m]) + "}" + rest) == Ok([m], rest)
  {
    MembersText([m], rest);
    MembersStep(DumpMember(m), m, rest);
  }

  lemma MoreMembers(m: Member, others: seq<Member>, rest: string)
    requires others != []
    requires var tail := DumpMembers(others) + "}" + rest;
             ParseMember(DumpMember(m) + ("," + tail)) == Ok(m, "," + tail) && ParseMembers(tail) == Ok(others, rest)
    ensures ParseMembers(DumpMembers([m] + others) + "}" + rest) == Ok([m] + others, rest)
  {
    assert ([m] + others)[1..] == others;
    MembersText([m] + others, rest);
    MembersStep(DumpMember(m), m, DumpMembers(others) + "}" + rest);
  }

  lemma MembersStart(members: seq<Member>)
    requires members != []
    ensures DumpMembers(members) != "" && DumpMembers(members)[0] == '\"'
  {
    var first := DumpMember(members[0]);
    assert first == "\"" + EscapeAll(members[0].key) + "\"" + ":" + Dump(members[0].value);
  }

  lemma {:induction false} ParseMembersRoundTrip(members: seq<Member>, rest: string)
    requires members != []
    ensures ParseMembers(DumpMembers(members) + "}" + rest) == Ok(members, rest)
    decreases members, 1
  {
    var m, others := members[0], members[1..];
    if others == [] {
      ParseMemberRoundTrip(m, "}" + rest);
      OneMember(m, rest);
      assert members == [m];
    } else {
      ParseMemberRoundTrip(m, "," + (DumpMembers(others) + "}" + rest));
      ParseMembersRoundTrip(others, rest);
      MoreMembers(m, others, rest);
      assert members == [m] + others;
    }
  }

  /** Every printed value is read back exactly, with no text left over. */
  lemma ParseDump(v: Value)
    ensures Parse(Dump(v)) == Some(v)
  {
    ParseValueRoundTrip(v, "");
    assert Dump(v) + "" == Dump(v);
  }

  // ---------- The printed forms ----------

  /** Digits print as themselves. */
  lemma DigitForms(d: int)
    requires 0 <= d < 16
    ensures d < 10 ==> DigitOf(d) == "0123456789"[d]
    ensures HexDigit(d) == "0123456789abcdef"[d]
  {
  }

  /**
   Section 7 of RFC 8259 as the library prints it: seven characters have short escapes, other
   controls are written in hexadecimal, and everything else stands for itself.
   */
  lemma EscapedForms(c: char)
    ensures c == '\"' ==> Escape(c) == "\\\""
    ensures c == '\\' ==> Escape(c) == "\\\\"
    ensures c == '\n' ==> Escape(c) == "\\n"
    ensures c == '\r' ==> Escape(c) == "\\r"
    ensures c == '\t' ==> Escape(c) == "\\t"
    ensures c as int == 8 ==> Escape(c) == "\\b"
    ensures c as int == 12 ==> Escape(c) == "\\f"
    ensures c < ' ' && c as int !in {8, 9, 10, 12, 13} ==>
              Escape(c) == "\\u00" + [HexDigit(c as int / 16), HexDigit(c as int % 16)]
    ensures ' ' <= c && c != '\"' && c != '\\' ==> Escape(c) == [c]
  {
  }

  /** Lists and objects: brackets, commas and colons, without white space. */
  lemma ListForms(v: Value, others: seq<Value>)
    requires |others| > 0
    ensures Dump(Arr([])) == "[]" && Dump(Arr(others)) == "[" + DumpItems(others) + "]"
    ensures DumpItems([v]) == Dump(v) && DumpItems([v] + others) == Dump(v) + "," + DumpItems(others)
  {
    assert ([v] + others)[1..] == others;
  }

  lemma ObjectForms(m: Member, others: seq<Member>)
    requires |others| > 0
    ensures Dump(Obj([])) == "{}" && Dump(Obj(others)) == "{" + DumpMembers(others) + "}"
    ensures DumpMembers([m]) == "\"" + EscapeAll(m.key) + "\"" + ":" + Dump(m.value)
    ensures DumpMembers([m] + others) == DumpMembers([m]) + "," + DumpMembers(others)
  {
    assert ([m] + others)[1..] == others;
  }
}

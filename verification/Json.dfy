/** JSON texts (sections 2 to 7 of RFC 8259) as `JSON.parse` reads them and `JSON.stringify`
    prints them. The cache service runs every value it reads through `JSON.parse` and falls
    back to the raw string, so which strings are JSON texts decides what survives the cache. */
module Json {

  import opened Entities

  datatype JsValue =
    | Null
    | Bool(b: bool)
    | Num(text: string)
    | Str(s: string)
    | Arr(items: seq<JsValue>)
    | Obj(members: seq<Member>)

  datatype Member = Member(name: string, value: JsValue)

  /** What a reader has consumed: the value and the text left over. */
  type Read<T> = Option<(T, string)>

  // ----- Lexical pieces -----

  predicate Starts(s: string, c: char) { s != "" && s[0] == c }

  predicate IsDigit(c: char) { '0' <= c <= '9' }

  predicate IsSpace(c: char) { c in " \t\n\r" }

  function SkipSpace(s: string): (rest: string)
    ensures |rest| <= |s|
    ensures s == "" || !IsSpace(s[0]) ==> rest == s
  {
    if s != "" && IsSpace(s[0]) then SkipSpace(s[1..]) else s
  }

  /** The text after the leading digits. */
  function SkipDigits(s: string): (rest: string)
    ensures |rest| <= |s|
  {
    if s != "" && IsDigit(s[0]) then SkipDigits(s[1..]) else s
  }

  function HexDigit(c: char): (r: Option<nat>)
    ensures r.Some? ==> r.value < 16
  {
    if '0' <= c <= '9' then Some((c - '0') as nat)
    else if 'a' <= c <= 'f' then Some((c - 'a') as nat + 10)
    else if 'A' <= c <= 'F' then Some((c - 'A') as nat + 10)
    else None
  }

  /** The UTF-16 code unit that four hexadecimal digits name. */
  function Hex4(s: string): (r: Option<nat>)
    requires |s| == 4
    ensures r.Some? ==> r.value < 0x10000
  {
    match (HexDigit(s[0]), HexDigit(s[1]), HexDigit(s[2]), HexDigit(s[3]))
    case (Some(a), Some(b), Some(c), Some(d)) => Some(((a * 16 + b) * 16 + c) * 16 + d)
    case _ => None
  }

  /** The code unit of a \u escape that the text starts with. */
  function UnitAt(s: string): Option<nat> {
    if |s| >= 6 && s[0] == '\\' && s[1] == 'u' then Hex4(s[2..6]) else None
  }

  predicate IsHigh(unit: nat) { 0xD800 <= unit < 0xDC00 }

  predicate IsLow(unit: nat) { 0xDC00 <= unit < 0xE000 }

  /** The character that a text starting with a \u escape of `unit` names, and the text after it: a pair
      of surrogates names one character, and a lone surrogate, which is no character, reads as U+FFFD. */
  function ReadUnit(s: string, unit: nat): (r: (char, string))
    requires |s| >= 6 && unit < 0x10000
    ensures |r.1| + 6 <= |s|
  {
    var next := UnitAt(s[6..]);
    if IsHigh(unit) && next.Some? && IsLow(next.value) then
      ((0x10000 + (unit - 0xD800) * 0x400 + (next.value - 0xDC00)) as char, s[12..])
    else (if IsHigh(unit) || IsLow(unit) then '\U{FFFD}' else unit as char, s[6..])
  }

  function Escape(c: char): Option<char> {
    match c
    case '\"' => Some('\"')
    case '\\' => Some('\\')
    case '/' => Some('/')
    case 'b' => Some('\U{0008}')
    case 'f' => Some('\U{000C}')
    case 'n' => Some('\n')
    case 'r' => Some('\r')
    case 't' => Some('\t')
    case _ => None
  }

  function Prepend(c: char, r: Read<string>): Read<string> {
    match r
    case None => None
    case Some((t, rest)) => Some(([c] + t, rest))
  }

  /** The contents of a string after its opening quote. */
  function ReadChars(s: string): (r: Read<string>)
    ensures r.Some? ==> |r.value.0| + 1 + |r.value.1| <= |s|
  {
    if s == "" || s[0] < ' ' then None
    else if s[0] == '\"' then Some(("", s[1..]))
    else if s[0] != '\\' then Prepend(s[0], ReadChars(s[1..]))
    else if |s| >= 6 && s[1] == 'u' then
      match UnitAt(s)
      case None => None
      case Some(unit) => var (c, rest) := ReadUnit(s, unit); Prepend(c, ReadChars(rest))
    else if |s| >= 2 && Escape(s[1]).Some? then Prepend(Escape(s[1]).value, ReadChars(s[2..]))
    else None
  }

  /** The text after one or more digits. */
  function SomeDigits(s: string): (r: Option<string>)
    ensures r.Some? ==> |r.value| < |s|
  {
    if s != "" && IsDigit(s[0]) then Some(SkipDigits(s[1..])) else None
  }

  function AfterInt(s: string): (r: Option<string>)
    ensures r.Some? ==> |r.value| < |s|
  {
    if Starts(s, '0') then Some(s[1..]) else SomeDigits(s)
  }

  function AfterFrac(s: string): (r: Option<string>)
    ensures r.Some? ==> |r.value| <= |s|
  {
    if Starts(s, '.') then SomeDigits(s[1..]) else Some(s)
  }

  function AfterExp(s: string): (r: Option<string>)
    ensures r.Some? ==> |r.value| <= |s|
  {
    if Starts(s, 'e') || Starts(s, 'E') then
      SomeDigits(if Starts(s[1..], '+') || Starts(s[1..], '-') then s[2..] else s[1..])
    else Some(s)
  }

  /** The text after a number. */
  function AfterNumber(s: string): (r: Option<string>)
    ensures r.Some? ==> |r.value| < |s|
  {
    match AfterInt(if Starts(s, '-') then s[1..] else s)
    case None => None
    case Some(t) =>
      match AfterFrac(t)
      case None => None
      case Some(u) => AfterExp(u)
  }

  // ----- JSON.parse -----

  /** Reads one value from the front of a text. */
  function ReadValue(s: string): (r: Read<JsValue>)
    ensures r.Some? ==> |r.value.1| < |s|
    ensures r.Some? && r.value.0.Str? ==> |r.value.0.s| + 2 + |r.value.1| <= |s|
    decreases |s|, 0
  {
    if s == "" then None
    else if s[0] == '\"' then
      match ReadChars(s[1..])
      case None => None
      case Some((t, rest)) => Some((Str(t), rest))
    else if s[0] == '{' then
      var t := SkipSpace(s[1..]);
      if Starts(t, '}') then Some((Obj([]), t[1..]))
      else
        match ReadMembers(t)
        case None => None
        case Some((ms, rest)) => Some((Obj(ms), rest))
    else if s[0] == '[' then
      var t := SkipSpace(s[1..]);
      if Starts(t, ']') then Some((Arr([]), t[1..]))
      else
        match ReadItems(t)
        case None => None
        case Some((vs, rest)) => Some((Arr(vs), rest))
    else if "true" <= s then Some((Bool(true), s[4..]))
    else if "false" <= s then Some((Bool(false), s[5..]))
    else if "null" <= s then Some((Null, s[4..]))
    else
      match AfterNumber(s)
      case None => None
      case Some(rest) => Some((Num(s[..|s| - |rest|]), rest))
  }

  /** Reads the items of an array, and its closing bracket. */
  function ReadItems(s: string): (r: Read<seq<JsValue>>)
    ensures r.Some? ==> |r.value.1| < |s|
    decreases |s|, 1
  {
    match ReadValue(s)
    case None => None
    case Some((v, rest)) =>
      var t := SkipSpace(rest);
      if Starts(t, ']') then Some(([v], t[1..]))
      else if Starts(t, ',') then
        match ReadItems(SkipSpace(t[1..]))
        case None => None
        case Some((vs, rest')) => Some(([v] + vs, rest'))
      else None
  }

  /** Reads the members of an object, and its closing brace. */
  function ReadMembers(s: string): (r: Read<seq<Member>>)
    ensures r.Some? ==> |r.value.1| < |s|
    decreases |s|, 1
  {
    if !Starts(s, '\"') then None
    else
      match ReadChars(s[1..])
      case None => None
      case Some((name, afterName)) =>
        var colon := SkipSpace(afterName);
        if !Starts(colon, ':') then None
        else
          match ReadValue(SkipSpace(colon[1..]))
          case None => None
          case Some((v, rest)) =>
            var t := SkipSpace(rest);
            if Starts(t, '}') then Some(([Member(name, v)], t[1..]))
            else if Starts(t, ',') then
              match ReadMembers(SkipSpace(t[1..]))
              case None => None
              case Some((ms, rest')) => Some(([Member(name, v)] + ms, rest'))
            else None
  }

  /** `JSON.parse`: None where it throws. */
  function Parse(s: string): (r: Option<JsValue>)
    ensures r.Some? && r.value.Str? ==> |r.value.s| < |s|
  {
    match ReadValue(SkipSpace(s))
    case None => None
    case Some((v, rest)) => if SkipSpace(rest) == "" then Some(v) else None
  }

  predicate IsJsonText(s: string) { Parse(s).Some? }

  // ----- JSON.stringify -----

  const HEX_DIGITS := "0123456789abcdef"

  function PrintChar(c: char): string {
    match c
    case '\"' => "\\\""
    case '\\' => "\\\\"
    case '\U{0008}' => "\\b"
    case '\U{000C}' => "\\f"
    case '\n' => "\\n"
    case '\r' => "\\r"
    case '\t' => "\\t"
    case _ =>
      if c < ' ' then "\\u00" + [HEX_DIGITS[c as int / 16], HEX_DIGITS[c as int % 16]] else [c]
  }

  function PrintChars(s: string): string {
    if s == "" then "" else PrintChar(s[0]) + PrintChars(s[1..])
  }

  function PrintString(s: string): string { "\"" + PrintChars(s) + "\"" }

  function Stringify(v: JsValue): string
    decreases v, 1
  {
    match v
    case Null => "null"
    case Bool(b) => if b then "true" else "false"
    case Num(text) => text
    case Str(s) => PrintString(s)
    case Arr(items) => "[" + PrintItems(items) + "]"
    case Obj(members) => "{" + PrintMembers(members) + "}"
  }

  function PrintItems(items: seq<JsValue>): string
    decreases items, 0
  {
    if items == [] then ""
    else Stringify(items[0]) + (if |items| == 1 then "" else ",") + PrintItems(items[1..])
  }

  function PrintMembers(members: seq<Member>): string
    decreases members, 0
  {
    if members == [] then ""
    else
      PrintString(members[0].name) + ":" + Stringify(members[0].value) + (if |members| == 1 then "" else ",")
      + PrintMembers(members[1..])
  }

  /** Every number in the value is spelled as a JSON number. */
  predicate Printable(v: JsValue)
    decreases v, 1
  {
    match v
    case Num(text) => AfterNumber(text) == Some("")
    case Arr(items) => forall x <- items :: Printable(x)
    case Obj(members) => forall m <- members :: Printable(m.value)
    case _ => true
  }

  // ----- Reading back what was printed -----

  /** A text that cannot prolong a number. */
  predicate EndsNumber(s: string) {
    s == "" || !(IsDigit(s[0]) || s[0] in ".eE")
  }

  lemma ReadPrintedChar(c: char, tail: string)
    ensures ReadChars(PrintChar(c) + tail) == Prepend(c, ReadChars(tail))
  {
    var p := PrintChar(c);
    var text := p + tail;
    assert text[|p|..] == tail && text[0] == p[0];
    if |p| == 2 {
      assert text[1] == p[1];
    } else if |p| == 6 {
      assert p[..2] == "\\u" && text[1] == p[1];
      assert text[2..6] == p[2..6] == "00" + [HEX_DIGITS[c as int / 16], HEX_DIGITS[c as int % 16]];
      HexOfControl(c);
    }
  }

  lemma {:induction false} ReadPrintedChars(s: string, rest: string)
    ensures ReadChars(PrintChars(s) + "\"" + rest) == Some((s, rest))
  {
    if s == "" {
      assert PrintChars(s) + "\"" + rest == "\"" + rest;
    } else {
      var tail := PrintChars(s[1..]) + "\"" + rest;
      ReadPrintedChars(s[1..], rest);
      ReadPrintedChar(s[0], tail);
      assert PrintChars(s) + "\"" + rest == PrintChar(s[0]) + tail;
      assert s == [s[0]] + s[1..];
    }
  }

  lemma HexOfControl(c: char)
    requires c < ' '
    ensures Hex4("00" + [HEX_DIGITS[c as int / 16], HEX_DIGITS[c as int % 16]]) == Some(c as nat)
  {
    var hi, lo := c as int / 16, c as int % 16;
    assert hi == 0 || hi == 1;
    assert HexDigit(HEX_DIGITS[hi]) == Some(hi);
    assert HexDigit(HEX_DIGITS[lo]) == Some(lo);
  }

  lemma {:induction false} SkipDigitsThrough(s: string, rest: string)
    requires SkipDigits(s) != "" || EndsNumber(rest)
    ensures SkipDigits(s + rest) == SkipDigits(s) + rest
  {
    if s == "" {
      assert s + rest == rest;
    } else if IsDigit(s[0]) {
      SkipDigitsThrough(s[1..], rest);
      assert (s + rest)[1..] == s[1..] + rest;
    }
  }

  lemma SomeDigitsThrough(s: string, rest: string)
    requires SomeDigits(s).Some? && EndsNumber(rest)
    ensures SomeDigits(s + rest) == Some(SomeDigits(s).value + rest)
  {
    SkipDigitsThrough(s[1..], rest);
    assert (s + rest)[1..] == s[1..] + rest;
  }

  lemma AfterIntThrough(s: string, rest: string)
    requires AfterInt(s).Some? && EndsNumber(rest)
    ensures AfterInt(s + rest) == Some(AfterInt(s).value + rest)
  {
    if Starts(s, '0') { assert (s + rest)[1..] == s[1..] + rest; } else { SomeDigitsThrough(s, rest); }
  }

  lemma AfterFracThrough(s: string, rest: string)
    requires AfterFrac(s).Some? && EndsNumber(rest)
    ensures AfterFrac(s + rest) == Some(AfterFrac(s).value + rest)
  {
    if Starts(s, '.') {
      assert (s + rest)[1..] == s[1..] + rest;
      SomeDigitsThrough(s[1..], rest);
    } else if s == "" {
      assert s + rest == rest;
    }
  }

  lemma AfterExpThrough(s: string, rest: string)
    requires AfterExp(s).Some? && EndsNumber(rest)
    ensures AfterExp(s + rest) == Some(AfterExp(s).value + rest)
  {
    if Starts(s, 'e') || Starts(s, 'E') {
      var t := s[1..];
      assert (s + rest)[1..] == t + rest;
      assert t != "";
      if Starts(t, '+') || Starts(t, '-') {
        assert (s + rest)[2..] == s[2..] + rest;
        SomeDigitsThrough(s[2..], rest);
      } else {
        SomeDigitsThrough(t, rest);
      }
    } else if s == "" {
      assert s + rest == rest;
    }
  }

  /** A number is read the same whatever non-number text follows it. */
  lemma AfterNumberThrough(s: string, rest: string)
    requires AfterNumber(s) == Some("") && EndsNumber(rest)
    ensures AfterNumber(s + rest) == Some(rest)
  {
    var i := if Starts(s, '-') then s[1..] else s;
    assert (if Starts(s + rest, '-') then (s + rest)[1..] else s + rest) == i + rest by {
      assert s != "";
      if Starts(s, '-') { assert (s + rest)[1..] == s[1..] + rest; }
    }
    AfterIntThrough(i, rest);
    var f := AfterInt(i).value;
    AfterFracThrough(f, rest);
    AfterExpThrough(AfterFrac(f).value, rest);
    assert "" + rest == rest;
  }

  lemma NumberStarts(n: string)
    requires AfterNumber(n).Some?
    ensures n != "" && (IsDigit(n[0]) || n[0] == '-')
  {
    hide SkipDigits, AfterFrac, AfterExp;
  }

  lemma ReadPrintedNumber(n: string, rest: string)
    requires AfterNumber(n) == Some("") && EndsNumber(rest)
    ensures ReadValue(n + rest) == Some((Num(n), rest))
  {
    AfterNumberThrough(n, rest);
    NumberStarts(n);
    hide AfterNumber, EndsNumber, ReadChars, ReadItems, ReadMembers;
    var s := n + rest;
    assert s[0] == n[0] && s[..|n|] == n;
    assert !("true" <= s) && !("false" <= s) && !("null" <= s) by {
      assert "true"[0] == 't' && "false"[0] == 'f' && "null"[0] == 'n';
    }
  }

  /** No printed value starts with a space or a closing bracket. */
  lemma FirstOfValue(v: JsValue)
    requires Printable(v)
    ensures Stringify(v) != "" && !IsSpace(Stringify(v)[0]) && Stringify(v)[0] !in "]},:"
  {
  }

  lemma LastItem(text: string, v: JsValue, tail: string)
    requires ReadValue(text) == Some((v, "]" + tail))
    ensures ReadItems(text) == Some(([v], tail))
  {
  }

  lemma NextItem(text: string, v: JsValue, more: string, vs: seq<JsValue>, tail: string)
    requires ReadValue(text) == Some((v, "," + more))
    requires more != "" && !IsSpace(more[0])
    requires ReadItems(more) == Some((vs, tail))
    ensures ReadItems(text) == Some(([v] + vs, tail))
  {
    assert ("," + more)[1..] == more;
  }

  lemma ReadName(name: string, rest: string)
    ensures var s := PrintString(name) + rest; s != "" && s[0] == '\"' && ReadChars(s[1..]) == Some((name, rest))
  {
    ReadPrintedChars(name, rest);
    hide ReadChars, PrintChars;
    var s := PrintString(name) + rest;
    assert s == "\"" + (PrintChars(name) + "\"" + rest);
    assert s[1..] == PrintChars(name) + "\"" + rest;
  }

  lemma LastMember(s: string, name: string, text: string, v: JsValue, tail: string)
    requires s != "" && s[0] == '\"' && ReadChars(s[1..]) == Some((name, ":" + text))
    requires ReadValue(text) == Some((v, "}" + tail))
    requires text != "" && !IsSpace(text[0])
    ensures ReadMembers(s) == Some(([Member(name, v)], tail))
  {
    assert (":" + text)[1..] == text;
  }

  lemma NextMember(s: string, name: string, text: string, v: JsValue, more: string, ms: seq<Member>, tail: string)
    requires s != "" && s[0] == '\"' && ReadChars(s[1..]) == Some((name, ":" + text))
    requires ReadValue(text) == Some((v, "," + more))
    requires text != "" && !IsSpace(text[0])
    requires more != "" && !IsSpace(more[0])
    requires ReadMembers(more) == Some((ms, tail))
    ensures ReadMembers(s) == Some(([Member(name, v)] + ms, tail))
  {
    hide ReadChars, ReadValue;
    assert (":" + text)[1..] == text;
    assert ("," + more)[1..] == more;
    assert SkipSpace(":" + text) == ":" + text && SkipSpace("," + more) == "," + more;
    assert SkipSpace(text) == text && SkipSpace(more) == more;
    hide SkipSpace, IsSpace;
  }

  lemma ReadArray(text: string, vs: seq<JsValue>, tail: string)
    requires text != "" && text[0] != ']' && !IsSpace(text[0])
    requires ReadItems(text) == Some((vs, tail))
    ensures ReadValue("[" + text) == Some((Arr(vs), tail))
  {
    assert ("[" + text)[1..] == text;
  }

  lemma ReadObject(text: string, ms: seq<Member>, tail: string)
    requires text != "" && text[0] != '}' && !IsSpace(text[0])
    requires ReadMembers(text) == Some((ms, tail))
    ensures ReadValue("{" + text) == Some((Obj(ms), tail))
  {
    assert ("{" + text)[1..] == text;
  }

  lemma ReadPrintedNull(rest: string)
    ensures ReadValue("null" + rest) == Some((Null, rest))
  {
    hide ReadChars, ReadItems, ReadMembers, AfterNumber;
    var s := "null" + rest;
    assert s[0] == 'n' && s[4..] == rest && s[..4] == "null";
    assert !("true" <= s) && !("false" <= s) by { assert "true"[0] == 't' && "false"[0] == 'f'; }
  }

  lemma ReadPrintedBool(b: bool, rest: string)
    ensures ReadValue((if b then "true" else "false") + rest) == Some((Bool(b), rest))
  {
    hide ReadChars, ReadItems, ReadMembers, AfterNumber;
    if b {
      var s := "true" + rest;
      assert s[0] == 't' && s[4..] == rest && s[..4] == "true";
    } else {
      var s := "false" + rest;
      assert s[0] == 'f' && s[5..] == rest && s[..5] == "false";
      assert !("true" <= s) by { assert "true"[0] == 't'; }
    }
  }

  lemma ReadPrintedString(s: string, rest: string)
    ensures ReadValue(PrintString(s) + rest) == Some((Str(s), rest))
  {
    ReadName(s, rest);
    hide PrintString, ReadChars, ReadItems, ReadMembers, AfterNumber;
  }

  lemma ReadPrintedScalar(v: JsValue, rest: string)
    requires Printable(v) && (v.Num? ==> EndsNumber(rest))
    requires !v.Arr? && !v.Obj?
    ensures ReadValue(Stringify(v) + rest) == Some((v, rest))
  {
    hide ReadValue, AfterNumber, EndsNumber, PrintString;
    match v
    case Null => ReadPrintedNull(rest);
    case Bool(b) => ReadPrintedBool(b, rest);
    case Num(n) => ReadPrintedNumber(n, rest);
    case Str(s) => ReadPrintedString(s, rest);
  }

  lemma ReadPrintedEmpty(rest: string)
    ensures ReadValue("[]" + rest) == Some((Arr([]), rest))
    ensures ReadValue("{}" + rest) == Some((Obj([]), rest))
  {
    assert ("[]" + rest)[1..] == "]" + rest;
    assert ("{}" + rest)[1..] == "}" + rest;
  }

  lemma FirstOfItems(items: seq<JsValue>)
    requires items != [] && forall x <- items :: Printable(x)
    ensures PrintItems(items) != "" && !IsSpace(PrintItems(items)[0]) && PrintItems(items)[0] != ']'
  {
    FirstOfValue(items[0]);
  }

  /** A printed value is read back whole, whatever follows it. */
  lemma {:induction false} ReadPrintedValue(v: JsValue, rest: string)
    requires Printable(v) && (v.Num? ==> EndsNumber(rest))
    ensures ReadValue(Stringify(v) + rest) == Some((v, rest))
    decreases v, 1
  {
    assert PrintItems([]) == "" && PrintMembers([]) == "";
    hide ReadValue, ReadItems, ReadMembers, EndsNumber, PrintItems, PrintMembers, AfterNumber;
    if v.Arr? && v.items != [] {
      ReadPrintedItems(v.items, rest);
      FirstOfItems(v.items);
      ReadArray(PrintItems(v.items) + "]" + rest, v.items, rest);
      Shift("[", PrintItems(v.items), "]", rest);
    } else if v.Obj? && v.members != [] {
      ReadPrintedMembers(v.members, rest);
      FirstOfMembers(v.members);
      ReadObject(PrintMembers(v.members) + "}" + rest, v.members, rest);
      Shift("{", PrintMembers(v.members), "}", rest);
    } else if v.Arr? || v.Obj? {
      ReadPrintedEmpty(rest);
      assert "[" + "" + "]" == "[]" && "{" + "" + "}" == "{}";
    } else {
      ReadPrintedScalar(v, rest);
    }
  }

  lemma Punctuation(rest: string)
    ensures EndsNumber("]" + rest) && EndsNumber("}" + rest) && EndsNumber("," + rest)
  {
  }

  lemma FirstOfMembers(members: seq<Member>)
    requires members != []
    ensures PrintMembers(members) != "" && !IsSpace(PrintMembers(members)[0]) && PrintMembers(members)[0] != '}'
  {
  }

  lemma Shift(a: string, b: string, c: string, d: string)
    ensures a + b + c + d == a + (b + c + d) == a + b + (c + d)
  {
  }

  lemma PrintedItems(v: JsValue, vs: seq<JsValue>)
    ensures PrintItems([v]) == Stringify(v)
    ensures vs != [] ==> PrintItems([v] + vs) == Stringify(v) + "," + PrintItems(vs)
  {
    assert [v][1..] == [] && ([v] + vs)[1..] == vs;
  }

  lemma PrintedMembers(m: Member, ms: seq<Member>)
    ensures PrintMembers([m]) == PrintString(m.name) + (":" + Stringify(m.value))
    ensures ms != [] ==>
      PrintMembers([m] + ms) == PrintString(m.name) + (":" + Stringify(m.value) + "," + PrintMembers(ms))
  {
    hide PrintString, Stringify;
    assert [m][1..] == [] && ([m] + ms)[1..] == ms;
  }

  lemma {:induction false} ReadPrintedItems(items: seq<JsValue>, rest: string)
    requires items != [] && forall x <- items :: Printable(x)
    ensures ReadItems(PrintItems(items) + "]" + rest) == Some((items, rest))
    decreases items, 0
  {
    hide *;
    var v, vs := items[0], items[1..];
    var p := Stringify(v);
    PrintedItems(v, vs);
    assert items == [v] + vs;
    if vs == [] {
      Punctuation(rest);
      assert items == [v];
      ReadPrintedValue(v, "]" + rest);
      LastItem(p + ("]" + rest), v, rest);
      assert p + "]" + rest == p + ("]" + rest);
    } else {
      var more := PrintItems(vs) + "]" + rest;
      Punctuation(more);
      ReadPrintedValue(v, "," + more);
      ReadPrintedItems(vs, rest);
      FirstOfItems(vs);
      NextItem(p + ("," + more), v, more, vs, rest);
      assert p + "," + PrintItems(vs) + "]" + rest == p + ("," + more);
    }
  }

  lemma {:induction false} ReadPrintedMembers(members: seq<Member>, rest: string)
    requires members != [] && forall m <- members :: Printable(m.value)
    ensures ReadMembers(PrintMembers(members) + "}" + rest) == Some((members, rest))
    decreases members, 0
  {
    hide *;
    var m, ms := members[0], members[1..];
    assert members == [m] + ms;
    if ms == [] {
      Punctuation(rest);
      assert members == [m];
      ReadPrintedValue(m.value, "}" + rest);
      LastPrintedMember(m, rest);
    } else {
      ReadPrintedMembers(ms, rest);
      Punctuation(PrintMembers(ms) + "}" + rest);
      ReadPrintedValue(m.value, "," + (PrintMembers(ms) + "}" + rest));
      NextPrintedMember(m, ms, rest);
    }
  }

  lemma LastPrintedMember(m: Member, rest: string)
    requires Printable(m.value)
    requires ReadValue(Stringify(m.value) + ("}" + rest)) == Some((m.value, "}" + rest))
    ensures ReadMembers(PrintMembers([m]) + "}" + rest) == Some(([m], rest))
  {
    hide *;
    var text := Stringify(m.value) + ("}" + rest);
    FirstOfValue(m.value);
    ReadName(m.name, ":" + text);
    LastMember(PrintString(m.name) + (":" + text), m.name, text, m.value, rest);
    PrintedMembers(m, []);
    assert PrintString(m.name) + (":" + Stringify(m.value)) + "}" + rest == PrintString(m.name) + (":" + text);
  }

  lemma NextPrintedMember(m: Member, ms: seq<Member>, rest: string)
    requires Printable(m.value) && ms != []
    requires var more := PrintMembers(ms) + "}" + rest;
      ReadMembers(more) == Some((ms, rest))
      && ReadValue(Stringify(m.value) + ("," + more)) == Some((m.value, "," + more))
    ensures ReadMembers(PrintMembers([m] + ms) + "}" + rest) == Some(([m] + ms, rest))
  {
    hide *;
    var more := PrintMembers(ms) + "}" + rest;
    var text := Stringify(m.value) + ("," + more);
    FirstOfValue(m.value);
    ReadName(m.name, ":" + text);
    FirstOfMembers(ms);
    NextMember(PrintString(m.name) + (":" + text), m.name, text, m.value, more, ms, rest);
    PrintedMembers(m, ms);
    NameThenRest(PrintString(m.name), Stringify(m.value), PrintMembers(ms), rest);
  }

  lemma NameThenRest(name: string, value: string, members: string, rest: string)
    ensures name + (":" + value + "," + members) + "}" + rest == name + (":" + (value + ("," + (members + "}" + rest))))
  {
  }

  /** `JSON.parse` undoes `JSON.stringify`, for every value whose numbers are spelled as JSON numbers. */
  lemma ParseUndoesStringify(v: JsValue)
    requires Printable(v)
    ensures Parse(Stringify(v)) == Some(v)
  {
    ReadPrintedValue(v, "");
    FirstOfValue(v);
    assert Stringify(v) + "" == Stringify(v);
  }

  // ----- What is read can be printed -----

  /** Cutting text off the end of what a number reader leaves over does not disturb the reader. */
  lemma {:induction false} SkipDigitsCut(s: string, k: nat)
    requires k <= |SkipDigits(s)|
    ensures SkipDigits(s[..|s| - k]) == SkipDigits(s)[..|SkipDigits(s)| - k]
  {
    if s != "" && IsDigit(s[0]) {
      SkipDigitsCut(s[1..], k);
      assert s[..|s| - k][1..] == s[1..][..|s| - 1 - k];
    }
  }

  lemma SomeDigitsCut(s: string, k: nat)
    requires SomeDigits(s).Some? && k <= |SomeDigits(s).value|
    ensures SomeDigits(s[..|s| - k]) == Some(SomeDigits(s).value[..|SomeDigits(s).value| - k])
  {
    SkipDigitsCut(s[1..], k);
    assert s[..|s| - k][1..] == s[1..][..|s| - 1 - k];
  }

  lemma AfterIntCut(s: string, k: nat)
    requires AfterInt(s).Some? && k <= |AfterInt(s).value|
    ensures AfterInt(s[..|s| - k]) == Some(AfterInt(s).value[..|AfterInt(s).value| - k])
  {
    if Starts(s, '0') { assert s[..|s| - k][1..] == s[1..][..|s| - 1 - k]; } else { SomeDigitsCut(s, k); }
  }

  lemma AfterFracCut(s: string, k: nat)
    requires AfterFrac(s).Some? && k <= |AfterFrac(s).value|
    ensures AfterFrac(s[..|s| - k]) == Some(AfterFrac(s).value[..|AfterFrac(s).value| - k])
  {
    if Starts(s, '.') {
      SomeDigitsCut(s[1..], k);
      assert s[..|s| - k][1..] == s[1..][..|s| - 1 - k];
    }
  }

  lemma AfterExpCut(s: string, k: nat)
    requires AfterExp(s).Some? && k <= |AfterExp(s).value|
    ensures AfterExp(s[..|s| - k]) == Some(AfterExp(s).value[..|AfterExp(s).value| - k])
  {
    if Starts(s, 'e') || Starts(s, 'E') {
      var n := |s| - k;
      assert s[..n][1..] == s[1..][..n - 1];
      if Starts(s[1..], '+') || Starts(s[1..], '-') {
        SomeDigitsCut(s[2..], k);
        assert s[..n][2..] == s[2..][..n - 2];
      } else {
        SomeDigitsCut(s[1..], k);
      }
    }
  }

  /** The text that an unsigned number's reader consumed is an unsigned number. */
  lemma ConsumedIsUnsigned(i: string, k: nat)
    requires AfterInt(i).Some? && AfterFrac(AfterInt(i).value).Some?
    requires AfterExp(AfterFrac(AfterInt(i).value).value).Some? && k == |AfterExp(AfterFrac(AfterInt(i).value).value).value|
    ensures AfterInt(i[..|i| - k]).Some? && AfterFrac(AfterInt(i[..|i| - k]).value).Some?
    ensures AfterExp(AfterFrac(AfterInt(i[..|i| - k]).value).value) == Some("")
  {
    hide AfterInt, AfterFrac, AfterExp;
    AfterIntCut(i, k);
    AfterFracCut(AfterInt(i).value, k);
    AfterExpCut(AfterFrac(AfterInt(i).value).value, k);
  }

  /** The text that a number reader consumed is a number. */
  lemma ConsumedIsNumber(s: string)
    requires AfterNumber(s).Some?
    ensures AfterNumber(s[..|s| - |AfterNumber(s).value|]) == Some("")
  {
    hide AfterInt, AfterFrac, AfterExp;
    var k := |AfterNumber(s).value|;
    var n := s[..|s| - k];
    if Starts(s, '-') {
      ConsumedIsUnsigned(s[1..], k);
      assert Starts(n, '-') && n[1..] == s[1..][..|s| - 1 - k];
    } else {
      ConsumedIsUnsigned(s, k);
      assert !Starts(n, '-');
    }
  }

  /** Every value that is read can be printed again. */
  lemma {:induction false} ReadIsPrintable(s: string)
    requires ReadValue(s).Some?
    ensures Printable(ReadValue(s).value.0)
    decreases |s|, 0
  {
    if s[0] == '{' {
      var t := SkipSpace(s[1..]);
      if !Starts(t, '}') { ReadMembersArePrintable(t); }
    } else if s[0] == '[' {
      var t := SkipSpace(s[1..]);
      if !Starts(t, ']') { ReadItemsArePrintable(t); }
    } else if ReadValue(s).value.0.Num? {
      ConsumedIsNumber(s);
    }
  }

  lemma {:induction false} ReadItemsArePrintable(s: string)
    requires ReadItems(s).Some?
    ensures forall x <- ReadItems(s).value.0 :: Printable(x)
    decreases |s|, 1
  {
    ReadIsPrintable(s);
    var t := SkipSpace(ReadValue(s).value.1);
    if Starts(t, ',') { ReadItemsArePrintable(SkipSpace(t[1..])); }
  }

  lemma {:induction false} ReadMembersArePrintable(s: string)
    requires ReadMembers(s).Some?
    ensures forall m <- ReadMembers(s).value.0 :: Printable(m.value)
    decreases |s|, 1
  {
    var text := SkipSpace(SkipSpace(ReadChars(s[1..]).value.1)[1..]);
    ReadIsPrintable(text);
    var t := SkipSpace(ReadValue(text).value.1);
    if Starts(t, ',') { ReadMembersArePrintable(SkipSpace(t[1..])); }
  }

  lemma ParsedIsPrintable(s: string)
    requires Parse(s).Some?
    ensures Printable(Parse(s).value)
  {
    ReadIsPrintable(SkipSpace(s));
  }

  /** Printing what was parsed and parsing it again changes nothing. */
  lemma ReprintIsStable(s: string)
    requires Parse(s).Some?
    ensures Parse(Stringify(Parse(s).value)) == Parse(s)
  {
    ParsedIsPrintable(s);
    ParseUndoesStringify(Parse(s).value);
  }
}

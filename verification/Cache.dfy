/** The cache service: the text of its keys, and what a value reads back as. Redis holds
    strings only. `set` prints objects as JSON and keeps strings as they are; `get` parses
    whatever it finds as JSON and keeps the raw string when that fails. */
module Cache {
  import opened Entities
  import opened Json

  // ----- Keys -----

  datatype Key =
    | StatusUpdateKey(recipientId: string, streamId: string, updateId: string)
    | StreamGrantsKey(streamId: string)
    | GrantKeyKey(grantId: string)

  function KeyText(k: Key): string {
    match k
    case StatusUpdateKey(r, s, u) => "status-update:" + r + ":" + s + ":" + u
    case StreamGrantsKey(s) => "stream-grants:" + s
    case GrantKeyKey(g) => "grant-reencryption-key:" + g
  }

  predicate ColonFree(s: string) { ':' !in s }

  predicate ColonFreeIds(k: Key) {
    match k
    case StatusUpdateKey(r, s, u) => ColonFree(r) && ColonFree(s) && ColonFree(u)
    case StreamGrantsKey(s) => ColonFree(s)
    case GrantKeyKey(g) => ColonFree(g)
  }

  /** Two texts that agree up to a first colon agree on both sides of it. */
  lemma SplitAtColon(a: string, b: string, a': string, b': string)
    requires ColonFree(a) && ColonFree(a')
    requires a + ":" + b == a' + ":" + b'
    ensures a == a' && b == b'
  {
    var t := a + ":" + b;
    assert t[|a|] == ':' && t[|a'|] == ':';
    assert t[..|a|] == a && t[..|a'|] == a' && t[|a| + 1..] == b && t[|a'| + 1..] == b';
  }

  /** The kind of entry a key names, which is its text up to the first colon. */
  function Prefix(k: Key): string {
    match k
    case StatusUpdateKey(_, _, _) => "status-update"
    case StreamGrantsKey(_) => "stream-grants"
    case GrantKeyKey(_) => "grant-reencryption-key"
  }

  function Suffix(k: Key): string {
    match k
    case StatusUpdateKey(r, s, u) => r + ":" + (s + ":" + u)
    case StreamGrantsKey(s) => s
    case GrantKeyKey(g) => g
  }

  lemma PrefixIsColonFree(k: Key)
    ensures ColonFree(Prefix(k))
  {
    hide KeyText, Suffix;
  }

  lemma PrefixThenSuffix(k: Key)
    ensures KeyText(k) == Prefix(k) + ":" + Suffix(k)
    ensures ColonFree(Prefix(k))
  {
    hide ColonFree;
    PrefixIsColonFree(k);
    match k
    case StatusUpdateKey(r, s, u) =>
      assert "status-update:" == "status-update" + ":";
      Regroup("status-update" + ":", r + ":", s + ":", u);
    case StreamGrantsKey(_) =>
    case GrantKeyKey(_) =>
  }

  lemma Regroup(a: string, b: string, c: string, d: string)
    ensures a + b + c + d == a + (b + (c + d))
  {
  }

  lemma PrefixesDiffer(k: Key, k': Key)
    requires Prefix(k) == Prefix(k')
    ensures k.StatusUpdateKey? == k'.StatusUpdateKey? && k.StreamGrantsKey? == k'.StreamGrantsKey?
  {
    assert |Prefix(k)| == |Prefix(k')|;
  }

  /** No two entries of the cache share a key: the builders are injective and their images disjoint. */
  lemma KeysAreDistinct(k: Key, k': Key)
    requires ColonFreeIds(k) && ColonFreeIds(k')
    ensures KeyText(k) == KeyText(k') <==> k == k'
  {
    if KeyText(k) == KeyText(k') {
      PrefixThenSuffix(k);
      PrefixThenSuffix(k');
      SplitAtColon(Prefix(k), Suffix(k), Prefix(k'), Suffix(k'));
      PrefixesDiffer(k, k');
      match k
      case StatusUpdateKey(r, s, u) =>
        SplitAtColon(r, s + ":" + u, k'.recipientId, k'.streamId + ":" + k'.updateId);
        SplitAtColon(s, u, k'.streamId, k'.updateId);
      case StreamGrantsKey(_) =>
      case GrantKeyKey(_) =>
    }
  }

  // ----- Values -----

  /** The string `set` stores: only a value whose type is "object" (null included) is printed.
      Booleans and numbers, which Redis would spell itself, are never stored by the service. */
  function Stored(v: JsValue): string {
    if v.Str? then v.s else Stringify(v)
  }

  /** What `get` answers for a stored string. */
  function Loaded(raw: string): JsValue {
    match Parse(raw)
    case Some(v) => v
    case None => Str(raw)
  }

  /** A string survives the cache exactly when it is not itself a JSON text. A re-encryption key
      such as 12e45 does not survive: it comes back as a number. */
  lemma StringSurvivesIffNotJson(s: string)
    ensures Loaded(Stored(Str(s))) == Str(s) <==> !IsJsonText(s)
  {
    match Parse(s)
    case None =>
    case Some(v) => if v.Str? { assert |v.s| < |s|; }
  }

  /** An object survives the cache whole: what `smembers` parses is what `sadd` was given. */
  lemma ObjectSurvives(v: JsValue)
    requires v.Obj? && Printable(v)
    ensures Loaded(Stored(v)) == v
  {
    ParseUndoesStringify(v);
  }

  /** A key of digits with an exponent, as a hexadecimal string may happen to be spelled, is lost. */
  lemma NumericKeyIsLost()
    ensures Loaded(Stored(Str("12e4"))) == Num("12e4")
    ensures Loaded(Stored(Str("12e4"))) != Str("12e4")
  {
    var s := "12e4";
    assert s[1..] == "2e4" && "2e4"[1..] == "e4" && "e4"[1..] == "4" && "4"[1..] == "";
    assert SkipDigits("e4") == "e4";
    assert SkipDigits("2e4") == "e4";
    assert AfterInt(s) == Some("e4");
    assert AfterExp("e4") == Some("");
    assert AfterNumber(s) == Some("");
    assert SkipSpace(s) == s && s[..4] == s;
    assert Parse(s) == Some(Num(s));
  }

  // ----- Hexadecimal texts -----

  function Digit(n: nat): char
    requires n < 16
  {
    HEX_DIGITS[n]
  }

  /** `bytesToHex`: two lower-case digits a byte. */
  function Hex(bytes: seq<Byte>): string {
    if bytes == [] then "" else [Digit(bytes[0] / 16), Digit(bytes[0] % 16)] + Hex(bytes[1..])
  }

  /** `hexToBytes`, None where the text is not pairs of hexadecimal digits. */
  function Unhex(text: string): Option<seq<Byte>> {
    if text == "" then Some([])
    else if |text| < 2 || HexDigit(text[0]).None? || HexDigit(text[1]).None? then None
    else
      match Unhex(text[2..])
      case None => None
      case Some(rest) => Some([HexDigit(text[0]).value * 16 + HexDigit(text[1]).value] + rest)
  }

  lemma DigitReads(n: nat)
    requires n < 16
    ensures HexDigit(Digit(n)) == Some(n)
  {
  }

  lemma UnhexPair(b: Byte, text: string, bytes: seq<Byte>)
    requires Unhex(text) == Some(bytes)
    ensures Unhex([Digit(b / 16), Digit(b % 16)] + text) == Some([b] + bytes)
  {
    DigitReads(b / 16);
    DigitReads(b % 16);
    assert ([Digit(b / 16), Digit(b % 16)] + text)[2..] == text;
  }

  lemma {:induction false} UnhexUndoesHex(bytes: seq<Byte>)
    ensures Unhex(Hex(bytes)) == Some(bytes)
  {
    if bytes == [] {
    } else {
      UnhexUndoesHex(bytes[1..]);
      UnhexPair(bytes[0], Hex(bytes[1..]), bytes[1..]);
      assert bytes == [bytes[0]] + bytes[1..];
    }
  }

  const OPEN_BRACE: Byte := 0x7b

  /** The hexadecimal text of anything that starts with an opening brace is never a JSON text:
      it starts as the number 7 and goes on with a letter that no number has. */
  lemma HexOfObjectIsNotJson(bytes: seq<Byte>)
    requires bytes != [] && bytes[0] == OPEN_BRACE
    ensures !IsJsonText(Hex(bytes))
  {
    var s := Hex(bytes);
    assert s[0] == '7' && s[1] == 'b';
    assert s[1..] != "" && s[1..][0] == 'b';
    assert SkipDigits(s[1..]) == s[1..];
    assert AfterNumber(s) == Some(s[1..]);
    assert !("true" <= s) && !("false" <= s) && !("null" <= s) by {
      assert "true"[0] == 't' && "false"[0] == 'f' && "null"[0] == 'n';
    }
    assert ReadValue(s) == Some((Num(s[..|s| - |s[1..]|]), s[1..]));
    assert SkipSpace(s) == s && SkipSpace(s[1..]) == s[1..];
  }
}

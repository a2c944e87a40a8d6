/** Proxy re-encryption of update payloads. A payload is the hexadecimal text of a JSON object
    with two parts: a lockbox, which says who can open it, and the encrypted content.
    Re-encryption parses the payload, replaces the lockbox and prints it again. */
module Pre {
  import opened Entities
  import opened Json
  import opened Cache

  /** What the crypto library supplies. None is where it throws. */
  datatype Library = Library(
    stringToBytes: string -> seq<Byte>,
    bytesToString: seq<Byte> -> string,
    reEncrypt: (JsValue, JsValue) -> Option<JsValue>,
    lockboxDecrypt: (string, JsValue, JsValue) -> Option<string>)

  /** The byte conversions undo each other and spell an opening brace as ASCII does;
      the library's lockboxes can be printed as JSON. */
  ghost predicate Lawful(lib: Library) {
    && (forall s :: lib.bytesToString(lib.stringToBytes(s)) == s)
    && (forall s :: Starts(s, '{') ==> lib.stringToBytes(s) != [] && lib.stringToBytes(s)[0] == OPEN_BRACE)
    && (forall key, lockbox :: lib.reEncrypt(key, lockbox).Some? ==> Printable(lib.reEncrypt(key, lockbox).value))
  }

  /** `key` turns any lockbox that `ownerKey` opens into one that `recipientKey` opens to the same text. */
  ghost predicate ReEncryptsFor(lib: Library, key: JsValue, ownerKey: string, recipientKey: string) {
    forall lockbox, content :: lib.lockboxDecrypt(ownerKey, lockbox, content).Some? ==>
      && lib.reEncrypt(key, lockbox).Some?
      && lib.lockboxDecrypt(recipientKey, lib.reEncrypt(key, lockbox).value, content)
         == lib.lockboxDecrypt(ownerKey, lockbox, content)
  }

  // ----- Objects -----

  /** The value of a member; the last one wins, as in an object that JSON.parse builds. */
  function Part(members: seq<Member>, name: string): Option<JsValue> {
    if members == [] then None
    else if members[|members| - 1].name == name then Some(members[|members| - 1].value)
    else Part(members[..|members| - 1], name)
  }

  function WithPart(members: seq<Member>, name: string, v: JsValue): (r: seq<Member>)
    requires Part(members, name).Some?
    ensures r != []
  {
    var n := |members| - 1;
    if members[n].name == name then members[..n] + [Member(name, v)]
    else WithPart(members[..n], name, v) + [members[n]]
  }

  lemma {:induction false} WithPartReplacesOne(members: seq<Member>, name: string, v: JsValue)
    requires Part(members, name).Some?
    requires Printable(v) && forall m <- members :: Printable(m.value)
    ensures Part(WithPart(members, name, v), name) == Some(v)
    ensures forall other :: other != name ==> Part(WithPart(members, name, v), other) == Part(members, other)
    ensures forall m <- WithPart(members, name, v) :: Printable(m.value)
  {
    var n := |members| - 1;
    var r := WithPart(members, name, v);
    assert |r| >= 1 && r[|r| - 1] == if members[n].name == name then Member(name, v) else members[n];
    if members[n].name == name {
      assert r[..|r| - 1] == members[..n];
    } else {
      WithPartReplacesOne(members[..n], name, v);
      assert r[..|r| - 1] == WithPart(members[..n], name, v);
    }
  }

  // ----- stringify, parse, reEncryptPayload, decryptPayload -----

  function ParsePayload(lib: Library, payload: string): Option<JsValue> {
    match Unhex(payload)
    case None => None
    case Some(bytes) => Parse(lib.bytesToString(bytes))
  }

  function PrintPayload(lib: Library, chunk: JsValue): string {
    Hex(lib.stringToBytes(Stringify(chunk)))
  }

  /** None is where it throws: the payload is no object with a lockbox, or the library refuses it. */
  function ReEncryptPayload(lib: Library, payload: string, key: JsValue): Option<string> {
    match ParsePayload(lib, payload)
    case Some(Obj(members)) =>
      (match Part(members, "lockbox")
       case None => None
       case Some(lockbox) =>
         match lib.reEncrypt(key, lockbox)
         case None => None
         case Some(lockbox') => Some(PrintPayload(lib, Obj(WithPart(members, "lockbox", lockbox')))))
    case _ => None
  }

  function DecryptPayload(lib: Library, payload: string, privateKey: string): Option<string> {
    match ParsePayload(lib, payload)
    case Some(Obj(members)) =>
      (match (Part(members, "lockbox"), Part(members, "content"))
       case (Some(lockbox), Some(content)) => lib.lockboxDecrypt(privateKey, lockbox, content)
       case _ => None)
    case _ => None
  }

  lemma ParseUndoesPrint(lib: Library, chunk: JsValue)
    requires Lawful(lib) && Printable(chunk)
    ensures ParsePayload(lib, PrintPayload(lib, chunk)) == Some(chunk)
  {
    UnhexUndoesHex(lib.stringToBytes(Stringify(chunk)));
    ParseUndoesStringify(chunk);
  }

  /** What re-encryption makes of a payload: the same object with another lockbox. */
  lemma ReEncryptedParts(lib: Library, payload: string, key: JsValue)
    requires Lawful(lib) && ReEncryptPayload(lib, payload, key).Some?
    ensures var members := ParsePayload(lib, payload).value.members;
      var parsed := ParsePayload(lib, ReEncryptPayload(lib, payload, key).value);
      && parsed.Some? && parsed.value.Obj?
      && Part(parsed.value.members, "lockbox") == lib.reEncrypt(key, Part(members, "lockbox").value)
      && (forall other :: other != "lockbox" ==> Part(parsed.value.members, other) == Part(members, other))
  {
    var members := ParsePayload(lib, payload).value.members;
    var lockbox' := lib.reEncrypt(key, Part(members, "lockbox").value).value;
    ParsedIsPrintable(lib.bytesToString(Unhex(payload).value));
    WithPartReplacesOne(members, "lockbox", lockbox');
    ParseUndoesPrint(lib, Obj(WithPart(members, "lockbox", lockbox')));
  }

  /** What can be decrypted has both parts. */
  lemma DecryptedParts(lib: Library, payload: string, privateKey: string)
    requires DecryptPayload(lib, payload, privateKey).Some?
    ensures var parsed := ParsePayload(lib, payload);
      && parsed.Some? && parsed.value.Obj?
      && var members := parsed.value.members;
      && Part(members, "lockbox").Some? && Part(members, "content").Some?
      && DecryptPayload(lib, payload, privateKey)
         == lib.lockboxDecrypt(privateKey, Part(members, "lockbox").value, Part(members, "content").value)
  {
    hide ParsePayload, Part;
  }

  lemma PartsDecrypt(lib: Library, payload: string, privateKey: string, lockbox: JsValue, content: JsValue)
    requires var parsed := ParsePayload(lib, payload);
      parsed.Some? && parsed.value.Obj?
      && Part(parsed.value.members, "lockbox") == Some(lockbox) && Part(parsed.value.members, "content") == Some(content)
    ensures DecryptPayload(lib, payload, privateKey) == lib.lockboxDecrypt(privateKey, lockbox, content)
  {
    hide ParsePayload, Part;
  }

  /** Re-encryption under a correct key succeeds on every payload its owner can read, and the
      recipient reads the same plaintext out of the result. */
  lemma ReEncryptionKeepsThePlaintext(lib: Library, payload: string, key: JsValue, ownerKey: string, recipientKey: string)
    requires Lawful(lib) && ReEncryptsFor(lib, key, ownerKey, recipientKey)
    requires DecryptPayload(lib, payload, ownerKey).Some?
    ensures ReEncryptPayload(lib, payload, key).Some?
    ensures DecryptPayload(lib, ReEncryptPayload(lib, payload, key).value, recipientKey)
         == DecryptPayload(lib, payload, ownerKey)
  {
    hide Lawful, ParsePayload, PrintPayload, Part, WithPart, DecryptPayload;
    DecryptedParts(lib, payload, ownerKey);
    var members := ParsePayload(lib, payload).value.members;
    var lockbox, content := Part(members, "lockbox").value, Part(members, "content").value;
    assert lib.lockboxDecrypt(ownerKey, lockbox, content).Some? && lib.reEncrypt(key, lockbox).Some?;
    ReEncryptedParts(lib, payload, key);
    hide ReEncryptPayload;
    PartsDecrypt(lib, ReEncryptPayload(lib, payload, key).value, recipientKey, lib.reEncrypt(key, lockbox).value, content);
  }

  /** A re-encrypted payload is never a JSON text, so the cache gives it back as it was stored, and it counts as a hit. */
  lemma ReEncryptedPayloadSurvivesCache(lib: Library, payload: string, key: JsValue)
    requires Lawful(lib) && ReEncryptPayload(lib, payload, key).Some?
    ensures var c := ReEncryptPayload(lib, payload, key).value;
      c != "" && Loaded(Stored(Str(c))) == Str(c)
  {
    var c := ReEncryptPayload(lib, payload, key).value;
    var members := ParsePayload(lib, payload).value.members;
    var lockbox' := lib.reEncrypt(key, Part(members, "lockbox").value).value;
    var text := Stringify(Obj(WithPart(members, "lockbox", lockbox')));
    assert Starts(text, '{');
    HexOfObjectIsNotJson(lib.stringToBytes(text));
    StringSurvivesIffNotJson(c);
  }
}

/** The rows the service stores, as the other modules share them. */
module Entities {

  /** A UUID as text. The database compares UUIDs and gives them back in lower case; JavaScript,
      Redis and PubNub compare texts, and a request may spell a UUID in upper case. */
  type Id = string

  predicate Canonical(id: Id) { forall c | c in id :: !('A' <= c <= 'Z') }

  function Lower(c: char): char {
    if 'A' <= c <= 'Z' then c - 'A' + 'a' else c
  }

  /** The spelling the database gives back. */
  function Canon(id: Id): (c: Id)
    ensures Canonical(c) && |c| == |id|
    ensures Canonical(id) <==> c == id
  {
    var c := seq(|id|, i requires 0 <= i < |id| => Lower(id[i]));
    assert Canonical(id) ==> c == id by {
      assert forall i | 0 <= i < |id| :: id[i] in id;
    }
    c
  }

  /** Both texts spell the same UUID. */
  predicate SameId(a: Id, b: Id) { Canon(a) == Canon(b) }

  /** The two texts agree letter by letter, but for upper and lower case. */
  lemma SameIdIff(a: Id, b: Id)
    ensures SameId(a, b) <==>
      && |a| == |b|
      && forall i :: 0 <= i < |a| ==>
          || a[i] == b[i]
          || ('A' <= a[i] <= 'Z' && b[i] as int == a[i] as int + 32)
          || ('A' <= b[i] <= 'Z' && a[i] as int == b[i] as int + 32)
  {
    var c, d := Canon(a), Canon(b);
    assert forall i :: 0 <= i < |a| ==> c[i] == Lower(a[i]);
    assert forall i :: 0 <= i < |b| ==> d[i] == Lower(b[i]);
    if |a| == |b| && forall i :: 0 <= i < |a| ==> Lower(a[i]) == Lower(b[i]) { assert c == d; }
  }

  type Instant = real

  type Byte = n: nat | n < 256

  datatype Option<+T> = None | Some(value: T)

  datatype GrantType = Range | All | Latest

  /** A row of the grant table. Nothing validates `fromDate <= toDate`, so a grant may be inverted. */
  datatype Grant = Grant(
    id: Id, streamId: Id, ownerId: Id, recipientId: Id, kind: GrantType,
    fromDate: Instant, toDate: Instant, reEncryptionKey: string)
  {
    ghost predicate Contains(t: Instant) { fromDate <= t <= toDate }
  }

  /** The row of a grant that was sent with these ids. */
  function AsRow(g: Grant): Grant { g.(streamId := Canon(g.streamId), recipientId := Canon(g.recipientId)) }

  /** The text of a property that is not there, which the database stores as NULL. */
  const UNDEFINED := "undefined"

  /** The entity a window change has loaded, with its new window. Whether the loaded entity carries its
      stream id is up to the object mapper. */
  function Loading(row: Grant, fromDate: Instant, toDate: Instant, streamLoaded: bool): Grant {
    row.(fromDate := fromDate, toDate := toDate, streamId := if streamLoaded then row.streamId else UNDEFINED)
  }

  /** An update as the owner sent it, and as the first queue carries it. Its stream is spelled as
      the owner's stored streams are, or it would not have been accepted. */
  datatype Update = Update(id: Id, userId: Id, streamId: Id, recordedAt: Instant, payload: string)

  datatype RowKey = RowKey(id: Id, userId: Id, streamId: Id)

  function KeyOf(u: Update): RowKey { RowKey(Canon(u.id), u.userId, u.streamId) }
}

/** The table of status updates: batch inserts, and three ways of deleting that leave tombstones.
    A row's key has three columns, while every deletion names only two of them. The table holds
    canonical ids; requests may spell them in upper case. */
module StatusTable {
  import opened Entities

  /** The part of an update's marker that its owner may send. */
  datatype MarkerDto = MarkerDto(started: Option<bool>, stopped: Option<bool>, frequency: Option<string>)

  datatype Marker = Marker(started: Option<bool>, stopped: Option<bool>, frequency: Option<string>, deleted: bool)

  datatype Row = Row(payload: Option<string>, recordedAt: Instant, marker: Marker)

  /** One item of a batch: whitelisting has removed anything else from it. Its stream id is compared
      with the texts of the owner's stored streams. */
  datatype Item = Item(id: Id, streamId: Id, payload: string, recordedAt: Instant, marker: MarkerDto)

  type Rows = map<RowKey, Row>

  type Owners = map<Id, Id>

  predicate Owns(owners: Owners, userId: Id, streamId: Id) {
    streamId in owners && owners[streamId] == userId
  }

  // ----- Inserting -----

  datatype Answer = Saved(item: Item) | AlreadyExists

  function ItemKey(userId: Id, item: Item): RowKey { RowKey(Canon(item.id), userId, item.streamId) }

  /** The defaults of a marker are overridden by what the owner sent; `deleted` is never sent. */
  function NewRow(item: Item): Row {
    Row(Some(item.payload), item.recordedAt, Marker(item.marker.started, item.marker.stopped, item.marker.frequency, false))
  }

  function Message(userId: Id, item: Item): Update {
    Update(item.id, userId, item.streamId, item.recordedAt, item.payload)
  }

  /** The table after one INSERT, which the primary key may refuse. */
  function InsertRow(rows: Rows, userId: Id, item: Item): Rows {
    if ItemKey(userId, item) in rows then rows else rows[ItemKey(userId, item) := NewRow(item)]
  }

  function InsertAll(rows: Rows, userId: Id, items: seq<Item>): Rows {
    if items == [] then rows
    else InsertRow(InsertAll(rows, userId, items[..|items| - 1]), userId, items[|items| - 1])
  }

  function Answers(rows: Rows, userId: Id, items: seq<Item>): (r: seq<Answer>)
    ensures |r| == |items|
  {
    if items == [] then []
    else
      var before, item := items[..|items| - 1], items[|items| - 1];
      Answers(rows, userId, before)
      + [if ItemKey(userId, item) in InsertAll(rows, userId, before) then AlreadyExists else Saved(item)]
  }

  /** What the inserts hand to the worker. */
  function Messages(rows: Rows, userId: Id, items: seq<Item>): seq<Update> {
    if items == [] then []
    else
      var before, item := items[..|items| - 1], items[|items| - 1];
      Messages(rows, userId, before)
      + if ItemKey(userId, item) in InsertAll(rows, userId, before) then [] else [Message(userId, item)]
  }

  /** The item's key occurs in the table or earlier in the batch. */
  ghost predicate Occurs(rows: Rows, userId: Id, items: seq<Item>, i: nat)
    requires i < |items|
  {
    ItemKey(userId, items[i]) in rows || exists j :: 0 <= j < i && ItemKey(userId, items[j]) == ItemKey(userId, items[i])
  }

  lemma {:induction false} BatchKeys(rows: Rows, userId: Id, items: seq<Item>, k: RowKey)
    ensures k in InsertAll(rows, userId, items) <==> k in rows || exists i :: 0 <= i < |items| && ItemKey(userId, items[i]) == k
    ensures k in rows ==> k in InsertAll(rows, userId, items) && InsertAll(rows, userId, items)[k] == rows[k]
  {
    if items != [] {
      var n := |items| - 1;
      BatchKeys(rows, userId, items[..n], k);
      assert items == items[..n] + [items[n]];
    }
  }

  /** An item is refused iff the inserts before it leave its key in the table. */
  lemma {:induction false} AnswerAt(rows: Rows, userId: Id, items: seq<Item>, i: nat)
    requires i < |items|
    ensures Answers(rows, userId, items)[i]
         == if ItemKey(userId, items[i]) in InsertAll(rows, userId, items[..i]) then AlreadyExists else Saved(items[i])
  {
    var n := |items| - 1;
    if i < n {
      AnswerAt(rows, userId, items[..n], i);
      assert items[..n][..i] == items[..i];
    }
  }

  /** A row that an insert adds is not touched by the inserts after it. */
  lemma {:induction false} FirstInsertStays(rows: Rows, userId: Id, items: seq<Item>, i: nat)
    requires i < |items| && ItemKey(userId, items[i]) !in InsertAll(rows, userId, items[..i])
    ensures ItemKey(userId, items[i]) in InsertAll(rows, userId, items)
    ensures InsertAll(rows, userId, items)[ItemKey(userId, items[i])] == NewRow(items[i])
  {
    var n := |items| - 1;
    if i < n {
      assert items[..n][..i] == items[..i];
      FirstInsertStays(rows, userId, items[..n], i);
    }
  }

  /** A batch answers every item in order, and leaves the old table plus the first occurrence of each new key. */
  lemma BatchInsert(rows: Rows, userId: Id, items: seq<Item>)
    ensures forall i :: 0 <= i < |items| ==>
      Answers(rows, userId, items)[i] == if Occurs(rows, userId, items, i) then AlreadyExists else Saved(items[i])
    ensures forall k <- rows :: k in InsertAll(rows, userId, items) && InsertAll(rows, userId, items)[k] == rows[k]
    ensures forall k <- InsertAll(rows, userId, items) :: k in rows || exists i :: 0 <= i < |items| && ItemKey(userId, items[i]) == k
    ensures forall i :: 0 <= i < |items| ==> ItemKey(userId, items[i]) in InsertAll(rows, userId, items)
    ensures forall i :: 0 <= i < |items| && !Occurs(rows, userId, items, i) ==>
      var row := InsertAll(rows, userId, items)[RowKey(Canon(items[i].id), userId, items[i].streamId)];
      && row.payload == Some(items[i].payload) && row.recordedAt == items[i].recordedAt && !row.marker.deleted
      && row.marker.started == items[i].marker.started && row.marker.stopped == items[i].marker.stopped
      && row.marker.frequency == items[i].marker.frequency
  {
    forall k ensures k in InsertAll(rows, userId, items) <==> k in rows || exists i :: 0 <= i < |items| && ItemKey(userId, items[i]) == k
             ensures k in rows ==> k in InsertAll(rows, userId, items) && InsertAll(rows, userId, items)[k] == rows[k]
    {
      BatchKeys(rows, userId, items, k);
    }
    hide InsertAll, Answers;
    forall i: nat | i < |items|
      ensures Answers(rows, userId, items)[i] == if Occurs(rows, userId, items, i) then AlreadyExists else Saved(items[i])
      ensures !Occurs(rows, userId, items, i) ==> InsertAll(rows, userId, items)[ItemKey(userId, items[i])] == NewRow(items[i])
    {
      OccursIff(rows, userId, items, i);
      AnswerAt(rows, userId, items, i);
      if !Occurs(rows, userId, items, i) { FirstInsertStays(rows, userId, items, i); }
    }
  }

  lemma OccursIff(rows: Rows, userId: Id, items: seq<Item>, i: nat)
    requires i < |items|
    ensures Occurs(rows, userId, items, i) <==> ItemKey(userId, items[i]) in InsertAll(rows, userId, items[..i])
  {
    var k := ItemKey(userId, items[i]);
    BatchKeys(rows, userId, items[..i], k);
    hide InsertAll, ItemKey;
    assert forall j :: 0 <= j < i ==> items[..i][j] == items[j];
    if j :| 0 <= j < i && ItemKey(userId, items[j]) == k {
      assert ItemKey(userId, items[..i][j]) == k;
    }
  }

  /** The messages about the items that were answered "saved", in order. */
  function SavedMessages(userId: Id, answers: seq<Answer>): seq<Update> {
    if answers == [] then []
    else
      var before, a := answers[..|answers| - 1], answers[|answers| - 1];
      SavedMessages(userId, before) + match a { case Saved(item) => [Message(userId, item)] case AlreadyExists => [] }
  }

  /** The worker is sent one message for each item answered "saved", in batch order, and as many
      messages as there are new rows. */
  lemma {:induction false} OneMessagePerNewRow(rows: Rows, userId: Id, items: seq<Item>)
    ensures Messages(rows, userId, items) == SavedMessages(userId, Answers(rows, userId, items))
    ensures |InsertAll(rows, userId, items)| == |rows| + |Messages(rows, userId, items)|
  {
    if items != [] {
      var before, item := items[..|items| - 1], items[|items| - 1];
      OneMessagePerNewRow(rows, userId, before);
      var answers := Answers(rows, userId, items);
      assert answers[..|answers| - 1] == Answers(rows, userId, before);
      var was, k := InsertAll(rows, userId, before), ItemKey(userId, item);
      if k !in was { assert was[k := NewRow(item)].Keys == was.Keys + {k}; }
    }
  }

  /** Table and queue agree: each message is about one of the items, with its own id, stream, instant and
      payload, and the row under its key is new and holds the same; and each new row has its message. */
  lemma {:induction false} TableAndQueueAgree(rows: Rows, userId: Id, items: seq<Item>)
    ensures forall m <- Messages(rows, userId, items) ::
      && m.userId == userId && (exists item <- items :: item.id == m.id && item.streamId == m.streamId
                                  && item.recordedAt == m.recordedAt && item.payload == m.payload)
      && var k := RowKey(Canon(m.id), m.userId, m.streamId);
         && k !in rows && k in InsertAll(rows, userId, items)
         && InsertAll(rows, userId, items)[k].payload == Some(m.payload)
         && InsertAll(rows, userId, items)[k].recordedAt == m.recordedAt
    ensures forall k <- InsertAll(rows, userId, items) | k !in rows ::
      exists m <- Messages(rows, userId, items) :: RowKey(Canon(m.id), m.userId, m.streamId) == k
  {
    if items != [] {
      var n := |items| - 1;
      var before, item := items[..n], items[n];
      TableAndQueueAgree(rows, userId, before);
      assert items == before + [item];
      var was, k := InsertAll(rows, userId, before), ItemKey(userId, item);
      BatchKeys(rows, userId, before, k);
      if k !in was {
        assert Messages(rows, userId, items) == Messages(rows, userId, before) + [Message(userId, item)];
        assert Message(userId, item) in Messages(rows, userId, items);
        forall m <- Messages(rows, userId, items) ensures m in Messages(rows, userId, before) || m == Message(userId, item) { }
        forall k' <- InsertAll(rows, userId, items) | k' !in rows
          ensures exists m <- Messages(rows, userId, items) :: RowKey(Canon(m.id), m.userId, m.streamId) == k'
        {
          if k' in was {
            var m :| m in Messages(rows, userId, before) && RowKey(Canon(m.id), m.userId, m.streamId) == k';
            assert m in Messages(rows, userId, items);
          }
        }
      }
    }
  }

  // ----- Deleting -----

  function Dead(r: Row): Row { r.(payload := None, marker := r.marker.(deleted := true)) }

  /** The UPDATE that all three deletions make, for the rows of one stream that `ids` name. */
  function DeleteIn(rows: Rows, ids: set<Id>, streamId: Id): Rows {
    map k | k in rows :: if k.id in ids && k.streamId == streamId && !rows[k].marker.deleted then Dead(rows[k]) else rows[k]
  }

  /** The same with the rows of one stream that were recorded in a closed window. */
  function DeleteBetween(rows: Rows, streamId: Id, from: Instant, to: Instant): Rows {
    map k | k in rows ::
      if k.streamId == streamId && !rows[k].marker.deleted && from <= rows[k].recordedAt <= to then Dead(rows[k]) else rows[k]
  }

  /** The rows of a stream that an id names and that are not deleted. */
  function LiveKeys(rows: Rows, ids: set<Id>, streamId: Id): set<RowKey> {
    set k | k in rows && k.id in ids && k.streamId == streamId && !rows[k].marker.deleted
  }

  predicate IsLive(rows: Rows, id: Id, streamId: Id) { LiveKeys(rows, {id}, streamId) != {} }

  function LiveKeysBetween(rows: Rows, streamId: Id, from: Instant, to: Instant): set<RowKey> {
    set k | k in rows && k.streamId == streamId && !rows[k].marker.deleted && from <= rows[k].recordedAt <= to
  }

  function Ids(keys: set<RowKey>): set<Id> { set k | k in keys :: k.id }

  // ----- The table over every run -----

  datatype Table = Table(owners: Owners, rows: Rows)

  datatype Op =
    | CreateStream(streamId: Id, ownerId: Id)
    | Save(userId: Id, items: seq<Item>)
    // The ids of a deletion are the ones the database reads.
    | RemoveIds(userId: Id, streamId: Id, ids: set<Id>)
    | RemoveBetween(userId: Id, streamId: Id, from: Instant, to: Instant)

  /** What one request makes of the table; a request on somebody else's stream makes nothing of it. */
  function Apply(t: Table, op: Op): Table {
    match op
    case CreateStream(st, o) => if st in t.owners then t else t.(owners := t.owners[st := o])
    case Save(u, items) =>
      if forall item <- items :: Owns(t.owners, u, item.streamId) then t.(rows := InsertAll(t.rows, u, items)) else t
    case RemoveIds(u, st, ids) => if Owns(t.owners, u, st) then t.(rows := DeleteIn(t.rows, ids, st)) else t
    case RemoveBetween(u, st, from, to) => if Owns(t.owners, u, st) then t.(rows := DeleteBetween(t.rows, st, from, to)) else t
  }

  /** Who makes the request. */
  function Caller(op: Op): Id {
    match op
    case CreateStream(_, u) => u
    case Save(u, _) => u
    case RemoveIds(u, _, _) => u
    case RemoveBetween(u, _, _, _) => u
  }

  /** A row whose stream is not the caller's is left alone by whatever the caller does. */
  lemma ForeignRowsStay(t: Table, op: Op, k: RowKey)
    requires k in t.rows && k.streamId in t.owners && t.owners[k.streamId] != Caller(op)
    ensures k in Apply(t, op).rows && Apply(t, op).rows[k] == t.rows[k]
    ensures k.streamId in Apply(t, op).owners && Apply(t, op).owners[k.streamId] == t.owners[k.streamId]
  {
    if op.Save? {
      BatchKeys(t.rows, op.userId, op.items, k);
      hide InsertAll;
    }
  }

  function Run(t: Table, ops: seq<Op>): Table
    decreases |ops|
  {
    if ops == [] then t else Run(Apply(t, ops[0]), ops[1..])
  }

  const EMPTY := Table(map[], map[])

  /** A row belongs to its stream's owner, and is a tombstone exactly when it has no payload. */
  ghost predicate Sound(t: Table) {
    forall k <- t.rows :: Owns(t.owners, k.userId, k.streamId) && (t.rows[k].marker.deleted <==> t.rows[k].payload.None?)
  }

  /** Nothing is ever removed, a tombstone never changes, and a live row changes only into a tombstone. */
  ghost predicate OnlyDies(t: Table, t': Table) {
    && (forall st <- t.owners :: st in t'.owners && t'.owners[st] == t.owners[st])
    && (forall k <- t.rows :: k in t'.rows
         && (t'.rows[k] == t.rows[k] || (!t.rows[k].marker.deleted && t'.rows[k] == Dead(t.rows[k]))))
  }

  lemma SaveKeepsSound(t: Table, userId: Id, items: seq<Item>)
    requires Sound(t) && forall item <- items :: Owns(t.owners, userId, item.streamId)
    ensures var t' := t.(rows := InsertAll(t.rows, userId, items)); Sound(t') && OnlyDies(t, t')
  {
    BatchInsert(t.rows, userId, items);
    NewRowsAreFirstOccurrences(t.rows, userId, items);
    hide InsertAll, Answers, Occurs, Canon, Canonical;
    assert forall i :: 0 <= i < |items| ==> items[i] in items;
  }

  lemma ApplyKeepsSound(t: Table, op: Op)
    requires Sound(t)
    ensures Sound(Apply(t, op)) && OnlyDies(t, Apply(t, op))
  {
    if op.Save? && forall item <- op.items :: Owns(t.owners, op.userId, item.streamId) {
      SaveKeepsSound(t, op.userId, op.items);
      hide Sound, OnlyDies, Owns;
    }
  }

  /** Every new row is the row of some item. */
  lemma {:induction false} NewRowsAreFirstOccurrences(rows: Rows, userId: Id, items: seq<Item>)
    ensures forall k <- InsertAll(rows, userId, items) ::
      k in rows
      || exists i :: 0 <= i < |items| && ItemKey(userId, items[i]) == k && InsertAll(rows, userId, items)[k] == NewRow(items[i])
  {
    if items != [] {
      var n := |items| - 1;
      NewRowsAreFirstOccurrences(rows, userId, items[..n]);
      var before, after := InsertAll(rows, userId, items[..n]), InsertAll(rows, userId, items);
      forall k <- after | k !in rows
        ensures exists i :: 0 <= i < |items| && ItemKey(userId, items[i]) == k && after[k] == NewRow(items[i])
      {
        if k in before {
          var i :| 0 <= i < n && ItemKey(userId, items[..n][i]) == k && before[k] == NewRow(items[..n][i]);
          assert ItemKey(userId, items[i]) == k && after[k] == NewRow(items[i]);
        } else {
          assert ItemKey(userId, items[n]) == k && after[k] == NewRow(items[n]);
        }
      }
    }
  }

  lemma {:induction false} RunKeepsSound(t: Table, ops: seq<Op>)
    requires Sound(t)
    ensures Sound(Run(t, ops)) && OnlyDies(t, Run(t, ops))
    decreases |ops|
  {
    if ops != [] {
      ApplyKeepsSound(t, ops[0]);
      RunKeepsSound(Apply(t, ops[0]), ops[1..]);
    }
  }

  /** Over every run of other callers' requests, the rows of an owner's streams stay as they are. */
  lemma {:induction false} ForeignRunsLeaveRowsAlone(t: Table, ops: seq<Op>, k: RowKey)
    requires k in t.rows && k.streamId in t.owners && forall op <- ops :: Caller(op) != t.owners[k.streamId]
    ensures k in Run(t, ops).rows && Run(t, ops).rows[k] == t.rows[k]
    decreases |ops|
  {
    if ops != [] {
      ForeignRowsStay(t, ops[0], k);
      hide Apply, Caller;
      assert ops == [ops[0]] + ops[1..];
      ForeignRunsLeaveRowsAlone(Apply(t, ops[0]), ops[1..], k);
    }
  }

  /** In every reachable table a row is marked deleted iff its payload is null, and stream and id
      name at most one row, although the key has a third column. */
  lemma ReachableTablesAreSound(ops: seq<Op>, k: RowKey, k': RowKey)
    requires k in Run(EMPTY, ops).rows
    ensures Run(EMPTY, ops).rows[k].marker.deleted <==> Run(EMPTY, ops).rows[k].payload.None?
    ensures k' in Run(EMPTY, ops).rows && k.id == k'.id && k.streamId == k'.streamId ==> k == k'
  {
    RunKeepsSound(EMPTY, ops);
  }

  /** A deleted row stays as it is for ever, and saving its key again only answers "already exists". */
  lemma TombstonesAreFinal(ops: seq<Op>, more: seq<Op>, k: RowKey, items: seq<Item>, i: nat)
    requires k in Run(EMPTY, ops).rows && Run(EMPTY, ops).rows[k].marker.deleted
    requires i < |items| && ItemKey(k.userId, items[i]) == k
    ensures k in Run(EMPTY, ops + more).rows && Run(EMPTY, ops + more).rows[k] == Run(EMPTY, ops).rows[k]
    ensures Answers(Run(EMPTY, ops + more).rows, k.userId, items)[i] == AlreadyExists
  {
    RunKeepsSound(EMPTY, ops);
    RunKeepsSound(Run(EMPTY, ops), more);
    RunInTwo(EMPTY, ops, more);
    BatchInsert(Run(EMPTY, ops + more).rows, k.userId, items);
  }

  lemma {:induction false} RunInTwo(t: Table, ops: seq<Op>, more: seq<Op>)
    ensures Run(t, ops + more) == Run(Run(t, ops), more)
    decreases |ops|
  {
    if ops == [] {
      assert ops + more == more;
    } else {
      RunInTwo(Apply(t, ops[0]), ops[1..], more);
      assert (ops + more)[1..] == ops[1..] + more;
    }
  }

  // ----- The deletions agree -----

  /** Deleting the ids of a list one by one. */
  function FoldDelete(rows: Rows, ids: seq<Id>, streamId: Id): Rows {
    if ids == [] then rows else DeleteIn(FoldDelete(rows, ids[..|ids| - 1], streamId), {Canon(ids[|ids| - 1])}, streamId)
  }

  /** Which of those single deletions report "deleted". */
  function FoldReports(rows: Rows, ids: seq<Id>, streamId: Id): (r: seq<bool>)
    ensures |r| == |ids|
  {
    if ids == [] then []
    else
      var before, id := ids[..|ids| - 1], ids[|ids| - 1];
      FoldReports(rows, before, streamId) + [IsLive(FoldDelete(rows, before, streamId), Canon(id), streamId)]
  }

  /** Which positions of a batch deletion report "deleted": the returned ids are looked up as texts. */
  function BatchReports(rows: Rows, ids: seq<Id>, streamId: Id): (r: seq<bool>)
    ensures |r| == |ids|
  {
    seq(|ids|, i requires 0 <= i < |ids| => IsLive(rows, Canon(ids[i]), streamId) && Canonical(ids[i]))
  }

  /** The ids of a request, as the database reads them. */
  function SetOf(ids: seq<Id>): set<Id> { set id | id in ids :: Canon(id) }

  /** One batch deletion leaves the table that single deletions leave. Since only the set of ids
      matters, their order and their repetitions do not. */
  lemma {:induction false} BatchIsFold(rows: Rows, ids: seq<Id>, streamId: Id)
    ensures FoldDelete(rows, ids, streamId) == DeleteIn(rows, SetOf(ids), streamId)
  {
    if ids == [] {
    } else {
      var before, id := ids[..|ids| - 1], ids[|ids| - 1];
      BatchIsFold(rows, before, streamId);
      assert SetOf(ids) == SetOf(before) + {Canon(id)} by { assert ids == before + [id]; }
      DeleteInTwo(rows, SetOf(before), {Canon(id)}, streamId);
    }
  }

  lemma DeleteInTwo(rows: Rows, a: set<Id>, b: set<Id>, streamId: Id)
    ensures DeleteIn(DeleteIn(rows, a, streamId), b, streamId) == DeleteIn(rows, a + b, streamId)
  {
  }

  /** A single deletion reports "deleted" iff its id was live at the start and did not occur before. */
  lemma {:induction false} FoldReportAt(rows: Rows, ids: seq<Id>, streamId: Id, i: nat)
    requires i < |ids|
    ensures FoldReports(rows, ids, streamId)[i] <==> IsLive(rows, Canon(ids[i]), streamId) && Canon(ids[i]) !in SetOf(ids[..i])
    decreases ids
  {
    var n := |ids| - 1;
    if i < n {
      FoldReportAt(rows, ids[..n], streamId, i);
      assert ids[..n][..i] == ids[..i];
    } else {
      BatchIsFold(rows, ids[..n], streamId);
      LiveAfterDelete(rows, SetOf(ids[..n]), Canon(ids[n]), streamId);
    }
  }

  /** The single deletions report the first occurrence of each id that was live at the start. The batch
      reports every position whose id was live, if it is spelled as the database spells it; a position
      that is not spelled so is reported as not found although its row dies. */
  lemma ReportsAgreeOnFirstOccurrences(rows: Rows, ids: seq<Id>, streamId: Id)
    ensures |FoldReports(rows, ids, streamId)| == |ids|
    ensures forall i :: 0 <= i < |ids| ==>
      (FoldReports(rows, ids, streamId)[i] <==> IsLive(rows, Canon(ids[i]), streamId) && Canon(ids[i]) !in SetOf(ids[..i]))
    ensures forall i :: 0 <= i < |ids| && Canonical(ids[i]) ==>
      (FoldReports(rows, ids, streamId)[i] <==> BatchReports(rows, ids, streamId)[i] && ids[i] !in SetOf(ids[..i]))
  {
    hide FoldReports, IsLive, SetOf;
    forall i: nat | i < |ids|
      ensures FoldReports(rows, ids, streamId)[i] <==> IsLive(rows, Canon(ids[i]), streamId) && Canon(ids[i]) !in SetOf(ids[..i])
    {
      FoldReportAt(rows, ids, streamId, i);
    }
  }

  /** A batch tells the truth about a position iff its id is canonical or names no live row. */
  lemma BatchReportIsTrueIff(rows: Rows, ids: seq<Id>, streamId: Id, i: nat)
    requires i < |ids|
    ensures (BatchReports(rows, ids, streamId)[i] <==> DeleteIn(rows, SetOf(ids), streamId) != DeleteIn(rows, SetOf(ids) - {Canon(ids[i])}, streamId))
       <==> Canonical(ids[i]) || !IsLive(rows, Canon(ids[i]), streamId)
  {
    var id := Canon(ids[i]);
    var others := SetOf(ids) - {id};
    assert id in SetOf(ids);
    if IsLive(rows, id, streamId) {
      var k :| k in LiveKeys(rows, {id}, streamId);
      assert DeleteIn(rows, SetOf(ids), streamId)[k] == Dead(rows[k]) != DeleteIn(rows, others, streamId)[k];
    } else {
      assert forall k <- rows :: k !in LiveKeys(rows, {id}, streamId);
      assert DeleteIn(rows, SetOf(ids), streamId) == DeleteIn(rows, others, streamId);
    }
  }

  lemma LiveAfterDelete(rows: Rows, ids: set<Id>, id: Id, streamId: Id)
    ensures IsLive(DeleteIn(rows, ids, streamId), id, streamId) <==> IsLive(rows, id, streamId) && id !in ids
  {
    var after := DeleteIn(rows, ids, streamId);
    if id in ids {
      assert LiveKeys(after, {id}, streamId) == {};
    } else {
      assert LiveKeys(after, {id}, streamId) == LiveKeys(rows, {id}, streamId);
    }
  }

  /** Deleting the same ids again changes nothing and reports nothing. */
  lemma BatchIsIdempotent(rows: Rows, ids: seq<Id>, streamId: Id)
    ensures var once := DeleteIn(rows, SetOf(ids), streamId);
      && DeleteIn(once, SetOf(ids), streamId) == once
      && forall i :: 0 <= i < |ids| ==> !BatchReports(once, ids, streamId)[i]
  {
    DeleteInTwo(rows, SetOf(ids), SetOf(ids), streamId);
    assert SetOf(ids) + SetOf(ids) == SetOf(ids);
    forall i | 0 <= i < |ids| ensures !IsLive(DeleteIn(rows, SetOf(ids), streamId), Canon(ids[i]), streamId) {
      LiveAfterDelete(rows, SetOf(ids), Canon(ids[i]), streamId);
    }
  }

  /** Deleting a date range is deleting, as a batch, the stream's live ids recorded in it: in a
      sound table no other row answers to one of those ids. */
  lemma RangeIsBatch(t: Table, streamId: Id, from: Instant, to: Instant)
    requires Sound(t)
    ensures DeleteBetween(t.rows, streamId, from, to) == DeleteIn(t.rows, Ids(LiveKeysBetween(t.rows, streamId, from, to)), streamId)
    ensures LiveKeysBetween(t.rows, streamId, from, to)
      == LiveKeys(t.rows, Ids(LiveKeysBetween(t.rows, streamId, from, to)), streamId)
  {
    var rows, hit := t.rows, LiveKeysBetween(t.rows, streamId, from, to);
    forall k <- rows | k.id in Ids(hit) && k.streamId == streamId ensures k in hit {
      var k' :| k' in hit && k'.id == k.id;
      assert Owns(t.owners, k.userId, k.streamId) && Owns(t.owners, k'.userId, k'.streamId);
    }
  }

  // ----- The service -----

  /** How the database and the queue may fail while one item of a batch is saved. */
  datatype Fault = NoFault | DbError | PublishError

  datatype SaveResult = Results(answers: seq<Answer>) | StreamDoesNotExist | InternalError

  datatype DeletedUpdate = DeletedUpdate(id: Id, deleted: bool)

  datatype RemoveResult = Removed(updates: seq<DeletedUpdate>) | Forbidden | SqlError

  /** The first item from `i` on that a fault stops the batch at, or the length of the batch.
      A publication is attempted, and so can fail, only for a new row. */
  function Stop(rows: Rows, userId: Id, items: seq<Item>, faults: seq<Fault>, i: nat): (r: nat)
    requires |faults| == |items| && i <= |items|
    ensures i <= r <= |items|
    decreases |items| - i
  {
    if i == |items| || faults[i] == DbError
       || (faults[i] == PublishError && ItemKey(userId, items[i]) !in InsertAll(rows, userId, items[..i])) then i
    else Stop(rows, userId, items, faults, i + 1)
  }

  class StatusService {
    var owners: Owners
    var rows: Rows
    var outbox: seq<Update>

    ghost function Abstract(): Table
      reads this
    {
      Table(owners, rows)
    }

    ghost predicate Valid()
      reads this
    {
      Sound(Abstract())
    }

    constructor ()
      ensures Valid() && Abstract() == EMPTY && outbox == []
    {
      owners, rows, outbox := map[], map[], [];
    }

    method CreateStream(streamId: Id, ownerId: Id)
      requires Valid() && streamId !in owners && Canonical(streamId)
      modifies this`owners
      ensures Valid() && OnlyDies(old(Abstract()), Abstract())
      ensures Abstract() == Apply(old(Abstract()), Op.CreateStream(streamId, ownerId))
    {
      ApplyKeepsSound(Abstract(), Op.CreateStream(streamId, ownerId));
      owners := owners[streamId := ownerId];
    }

    /** Saves a batch of updates of one owner, item by item. `faults` says which statement of which
        item fails for a reason other than the primary key. */
    method Save(userId: Id, statuses: seq<Item>, faults: seq<Fault>) returns (r: SaveResult)
      requires Valid() && |faults| == |statuses|
      modifies this`rows, this`outbox
      ensures Valid() && OnlyDies(old(Abstract()), Abstract())
      ensures r.StreamDoesNotExist? <==> exists s <- statuses :: !(s.streamId in owners && owners[s.streamId] == userId)
      ensures r.StreamDoesNotExist? ==> rows == old(rows) && outbox == old(outbox)
      ensures !r.StreamDoesNotExist? && (forall f <- faults :: f == NoFault) ==>
        && r == Results(Answers(old(rows), userId, statuses))
        && rows == InsertAll(old(rows), userId, statuses) && outbox == old(outbox) + Messages(old(rows), userId, statuses)
      ensures !r.StreamDoesNotExist? ==>
        var n := Stop(old(rows), userId, statuses, faults, 0);
        && r == (if n == |statuses| then Results(Answers(old(rows), userId, statuses)) else InternalError)
        && outbox == old(outbox) + Messages(old(rows), userId, statuses[..n])
        && rows == InsertAll(old(rows), userId, if n < |statuses| && faults[n] == PublishError then statuses[..n + 1] else statuses[..n])
    {
      for i := 0 to |statuses|
        invariant forall j :: 0 <= j < i ==> Owns(owners, userId, statuses[j].streamId)
      {
        if !Owns(owners, userId, statuses[i].streamId) {
          return StreamDoesNotExist;
        }
      }
      NoFaultNoStop(rows, userId, statuses, faults, 0);
      assert statuses[..|statuses|] == statuses;
      hide Sound, OnlyDies, InsertAll, Answers, Messages, Stop;
      ghost var n := Stop(rows, userId, statuses, faults, 0);
      PrefixIsSound(Abstract(), userId, statuses, n);
      if n < |statuses| { PrefixIsSound(Abstract(), userId, statuses, n + 1); }
      r := SaveOwned(userId, statuses, faults);
    }

    /** The inserts of a batch, whose streams have been found to be the caller's own. */
    method SaveOwned(userId: Id, statuses: seq<Item>, faults: seq<Fault>) returns (r: SaveResult)
      requires |faults| == |statuses|
      modifies this`rows, this`outbox
      ensures var n := Stop(old(rows), userId, statuses, faults, 0);
        && r == (if n == |statuses| then Results(Answers(old(rows), userId, statuses)) else InternalError)
        && outbox == old(outbox) + Messages(old(rows), userId, statuses[..n])
        && rows == InsertAll(old(rows), userId, if n < |statuses| && faults[n] == PublishError then statuses[..n + 1] else statuses[..n])
    {
      ghost var was := rows;
      hide Messages, Answers, InsertAll;
      var results: seq<Answer> := [];
      assert statuses[..0] == [];
      NothingYet(was, userId);
      for i := 0 to |statuses|
        invariant rows == InsertAll(was, userId, statuses[..i])
        invariant results == Answers(was, userId, statuses[..i])
        invariant outbox == old(outbox) + Messages(was, userId, statuses[..i])
        invariant Stop(was, userId, statuses, faults, 0) == Stop(was, userId, statuses, faults, i)
      {
        NextItem(was, userId, statuses, i);
        var key := ItemKey(userId, statuses[i]);
        if faults[i] == DbError {
          return InternalError;
        }
        if key in rows {
          results := results + [AlreadyExists];
          continue;
        }
        rows := rows[key := NewRow(statuses[i])];
        if faults[i] == PublishError {
          return InternalError;
        }
        outbox := outbox + [Message(userId, statuses[i])];
        results := results + [Saved(statuses[i])];
      }
      assert statuses[..|statuses|] == statuses;
      r := Results(results);
    }

    /** `affected` of one UPDATE statement. */
    method RemoveStatusUpdate(userId: Id, id: Id, streamId: Id) returns (r: RemoveResult)
      requires Valid()
      modifies this`rows
      ensures Valid() && OnlyDies(old(Abstract()), Abstract())
      ensures Abstract() == Apply(old(Abstract()), RemoveIds(userId, Canon(streamId), {Canon(id)}))
      ensures r.Forbidden? <==> !(Canon(streamId) in owners && owners[Canon(streamId)] == userId)
      ensures r.Forbidden? ==> rows == old(rows)
      ensures !r.Forbidden? ==>
        && r == Removed([DeletedUpdate(id, exists k <- old(rows) ::
                  k.id == Canon(id) && k.streamId == Canon(streamId) && !old(rows)[k].marker.deleted)])
        && rows.Keys == old(rows).Keys
        && forall k <- rows :: rows[k] ==
             if k.id == Canon(id) && k.streamId == Canon(streamId) && !old(rows)[k].marker.deleted
             then old(rows)[k].(payload := None, marker := old(rows)[k].marker.(deleted := true)) else old(rows)[k]
      ensures r == if !Owns(owners, userId, Canon(streamId)) then Forbidden
                   else Removed([DeletedUpdate(id, IsLive(old(rows), Canon(id), Canon(streamId)))])
    {
      ApplyKeepsSound(Abstract(), RemoveIds(userId, Canon(streamId), {Canon(id)}));
      LiveIff(rows, Canon(id), Canon(streamId));
      if !Owns(owners, userId, Canon(streamId)) {
        return Forbidden;
      }
      var affected := |LiveKeys(rows, {Canon(id)}, Canon(streamId))|;
      rows := DeleteIn(rows, {Canon(id)}, Canon(streamId));
      r := Removed([DeletedUpdate(id, affected != 0)]);
    }

    /** A batch deletion: SQL has no empty list for IN, so an empty batch is an error. */
    method RemoveStatusUpdates(userId: Id, ids: seq<Id>, streamId: Id) returns (r: RemoveResult)
      requires Valid()
      modifies this`rows
      ensures Valid() && OnlyDies(old(Abstract()), Abstract())
      ensures Abstract() == Apply(old(Abstract()), RemoveIds(userId, Canon(streamId), SetOf(ids)))
      ensures r.Forbidden? <==> !(Canon(streamId) in owners && owners[Canon(streamId)] == userId)
      ensures r.SqlError? <==> !r.Forbidden? && ids == []
      ensures !r.Removed? ==> rows == old(rows)
      ensures r.Removed? ==>
        && rows.Keys == old(rows).Keys
        && forall k <- rows :: rows[k] ==
             if (exists i :: 0 <= i < |ids| && Canon(ids[i]) == k.id) && k.streamId == Canon(streamId) && !old(rows)[k].marker.deleted
             then old(rows)[k].(payload := None, marker := old(rows)[k].marker.(deleted := true)) else old(rows)[k]
      ensures r.Removed? ==>
        && |r.updates| == |ids|
        && forall i :: 0 <= i < |ids| ==>
             && r.updates[i].id == ids[i]
             && (r.updates[i].deleted <==> Canonical(ids[i]) && exists k <- old(rows) ::
                   k.id == ids[i] && k.streamId == Canon(streamId) && !old(rows)[k].marker.deleted)
      ensures r.Removed? ==>
        && |r.updates| == |ids|
        && forall i :: 0 <= i < |ids| ==> r.updates[i] == DeletedUpdate(ids[i], BatchReports(old(rows), ids, Canon(streamId))[i])
    {
      hide Canon, Canonical;
      var stream := Canon(streamId);
      ApplyKeepsSound(Abstract(), RemoveIds(userId, stream, SetOf(ids)));
      if !Owns(owners, userId, stream) {
        return Forbidden;
      }
      if ids == [] {
        assert DeleteIn(rows, SetOf(ids), stream) == rows;
        return SqlError;
      }
      InSetIff(ids);
      forall i: nat | i < |ids|
        ensures BatchReports(rows, ids, stream)[i] <==> Canonical(ids[i]) && exists k <- rows ::
                  k.id == ids[i] && k.streamId == stream && !rows[k].marker.deleted
      {
        ReportIff(rows, ids, stream, i);
      }
      var raw := Ids(LiveKeys(rows, SetOf(ids), stream));
      rows := DeleteIn(rows, SetOf(ids), stream);
      var updates: seq<DeletedUpdate> := [];
      for i := 0 to |ids|
        invariant rows == DeleteIn(old(rows), SetOf(ids), stream)
        invariant |updates| == i
        invariant forall j :: 0 <= j < i ==> updates[j] == DeletedUpdate(ids[j], BatchReports(old(rows), ids, stream)[j])
      {
        RawIsLive(old(rows), ids, stream, i);
        updates := updates + [DeletedUpdate(ids[i], ids[i] in raw)];
      }
      r := Removed(updates);
    }

    /** Deletes what was recorded in a closed range and lists it, in the order the database returns the rows. */
    method RemoveStatusUpdatesByDateRange(userId: Id, streamId: Id, from: Instant, to: Instant) returns (r: RemoveResult)
      requires Valid()
      modifies this`rows
      ensures Valid() && OnlyDies(old(Abstract()), Abstract())
      ensures Abstract() == Apply(old(Abstract()), RemoveBetween(userId, Canon(streamId), from, to))
      ensures r.Forbidden? <==> !(Canon(streamId) in owners && owners[Canon(streamId)] == userId)
      ensures r.Forbidden? ==> rows == old(rows)
      ensures r.Removed? ==>
        && rows.Keys == old(rows).Keys
        && forall k <- rows :: rows[k] ==
             if k.streamId == Canon(streamId) && from <= old(rows)[k].recordedAt <= to && !old(rows)[k].marker.deleted
             then old(rows)[k].(payload := None, marker := old(rows)[k].marker.(deleted := true)) else old(rows)[k]
      ensures !r.SqlError?
      ensures r.Removed? ==>
        var hit := LiveKeysBetween(old(rows), Canon(streamId), from, to);
        && |r.updates| == |hit|
        && (forall i :: 0 <= i < |r.updates| ==> r.updates[i].deleted && r.updates[i].id in Ids(hit))
        && (forall k <- hit :: DeletedUpdate(k.id, true) in r.updates)
    {
      hide Canon, Canonical;
      ApplyKeepsSound(Abstract(), RemoveBetween(userId, Canon(streamId), from, to));
      if !Owns(owners, userId, Canon(streamId)) {
        return Forbidden;
      }
      var raw := LiveKeysBetween(rows, Canon(streamId), from, to);
      rows := DeleteBetween(rows, Canon(streamId), from, to);
      var left := raw;
      var updates: seq<DeletedUpdate> := [];
      while left != {}
        invariant left <= raw && |updates| + |left| == |raw|
        invariant forall i :: 0 <= i < |updates| ==> updates[i].deleted && updates[i].id in Ids(raw)
        invariant forall k <- raw :: k in left || DeletedUpdate(k.id, true) in updates
        decreases left
      {
        var k :| k in left;
        left := left - {k};
        updates := updates + [DeletedUpdate(k.id, true)];
      }
      r := Removed(updates);
    }
  }

  lemma {:induction false} NoFaultNoStop(rows: Rows, userId: Id, items: seq<Item>, faults: seq<Fault>, i: nat)
    requires |faults| == |items| && i <= |items|
    ensures (forall f <- faults :: f == NoFault) ==> Stop(rows, userId, items, faults, i) == |items|
    decreases |items| - i
  {
    if i < |items| {
      hide InsertAll;
      assert faults[i] in faults;
      NoFaultNoStop(rows, userId, items, faults, i + 1);
    }
  }

  lemma LiveIff(rows: Rows, id: Id, streamId: Id)
    ensures IsLive(rows, id, streamId) <==> exists k <- rows :: k.id == id && k.streamId == streamId && !rows[k].marker.deleted
  {
    if k :| k in rows && k.id == id && k.streamId == streamId && !rows[k].marker.deleted {
      assert k in LiveKeys(rows, {id}, streamId);
    }
  }

  lemma InSetIff(ids: seq<Id>)
    ensures forall id :: id in SetOf(ids) <==> exists i :: 0 <= i < |ids| && Canon(ids[i]) == id
  {
    hide Canon, Canonical;
    forall i | 0 <= i < |ids| ensures Canon(ids[i]) in SetOf(ids) { assert ids[i] in ids; }
  }

  lemma ReportIff(rows: Rows, ids: seq<Id>, streamId: Id, i: nat)
    requires i < |ids|
    ensures BatchReports(rows, ids, streamId)[i] <==> Canonical(ids[i]) && exists k <- rows ::
              k.id == ids[i] && k.streamId == streamId && !rows[k].marker.deleted
  {
    LiveIff(rows, Canon(ids[i]), streamId);
    hide IsLive;
  }

  lemma NothingYet(rows: Rows, userId: Id)
    ensures InsertAll(rows, userId, []) == rows && Answers(rows, userId, []) == [] && Messages(rows, userId, []) == []
  {
  }

  /** What one more item adds. */
  lemma NextItem(rows: Rows, userId: Id, items: seq<Item>, i: nat)
    requires i < |items|
    ensures var before := InsertAll(rows, userId, items[..i]);
      var isNew := ItemKey(userId, items[i]) !in before;
      && InsertAll(rows, userId, items[..i + 1]) == InsertRow(before, userId, items[i])
      && Answers(rows, userId, items[..i + 1]) == Answers(rows, userId, items[..i]) + [if isNew then Saved(items[i]) else AlreadyExists]
      && Messages(rows, userId, items[..i + 1]) == Messages(rows, userId, items[..i]) + if isNew then [Message(userId, items[i])] else []
  {
    assert items[..i + 1][..i] == items[..i];
  }

  /** Saving any part of a batch of one's own streams keeps the table sound. */
  lemma PrefixIsSound(t: Table, userId: Id, items: seq<Item>, n: nat)
    requires Sound(t) && n <= |items|
    requires forall item <- items :: Owns(t.owners, userId, item.streamId)
    ensures var t' := t.(rows := InsertAll(t.rows, userId, items[..n])); Sound(t') && OnlyDies(t, t')
  {
    assert forall item <- items[..n] :: item in items;
    ApplyKeepsSound(t, Op.Save(userId, items[..n]));
  }

  /** An id's text is among the returned ones exactly when the batch reports it: they are canonical. */
  lemma RawIsLive(rows: Rows, ids: seq<Id>, streamId: Id, i: nat)
    requires i < |ids|
    ensures ids[i] in Ids(LiveKeys(rows, SetOf(ids), streamId)) <==> BatchReports(rows, ids, streamId)[i]
  {
    var id := ids[i];
    assert BatchReports(rows, ids, streamId)[i] <==> IsLive(rows, Canon(id), streamId) && Canonical(id);
    if IsLive(rows, Canon(id), streamId) && Canonical(id) {
      var k :| k in LiveKeys(rows, {Canon(id)}, streamId);
      assert Canon(id) in SetOf(ids) && k in LiveKeys(rows, SetOf(ids), streamId);
    }
    if id in Ids(LiveKeys(rows, SetOf(ids), streamId)) {
      var k :| k in LiveKeys(rows, SetOf(ids), streamId) && k.id == id;
      assert k in LiveKeys(rows, {id}, streamId) && Canonical(id);
    }
  }
}

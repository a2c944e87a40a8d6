/** The grant and update pipeline as a state machine. Every handler and every request is a
    process that runs from one `await` to the next; processes interleave freely, any of them may
    fail at any `await`, and a queued message may be delivered any number of times.

    A grant insert runs in a transaction that commits after its `afterInsert` subscriber has
    returned; an update row is there before its own subscriber queues it for the worker. Saving a
    loaded grant inserts it again when its row has been deleted meanwhile.

    Tables hold canonical ids. Index keys, cache keys, messages and cached entities hold the texts
    that were sent. */
module Pipeline {
  import opened Entities
  import opened Json
  import opened Cache
  import opened Coverage
  import opened Pre

  /** A row of the update table; a tombstone has lost its payload. */
  datatype Row = Row(recordedAt: Instant, payload: Option<string>)

  /** An entity in a stream's index, as `afterInsert` printed it. The text of one that was inserted
      again differs from the first, if only because the loaded row has its columns in another order. */
  datatype IndexEntry = IndexEntry(grant: Grant, revived: bool)

  /** A message of the second queue: one update to be re-encrypted for one grant. */
  datatype PreTask = PreTask(update: Update, recipientId: Id, reEncryptionKey: JsValue, grantId: Id)

  /** A message published on the channel `grant_<grantId>`. */
  datatype Publication = Publication(
    grantId: Id, id: Id, recipientId: Id, streamId: Id, recordedAt: Instant, payload: string)

  /** One update as a read returned it to a recipient, under the stream id of the request. */
  datatype Returned = Returned(recipientId: Id, streamId: Id, updateId: Id, payload: JsValue)

  /** A running process and the local variables it holds at its current `await`. */
  datatype Proc =
    | GrantInserted(m: IndexEntry)
    | GrantIndexed(m: IndexEntry)
    | GrantKeyed(m: IndexEntry)
    | RangeLoaded(g: Grant)
    | GrantDeleting(id: Id)
    | UpdateInserted(u: Update)
    | FanOutStarted(u: Update)
    | FanOutTask(u: Update, member: IndexEntry)
    | FanOutSending(u: Update, member: IndexEntry, key: JsValue)
    | PreStarted(t: PreTask)
    | PreListening(t: PreTask)
    | PrePublishing(t: PreTask, payload: string)
    | WindowChecked(recipientId: Id, streamId: Id, w: Window, grants: seq<Grant>)
    | Reading(recipientId: Id, streamId: Id, grants: seq<Grant>, k: RowKey, row: Row)
    | Storing(recipientId: Id, streamId: Id, k: RowKey, payload: string)

  /** What the other parts of the state refer to: the tables, the grant index and the cached keys.
      `inserted`, `issued` and `committed` are history: every update ever inserted, every grant
      as it was sent when its first insert began, and the ids of those that committed. */
  datatype Base = Base(
    owners: map<Id, Id>,
    rows: map<RowKey, Row>, inserted: map<RowKey, Update>,
    grants: map<Id, Grant>, issued: map<Id, Grant>, committed: set<Id>,
    index: map<Id, set<IndexEntry>>, keys: map<Id, string>)

  /** The cached payload of an update for a recipient: the three texts of its key. */
  datatype Entry = Entry(recipientId: Id, streamId: Id, updateId: Id)

  /** The three kinds of cache entry are separate maps here; that their keys never clash is
      `Cache.KeysAreDistinct`. The queues hold every message ever sent. */
  datatype State = State(
    base: Base, payloads: map<Entry, string>,
    statusQueue: set<Update>, preQueue: multiset<PreTask>,
    published: seq<Publication>, returned: seq<Returned>,
    procs: multiset<Proc>)

  const INIT := State(Base(map[], map[], map[], map[], map[], {}, map[], map[]), map[], {}, multiset{}, [], [], multiset{})

  // ----- Cache reads -----

  function Members(b: Base, streamId: Id): set<IndexEntry> {
    if streamId in b.index then b.index[streamId] else {}
  }

  /** `cacheService.get`: a missing entry reads as null. */
  function Get<K>(strings: map<K, string>, k: K): JsValue {
    if k in strings then Loaded(strings[k]) else Null
  }

  /** Whether a JavaScript value passes an `if`: zero, however spelled, does not. */
  predicate Truthy(v: JsValue) {
    match v
    case Null => false
    case Bool(b) => b
    case Num(text) => exists i :: 0 <= i < |text| && '1' <= text[i] <= '9' && forall j :: 0 <= j < i ==> text[j] !in "eE"
    case Str(s) => s != ""
    case Arr(_) => true
    case Obj(_) => true
  }

  /** The entry that the worker stores for a message. */
  function EntryFor(t: PreTask): Entry { Entry(t.recipientId, t.update.streamId, t.update.id) }

  // ----- Steps -----

  datatype Step =
    | CreateStream(streamId: Id, ownerId: Id)
    | InsertGrant(g: Grant)
    | IndexGrant(m: IndexEntry)
    | KeyGrant(m: IndexEntry)
    | CommitGrant(m: IndexEntry)
    | LoadRange(id: Id, fromDate: Instant, toDate: Instant, streamLoaded: bool)
    | WriteRange(g: Grant)
    | BeginDelete(id: Id)
    | DropRow(id: Id)
    | InsertUpdate(u: Update)
    | QueueUpdate(u: Update)
    | DeleteUpdate(k: RowKey)
    | DeliverUpdate(u: Update)
    | ReadIndex(u: Update)
    | ReadKey(u: Update, member: IndexEntry)
    | SendTask(u: Update, member: IndexEntry, key: JsValue)
    | DeliverTask(t: PreTask)
    | FindListener(t: PreTask)
    | StorePayload(t: PreTask)
    | Publish(t: PreTask, payload: string)
    | CheckWindow(recipientId: Id, streamId: Id, w: Window, found: seq<Grant>)
    | SelectUpdates(recipientId: Id, streamId: Id, w: Window, found: seq<Grant>)
    | LookUpPayload(recipientId: Id, streamId: Id, found: seq<Grant>, k: RowKey, row: Row)
    | StoreComputed(recipientId: Id, streamId: Id, k: RowKey, payload: string)
    | Fail(p: Proc)

  /** The steps of saving, modifying and deleting grants. */
  predicate IsGrantStep(step: Step) {
    || step.CreateStream? || step.InsertGrant? || step.IndexGrant? || step.KeyGrant? || step.CommitGrant?
    || step.LoadRange? || step.WriteRange? || step.BeginDelete? || step.DropRow?
  }

  /** The steps of a read. */
  predicate IsReadStep(step: Step) { step.CheckWindow? || step.SelectUpdates? || step.LookUpPayload? || step.StoreComputed? }

  /** When a step can happen. */
  ghost predicate Enabled(s: State, step: Step) {
    var b := s.base;
    match step
    case CreateStream(streamId, _) => streamId !in b.owners && Canonical(streamId) && streamId != UNDEFINED
    case InsertGrant(g) =>
      g.id !in b.issued && Canon(g.streamId) in b.owners && b.owners[Canon(g.streamId)] == g.ownerId
    case IndexGrant(m) => GrantInserted(m) in s.procs
    case KeyGrant(m) => GrantIndexed(m) in s.procs
    case CommitGrant(m) => GrantKeyed(m) in s.procs && m.grant.id !in b.grants
    case LoadRange(id, _, _, _) => id in b.grants && b.grants[id].kind == Range
    case WriteRange(g) => RangeLoaded(g) in s.procs
    case BeginDelete(id) => id in b.grants
    case DropRow(id) => GrantDeleting(id) in s.procs
    case InsertUpdate(u) => KeyOf(u) !in b.rows && u.streamId in b.owners && b.owners[u.streamId] == u.userId
    case QueueUpdate(u) => UpdateInserted(u) in s.procs
    case DeleteUpdate(k) => k in b.rows
    case DeliverUpdate(u) => u in s.statusQueue
    case ReadIndex(u) => FanOutStarted(u) in s.procs
    case ReadKey(u, member) => FanOutTask(u, member) in s.procs
    case SendTask(u, member, key) => FanOutSending(u, member, key) in s.procs
    case DeliverTask(t) => t in s.preQueue
    case FindListener(t) => PreStarted(t) in s.procs
    case StorePayload(t) => PreListening(t) in s.procs
    case Publish(t, payload) => PrePublishing(t, payload) in s.procs
    case CheckWindow(r, st, w, found) => Canon(st) != UNDEFINED && ByRange(found, b.grants.Values, Canon(r), Canon(st), w)
    case SelectUpdates(r, st, w, found) => WindowChecked(r, st, w, found) in s.procs
    case LookUpPayload(r, st, found, k, row) => Reading(r, st, found, k, row) in s.procs
    case StoreComputed(r, st, k, payload) => Storing(r, st, k, payload) in s.procs
    case Fail(p) => p in s.procs
  }

  function Insert(b: Base, u: Update): Base {
    b.(rows := b.rows[KeyOf(u) := Row(u.recordedAt, Some(u.payload))], inserted := b.inserted[KeyOf(u) := u])
  }

  /** The state in which a process has begun. */
  function Began(s: State, p: Proc): State { s.(procs := s.procs + multiset{p}) }

  /** The state in which process `p` has ended. */
  function Ended(s: State, p: Proc): State { s.(procs := s.procs - multiset{p}) }

  /** The state in which process `p` goes on as `q`. */
  function Becomes(s: State, p: Proc, q: Proc): State { s.(procs := s.procs - multiset{p} + multiset{q}) }

  /** The state in which process `p` has ended and left the processes `qs` behind. */
  function Spawns(s: State, p: Proc, qs: set<Proc>): State { s.(procs := s.procs - multiset{p} + multiset(qs)) }

  function FanOutTasks(b: Base, u: Update): set<Proc> {
    set m | m in Members(b, u.streamId) :: FanOutTask(u, m)
  }

  function Readings(b: Base, recipientId: Id, streamId: Id, w: Window, found: seq<Grant>): set<Proc> {
    set k | k in b.rows && k.streamId == Canon(streamId) && w.fromDate <= b.rows[k].recordedAt <= w.toDate
      :: Reading(recipientId, streamId, found, k, b.rows[k])
  }

  function Indexing(b: Base, m: IndexEntry): Base {
    b.(index := b.index[m.grant.streamId := Members(b, m.grant.streamId) + {m}])
  }

  function Keying(b: Base, m: IndexEntry): Base { b.(keys := b.keys[m.grant.id := m.grant.reEncryptionKey]) }

  function Committing(b: Base, m: IndexEntry): Base {
    b.(grants := b.grants[m.grant.id := AsRow(m.grant)], committed := b.committed + {m.grant.id})
  }

  function Rewindowing(b: Base, g: Grant): Base
    requires g.id in b.grants
  {
    b.(grants := b.grants[g.id := b.grants[g.id].(fromDate := g.fromDate, toDate := g.toDate)])
  }

  ghost function Apply(lib: Library, s: State, step: Step): State
    requires Enabled(s, step)
  {
    var b := s.base;
    match step
    case CreateStream(streamId, ownerId) => s.(base := b.(owners := b.owners[streamId := ownerId]))

    // Saving a grant: insert, then afterInsert (sadd, set, channel group), then commit.
    case InsertGrant(g) => Began(s.(base := b.(issued := b.issued[g.id := g])), GrantInserted(IndexEntry(g, false)))
    case IndexGrant(m) => Becomes(s.(base := Indexing(b, m)), GrantInserted(m), GrantIndexed(m))
    case KeyGrant(m) => Becomes(s.(base := Keying(b, m)), GrantIndexed(m), GrantKeyed(m))
    case CommitGrant(m) => Ended(s.(base := Committing(b, m)), GrantKeyed(m))

    // Modifying a window: load, then save, which is an insert if the row is gone.
    case LoadRange(id, from, to, streamLoaded) => Began(s, RangeLoaded(Loading(b.grants[id], from, to, streamLoaded)))
    case WriteRange(g) =>
      if g.id in b.grants then Ended(s.(base := Rewindowing(b, g)), RangeLoaded(g))
      else Becomes(s, RangeLoaded(g), GrantInserted(IndexEntry(g, true)))

    // Deleting a grant: load, leave the channel group, delete the row if it is still there.
    case BeginDelete(id) => Began(s, GrantDeleting(id))
    case DropRow(id) => Ended(s.(base := b.(grants := b.grants - {id})), GrantDeleting(id))

    // Saving an update: the row, then the message to the worker. Deleting one leaves a tombstone.
    case InsertUpdate(u) => Began(s.(base := Insert(b, u)), UpdateInserted(u))
    case QueueUpdate(u) => Ended(s.(statusQueue := s.statusQueue + {u}), UpdateInserted(u))
    case DeleteUpdate(k) => s.(base := b.(rows := b.rows[k := b.rows[k].(payload := None)]))

    // The worker fans an update out over the indexed grants.
    case DeliverUpdate(u) => Began(s, FanOutStarted(u))
    case ReadIndex(u) => Spawns(s, FanOutStarted(u), FanOutTasks(b, u))
    case ReadKey(u, member) =>
      var key := Get(b.keys, member.grant.id);
      if Truthy(key) then Becomes(s, FanOutTask(u, member), FanOutSending(u, member, key))
      else Ended(s, FanOutTask(u, member))
    case SendTask(u, member, key) =>
      Ended(s.(preQueue := s.preQueue + multiset{TaskOf(u, member, key)}), FanOutSending(u, member, key))

    // The worker re-encrypts, caches and publishes one task, if the recipient listens.
    case DeliverTask(t) => Began(s, PreStarted(t))
    case FindListener(t) => Becomes(s, PreStarted(t), PreListening(t))
    case StorePayload(t) =>
      (match ReEncryptPayload(lib, t.update.payload, t.reEncryptionKey)
       case None => Ended(s, PreListening(t))
       case Some(c) =>
         Becomes(s.(payloads := s.payloads[EntryFor(t) := c]),
           PreListening(t), PrePublishing(t, c)))
    case Publish(t, c) =>
      Ended(s.(published := s.published + [Message(t, c)]), PrePublishing(t, c))

    // A recipient reads a window: the check, the query, then one task for each selected update.
    case CheckWindow(r, st, w, found) =>
      if Outcome(SortByFrom(found), w) == Granted then Began(s, WindowChecked(r, st, w, found)) else s
    case SelectUpdates(r, st, w, found) =>
      Spawns(s, WindowChecked(r, st, w, found), Readings(b, r, st, w, found))
    case LookUpPayload(r, st, found, k, row) =>
      var p, cached := Reading(r, st, found, k, row), Get(s.payloads, Entry(r, st, k.id));
      if Truthy(cached) then Ended(s.(returned := s.returned + [Returned(r, st, k.id, cached)]), p)
      else
        (match Computed(lib, found, row)
         case None => Ended(s, p)
         case Some(c) => Becomes(s, p, Storing(r, st, k, c)))
    case StoreComputed(r, st, k, c) =>
      Ended(s.(payloads := s.payloads[Entry(r, st, k.id) := c],
               returned := s.returned + [Returned(r, st, k.id, Str(c))]), Storing(r, st, k, c))

    case Fail(p) => Ended(s, p)
  }

  function TaskOf(u: Update, member: IndexEntry, key: JsValue): PreTask {
    PreTask(u, member.grant.recipientId, key, member.grant.id)
  }

  function Message(t: PreTask, payload: string): Publication {
    Publication(t.grantId, t.update.id, t.recipientId, t.update.streamId, t.update.recordedAt, payload)
  }

  /** What a read computes on a cache miss: None is where it throws, because no grant was found,
      because the row is a tombstone or because the payload cannot be re-encrypted. */
  function Computed(lib: Library, found: seq<Grant>, row: Row): Option<string> {
    match (FindAt(found, row.recordedAt), row.payload)
    case (Found(g), Some(payload)) => ReEncryptPayload(lib, payload, Str(g.reEncryptionKey))
    case _ => None
  }

  // ----- Runs -----

  /** Where a list of steps leads from a state. */
  ghost predicate Leads(lib: Library, s: State, steps: seq<Step>, s': State)
    decreases |steps|
  {
    if steps == [] then s' == s
    else Enabled(s, steps[0]) && Leads(lib, Apply(lib, s, steps[0]), steps[1..], s')
  }

  ghost predicate Reachable(lib: Library, s: State) {
    exists steps :: Leads(lib, INIT, steps, s)
  }

  lemma NoStep(lib: Library, s: State)
    ensures Leads(lib, s, [], s)
  {
  }

  lemma OneStepMore(lib: Library, s: State, step: Step, steps: seq<Step>, s': State)
    requires Enabled(s, step) && Leads(lib, Apply(lib, s, step), steps, s')
    ensures Leads(lib, s, [step] + steps, s')
  {
    hide Enabled, Apply;
    assert ([step] + steps)[1..] == steps;
  }

  /** One run after another is a run. */
  lemma {:induction false} LeadsOn(lib: Library, s: State, steps: seq<Step>, s1: State, more: seq<Step>, s2: State)
    requires Leads(lib, s, steps, s1) && Leads(lib, s1, more, s2)
    ensures Leads(lib, s, steps + more, s2)
    decreases |steps|
  {
    hide Enabled, Apply;
    if steps == [] {
      assert steps + more == more;
    } else {
      LeadsOn(lib, Apply(lib, s, steps[0]), steps[1..], s1, more, s2);
      assert (steps + more)[1..] == steps[1..] + more;
    }
  }

  // ----- The invariant -----

  /** The update is one that was inserted, unchanged. */
  ghost predicate Known(b: Base, u: Update) {
    KeyOf(u) in b.inserted && b.inserted[KeyOf(u)] == u
  }

  /** The row, or an entity loaded from it, is one that was issued, but for its window; it may have
      lost its stream. */
  ghost predicate KnownGrant(b: Base, g: Grant) {
    && g.id in b.issued
    && var i := b.issued[g.id];
       && g.recipientId == Canon(i.recipientId) && g.reEncryptionKey == i.reEncryptionKey
       && g.ownerId == i.ownerId && g.kind == i.kind
       && (g.streamId == UNDEFINED || g.streamId == Canon(i.streamId))
  }

  /** The entity is one that was issued as it was sent, or the row of a committed one loaded and inserted again. */
  ghost predicate KnownMember(b: Base, m: IndexEntry) {
    if m.revived then KnownGrant(b, m.grant) && m.grant.id in b.committed
    else m.grant.id in b.issued && b.issued[m.grant.id] == m.grant
  }

  ghost predicate Placed(b: Base, m: IndexEntry) { KnownMember(b, m) && m in Members(b, m.grant.streamId) }

  ghost predicate Keyed(b: Base, m: IndexEntry) {
    Placed(b, m) && m.grant.id in b.keys && b.keys[m.grant.id] == m.grant.reEncryptionKey
  }

  ghost predicate TaskOk(b: Base, t: PreTask) {
    && Known(b, t.update)
    && t.grantId in b.issued
    && var g := b.issued[t.grantId];
       && t.update.streamId == Canon(g.streamId) && SameId(t.recipientId, g.recipientId)
       && t.reEncryptionKey == Loaded(g.reEncryptionKey)
  }

  /** `c` is the payload inserted under `k`, re-encrypted for `r` with the key of grant `id`,
      which may have been read from the cache or from the database. */
  ghost predicate From(lib: Library, b: Base, r: Id, k: RowKey, c: string, id: Id) {
    && k in b.inserted && id in b.issued
    && var g := b.issued[id];
    && Canon(g.streamId) == k.streamId && SameId(g.recipientId, r)
    && (Some(c) == ReEncryptPayload(lib, b.inserted[k].payload, Loaded(g.reEncryptionKey))
        || Some(c) == ReEncryptPayload(lib, b.inserted[k].payload, Str(g.reEncryptionKey)))
  }

  ghost predicate Explained(lib: Library, b: Base, r: Id, k: RowKey, c: string) {
    exists id :: From(lib, b, r, k, c, id)
  }

  /** The row that a stream and an update id name: its third column is the stream's owner. */
  ghost predicate Names(b: Base, streamId: Id, id: Id, k: RowKey) {
    streamId in b.owners && k == RowKey(id, b.owners[streamId], streamId)
  }

  /** The row that an entry's texts name, if its stream exists. */
  function RowOf(b: Base, streamId: Id, updateId: Id): RowKey
    requires Canon(streamId) in b.owners
  {
    RowKey(Canon(updateId), b.owners[Canon(streamId)], Canon(streamId))
  }

  ghost predicate EntryOk(lib: Library, b: Base, e: Entry, c: string) {
    Canon(e.streamId) in b.owners && Explained(lib, b, e.recipientId, RowOf(b, e.streamId, e.updateId), c)
  }

  /** What the safety property says of one published message. */
  ghost predicate PublicationOk(lib: Library, b: Base, p: Publication) {
    && p.grantId in b.issued
    && var g := b.issued[p.grantId];
    && p.streamId == Canon(g.streamId) && SameId(p.recipientId, g.recipientId) && p.streamId in b.owners
    && var k := RowKey(Canon(p.id), b.owners[p.streamId], p.streamId);
    && k in b.inserted && p.recordedAt == b.inserted[k].recordedAt && p.id == b.inserted[k].id
    && Some(p.payload) == ReEncryptPayload(lib, b.inserted[k].payload, Loaded(g.reEncryptionKey))
  }

  ghost predicate ReturnedOk(lib: Library, b: Base, x: Returned) {
    x.payload.Str? && EntryOk(lib, b, Entry(x.recipientId, x.streamId, x.updateId), x.payload.s)
  }

  /** A grant that a read has found is issued to the recipient on the stream. */
  ghost predicate FoundOk(b: Base, r: Id, st: Id, g: Grant) {
    KnownGrant(b, g) && g.recipientId == Canon(r) && g.streamId == Canon(b.issued[g.id].streamId) == Canon(st)
  }

  ghost predicate ProcOk(lib: Library, b: Base, p: Proc) {
    match p
    case GrantInserted(m) => KnownMember(b, m)
    case GrantIndexed(m) => Placed(b, m)
    case GrantKeyed(m) => Keyed(b, m)
    case RangeLoaded(g) => KnownGrant(b, g) && g.id in b.committed
    case GrantDeleting(_) => true
    case UpdateInserted(u) => Known(b, u)
    case FanOutStarted(u) => Known(b, u)
    case FanOutTask(u, m) => Known(b, u) && m in Members(b, u.streamId)
    case FanOutSending(u, m, key) => TaskOk(b, TaskOf(u, m, key)) && m in Members(b, u.streamId)
    case PreStarted(t) => TaskOk(b, t)
    case PreListening(t) => TaskOk(b, t)
    case PrePublishing(t, c) => TaskOk(b, t) && Some(c) == ReEncryptPayload(lib, t.update.payload, t.reEncryptionKey)
    case WindowChecked(r, st, w, found) =>
      && Outcome(SortByFrom(found), w) == Granted && AllOverlap(found, w)
      && (forall g <- found :: FoundOk(b, r, st, g))
    case Reading(r, st, found, k, row) =>
      && k in b.inserted && k.streamId == Canon(st) && row.recordedAt == b.inserted[k].recordedAt
      && (row.payload.Some? ==> row.payload.value == b.inserted[k].payload)
      && (forall g <- found :: FoundOk(b, r, st, g))
      && FindAt(found, row.recordedAt).Found?
    case Storing(r, st, k, c) => k.streamId == Canon(st) && Explained(lib, b, r, k, c)
  }

  ghost predicate OwnersOk(b: Base) { forall st <- b.owners :: Canonical(st) && st != UNDEFINED }

  ghost predicate RowsOk(b: Base) {
    && b.rows.Keys == b.inserted.Keys
    && (forall k <- b.inserted :: KeyOf(b.inserted[k]) == k && Names(b, k.streamId, k.id, k))
    && (forall k <- b.rows ::
         && b.rows[k].recordedAt == b.inserted[k].recordedAt
         && (b.rows[k].payload.Some? ==> b.rows[k].payload.value == b.inserted[k].payload))
  }

  /** A committed grant is in the index of the stream it was sent with, and its cached key is its own. */
  ghost predicate Indexed(b: Base, id: Id) { id in b.issued && Keyed(b, IndexEntry(b.issued[id], false)) }

  ghost predicate GrantsOk(b: Base) {
    && (forall id <- b.issued :: b.issued[id].id == id && Canon(b.issued[id].streamId) in b.owners)
    && (forall id <- b.grants :: id in b.committed && b.grants[id].id == id && KnownGrant(b, b.grants[id]))
    && (forall id <- b.committed :: Indexed(b, id))
  }

  /** The index and the cached keys hold nothing but known grants, each under the stream it carries. */
  ghost predicate IndexOk(b: Base) {
    && (forall st, m :: m in Members(b, st) ==> KnownMember(b, m) && m.grant.streamId == st)
    && (forall id <- b.keys :: id in b.issued && b.keys[id] == b.issued[id].reEncryptionKey)
  }

  ghost predicate BaseOk(b: Base) { OwnersOk(b) && RowsOk(b) && GrantsOk(b) && IndexOk(b) }

  ghost predicate PayloadsOk(lib: Library, b: Base, payloads: map<Entry, string>) {
    forall e <- payloads :: EntryOk(lib, b, e, payloads[e])
  }

  ghost predicate StatusQueueOk(b: Base, queue: set<Update>) { forall u <- queue :: Known(b, u) }

  ghost predicate PreQueueOk(b: Base, queue: multiset<PreTask>) { forall t <- queue :: TaskOk(b, t) }

  ghost predicate PublishedOk(lib: Library, b: Base, published: seq<Publication>) {
    forall p <- published :: PublicationOk(lib, b, p)
  }

  ghost predicate AllReturnedOk(lib: Library, b: Base, returned: seq<Returned>) {
    forall x <- returned :: ReturnedOk(lib, b, x)
  }

  ghost predicate ProcsOk(lib: Library, b: Base, procs: multiset<Proc>) { forall p <- procs :: ProcOk(lib, b, p) }

  ghost predicate Inv(lib: Library, s: State) {
    && BaseOk(s.base) && PayloadsOk(lib, s.base, s.payloads)
    && StatusQueueOk(s.base, s.statusQueue) && PreQueueOk(s.base, s.preQueue)
    && PublishedOk(lib, s.base, s.published) && AllReturnedOk(lib, s.base, s.returned)
    && ProcsOk(lib, s.base, s.procs)
  }

  // ----- Nothing that was once said is unsaid -----

  /** History, index and cached keys only grow. */
  ghost predicate Grows(b: Base, b': Base) {
    && (forall st <- b.owners :: st in b'.owners && b'.owners[st] == b.owners[st])
    && (forall k <- b.inserted :: k in b'.inserted && b'.inserted[k] == b.inserted[k])
    && (forall id <- b.issued :: id in b'.issued && b'.issued[id] == b.issued[id])
    && (forall st, m :: m in Members(b, st) ==> m in Members(b', st))
    && (forall id <- b.keys :: id in b'.keys && b'.keys[id] == b.keys[id])
    && b.committed <= b'.committed
  }

  lemma ExplainedGrows(lib: Library, b: Base, b': Base, r: Id, k: RowKey, c: string)
    requires Grows(b, b') && Explained(lib, b, r, k, c)
    ensures Explained(lib, b', r, k, c)
  {
    var id :| From(lib, b, r, k, c, id);
    assert From(lib, b', r, k, c, id);
  }

  lemma EntryGrows(lib: Library, b: Base, b': Base, e: Entry, c: string)
    requires Grows(b, b') && EntryOk(lib, b, e, c)
    ensures EntryOk(lib, b', e, c)
  {
    ExplainedGrows(lib, b, b', e.recipientId, RowOf(b, e.streamId, e.updateId), c);
  }

  lemma ProcGrows(lib: Library, b: Base, b': Base, p: Proc)
    requires Grows(b, b') && ProcOk(lib, b, p)
    ensures ProcOk(lib, b', p)
  {
    if p.Storing? { ExplainedGrows(lib, b, b', p.recipientId, p.k, p.payload); }
  }

  lemma PublicationGrows(lib: Library, b: Base, b': Base, p: Publication)
    requires Grows(b, b') && PublicationOk(lib, b, p)
    ensures PublicationOk(lib, b', p)
  {
  }

  lemma TaskGrows(b: Base, b': Base, t: PreTask)
    requires Grows(b, b') && TaskOk(b, t)
    ensures TaskOk(b', t)
  {
  }

  /** What referred rightly to the tables and the index still does once they have grown. */
  lemma GrownBase(lib: Library, s: State, b': Base)
    requires Inv(lib, s) && Grows(s.base, b') && BaseOk(b')
    ensures Inv(lib, s.(base := b'))
  {
    var b := s.base;
    forall e <- s.payloads ensures EntryOk(lib, b', e, s.payloads[e]) { EntryGrows(lib, b, b', e, s.payloads[e]); }
    forall t <- s.preQueue ensures TaskOk(b', t) { TaskGrows(b, b', t); }
    forall p <- s.published ensures PublicationOk(lib, b', p) { PublicationGrows(lib, b, b', p); }
    forall x <- s.returned ensures ReturnedOk(lib, b', x) {
      EntryGrows(lib, b, b', Entry(x.recipientId, x.streamId, x.updateId), x.payload.s);
    }
    forall p <- s.procs ensures ProcOk(lib, b', p) { ProcGrows(lib, b, b', p); }
  }

  lemma ProcOf(lib: Library, s: State, p: Proc)
    requires Inv(lib, s) && p in s.procs
    ensures ProcOk(lib, s.base, p)
  {
  }

  /** A process may start, end, go on or leave others behind, as long as every new one is rightly placed. */
  lemma ProcsMayChange(lib: Library, s: State, p: Proc, qs: set<Proc>)
    requires Inv(lib, s) && forall q <- qs :: ProcOk(lib, s.base, q)
    ensures Inv(lib, Ended(s, p)) && Inv(lib, Spawns(s, p, qs))
  {
  }

  lemma ProcMayGoOn(lib: Library, s: State, p: Proc, q: Proc)
    requires Inv(lib, s) && ProcOk(lib, s.base, q)
    ensures Inv(lib, Began(s, q)) && Inv(lib, Becomes(s, p, q)) && Inv(lib, Ended(s, p))
  {
  }

  lemma ProcMayEnd(lib: Library, s: State, p: Proc)
    requires Inv(lib, s)
    ensures Inv(lib, Ended(s, p))
  {
  }

  // ----- Steps that change the tables, the index or the cached keys -----

  lemma StreamCreated(b: Base, streamId: Id, ownerId: Id)
    requires BaseOk(b) && streamId !in b.owners && Canonical(streamId) && streamId != UNDEFINED
    ensures var b' := b.(owners := b.owners[streamId := ownerId]); BaseOk(b') && Grows(b, b')
  {
    var b' := b.(owners := b.owners[streamId := ownerId]);
    GrantsStay(b, b');
    assert RowsOk(b') && OwnersOk(b');
  }

  /** What the grant tables and the index say does not depend on the rest. */
  lemma GrantsStay(b: Base, b': Base)
    requires GrantsOk(b) && IndexOk(b) && Grows(b, b')
    requires b'.grants == b.grants && b'.issued == b.issued && b'.committed == b.committed
    requires b'.index == b.index && b'.keys == b.keys
    ensures GrantsOk(b') && IndexOk(b')
  {
    hide Canon, Canonical;
    assert forall st :: Members(b', st) == Members(b, st);
    assert forall id <- b.committed :: Indexed(b', id);
  }

  /** The update table does not depend on the grants. */
  lemma RowsStay(b: Base, b': Base)
    requires OwnersOk(b) && RowsOk(b) && b'.owners == b.owners && b'.rows == b.rows && b'.inserted == b.inserted
    ensures OwnersOk(b') && RowsOk(b')
  {
    hide Canon, Canonical;
  }

  lemma MembersStayKnown(b: Base, b': Base)
    requires (forall id <- b.issued :: id in b'.issued && b'.issued[id] == b.issued[id]) && b.committed <= b'.committed
    ensures forall m :: KnownMember(b, m) ==> KnownMember(b', m)
    ensures forall g :: KnownGrant(b, g) ==> KnownGrant(b', g)
  {
    hide Canon, Canonical;
  }

  lemma IndexedStays(b: Base, b': Base, id: Id)
    requires Grows(b, b') && Indexed(b, id)
    ensures Indexed(b', id)
  {
    hide Canon, Canonical;
  }

  lemma IndexStays(b: Base, b': Base)
    requires IndexOk(b) && b'.index == b.index && b'.keys == b.keys
    requires (forall id <- b.issued :: id in b'.issued && b'.issued[id] == b.issued[id]) && b.committed <= b'.committed
    ensures IndexOk(b')
  {
    assert forall st :: Members(b', st) == Members(b, st);
    MembersStayKnown(b, b');
    hide Canon, Canonical, KnownGrant, KnownMember, Members;
  }

  /** The ways in which the grants' part of the base changes only ever add to it. */
  lemma ChangesGrow(b: Base, b': Base)
    requires b'.owners == b.owners && b'.rows == b.rows && b'.inserted == b.inserted
    requires forall id <- b.issued :: id in b'.issued && b'.issued[id] == b.issued[id]
    requires forall st, m :: m in Members(b, st) ==> m in Members(b', st)
    requires forall id <- b.keys :: id in b'.keys && b'.keys[id] == b.keys[id]
    requires b.committed <= b'.committed
    ensures Grows(b, b')
  {
  }

  lemma GrantIssued(b: Base, g: Grant)
    requires BaseOk(b) && g.id !in b.issued && Canon(g.streamId) in b.owners
    ensures var b' := b.(issued := b.issued[g.id := g]);
      BaseOk(b') && Grows(b, b') && KnownMember(b', IndexEntry(g, false))
  {
    var b' := b.(issued := b.issued[g.id := g]);
    assert forall st :: Members(b', st) == Members(b, st);
    RowsStay(b, b');
    MembersStayKnown(b, b');
    ChangesGrow(b, b');
    IndexStays(b, b');
    hide IndexOk, Canon, Canonical, RowsOk, OwnersOk, Indexed, KnownGrant, Grows;
    forall id <- b.committed ensures Indexed(b', id) { IndexedStays(b, b', id); }
    assert GrantsOk(b');
  }

  lemma GrantIsIndexed(b: Base, m: IndexEntry)
    requires BaseOk(b) && KnownMember(b, m)
    ensures BaseOk(Indexing(b, m)) && Grows(b, Indexing(b, m)) && Placed(Indexing(b, m), m)
  {
    var b' := Indexing(b, m);
    assert forall st :: Members(b', st) == if st == m.grant.streamId then Members(b, st) + {m} else Members(b, st);
    RowsStay(b, b');
    MembersStayKnown(b, b');
    ChangesGrow(b, b');
    hide Canon, Canonical, RowsOk, OwnersOk, Indexed, KnownGrant, KnownMember, Indexing, Members, Grows;
    forall id <- b.committed ensures Indexed(b', id) { IndexedStays(b, b', id); }
    assert GrantsOk(b');
    assert IndexOk(b');
  }

  lemma GrantIsKeyed(b: Base, m: IndexEntry)
    requires BaseOk(b) && Placed(b, m)
    ensures BaseOk(Keying(b, m)) && Grows(b, Keying(b, m)) && Keyed(Keying(b, m), m)
  {
    var b' := Keying(b, m);
    KnownKey(b, m);
    assert forall st :: Members(b', st) == Members(b, st);
    RowsStay(b, b');
    MembersStayKnown(b, b');
    ChangesGrow(b, b');
    hide Canon, Canonical, RowsOk, OwnersOk, Indexed, KnownGrant, KnownMember, Members, Grows;
    forall id <- b.committed ensures Indexed(b', id) { IndexedStays(b, b', id); }
    assert GrantsOk(b');
    assert IndexOk(b');
  }

  lemma KnownKey(b: Base, m: IndexEntry)
    requires KnownMember(b, m)
    ensures m.grant.id in b.issued && b.issued[m.grant.id].reEncryptionKey == m.grant.reEncryptionKey
  {
  }

  /** The row that a known entity is stored as is a known one. */
  lemma RowIsKnown(b: Base, m: IndexEntry)
    requires GrantsOk(b) && KnownMember(b, m)
    ensures AsRow(m.grant).id == m.grant.id && KnownGrant(b, AsRow(m.grant))
  {
    assert Canonical(UNDEFINED);
  }

  lemma KeyedIsIndexed(b: Base, m: IndexEntry)
    requires GrantsOk(b) && Keyed(b, m)
    ensures Indexed(b, m.grant.id)
  {
    hide Canon, Canonical;
    assert !m.revived ==> m == IndexEntry(b.issued[m.grant.id], false);
  }

  lemma CommittedAreIndexed(b: Base, b': Base, id: Id)
    requires GrantsOk(b) && Grows(b, b') && b'.committed == b.committed + {id} && Indexed(b, id)
    ensures forall id' <- b'.committed :: Indexed(b', id')
  {
    hide Indexed, Grows;
    forall id' <- b'.committed ensures Indexed(b', id') { IndexedStays(b, b', id'); }
  }

  lemma RowIsAdded(b: Base, b': Base, row: Grant)
    requires GrantsOk(b) && KnownGrant(b, row) && b'.issued == b.issued && b'.owners == b.owners
    requires b'.grants == b.grants[row.id := row] && b'.committed == b.committed + {row.id}
    requires forall id <- b'.committed :: Indexed(b', id)
    ensures GrantsOk(b')
  {
    MembersStayKnown(b, b');
    hide Canon, Canonical, Indexed, KnownGrant, KnownMember;
  }

  lemma GrantCommitted(b: Base, m: IndexEntry)
    requires BaseOk(b) && Keyed(b, m)
    ensures BaseOk(Committing(b, m)) && Grows(b, Committing(b, m))
  {
    var b' := Committing(b, m);
    RowIsKnown(b, m);
    KeyedIsIndexed(b, m);
    assert forall st :: Members(b', st) == Members(b, st);
    ChangesGrow(b, b');
    hide AsRow, RowsOk, OwnersOk, Indexed, Keyed, KnownGrant, Grows, GrantsOk, IndexOk;
    RowsStay(b, b');
    IndexStays(b, b');
    CommittedAreIndexed(b, b', m.grant.id);
    RowIsAdded(b, b', AsRow(m.grant));
  }

  /** A committed grant may get another window, or lose its row: neither touches the index or the cached key. */
  lemma GrantRowsChanged(b: Base, grants: map<Id, Grant>)
    requires BaseOk(b)
    requires forall id <- grants :: id in b.grants && grants[id].id == id && KnownGrant(b, grants[id])
    ensures BaseOk(b.(grants := grants)) && Grows(b, b.(grants := grants))
  {
    var b' := b.(grants := grants);
    assert forall st :: Members(b', st) == Members(b, st);
    RowsStay(b, b');
    MembersStayKnown(b, b');
    ChangesGrow(b, b');
    IndexStays(b, b');
    hide IndexOk, Canon, Canonical, RowsOk, OwnersOk, Indexed, KnownGrant, KnownMember, Members, Grows;
    forall id <- b.committed ensures Indexed(b', id) { IndexedStays(b, b', id); }
    assert GrantsOk(b');
  }

  lemma RowIsInserted(b: Base, u: Update)
    requires OwnersOk(b) && RowsOk(b) && KeyOf(u) !in b.rows && u.streamId in b.owners && b.owners[u.streamId] == u.userId
    ensures RowsOk(Insert(b, u)) && Known(Insert(b, u), u)
  {
    KeyIsCanonical(u);
    hide Canon, Canonical;
    assert Names(b, u.streamId, KeyOf(u).id, KeyOf(u));
    hide KeyOf;
  }

  lemma InsertGrows(b: Base, u: Update)
    requires RowsOk(b) && KeyOf(u) !in b.rows
    ensures Grows(b, Insert(b, u))
  {
    hide Canon, Canonical, KeyOf, Names;
    assert forall st :: Members(Insert(b, u), st) == Members(b, st);
  }

  lemma KeyIsCanonical(u: Update)
    ensures KeyOf(u) == RowKey(Canon(u.id), u.userId, u.streamId)
  {
  }

  lemma UpdateIsInserted(b: Base, u: Update)
    requires BaseOk(b) && KeyOf(u) !in b.rows && u.streamId in b.owners && b.owners[u.streamId] == u.userId
    ensures BaseOk(Insert(b, u)) && Grows(b, Insert(b, u)) && Known(Insert(b, u), u)
  {
    RowIsInserted(b, u);
    InsertGrows(b, u);
    hide GrantsOk, IndexOk, RowsOk, Grows, Known;
    GrantsStay(b, Insert(b, u));
  }

  lemma UpdateIsDeleted(b: Base, k: RowKey)
    requires BaseOk(b) && k in b.rows
    ensures var b' := b.(rows := b.rows[k := b.rows[k].(payload := None)]); BaseOk(b') && Grows(b, b')
  {
    hide GrantsOk, IndexOk, Canon, Canonical;
    var b' := b.(rows := b.rows[k := b.rows[k].(payload := None)]);
    assert forall st :: Members(b', st) == Members(b, st);
    GrantsStay(b, b');
    assert RowsOk(b');
  }

  lemma BaseOf(lib: Library, s: State)
    requires Inv(lib, s)
    ensures BaseOk(s.base)
  {
  }

  lemma CreateStreamKeepsInv(lib: Library, s: State, streamId: Id, ownerId: Id)
    requires Inv(lib, s) && Enabled(s, CreateStream(streamId, ownerId))
    ensures Inv(lib, Apply(lib, s, CreateStream(streamId, ownerId)))
  {
    hide Inv, BaseOk, Grows, ProcOk;
    BaseOf(lib, s);
    StreamCreated(s.base, streamId, ownerId);
    GrownBase(lib, s, s.base.(owners := s.base.owners[streamId := ownerId]));
  }

  lemma InsertGrantKeepsInv(lib: Library, s: State, g: Grant)
    requires Inv(lib, s) && Enabled(s, InsertGrant(g))
    ensures Inv(lib, Apply(lib, s, InsertGrant(g)))
  {
    hide Inv, BaseOk, Grows, ProcOk;
    var s', p := s.(base := s.base.(issued := s.base.issued[g.id := g])), GrantInserted(IndexEntry(g, false));
    BaseOf(lib, s);
    GrantIssued(s.base, g);
    GrownBase(lib, s, s'.base);
    Advanced(lib, s'.base, IndexEntry(g, false));
    ProcMayGoOn(lib, s', p, p);
  }

  lemma IndexGrantKeepsInv(lib: Library, s: State, m: IndexEntry)
    requires Inv(lib, s) && Enabled(s, IndexGrant(m))
    ensures Inv(lib, Apply(lib, s, IndexGrant(m)))
  {
    hide Inv, BaseOk, Grows, ProcOk;
    var s' := s.(base := Indexing(s.base, m));
    BaseOf(lib, s);
    ProcOf(lib, s, GrantInserted(m));
    Advanced(lib, s.base, m);
    GrantIsIndexed(s.base, m);
    GrownBase(lib, s, s'.base);
    Advanced(lib, s'.base, m);
    ProcMayGoOn(lib, s', GrantInserted(m), GrantIndexed(m));
  }

  lemma KeyGrantKeepsInv(lib: Library, s: State, m: IndexEntry)
    requires Inv(lib, s) && Enabled(s, KeyGrant(m))
    ensures Inv(lib, Apply(lib, s, KeyGrant(m)))
  {
    hide Inv, BaseOk, Grows, ProcOk;
    var s' := s.(base := Keying(s.base, m));
    BaseOf(lib, s);
    ProcOf(lib, s, GrantIndexed(m));
    Advanced(lib, s.base, m);
    GrantIsKeyed(s.base, m);
    GrownBase(lib, s, s'.base);
    Advanced(lib, s'.base, m);
    ProcMayGoOn(lib, s', GrantIndexed(m), GrantKeyed(m));
  }

  lemma CommitGrantKeepsInv(lib: Library, s: State, m: IndexEntry)
    requires Inv(lib, s) && Enabled(s, CommitGrant(m))
    ensures Inv(lib, Apply(lib, s, CommitGrant(m)))
  {
    hide Inv, BaseOk, Grows, ProcOk;
    var s' := s.(base := Committing(s.base, m));
    BaseOf(lib, s);
    ProcOf(lib, s, GrantKeyed(m));
    Advanced(lib, s.base, m);
    GrantCommitted(s.base, m);
    GrownBase(lib, s, s'.base);
    ProcMayEnd(lib, s', GrantKeyed(m));
  }

  /** What it means for a grant insert to have come as far as each of its awaits. */
  lemma Advanced(lib: Library, b: Base, m: IndexEntry)
    ensures ProcOk(lib, b, GrantInserted(m)) <==> KnownMember(b, m)
    ensures ProcOk(lib, b, GrantIndexed(m)) <==> Placed(b, m)
    ensures ProcOk(lib, b, GrantKeyed(m)) <==> Keyed(b, m)
  {
  }

  lemma LoadRangeKeepsInv(lib: Library, s: State, id: Id, fromDate: Instant, toDate: Instant, streamLoaded: bool)
    requires Inv(lib, s) && Enabled(s, LoadRange(id, fromDate, toDate, streamLoaded))
    ensures Inv(lib, Apply(lib, s, LoadRange(id, fromDate, toDate, streamLoaded)))
  {
    hide Inv, BaseOk, Grows, ProcOk;
    var p := RangeLoaded(Loading(s.base.grants[id], fromDate, toDate, streamLoaded));
    BaseOf(lib, s);
    GrantRows(s.base);
    Modified(lib, s.base, p.g);
    ProcMayGoOn(lib, s, p, p);
  }

  lemma Modified(lib: Library, b: Base, g: Grant)
    ensures ProcOk(lib, b, RangeLoaded(g)) <==> KnownGrant(b, g) && g.id in b.committed
    ensures ProcOk(lib, b, RangeLoaded(g)) ==> ProcOk(lib, b, GrantInserted(IndexEntry(g, true)))
  {
  }

  lemma WriteRangeKeepsInv(lib: Library, s: State, g: Grant)
    requires Inv(lib, s) && Enabled(s, WriteRange(g))
    ensures Inv(lib, Apply(lib, s, WriteRange(g)))
  {
    hide Inv, BaseOk, Grows, ProcOk;
    ProcOf(lib, s, RangeLoaded(g));
    Modified(lib, s.base, g);
    if g.id in s.base.grants {
      var s' := s.(base := Rewindowing(s.base, g));
      BaseOf(lib, s);
      GrantRows(s.base);
      GrantRowsChanged(s.base, s'.base.grants);
      GrownBase(lib, s, s'.base);
      ProcMayEnd(lib, s', RangeLoaded(g));
    } else {
      ProcMayGoOn(lib, s, RangeLoaded(g), GrantInserted(IndexEntry(g, true)));
    }
  }

  lemma BeginDeleteKeepsInv(lib: Library, s: State, id: Id)
    requires Inv(lib, s) && Enabled(s, BeginDelete(id))
    ensures Inv(lib, Apply(lib, s, BeginDelete(id)))
  {
    hide Inv, BaseOk, Grows;
    ProcMayGoOn(lib, s, GrantDeleting(id), GrantDeleting(id));
  }

  lemma DropRowKeepsInv(lib: Library, s: State, id: Id)
    requires Inv(lib, s) && Enabled(s, DropRow(id))
    ensures Inv(lib, Apply(lib, s, DropRow(id)))
  {
    hide Inv, BaseOk, Grows, ProcOk;
    var s' := s.(base := s.base.(grants := s.base.grants - {id}));
    BaseOf(lib, s);
    GrantRows(s.base);
    GrantRowsChanged(s.base, s'.base.grants);
    GrownBase(lib, s, s'.base);
    ProcMayEnd(lib, s', GrantDeleting(id));
  }

  lemma GrantRows(b: Base)
    requires BaseOk(b)
    ensures forall id <- b.grants :: b.grants[id].id == id && KnownGrant(b, b.grants[id]) && id in b.committed
  {
  }

  lemma InsertUpdateKeepsInv(lib: Library, s: State, u: Update)
    requires Inv(lib, s) && Enabled(s, InsertUpdate(u))
    ensures Inv(lib, Apply(lib, s, InsertUpdate(u)))
  {
    hide Inv, BaseOk, Grows, ProcOk;
    var s' := s.(base := Insert(s.base, u));
    BaseOf(lib, s);
    UpdateIsInserted(s.base, u);
    GrownBase(lib, s, s'.base);
    Carried(lib, s'.base, u);
    ProcMayGoOn(lib, s', UpdateInserted(u), UpdateInserted(u));
  }

  lemma DeleteUpdateKeepsInv(lib: Library, s: State, k: RowKey)
    requires Inv(lib, s) && Enabled(s, DeleteUpdate(k))
    ensures Inv(lib, Apply(lib, s, DeleteUpdate(k)))
  {
    hide Inv, BaseOk, Grows, ProcOk;
    BaseOf(lib, s);
    UpdateIsDeleted(s.base, k);
    GrownBase(lib, s, s.base.(rows := s.base.rows[k := s.base.rows[k].(payload := None)]));
  }

  // ----- Steps that carry an update to its grants -----

  lemma Carried(lib: Library, b: Base, u: Update)
    ensures ProcOk(lib, b, UpdateInserted(u)) <==> Known(b, u)
    ensures ProcOk(lib, b, FanOutStarted(u)) <==> Known(b, u)
  {
  }

  lemma TaskCarried(lib: Library, b: Base, t: PreTask)
    ensures ProcOk(lib, b, PreStarted(t)) <==> TaskOk(b, t)
    ensures ProcOk(lib, b, PreListening(t)) <==> TaskOk(b, t)
    ensures forall m: IndexEntry :: m.grant.id == t.grantId && m.grant.recipientId == t.recipientId ==>
      (ProcOk(lib, b, FanOutSending(t.update, m, t.reEncryptionKey)) ==> TaskOk(b, t))
    ensures forall c :: ProcOk(lib, b, PrePublishing(t, c)) <==>
      TaskOk(b, t) && Some(c) == ReEncryptPayload(lib, t.update.payload, t.reEncryptionKey)
  {
  }

  lemma QueuesHold(lib: Library, s: State)
    requires Inv(lib, s)
    ensures forall u <- s.statusQueue :: Known(s.base, u)
    ensures forall t <- s.preQueue :: TaskOk(s.base, t)
    ensures forall u :: Known(s.base, u) ==> Inv(lib, s.(statusQueue := s.statusQueue + {u}))
    ensures forall t :: TaskOk(s.base, t) ==> Inv(lib, s.(preQueue := s.preQueue + multiset{t}))
  {
  }

  lemma QueueUpdateKeepsInv(lib: Library, s: State, u: Update)
    requires Inv(lib, s) && Enabled(s, QueueUpdate(u))
    ensures Inv(lib, Apply(lib, s, QueueUpdate(u)))
  {
    hide Inv, BaseOk, Grows, ProcOk;
    ProcOf(lib, s, UpdateInserted(u));
    Carried(lib, s.base, u);
    QueuesHold(lib, s);
    ProcMayEnd(lib, s.(statusQueue := s.statusQueue + {u}), UpdateInserted(u));
  }

  lemma DeliverUpdateKeepsInv(lib: Library, s: State, u: Update)
    requires Inv(lib, s) && Enabled(s, DeliverUpdate(u))
    ensures Inv(lib, Apply(lib, s, DeliverUpdate(u)))
  {
    hide Inv, BaseOk, Grows, ProcOk;
    QueuesHold(lib, s);
    Carried(lib, s.base, u);
    ProcMayGoOn(lib, s, FanOutStarted(u), FanOutStarted(u));
  }

  lemma FanOutIsRight(lib: Library, b: Base, u: Update)
    requires Known(b, u)
    ensures forall q <- FanOutTasks(b, u) :: ProcOk(lib, b, q)
  {
  }

  lemma ReadIndexKeepsInv(lib: Library, s: State, u: Update)
    requires Inv(lib, s) && Enabled(s, ReadIndex(u))
    ensures Inv(lib, Apply(lib, s, ReadIndex(u)))
  {
    hide Inv, BaseOk, Grows, ProcOk;
    ProcOf(lib, s, FanOutStarted(u));
    Carried(lib, s.base, u);
    FanOutIsRight(lib, s.base, u);
    ProcsMayChange(lib, s, FanOutStarted(u), FanOutTasks(s.base, u));
  }

  lemma KeyReadIsRight(lib: Library, b: Base, u: Update, m: IndexEntry)
    requires BaseOk(b) && ProcOk(lib, b, FanOutTask(u, m)) && Truthy(Get(b.keys, m.grant.id))
    ensures ProcOk(lib, b, FanOutSending(u, m, Get(b.keys, m.grant.id)))
  {
    MemberIsOfItsStream(b, u, m);
  }

  /** A member of the set that an update names is a grant of the update's stream. */
  lemma MemberIsOfItsStream(b: Base, u: Update, m: IndexEntry)
    requires BaseOk(b) && Known(b, u) && m in Members(b, u.streamId)
    ensures KnownMember(b, m) && m.grant.streamId == u.streamId && Canon(b.issued[m.grant.id].streamId) == u.streamId
  {
    assert Names(b, KeyOf(u).streamId, KeyOf(u).id, KeyOf(u));
  }

  lemma ReadKeyKeepsInv(lib: Library, s: State, u: Update, member: IndexEntry)
    requires Inv(lib, s) && Enabled(s, ReadKey(u, member))
    ensures Inv(lib, Apply(lib, s, ReadKey(u, member)))
  {
    hide Inv, BaseOk, Grows, ProcOk;
    var key := Get(s.base.keys, member.grant.id);
    ProcOf(lib, s, FanOutTask(u, member));
    BaseOf(lib, s);
    ProcMayEnd(lib, s, FanOutTask(u, member));
    if Truthy(key) {
      KeyReadIsRight(lib, s.base, u, member);
      ProcMayGoOn(lib, s, FanOutTask(u, member), FanOutSending(u, member, key));
    }
  }

  lemma SendTaskKeepsInv(lib: Library, s: State, u: Update, member: IndexEntry, key: JsValue)
    requires Inv(lib, s) && Enabled(s, SendTask(u, member, key))
    ensures Inv(lib, Apply(lib, s, SendTask(u, member, key)))
  {
    hide Inv, BaseOk, Grows, ProcOk;
    var t := TaskOf(u, member, key);
    ProcOf(lib, s, FanOutSending(u, member, key));
    TaskCarried(lib, s.base, t);
    QueuesHold(lib, s);
    ProcMayEnd(lib, s.(preQueue := s.preQueue + multiset{t}), FanOutSending(u, member, key));
  }

  lemma DeliverTaskKeepsInv(lib: Library, s: State, t: PreTask)
    requires Inv(lib, s) && Enabled(s, DeliverTask(t))
    ensures Inv(lib, Apply(lib, s, DeliverTask(t)))
  {
    hide Inv, BaseOk, Grows, ProcOk;
    QueuesHold(lib, s);
    TaskCarried(lib, s.base, t);
    ProcMayGoOn(lib, s, PreStarted(t), PreStarted(t));
  }

  lemma FindListenerKeepsInv(lib: Library, s: State, t: PreTask)
    requires Inv(lib, s) && Enabled(s, FindListener(t))
    ensures Inv(lib, Apply(lib, s, FindListener(t)))
  {
    hide Inv, BaseOk, Grows, ProcOk;
    ProcOf(lib, s, PreStarted(t));
    TaskCarried(lib, s.base, t);
    ProcMayGoOn(lib, s, PreStarted(t), PreListening(t));
  }

  /** Caching a payload that comes from a grant keeps the invariant. */
  lemma EntryStored(lib: Library, s: State, e: Entry, k: RowKey, c: string)
    requires Inv(lib, s) && Explained(lib, s.base, e.recipientId, k, c)
    requires k.streamId == Canon(e.streamId) && k.id == Canon(e.updateId)
    ensures EntryOk(lib, s.base, e, c)
    ensures Inv(lib, s.(payloads := s.payloads[e := c]))
  {
    hide Explained, Canon, Canonical;
    assert k in s.base.inserted by { ExplainedIsInserted(lib, s.base, e.recipientId, k, c); }
    assert Names(s.base, k.streamId, k.id, k);
  }

  /** The rows that payloads come from are keyed by canonical ids. */
  lemma ExplainedIsInserted(lib: Library, b: Base, r: Id, k: RowKey, c: string)
    requires Explained(lib, b, r, k, c)
    ensures k in b.inserted
    ensures RowsOk(b) ==> Canon(k.id) == k.id
  {
    assert k in b.inserted;
    assert RowsOk(b) ==> KeyOf(b.inserted[k]) == k;
  }

  lemma TaskExplains(lib: Library, b: Base, t: PreTask, c: string)
    requires TaskOk(b, t) && Some(c) == ReEncryptPayload(lib, t.update.payload, t.reEncryptionKey)
    ensures Explained(lib, b, t.recipientId, KeyOf(t.update), c)
  {
    assert From(lib, b, t.recipientId, KeyOf(t.update), c, t.grantId);
  }

  lemma StreamsAreCanonical(lib: Library, s: State, t: PreTask)
    requires Inv(lib, s) && TaskOk(s.base, t)
    ensures Canon(t.update.streamId) == t.update.streamId && t.update.streamId in s.base.owners
  {
  }

  lemma StorePayloadKeepsInv(lib: Library, s: State, t: PreTask)
    requires Inv(lib, s) && Enabled(s, StorePayload(t))
    ensures Inv(lib, Apply(lib, s, StorePayload(t)))
  {
    hide Inv, BaseOk, Grows, ProcOk, ReEncryptPayload, Explained, TaskOk;
    var c := ReEncryptPayload(lib, t.update.payload, t.reEncryptionKey);
    ProcOf(lib, s, PreListening(t));
    TaskCarried(lib, s.base, t);
    ProcMayEnd(lib, s, PreListening(t));
    if c.Some? {
      TaskExplains(lib, s.base, t, c.value);
      StreamsAreCanonical(lib, s, t);
      EntryStored(lib, s, EntryFor(t), KeyOf(t.update), c.value);
      var s' := s.(payloads := s.payloads[EntryFor(t) := c.value]);
      ProcMayGoOn(lib, s', PreListening(t), PrePublishing(t, c.value));
    }
  }

  lemma MessageIsRight(lib: Library, s: State, t: PreTask, c: string)
    requires Inv(lib, s) && ProcOk(lib, s.base, PrePublishing(t, c))
    ensures PublicationOk(lib, s.base, Message(t, c))
    ensures Inv(lib, s.(published := s.published + [Message(t, c)]))
  {
    hide ReEncryptPayload, Canon, Canonical;
    var g := s.base.issued[t.grantId];
    assert Names(s.base, t.update.streamId, Canon(t.update.id), KeyOf(t.update));
    assert PublicationOk(lib, s.base, Message(t, c));
  }

  lemma PublishKeepsInv(lib: Library, s: State, t: PreTask, payload: string)
    requires Inv(lib, s) && Enabled(s, Publish(t, payload))
    ensures Inv(lib, Apply(lib, s, Publish(t, payload)))
  {
    hide Inv, BaseOk, Grows, ProcOk;
    ProcOf(lib, s, PrePublishing(t, payload));
    MessageIsRight(lib, s, t, payload);
    ProcMayEnd(lib, s.(published := s.published + [Message(t, payload)]), PrePublishing(t, payload));
  }

  // ----- Steps of a read -----

  /** Every cached payload reads back as the string that was stored. */
  lemma HitIsStoredPayload(lib: Library, s: State, e: Entry)
    requires Lawful(lib) && PayloadsOk(lib, s.base, s.payloads) && e in s.payloads
    ensures Loaded(s.payloads[e]) == Str(s.payloads[e])
  {
    var b, c := s.base, s.payloads[e];
    assert EntryOk(lib, b, e, c);
    var k := RowOf(b, e.streamId, e.updateId);
    var id :| From(lib, b, e.recipientId, k, c, id);
    var g, payload := b.issued[id], b.inserted[k].payload;
    if Some(c) == ReEncryptPayload(lib, payload, Loaded(g.reEncryptionKey)) {
      ReEncryptedPayloadSurvivesCache(lib, payload, Loaded(g.reEncryptionKey));
    } else {
      ReEncryptedPayloadSurvivesCache(lib, payload, Str(g.reEncryptionKey));
    }
  }

  /** Returning a cached payload keeps the invariant. */
  lemma HitIsReturned(lib: Library, s: State, e: Entry)
    requires Lawful(lib) && Inv(lib, s) && e in s.payloads
    ensures var x := Returned(e.recipientId, e.streamId, e.updateId, Get(s.payloads, e));
      Inv(lib, s.(returned := s.returned + [x]))
  {
    hide EntryOk, Loaded;
    HitIsStoredPayload(lib, s, e);
    var x := Returned(e.recipientId, e.streamId, e.updateId, Get(s.payloads, e));
    assert ReturnedOk(lib, s.base, x);
  }

  /** Returning a payload that was just cached keeps the invariant. */
  lemma ComputedIsReturned(lib: Library, s: State, e: Entry, c: string)
    requires Inv(lib, s) && EntryOk(lib, s.base, e, c)
    ensures Inv(lib, s.(returned := s.returned + [Returned(e.recipientId, e.streamId, e.updateId, Str(c))]))
  {
    hide EntryOk;
    assert ReturnedOk(lib, s.base, Returned(e.recipientId, e.streamId, e.updateId, Str(c)));
  }

  /** The window check has passed for every update a read goes on to look up. */
  lemma SelectedIsReadable(lib: Library, b: Base, r: Id, st: Id, w: Window, found: seq<Grant>, k: RowKey)
    requires BaseOk(b) && ProcOk(lib, b, WindowChecked(r, st, w, found))
    requires k in b.rows && k.streamId == Canon(st) && w.fromDate <= b.rows[k].recordedAt <= w.toDate
    ensures ProcOk(lib, b, Reading(r, st, found, k, b.rows[k]))
  {
    hide Canon, Canonical, FoundOk, Outcome, AllOverlap, FindAt, GrantsOk, IndexOk, OwnersOk, Names;
    AcceptedWindowsMakeLookupTotal(found, w, b.rows[k].recordedAt);
  }

  lemma FoundAreKnown(lib: Library, b: Base, r: Id, st: Id, w: Window, found: seq<Grant>)
    requires BaseOk(b) && Canon(st) != UNDEFINED && ByRange(found, b.grants.Values, Canon(r), Canon(st), w)
    requires Outcome(SortByFrom(found), w) == Granted
    ensures ProcOk(lib, b, WindowChecked(r, st, w, found))
  {
    hide Canon, Canonical;
    forall g <- found ensures FoundOk(b, r, st, g) { assert g in b.grants.Values; }
  }

  lemma CheckWindowKeepsInv(lib: Library, s: State, recipientId: Id, streamId: Id, w: Window, found: seq<Grant>)
    requires Inv(lib, s) && Enabled(s, CheckWindow(recipientId, streamId, w, found))
    ensures Inv(lib, Apply(lib, s, CheckWindow(recipientId, streamId, w, found)))
  {
    hide Inv, BaseOk, Grows, ProcOk;
    var p := WindowChecked(recipientId, streamId, w, found);
    if Outcome(SortByFrom(found), w) == Granted {
      BaseOf(lib, s);
      FoundAreKnown(lib, s.base, recipientId, streamId, w, found);
      ProcMayGoOn(lib, s, p, p);
    }
  }

  lemma SelectUpdatesKeepsInv(lib: Library, s: State, recipientId: Id, streamId: Id, w: Window, found: seq<Grant>)
    requires Inv(lib, s) && Enabled(s, SelectUpdates(recipientId, streamId, w, found))
    ensures Inv(lib, Apply(lib, s, SelectUpdates(recipientId, streamId, w, found)))
  {
    hide Inv, BaseOk, Grows, ProcOk;
    var p := WindowChecked(recipientId, streamId, w, found);
    ProcOf(lib, s, p);
    BaseOf(lib, s);
    hide Canon, Canonical;
    forall q <- Readings(s.base, recipientId, streamId, w, found) ensures ProcOk(lib, s.base, q) {
      SelectedIsReadable(lib, s.base, recipientId, streamId, w, found, q.k);
    }
    ProcsMayChange(lib, s, p, Readings(s.base, recipientId, streamId, w, found));
  }

  lemma ComputedIsExplained(lib: Library, b: Base, r: Id, st: Id, found: seq<Grant>, k: RowKey, row: Row)
    requires ProcOk(lib, b, Reading(r, st, found, k, row)) && Computed(lib, found, row).Some?
    ensures ProcOk(lib, b, Storing(r, st, k, Computed(lib, found, row).value))
  {
    hide ReEncryptPayload, Canonical;
    var g := FindAt(found, row.recordedAt).grant;
    assert g in found && FoundOk(b, r, st, g);
    assert From(lib, b, r, k, Computed(lib, found, row).value, g.id);
  }

  lemma LookUpPayloadKeepsInv(lib: Library, s: State, r: Id, st: Id, found: seq<Grant>, k: RowKey, row: Row)
    requires Lawful(lib) && Inv(lib, s) && Enabled(s, LookUpPayload(r, st, found, k, row))
    ensures Inv(lib, Apply(lib, s, LookUpPayload(r, st, found, k, row)))
  {
    hide Inv, BaseOk, Grows, ProcOk, Computed, Lawful;
    var p, e := Reading(r, st, found, k, row), Entry(r, st, k.id);
    ProcOf(lib, s, p);
    ProcMayEnd(lib, s, p);
    if Truthy(Get(s.payloads, e)) {
      HitIsReturned(lib, s, e);
      ProcMayEnd(lib, s.(returned := s.returned + [Returned(r, st, k.id, Get(s.payloads, e))]), p);
    } else if Computed(lib, found, row).Some? {
      ComputedIsExplained(lib, s.base, r, st, found, k, row);
      ProcMayGoOn(lib, s, p, Storing(r, st, k, Computed(lib, found, row).value));
    }
  }

  lemma StoreComputedKeepsInv(lib: Library, s: State, r: Id, st: Id, k: RowKey, payload: string)
    requires Inv(lib, s) && Enabled(s, StoreComputed(r, st, k, payload))
    ensures Inv(lib, Apply(lib, s, StoreComputed(r, st, k, payload)))
  {
    hide Inv, BaseOk, Grows, ProcOk, Explained, EntryOk, Canon, Canonical, RowsOk;
    var p, e := Storing(r, st, k, payload), Entry(r, st, k.id);
    ProcOf(lib, s, p);
    BaseOf(lib, s);
    RowsOf(s.base);
    StoringIsExplained(lib, s.base, r, st, k, payload);
    ExplainedIsInserted(lib, s.base, r, k, payload);
    EntryStored(lib, s, e, k, payload);
    var s' := s.(payloads := s.payloads[e := payload]);
    ComputedIsReturned(lib, s', e, payload);
    ProcMayEnd(lib, s'.(returned := s.returned + [Returned(r, st, k.id, Str(payload))]), p);
  }

  lemma RowsOf(b: Base)
    requires BaseOk(b)
    ensures RowsOk(b)
  {
  }

  lemma StoringIsExplained(lib: Library, b: Base, r: Id, st: Id, k: RowKey, c: string)
    requires ProcOk(lib, b, Storing(r, st, k, c))
    ensures k.streamId == Canon(st) && Explained(lib, b, r, k, c)
  {
  }

  lemma FailKeepsInv(lib: Library, s: State, p: Proc)
    requires Inv(lib, s) && Enabled(s, Fail(p))
    ensures Inv(lib, Apply(lib, s, Fail(p)))
  {
    ProcMayEnd(lib, s, p);
  }

  /** Every step of every process keeps the invariant. */
  lemma StepKeepsInv(lib: Library, s: State, step: Step)
    requires Lawful(lib) && Inv(lib, s) && Enabled(s, step)
    ensures Inv(lib, Apply(lib, s, step))
  {
    hide Inv, Enabled, Apply, Lawful;
    match step
    case CreateStream(st, o) => CreateStreamKeepsInv(lib, s, st, o);
    case InsertGrant(g) => InsertGrantKeepsInv(lib, s, g);
    case IndexGrant(m) => IndexGrantKeepsInv(lib, s, m);
    case KeyGrant(m) => KeyGrantKeepsInv(lib, s, m);
    case CommitGrant(m) => CommitGrantKeepsInv(lib, s, m);
    case LoadRange(id, from, to, streamLoaded) => LoadRangeKeepsInv(lib, s, id, from, to, streamLoaded);
    case WriteRange(g) => WriteRangeKeepsInv(lib, s, g);
    case BeginDelete(id) => BeginDeleteKeepsInv(lib, s, id);
    case DropRow(id) => DropRowKeepsInv(lib, s, id);
    case InsertUpdate(u) => InsertUpdateKeepsInv(lib, s, u);
    case QueueUpdate(u) => QueueUpdateKeepsInv(lib, s, u);
    case DeleteUpdate(k) => DeleteUpdateKeepsInv(lib, s, k);
    case DeliverUpdate(u) => DeliverUpdateKeepsInv(lib, s, u);
    case ReadIndex(u) => ReadIndexKeepsInv(lib, s, u);
    case ReadKey(u, m) => ReadKeyKeepsInv(lib, s, u, m);
    case SendTask(u, m, key) => SendTaskKeepsInv(lib, s, u, m, key);
    case DeliverTask(t) => DeliverTaskKeepsInv(lib, s, t);
    case FindListener(t) => FindListenerKeepsInv(lib, s, t);
    case StorePayload(t) => StorePayloadKeepsInv(lib, s, t);
    case Publish(t, c) => PublishKeepsInv(lib, s, t, c);
    case CheckWindow(r, st, w, found) => CheckWindowKeepsInv(lib, s, r, st, w, found);
    case SelectUpdates(r, st, w, found) => SelectUpdatesKeepsInv(lib, s, r, st, w, found);
    case LookUpPayload(r, st, found, k, row) => LookUpPayloadKeepsInv(lib, s, r, st, found, k, row);
    case StoreComputed(r, st, k, c) => StoreComputedKeepsInv(lib, s, r, st, k, c);
    case Fail(p) => FailKeepsInv(lib, s, p);
  }

  lemma {:induction false} RunKeepsInv(lib: Library, s: State, steps: seq<Step>, s': State)
    requires Lawful(lib) && Inv(lib, s) && Leads(lib, s, steps, s')
    ensures Inv(lib, s')
    decreases |steps|
  {
    if steps == [] {
    } else {
      StepKeepsInv(lib, s, steps[0]);
      RunKeepsInv(lib, Apply(lib, s, steps[0]), steps[1..], s');
    }
  }

  lemma ReachableInv(lib: Library, s: State)
    requires Lawful(lib) && Reachable(lib, s)
    ensures Inv(lib, s)
  {
    var steps :| Leads(lib, INIT, steps, s);
    RunKeepsInv(lib, INIT, steps, s);
  }
}

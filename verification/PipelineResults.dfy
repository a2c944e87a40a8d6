/** What the pipeline guarantees in every reachable state, whatever the interleaving, the
    redeliveries and the failures that led there. */
module PipelineResults {
  import opened Entities
  import opened Json
  import opened Cache
  import opened Coverage
  import opened Pre
  import opened Pipeline

  // ----- Published messages -----

  /** Every message published for a grant is about an update of the grant's stream, names its
      recipient, and carries that update's original payload re-encrypted with that grant's key. */
  lemma EveryPublicationIsRight(lib: Library, s: State, p: Publication)
    requires Lawful(lib) && Reachable(lib, s) && p in s.published
    ensures p.grantId in s.base.issued && p.streamId in s.base.owners
    ensures var g := s.base.issued[p.grantId];
      var k := RowKey(Canon(p.id), s.base.owners[p.streamId], p.streamId);
      && p.streamId == Canon(g.streamId) && SameId(p.recipientId, g.recipientId)
      && k in s.base.inserted && p.id == s.base.inserted[k].id && p.recordedAt == s.base.inserted[k].recordedAt
      && Some(p.payload) == ReEncryptPayload(lib, s.base.inserted[k].payload, Loaded(g.reEncryptionKey))
      && (!IsJsonText(g.reEncryptionKey) ==>
          Some(p.payload) == ReEncryptPayload(lib, s.base.inserted[k].payload, Str(g.reEncryptionKey)))
  {
    ReachableInv(lib, s);
    assert PublicationOk(lib, s.base, p);
  }

  // ----- The grant index -----

  /** Every committed grant is in the set of the stream id it was sent with, and its cached key is its
      own. Whatever else the index holds for its id is a row that was inserted again. It stays so
      after its window is modified or its row is deleted. */
  lemma EveryCommittedGrantIsIndexed(lib: Library, s: State, id: Id)
    requires Lawful(lib) && Reachable(lib, s) && id in s.base.committed
    ensures id in s.base.issued && id in s.base.keys
    ensures var g := s.base.issued[id];
      && g.id == id && IndexEntry(g, false) in Members(s.base, g.streamId) && s.base.keys[id] == g.reEncryptionKey
      && (forall st, m :: m in Members(s.base, st) && m.grant.id == id ==>
            if m.revived then st == UNDEFINED || st == Canon(g.streamId) else m == IndexEntry(g, false) && st == g.streamId)
      && (id in s.base.grants ==>
            var row := s.base.grants[id];
            && (row.streamId == UNDEFINED || row.streamId == Canon(g.streamId))
            && row == AsRow(g).(fromDate := row.fromDate, toDate := row.toDate, streamId := row.streamId))
  {
    ReachableInv(lib, s);
    assert Indexed(s.base, id);
    assert id in s.base.grants ==> KnownGrant(s.base, s.base.grants[id]);
    hide Canon, Canonical;
  }

  /** Whoever is in the table is committed. */
  lemma EveryRowIsCommitted(lib: Library, s: State, id: Id)
    requires Lawful(lib) && Reachable(lib, s) && id in s.base.grants
    ensures id in s.base.committed
  {
    ReachableInv(lib, s);
  }

  /** Only the steps of grants, streams and updates change the tables and the index. */
  lemma BaseStays(lib: Library, s: State, step: Step)
    requires Enabled(s, step) && !IsGrantStep(step) && !step.InsertUpdate? && !step.DeleteUpdate?
    ensures Apply(lib, s, step).base == s.base
  {
    hide Enabled, ReEncryptPayload, Computed, Outcome, Canon, Truthy, Get, Readings, FanOutTasks, Message, EntryFor, TaskOf;
  }

  lemma IndexStep(lib: Library, s: State, m: IndexEntry)
    requires GrantInserted(m) in s.procs
    ensures Enabled(s, IndexGrant(m))
    ensures Apply(lib, s, IndexGrant(m)) == Becomes(s.(base := Indexing(s.base, m)), GrantInserted(m), GrantIndexed(m))
  {
  }

  /** The parts of the base that a grant's steps write one at a time. */
  lemma IndexIsKept(b: Base, m: IndexEntry, g: Grant)
    ensures Keying(b, m).index == b.index && Committing(b, m).index == b.index
    ensures g.id in b.grants ==> Rewindowing(b, g).index == b.index
  {
  }

  lemma OthersKeepTheIndex(lib: Library, s: State, step: Step)
    requires Enabled(s, step) && !step.IndexGrant?
    ensures Apply(lib, s, step).base.index == s.base.index
  {
    hide Canon, Loading, AsRow, Members, Keying, Committing, Rewindowing, KeyOf;
    if step.KeyGrant? || step.CommitGrant? {
      IndexIsKept(s.base, step.m, step.m.grant);
    } else if step.WriteRange? {
      IndexIsKept(s.base, IndexEntry(step.g, true), step.g);
    } else if !(IsGrantStep(step) || step.InsertUpdate? || step.DeleteUpdate?) {
      BaseStays(lib, s, step);
      hide Apply, Enabled;
    }
  }

  lemma IndexChanges(lib: Library, s: State, step: Step, st: Id, m: IndexEntry)
    requires Enabled(s, step)
    ensures m in Members(Apply(lib, s, step).base, st) <==>
            m in Members(s.base, st) || (step == IndexGrant(m) && st == m.grant.streamId)
  {
    if step.IndexGrant? {
      IndexStep(lib, s, step.m);
    } else {
      OthersKeepTheIndex(lib, s, step);
    }
    hide Apply, Enabled;
  }

  /** The index holds what the run added to it, for good. */
  lemma {:induction false} IndexRecordsTheRun(lib: Library, s: State, steps: seq<Step>, s': State, st: Id, m: IndexEntry)
    requires Leads(lib, s, steps, s')
    ensures m in Members(s'.base, st) <==>
            m in Members(s.base, st) || (IndexGrant(m) in steps && st == m.grant.streamId)
    decreases |steps|
  {
    hide Enabled, Apply, Members;
    if steps != [] {
      var s1 := Apply(lib, s, steps[0]);
      IndexChanges(lib, s, steps[0], st, m);
      IndexRecordsTheRun(lib, s1, steps[1..], s', st, m);
      assert steps == [steps[0]] + steps[1..];
    }
  }

  ghost predicate InsertsAgain(steps: seq<Step>, id: Id) {
    exists m :: IndexGrant(m) in steps && m.revived && m.grant.id == id
  }

  /** The whole index holds one entry for the grant. */
  ghost predicate IndexedOnce(b: Base, id: Id) {
    forall st, m, st', m' :: m in Members(b, st) && m.grant.id == id && m' in Members(b, st') && m'.grant.id == id ==>
      m == m' && st == st'
  }

  /** A committed grant is indexed once iff no row of its id was inserted again. */
  lemma IndexedOnceIff(lib: Library, steps: seq<Step>, s: State, id: Id)
    requires Lawful(lib) && Leads(lib, INIT, steps, s) && id in s.base.committed
    ensures IndexedOnce(s.base, id) <==> !InsertsAgain(steps, id)
  {
    assert Reachable(lib, s);
    EveryCommittedGrantIsIndexed(lib, s, id);
    var g := s.base.issued[id];
    var entry := IndexEntry(g, false);
    hide Leads, Reachable, Canon, Canonical;
    if InsertsAgain(steps, id) {
      var m :| IndexGrant(m) in steps && m.revived && m.grant.id == id;
      IndexRecordsTheRun(lib, INIT, steps, s, m.grant.streamId, m);
      assert entry in Members(s.base, g.streamId) && entry != m;
    } else {
      forall st, m | m in Members(s.base, st) && m.grant.id == id ensures !m.revived {
        IndexRecordsTheRun(lib, INIT, steps, s, st, m);
      }
    }
  }

  lemma RowChanges(lib: Library, s: State, step: Step, id: Id)
    requires Enabled(s, step) && step != DropRow(id) && id in s.base.grants
    ensures id in Apply(lib, s, step).base.grants
  {
    if IsGrantStep(step) || step.InsertUpdate? || step.DeleteUpdate? {
      hide Canon, Loading, AsRow, Members;
    } else {
      BaseStays(lib, s, step);
      hide Apply, Enabled;
    }
  }

  lemma {:induction false} RowsStay(lib: Library, s: State, steps: seq<Step>, s': State, id: Id)
    requires Leads(lib, s, steps, s') && DropRow(id) !in steps && id in s.base.grants
    ensures id in s'.base.grants
    decreases |steps|
  {
    hide Enabled, Apply;
    if steps != [] {
      RowChanges(lib, s, steps[0], id);
      RowsStay(lib, Apply(lib, s, steps[0]), steps[1..], s', id);
    }
  }

  /** A window change whose row is not deleted between its read and its write changes the window and
      nothing else. */
  lemma WindowChangeWithoutDeletion(lib: Library, s: State, id: Id, fromDate: Instant, toDate: Instant, streamLoaded: bool,
                                    steps: seq<Step>, s': State)
    requires Lawful(lib) && Reachable(lib, s)
    requires Enabled(s, LoadRange(id, fromDate, toDate, streamLoaded))
    requires Leads(lib, Apply(lib, s, LoadRange(id, fromDate, toDate, streamLoaded)), steps, s') && DropRow(id) !in steps
    requires var g := Loading(s.base.grants[id], fromDate, toDate, streamLoaded); RangeLoaded(g) in s'.procs
    ensures id in s'.base.grants
    ensures var write := WriteRange(Loading(s.base.grants[id], fromDate, toDate, streamLoaded));
      && Enabled(s', write)
      && Apply(lib, s', write).base
         == s'.base.(grants := s'.base.grants[id := s'.base.grants[id].(fromDate := fromDate, toDate := toDate)])
  {
    ReachableInv(lib, s);
    var load := LoadRange(id, fromDate, toDate, streamLoaded);
    assert s.base.grants[id].id == id;
    RowsStay(lib, Apply(lib, s, load), steps, s', id);
  }

  function DeletionBetween(row: Grant, fromDate: Instant, toDate: Instant, streamLoaded: bool): seq<Step> {
    var g := Loading(row, fromDate, toDate, streamLoaded);
    [LoadRange(row.id, fromDate, toDate, streamLoaded), BeginDelete(row.id), DropRow(row.id), WriteRange(g),
     IndexGrant(IndexEntry(g, true))]
  }

  lemma DeletionBetweenIsARun(lib: Library, s: State, id: Id, fromDate: Instant, toDate: Instant, streamLoaded: bool)
    returns (s': State)
    requires Enabled(s, LoadRange(id, fromDate, toDate, streamLoaded)) && s.base.grants[id].id == id
    ensures Leads(lib, s, DeletionBetween(s.base.grants[id], fromDate, toDate, streamLoaded), s')
  {
    var g := Loading(s.base.grants[id], fromDate, toDate, streamLoaded);
    var m, load := IndexEntry(g, true), LoadRange(id, fromDate, toDate, streamLoaded);
    assert g.id == id;
    var s1 := Began(s, RangeLoaded(g));
    var s2 := Began(s1, GrantDeleting(id));
    var s3 := Ended(s2.(base := s2.base.(grants := s2.base.grants - {id})), GrantDeleting(id));
    var s4 := Becomes(s3, RangeLoaded(g), GrantInserted(m));
    s' := Becomes(s4.(base := Indexing(s4.base, m)), GrantInserted(m), GrantIndexed(m));
    assert RangeLoaded(g) in s3.procs && GrantDeleting(id) in s2.procs && GrantInserted(m) in s4.procs;
    assert id in s1.base.grants && id !in s3.base.grants;
    assert Enabled(s, load) && Apply(lib, s, load) == s1;
    hide Loading, Enabled, Apply, Began, Ended, Becomes, Indexing;
    BeginStep(lib, s1, id);
    DropStep(lib, s2, id);
    RewriteStep(lib, s3, g);
    IndexStep(lib, s4, m);
    FiveSteps(lib, s, load, s1, BeginDelete(id), s2, DropRow(id), s3, WriteRange(g), s4, IndexGrant(m), s');
  }

  /** If the deletion falls between them, the write inserts the row again and the index gets a second
      entry for its id. */
  lemma DeletionBetweenInsertsAgain(lib: Library, s: State, id: Id, fromDate: Instant, toDate: Instant, streamLoaded: bool)
    returns (s': State)
    requires Lawful(lib) && Reachable(lib, s) && Enabled(s, LoadRange(id, fromDate, toDate, streamLoaded))
    ensures var steps := DeletionBetween(s.base.grants[id], fromDate, toDate, streamLoaded);
      Leads(lib, s, steps, s') && InsertsAgain(steps, id)
    ensures !IndexedOnce(s'.base, id)
  {
    ReachableInv(lib, s);
    EveryRowIsCommitted(lib, s, id);
    EveryCommittedGrantIsIndexed(lib, s, id);
    assert s.base.grants[id].id == id;
    var steps := DeletionBetween(s.base.grants[id], fromDate, toDate, streamLoaded);
    var g := Loading(s.base.grants[id], fromDate, toDate, streamLoaded);
    var m, first := IndexEntry(g, true), IndexEntry(s.base.issued[id], false);
    assert steps[4] == IndexGrant(m) && IndexGrant(m) in steps && g.id == id;
    hide Inv, Reachable, Lawful, DeletionBetween, Leads, Apply, Members, Canon, Canonical, Loading;
    s' := DeletionBetweenIsARun(lib, s, id, fromDate, toDate, streamLoaded);
    IndexRecordsTheRun(lib, s, steps, s', g.streamId, m);
    IndexRecordsTheRun(lib, s, steps, s', first.grant.streamId, first);
  }

  lemma BeginStep(lib: Library, s: State, id: Id)
    requires id in s.base.grants
    ensures Enabled(s, BeginDelete(id)) && Apply(lib, s, BeginDelete(id)) == Began(s, GrantDeleting(id))
  {
  }

  lemma DropStep(lib: Library, s: State, id: Id)
    requires GrantDeleting(id) in s.procs
    ensures Enabled(s, DropRow(id))
    ensures Apply(lib, s, DropRow(id)) == Ended(s.(base := s.base.(grants := s.base.grants - {id})), GrantDeleting(id))
  {
  }

  lemma RewriteStep(lib: Library, s: State, g: Grant)
    requires RangeLoaded(g) in s.procs && g.id !in s.base.grants
    ensures Enabled(s, WriteRange(g))
    ensures Apply(lib, s, WriteRange(g)) == Becomes(s, RangeLoaded(g), GrantInserted(IndexEntry(g, true)))
  {
  }

  lemma FiveSteps(lib: Library, s: State, a: Step, s1: State, b: Step, s2: State, c: Step, s3: State, d: Step, s4: State, e: Step, s5: State)
    requires Enabled(s, a) && Apply(lib, s, a) == s1 && Enabled(s1, b) && Apply(lib, s1, b) == s2
    requires Enabled(s2, c) && Apply(lib, s2, c) == s3 && Enabled(s3, d) && Apply(lib, s3, d) == s4
    requires Enabled(s4, e) && Apply(lib, s4, e) == s5
    ensures Leads(lib, s, [a, b, c, d, e], s5)
  {
    hide *;
    assert [e] + [] == [e] && [d] + [e] == [d, e] && [c] + [d, e] == [c, d, e];
    assert [b] + [c, d, e] == [b, c, d, e] && [a] + [b, c, d, e] == [a, b, c, d, e];
    NoStep(lib, s5);
    OneStepMore(lib, s4, e, [], s5);
    OneStepMore(lib, s3, d, [e], s5);
    OneStepMore(lib, s2, c, [d, e], s5);
    OneStepMore(lib, s1, b, [c, d, e], s5);
    OneStepMore(lib, s, a, [b, c, d, e], s5);
  }

  /** An update names the set of its stream's canonical id. A committed grant that is indexed once is in
      that set iff its stream id was sent in canonical spelling. */
  lemma ReachedIffSentCanonically(lib: Library, s: State, id: Id, u: Update)
    requires Lawful(lib) && Reachable(lib, s) && id in s.base.committed && IndexedOnce(s.base, id)
    requires Known(s.base, u) && id in s.base.issued && u.streamId == Canon(s.base.issued[id].streamId)
    ensures (exists m :: m in Members(s.base, u.streamId) && m.grant.id == id) <==> Canonical(s.base.issued[id].streamId)
  {
    EveryCommittedGrantIsIndexed(lib, s, id);
    var g := s.base.issued[id];
    assert IndexEntry(g, false) in Members(s.base, g.streamId);
  }

  // ----- Cached reads -----

  /** Every grant ever issued to the recipient on the stream has a plain key that re-encrypts from
      the owner to the recipient. */
  ghost predicate KeysAreRight(lib: Library, b: Base, streamId: Id, recipientId: Id, ownerKey: string, recipientKey: string) {
    forall id <- b.issued :: IsFor(b.issued[id], streamId, recipientId) ==>
      && !IsJsonText(b.issued[id].reEncryptionKey)
      && ReEncryptsFor(lib, Str(b.issued[id].reEncryptionKey), ownerKey, recipientKey)
  }

  predicate IsFor(g: Grant, streamId: Id, recipientId: Id) { SameId(g.streamId, streamId) && SameId(g.recipientId, recipientId) }

  /** A payload that some grant explains decrypts for the recipient to the owner's plaintext. */
  lemma ExplainedIsReadable(lib: Library, b: Base, st: Id, r: Id, k: RowKey, c: string, ownerKey: string, recipientKey: string)
    requires Lawful(lib) && Explained(lib, b, r, k, c) && KeysAreRight(lib, b, st, r, ownerKey, recipientKey)
    requires k.streamId == Canon(st)
    ensures k in b.inserted
    ensures DecryptPayload(lib, b.inserted[k].payload, ownerKey).Some? ==>
      DecryptPayload(lib, c, recipientKey) == DecryptPayload(lib, b.inserted[k].payload, ownerKey)
  {
    var source :| From(lib, b, r, k, c, source);
    var payload, g := b.inserted[k].payload, b.issued[source];
    assert IsFor(g, st, r);
    hide Lawful, ReEncryptsFor, ReEncryptPayload, DecryptPayload, Canon, Canonical;
    StringSurvivesIffNotJson(g.reEncryptionKey);
    if DecryptPayload(lib, payload, ownerKey).Some? {
      ReEncryptionKeepsThePlaintext(lib, payload, Str(g.reEncryptionKey), ownerKey, recipientKey);
    }
  }

  /** The two ways of reading an update agree. Whatever a read returned for it, from the cache or
      not, decrypts for the recipient to the owner's plaintext; and so does re-encrypting the original
      payload directly with any grant of that stream and recipient. */
  lemma CachedReadRefinesDirectRead(lib: Library, s: State, x: Returned, ownerKey: string, recipientKey: string, id: Id)
    requires Lawful(lib) && Reachable(lib, s) && x in s.returned
    requires KeysAreRight(lib, s.base, x.streamId, x.recipientId, ownerKey, recipientKey)
    requires id in s.base.issued && IsFor(s.base.issued[id], x.streamId, x.recipientId)
    ensures Canon(x.streamId) in s.base.owners
    ensures var k := RowOf(s.base, x.streamId, x.updateId);
      && k in s.base.inserted && x.payload.Str?
      && var payload := s.base.inserted[k].payload;
      (DecryptPayload(lib, payload, ownerKey).Some? ==>
        var direct := ReEncryptPayload(lib, payload, Str(s.base.issued[id].reEncryptionKey));
        && DecryptPayload(lib, x.payload.s, recipientKey) == DecryptPayload(lib, payload, ownerKey)
        && direct.Some? && DecryptPayload(lib, direct.value, recipientKey) == DecryptPayload(lib, payload, ownerKey))
  {
    ReachableInv(lib, s);
    assert ReturnedOk(lib, s.base, x);
    var k := RowOf(s.base, x.streamId, x.updateId);
    hide Lawful, ReEncryptPayload, DecryptPayload, Explained, Canon, Canonical, Inv, Reachable, ReEncryptsFor;
    ExplainedIsReadable(lib, s.base, x.streamId, x.recipientId, k, x.payload.s, ownerKey, recipientKey);
    var payload := s.base.inserted[k].payload;
    if DecryptPayload(lib, payload, ownerKey).Some? {
      ReEncryptionKeepsThePlaintext(lib, payload, Str(s.base.issued[id].reEncryptionKey), ownerKey, recipientKey);
    }
  }

  /** The same holds of everything in the cache, whether a read or the worker stored it. */
  lemma EveryCachedPayloadIsReadable(lib: Library, s: State, e: Entry, ownerKey: string, recipientKey: string)
    requires Lawful(lib) && Reachable(lib, s) && e in s.payloads
    requires KeysAreRight(lib, s.base, e.streamId, e.recipientId, ownerKey, recipientKey)
    ensures Canon(e.streamId) in s.base.owners
    ensures var k := RowOf(s.base, e.streamId, e.updateId);
      && k in s.base.inserted
      && (DecryptPayload(lib, s.base.inserted[k].payload, ownerKey).Some? ==>
          DecryptPayload(lib, s.payloads[e], recipientKey) == DecryptPayload(lib, s.base.inserted[k].payload, ownerKey))
  {
    ReachableInv(lib, s);
    assert EntryOk(lib, s.base, e, s.payloads[e]);
    hide Lawful, Explained, Canon, Canonical, Inv, Reachable;
    var k := RowOf(s.base, e.streamId, e.updateId);
    ExplainedIsReadable(lib, s.base, e.streamId, e.recipientId, k, s.payloads[e], ownerKey, recipientKey);
  }

  /** A read of an update that is not deleted never comes to nothing: the lookup that follows an
      accepted window finds a grant, and what it computes decrypts for the recipient to the plaintext. */
  lemma ReadsOfLiveUpdatesCompute(lib: Library, s: State, r: Id, st: Id, found: seq<Grant>, k: RowKey, row: Row,
                                  ownerKey: string, recipientKey: string)
    requires Lawful(lib) && Reachable(lib, s) && Reading(r, st, found, k, row) in s.procs
    ensures FindAt(found, row.recordedAt).Found? && FindAt(found, row.recordedAt).grant.Contains(row.recordedAt)
    ensures (row.payload.Some? && DecryptPayload(lib, row.payload.value, ownerKey).Some?
             && KeysAreRight(lib, s.base, st, r, ownerKey, recipientKey)) ==>
        && Computed(lib, found, row).Some?
        && DecryptPayload(lib, Computed(lib, found, row).value, recipientKey) == DecryptPayload(lib, row.payload.value, ownerKey)
  {
    ReachableInv(lib, s);
    assert ProcOk(lib, s.base, Reading(r, st, found, k, row));
    if row.payload.Some? && DecryptPayload(lib, row.payload.value, ownerKey).Some?
      && KeysAreRight(lib, s.base, st, r, ownerKey, recipientKey)
    {
      LiveReadingComputes(lib, s.base, r, st, found, k, row, ownerKey, recipientKey);
    }
  }

  lemma LiveReadingComputes(lib: Library, b: Base, r: Id, st: Id, found: seq<Grant>, k: RowKey, row: Row,
                            ownerKey: string, recipientKey: string)
    requires Lawful(lib) && ProcOk(lib, b, Reading(r, st, found, k, row)) && row.payload.Some?
    requires DecryptPayload(lib, row.payload.value, ownerKey).Some? && KeysAreRight(lib, b, st, r, ownerKey, recipientKey)
    ensures Computed(lib, found, row).Some?
    ensures DecryptPayload(lib, Computed(lib, found, row).value, recipientKey) == DecryptPayload(lib, row.payload.value, ownerKey)
  {
    var g := FindAt(found, row.recordedAt).grant;
    assert g in found && FoundOk(b, r, st, g);
    assert IsFor(b.issued[g.id], st, r);
    ReEncryptionKeepsThePlaintext(lib, row.payload.value, Str(g.reEncryptionKey), ownerKey, recipientKey);
  }
}

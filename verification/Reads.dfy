/** Reading a window: what the query selects, and how many answers an update gets over whole runs. */
module Reads {
  import opened Entities
  import opened Json
  import opened Cache
  import opened Coverage
  import opened Pre
  import opened Pipeline
  import opened PipelineResults
  import opened FanOut

  // ----- What the query selects -----

  /** The row is of the stream and was recorded in the closed window. */
  predicate InWindow(b: Base, streamId: Id, w: Window, k: RowKey) {
    k in b.rows && k.streamId == Canon(streamId) && w.fromDate <= b.rows[k].recordedAt <= w.toDate
  }

  /** The query starts one process for each row of the stream in the closed window, with that row, and no other. */
  lemma SelectionIsExact(lib: Library, s: State, r: Id, st: Id, w: Window, found: seq<Grant>, p: Proc)
    requires Enabled(s, SelectUpdates(r, st, w, found))
    ensures var s' := Apply(lib, s, SelectUpdates(r, st, w, found));
      && s' == s.(procs := s'.procs)
      && s'.procs[p] == s.procs[p]
           - (if p == WindowChecked(r, st, w, found) then 1 else 0)
           + (if p.Reading? && InWindow(s.base, st, w, p.k) && p == Reading(r, st, found, p.k, s.base.rows[p.k]) then 1 else 0)
  {
    hide Canon, Canonical;
    var qs := Readings(s.base, r, st, w, found);
    assert multiset(qs)[p] == if p in qs then 1 else 0;
  }

  // ----- Answers are conserved -----

  /** The process reads this update for this recipient, under these texts. */
  predicate Serves(p: Proc, e: Entry) { ReadsOne(p) && Entry(p.recipientId, p.streamId, p.k.id) == e }

  ghost function Serving(ps: multiset<Proc>, e: Entry): multiset<Proc> {
    if ps == multiset{} then multiset{}
    else
      var p :| p in ps;
      Serving(ps - multiset{p}, e) + if Serves(p, e) then multiset{p} else multiset{}
  }

  /** How many processes are on the way to answer for an update. */
  ghost function BeingRead(s: State, e: Entry): nat { |Serving(s.procs, e)| }

  /** The texts that an answer was asked for under. */
  function EntryOf(x: Returned): Entry { Entry(x.recipientId, x.streamId, x.updateId) }

  /** How many answers for an update there are. */
  function Answers(returned: seq<Returned>, e: Entry): nat {
    if returned == [] then 0
    else
      var x := returned[|returned| - 1];
      Answers(returned[..|returned| - 1], e) + if EntryOf(x) == e then 1 else 0
  }

  predicate SelectsFor(step: Step, e: Entry) {
    step.SelectUpdates? && step.recipientId == e.recipientId && step.streamId == e.streamId
  }

  /** How often a run queries the stream for the recipient with a window that holds the instant. */
  function Selections(steps: seq<Step>, e: Entry, t: Instant): nat {
    if steps == [] then 0
    else (if SelectsFor(steps[0], e) && steps[0].w.fromDate <= t <= steps[0].w.toDate then 1 else 0) + Selections(steps[1..], e, t)
  }

  /** How many of the update's processes a run loses. */
  function Losses(steps: seq<Step>, e: Entry): nat {
    if steps == [] then 0
    else (if steps[0].Fail? && Serves(steps[0].p, e) then 1 else 0) + Losses(steps[1..], e)
  }

  /** The row is live and the owner can decrypt it; the recipient's grants have the right keys. */
  ghost predicate Readable(lib: Library, b: Base, e: Entry, k: RowKey, ownerKey: string, recipientKey: string) {
    && k in b.rows && k.streamId == Canon(e.streamId) && k.id == e.updateId
    && b.rows[k].payload.Some? && DecryptPayload(lib, b.rows[k].payload.value, ownerKey).Some?
    && KeysAreRight(lib, b, e.streamId, e.recipientId, ownerKey, recipientKey)
  }

  /** None of the update's processes will come to nothing by itself. */
  ghost predicate AllCompute(lib: Library, ps: multiset<Proc>, e: Entry) {
    forall p <- ps :: p.Reading? && Serves(p, e) ==> Computed(lib, p.grants, p.row).Some?
  }

  lemma {:induction false} ServingCounts(ps: multiset<Proc>, e: Entry, q: Proc)
    ensures Serving(ps, e)[q] == if Serves(q, e) then ps[q] else 0
    decreases ps
  {
    hide Serves;
    if ps != multiset{} {
      var p :| p in ps && Serving(ps, e) == Serving(ps - multiset{p}, e) + if Serves(p, e) then multiset{p} else multiset{};
      hide Serving;
      ServingCounts(ps - multiset{p}, e, q);
    }
  }

  lemma Joined(ps: multiset<Proc>, qs: multiset<Proc>, e: Entry)
    ensures |Serving(ps + qs, e)| == |Serving(ps, e)| + |Serving(qs, e)|
  {
    hide Serving, Serves;
    forall q ensures Serving(ps + qs, e)[q] == Serving(ps, e)[q] + Serving(qs, e)[q] {
      ServingCounts(ps + qs, e, q);
      ServingCounts(ps, e, q);
      ServingCounts(qs, e, q);
    }
    assert Serving(ps + qs, e) == Serving(ps, e) + Serving(qs, e);
  }

  lemma One(p: Proc, e: Entry)
    ensures |Serving(multiset{p}, e)| == if Serves(p, e) then 1 else 0
  {
    forall q ensures Serving(multiset{p}, e)[q] == if Serves(q, e) && p == q then 1 else 0 { ServingCounts(multiset{p}, e, q); }
    hide Serving, Serves;
    assert Serving(multiset{p}, e) == if Serves(p, e) then multiset{p} else multiset{};
  }

  lemma OneEnds(ps: multiset<Proc>, p: Proc, e: Entry)
    requires p in ps
    ensures |Serving(ps - multiset{p}, e)| == |Serving(ps, e)| - if Serves(p, e) then 1 else 0
    ensures forall lib :: AllCompute(lib, ps, e) ==> AllCompute(lib, ps - multiset{p}, e)
  {
    hide Serving, Serves, Computed;
    Joined(ps - multiset{p}, multiset{p}, e);
    One(p, e);
    assert ps - multiset{p} + multiset{p} == ps;
  }

  lemma OneBegins(ps: multiset<Proc>, p: Proc, e: Entry)
    ensures |Serving(ps + multiset{p}, e)| == |Serving(ps, e)| + if Serves(p, e) then 1 else 0
    ensures forall lib :: AllCompute(lib, ps, e) && !p.Reading? ==> AllCompute(lib, ps + multiset{p}, e)
  {
    hide Serving, Serves, Computed;
    Joined(ps, multiset{p}, e);
    One(p, e);
  }

  lemma OneAnswerMore(returned: seq<Returned>, x: Returned, e: Entry)
    ensures Answers(returned + [x], e) == Answers(returned, e) + if EntryOf(x) == e then 1 else 0
  {
    assert (returned + [x])[..|returned|] == returned;
  }

  // ----- Steps that have nothing to do with a read -----

  lemma OthersKeepReadings(lib: Library, s: State, step: Step, p: Proc)
    requires Enabled(s, step) && !IsReadStep(step) && !step.Fail? && ReadsOne(p)
    ensures Apply(lib, s, step).procs[p] == s.procs[p]
  {
    if IsGrantStep(step) {
      GrantStepsKeepTheProcess(lib, s, step, p);
    } else if IsFanOut(step) {
      FanOutStepsKeepTheProcess(lib, s, step, p);
    } else {
      WorkStepsKeepTheProcess(lib, s, step, p);
    }
  }

  lemma OthersKeepAnswers(lib: Library, s: State, step: Step)
    requires Enabled(s, step) && !step.LookUpPayload? && !step.StoreComputed?
    ensures Apply(lib, s, step).returned == s.returned
  {
    hide ReEncryptPayload, Computed, Outcome, Canon, Truthy, Loaded, Get, Readings, FanOutTasks, Loading, AsRow;
  }

  lemma OthersLeaveReadsAlone(lib: Library, s: State, step: Step, e: Entry)
    requires Enabled(s, step) && !IsReadStep(step) && !step.Fail? && AllCompute(lib, s.procs, e)
    ensures var s' := Apply(lib, s, step);
      Answers(s'.returned, e) + BeingRead(s', e) == Answers(s.returned, e) + BeingRead(s, e) && AllCompute(lib, s'.procs, e)
  {
    OthersKeepAnswers(lib, s, step);
    var s' := Apply(lib, s, step);
    forall p | ReadsOne(p) ensures s'.procs[p] == s.procs[p] { OthersKeepReadings(lib, s, step, p); }
    hide Enabled, Apply, Computed, Answers;
    forall q ensures Serving(s'.procs, e)[q] == Serving(s.procs, e)[q] {
      ServingCounts(s.procs, e, q);
      ServingCounts(s'.procs, e, q);
    }
    hide Serving;
    assert Serving(s'.procs, e) == Serving(s.procs, e);
    assert forall p :: p in s'.procs && ReadsOne(p) ==> p in s.procs;
  }

  // ----- The steps of a read -----

  lemma CheckStep(lib: Library, s: State, r: Id, st: Id, w: Window, found: seq<Grant>)
    requires Enabled(s, CheckWindow(r, st, w, found))
    ensures Apply(lib, s, CheckWindow(r, st, w, found))
         == if Outcome(SortByFrom(found), w) == Granted then Began(s, WindowChecked(r, st, w, found)) else s
  {
  }

  lemma SelectStep(lib: Library, s: State, r: Id, st: Id, w: Window, found: seq<Grant>)
    requires Enabled(s, SelectUpdates(r, st, w, found))
    ensures WindowChecked(r, st, w, found) in s.procs
    ensures Apply(lib, s, SelectUpdates(r, st, w, found))
         == s.(procs := s.procs - multiset{WindowChecked(r, st, w, found)} + multiset(Readings(s.base, r, st, w, found)))
  {
  }

  lemma LookUpStep(lib: Library, s: State, r: Id, st: Id, found: seq<Grant>, k: RowKey, row: Row)
    requires Enabled(s, LookUpPayload(r, st, found, k, row))
    ensures Reading(r, st, found, k, row) in s.procs
    ensures var p, cached := Reading(r, st, found, k, row), Get(s.payloads, Entry(r, st, k.id));
      Apply(lib, s, LookUpPayload(r, st, found, k, row)) ==
        if Truthy(cached) then s.(returned := s.returned + [Returned(r, st, k.id, cached)], procs := s.procs - multiset{p})
        else if Computed(lib, found, row).None? then s.(procs := s.procs - multiset{p})
        else s.(procs := s.procs - multiset{p} + multiset{Storing(r, st, k, Computed(lib, found, row).value)})
  {
    hide Truthy, Get, Computed;
  }

  lemma StoreStep(lib: Library, s: State, r: Id, st: Id, k: RowKey, c: string)
    requires Enabled(s, StoreComputed(r, st, k, c))
    ensures Storing(r, st, k, c) in s.procs
    ensures Apply(lib, s, StoreComputed(r, st, k, c))
         == s.(payloads := s.payloads[Entry(r, st, k.id) := c], returned := s.returned + [Returned(r, st, k.id, Str(c))],
               procs := s.procs - multiset{Storing(r, st, k, c)})
  {
  }

  lemma FailStep(lib: Library, s: State, p: Proc)
    requires Enabled(s, Fail(p))
    ensures p in s.procs && Apply(lib, s, Fail(p)) == s.(procs := s.procs - multiset{p})
  {
  }

  lemma CheckConserves(lib: Library, s: State, r: Id, st: Id, w: Window, found: seq<Grant>, e: Entry)
    requires Enabled(s, CheckWindow(r, st, w, found)) && AllCompute(lib, s.procs, e)
    ensures var s' := Apply(lib, s, CheckWindow(r, st, w, found));
      Answers(s'.returned, e) + BeingRead(s', e) == Answers(s.returned, e) + BeingRead(s, e) && AllCompute(lib, s'.procs, e)
  {
    CheckStep(lib, s, r, st, w, found);
    hide Enabled, Apply, Serving, AllCompute, Answers, Outcome;
    OneBegins(s.procs, WindowChecked(r, st, w, found), e);
  }

  /** Two rows of one stream do not share an id, since the third column is the stream's owner. */
  lemma OneRow(b: Base, k: RowKey, k': RowKey)
    requires BaseOk(b) && k in b.rows && k' in b.rows && k.id == k'.id && k.streamId == k'.streamId
    ensures k == k'
  {
    assert Names(b, k.streamId, k.id, k) && Names(b, k'.streamId, k'.id, k');
  }

  /** The query starts at most one process for an update, and starts it iff its row is in the window. */
  lemma OneIsSelected(b: Base, r: Id, st: Id, w: Window, found: seq<Grant>, e: Entry, k: RowKey)
    requires BaseOk(b) && k in b.rows && k.streamId == Canon(e.streamId) && k.id == e.updateId
    requires r == e.recipientId && st == e.streamId
    ensures Serving(multiset(Readings(b, r, st, w, found)), e)
         == if InWindow(b, st, w, k) then multiset{Reading(r, st, found, k, b.rows[k])} else multiset{}
  {
    hide BaseOk, Canon, Canonical;
    var qs := Readings(b, r, st, w, found);
    var one := Reading(r, st, found, k, b.rows[k]);
    forall q | q in qs && Serves(q, e) ensures q == one && InWindow(b, st, w, k) {
      OneRow(b, q.k, k);
    }
    assert InWindow(b, st, w, k) <==> one in qs;
    hide Serving, Readings, InWindow;
    forall q ensures Serving(multiset(qs), e)[q] == if q == one && one in qs then 1 else 0 { ServingCounts(multiset(qs), e, q); }
  }

  lemma NoneIsSelected(b: Base, r: Id, st: Id, w: Window, found: seq<Grant>, e: Entry)
    requires r != e.recipientId || st != e.streamId || !exists k :: InWindow(b, st, w, k) && k.id == e.updateId
    ensures Serving(multiset(Readings(b, r, st, w, found)), e) == multiset{}
  {
    hide Canon, Canonical;
    var qs := Readings(b, r, st, w, found);
    forall q | q in qs ensures !Serves(q, e) {
      assert InWindow(b, st, w, q.k);
    }
    hide Serving, Readings;
    forall q ensures Serving(multiset(qs), e)[q] == 0 { ServingCounts(multiset(qs), e, q); }
  }

  lemma SelectCounts(lib: Library, s: State, r: Id, st: Id, w: Window, found: seq<Grant>, e: Entry)
    requires Enabled(s, SelectUpdates(r, st, w, found))
    ensures var s' := Apply(lib, s, SelectUpdates(r, st, w, found));
      && s'.returned == s.returned
      && BeingRead(s', e) == BeingRead(s, e) + |Serving(multiset(Readings(s.base, r, st, w, found)), e)|
  {
    var p := WindowChecked(r, st, w, found);
    var qs := Readings(s.base, r, st, w, found);
    SelectStep(lib, s, r, st, w, found);
    hide Enabled, Apply, Serving, AllCompute, Readings;
    OneEnds(s.procs, p, e);
    Joined(s.procs - multiset{p}, multiset(qs), e);
  }

  lemma SelectConserves(lib: Library, s: State, r: Id, st: Id, w: Window, found: seq<Grant>, e: Entry, k: RowKey,
                        ownerKey: string, recipientKey: string)
    requires Lawful(lib) && Inv(lib, s) && Enabled(s, SelectUpdates(r, st, w, found)) && AllCompute(lib, s.procs, e)
    requires r == e.recipientId && st == e.streamId ==> Readable(lib, s.base, e, k, ownerKey, recipientKey)
    ensures var s' := Apply(lib, s, SelectUpdates(r, st, w, found));
      && s'.returned == s.returned && AllCompute(lib, s'.procs, e)
      && BeingRead(s', e) == BeingRead(s, e) + if r == e.recipientId && st == e.streamId && InWindow(s.base, st, w, k) then 1 else 0
  {
    SelectCounts(lib, s, r, st, w, found, e);
    SelectUpdatesKeepsInv(lib, s, r, st, w, found);
    SelectStep(lib, s, r, st, w, found);
    BaseOf(lib, s);
    var s' := Apply(lib, s, SelectUpdates(r, st, w, found));
    var qs := Readings(s.base, r, st, w, found);
    hide Inv, Enabled, Apply, Lawful, Readings, BaseOk, Canon, KeysAreRight, DecryptPayload, Serving, AllCompute, Computed, BeingRead;
    assert s'.base == s.base && forall p :: p in s'.procs ==> p in s.procs || p in qs;
    if r == e.recipientId && st == e.streamId {
      OneIsSelected(s.base, r, st, w, found, e, k);
      SelectedComputes(lib, s', r, st, w, found, e, k, ownerKey, recipientKey);
    } else {
      NoneIsSelected(s.base, r, st, w, found, e);
    }
    SelectionComputes(lib, s.procs, s'.procs, qs, e);
  }

  lemma SelectionComputes(lib: Library, ps: multiset<Proc>, ps': multiset<Proc>, qs: set<Proc>, e: Entry)
    requires AllCompute(lib, ps, e) && forall p :: p in ps' ==> p in ps || p in qs
    requires forall p :: p in Serving(multiset(qs), e) && p in ps' && p.Reading? ==> Computed(lib, p.grants, p.row).Some?
    ensures AllCompute(lib, ps', e)
  {
    hide Serving, Serves, Computed;
    forall p <- ps' | p.Reading? && Serves(p, e) ensures Computed(lib, p.grants, p.row).Some? {
      ServingCounts(multiset(qs), e, p);
    }
  }

  lemma SelectedComputes(lib: Library, s: State, r: Id, st: Id, w: Window, found: seq<Grant>, e: Entry, k: RowKey,
                         ownerKey: string, recipientKey: string)
    requires Lawful(lib) && Inv(lib, s) && Readable(lib, s.base, e, k, ownerKey, recipientKey)
    requires r == e.recipientId && st == e.streamId
    ensures var p := Reading(r, st, found, k, s.base.rows[k]); p in s.procs ==> Computed(lib, found, p.row).Some?
  {
    hide Lawful, KeysAreRight, Computed, DecryptPayload, Inv, ProcOk;
    var p := Reading(r, st, found, k, s.base.rows[k]);
    if p in s.procs {
      ProcOf(lib, s, p);
      LiveReadingComputes(lib, s.base, r, st, found, k, p.row, ownerKey, recipientKey);
    }
  }

  lemma ComputesOf(lib: Library, ps: multiset<Proc>, e: Entry, p: Proc)
    requires AllCompute(lib, ps, e) && p in ps && p.Reading? && Serves(p, e)
    ensures Computed(lib, p.grants, p.row).Some?
  {
  }

  lemma LookUpConserves(lib: Library, s: State, r: Id, st: Id, found: seq<Grant>, k: RowKey, row: Row, e: Entry)
    requires Enabled(s, LookUpPayload(r, st, found, k, row)) && AllCompute(lib, s.procs, e)
    ensures var s' := Apply(lib, s, LookUpPayload(r, st, found, k, row));
      Answers(s'.returned, e) + BeingRead(s', e) == Answers(s.returned, e) + BeingRead(s, e) && AllCompute(lib, s'.procs, e)
  {
    LookUpStep(lib, s, r, st, found, k, row);
    if Entry(r, st, k.id) == e { ComputesOf(lib, s.procs, e, Reading(r, st, found, k, row)); }
    hide Enabled, Apply, Serving, AllCompute, Answers, Computed, Truthy, Get;
    var p, cached := Reading(r, st, found, k, row), Get(s.payloads, Entry(r, st, k.id));
    OneEnds(s.procs, p, e);
    if Truthy(cached) {
      OneAnswerMore(s.returned, Returned(r, st, k.id, cached), e);
    } else if Computed(lib, found, row).Some? {
      OneBegins(s.procs - multiset{p}, Storing(r, st, k, Computed(lib, found, row).value), e);
    }
  }

  lemma StoreConserves(lib: Library, s: State, r: Id, st: Id, k: RowKey, c: string, e: Entry)
    requires Enabled(s, StoreComputed(r, st, k, c)) && AllCompute(lib, s.procs, e)
    ensures var s' := Apply(lib, s, StoreComputed(r, st, k, c));
      Answers(s'.returned, e) + BeingRead(s', e) == Answers(s.returned, e) + BeingRead(s, e) && AllCompute(lib, s'.procs, e)
  {
    StoreStep(lib, s, r, st, k, c);
    hide Enabled, Apply, Serving, AllCompute, Answers;
    OneEnds(s.procs, Storing(r, st, k, c), e);
    OneAnswerMore(s.returned, Returned(r, st, k.id, Str(c)), e);
  }

  lemma FailureLoses(lib: Library, s: State, p: Proc, e: Entry)
    requires Enabled(s, Fail(p)) && AllCompute(lib, s.procs, e)
    ensures var s' := Apply(lib, s, Fail(p));
      && s'.returned == s.returned && AllCompute(lib, s'.procs, e)
      && BeingRead(s', e) == BeingRead(s, e) - if Serves(p, e) then 1 else 0
  {
    FailStep(lib, s, p);
    hide Enabled, Apply, Serving, AllCompute;
    OneEnds(s.procs, p, e);
  }

  lemma StepConservesReads(lib: Library, s: State, step: Step, e: Entry, k: RowKey, ownerKey: string, recipientKey: string)
    requires Lawful(lib) && Inv(lib, s) && Enabled(s, step) && AllCompute(lib, s.procs, e)
    requires SelectsFor(step, e) ==> Readable(lib, s.base, e, k, ownerKey, recipientKey)
    ensures var s' := Apply(lib, s, step);
      && Answers(s'.returned, e) + BeingRead(s', e) + (if step.Fail? && Serves(step.p, e) then 1 else 0)
         == Answers(s.returned, e) + BeingRead(s, e) + (if SelectsFor(step, e) && InWindow(s.base, e.streamId, step.w, k) then 1 else 0)
      && AllCompute(lib, s'.procs, e)
  {
    hide Lawful, Inv, Enabled, Apply, AllCompute, Answers, BeingRead, InWindow, Readable;
    match step
    case CheckWindow(r, st, w, found) => CheckConserves(lib, s, r, st, w, found, e);
    case SelectUpdates(r, st, w, found) => SelectConserves(lib, s, r, st, w, found, e, k, ownerKey, recipientKey);
    case LookUpPayload(r, st, found, k', row) => LookUpConserves(lib, s, r, st, found, k', row, e);
    case StoreComputed(r, st, k', c) => StoreConserves(lib, s, r, st, k', c, e);
    case Fail(p) => FailureLoses(lib, s, p, e);
    case _ => OthersLeaveReadsAlone(lib, s, step, e);
  }

  // ----- Whole runs -----

  /** What was issued and what was inserted stays as it was. */
  ghost predicate Extends(b: Base, b': Base) {
    && (forall id <- b.issued :: id in b'.issued && b'.issued[id] == b.issued[id])
    && (forall k <- b.inserted :: k in b'.inserted && b'.inserted[k] == b.inserted[k])
  }

  lemma RewindowingKeeps(b: Base, g: Grant)
    ensures g.id in b.grants ==>
      var b' := Rewindowing(b, g); b'.rows == b.rows && b'.inserted == b.inserted && b'.issued == b.issued
  {
  }

  lemma GrantStepsKeepHistory(lib: Library, s: State, step: Step)
    requires Enabled(s, step) && IsGrantStep(step)
    ensures Apply(lib, s, step).base.inserted == s.base.inserted
    ensures !step.InsertGrant? ==> Apply(lib, s, step).base.issued == s.base.issued
  {
    hide Enabled, Canon, Canonical, Loading, AsRow, Members, Rewindowing, Indexing, Keying, Committing;
    if step.WriteRange? { RewindowingKeeps(s.base, step.g); }
    if step.IndexGrant? || step.KeyGrant? || step.CommitGrant? { BaseStepKeeps(s.base, step.m); }
  }

  lemma BaseStepKeeps(b: Base, m: IndexEntry)
    ensures Indexing(b, m).inserted == Keying(b, m).inserted == Committing(b, m).inserted == b.inserted
    ensures Indexing(b, m).issued == Keying(b, m).issued == Committing(b, m).issued == b.issued
    ensures Indexing(b, m).rows == Keying(b, m).rows == Committing(b, m).rows == b.rows
  {
  }

  lemma HistoryStays(lib: Library, s: State, step: Step)
    requires Enabled(s, step)
    ensures !step.InsertUpdate? ==> Apply(lib, s, step).base.inserted == s.base.inserted
    ensures !step.InsertGrant? ==> Apply(lib, s, step).base.issued == s.base.issued
  {
    if IsGrantStep(step) {
      GrantStepsKeepHistory(lib, s, step);
      hide Apply, Enabled;
    } else if step.InsertUpdate? {
      InsertStep(lib, s, step.u);
      hide Apply, Enabled, KeyOf;
    } else if step.DeleteUpdate? {
      hide Enabled;
    } else {
      BaseStays(lib, s, step);
      hide Apply, Enabled;
    }
  }

  lemma BaseExtends(lib: Library, s: State, step: Step)
    requires BaseOk(s.base) && Enabled(s, step)
    ensures Extends(s.base, Apply(lib, s, step).base)
  {
    assert s.base.rows.Keys == s.base.inserted.Keys;
    HistoryStays(lib, s, step);
    if step.InsertUpdate? { InsertStep(lib, s, step.u); }
    if step.InsertGrant? { IssueStep(lib, s, step.g); }
    hide BaseOk, Enabled, Apply, Names, Canon;
  }

  lemma IssueStep(lib: Library, s: State, g: Grant)
    requires Enabled(s, InsertGrant(g))
    ensures g.id !in s.base.issued
    ensures Apply(lib, s, InsertGrant(g)) == Began(s.(base := s.base.(issued := s.base.issued[g.id := g])), GrantInserted(IndexEntry(g, false)))
  {
  }

  lemma InsertStep(lib: Library, s: State, u: Update)
    requires Enabled(s, InsertUpdate(u))
    ensures KeyOf(u) !in s.base.rows && Names(s.base, u.streamId, KeyOf(u).id, KeyOf(u))
    ensures Apply(lib, s, InsertUpdate(u)) == Began(s.(base := Pipeline.Insert(s.base, u)), UpdateInserted(u))
  {
  }

  lemma {:induction false} RunExtends(lib: Library, s: State, steps: seq<Step>, s': State)
    requires Lawful(lib) && Inv(lib, s) && Leads(lib, s, steps, s')
    ensures Extends(s.base, s'.base)
    decreases |steps|
  {
    hide Lawful, Inv, Enabled, Apply;
    if steps != [] {
      BaseOf(lib, s);
      BaseExtends(lib, s, steps[0]);
      StepKeepsInv(lib, s, steps[0]);
      RunExtends(lib, Apply(lib, s, steps[0]), steps[1..], s');
    }
  }

  lemma RightKeysBefore(lib: Library, b: Base, b': Base, st: Id, r: Id, ownerKey: string, recipientKey: string)
    requires KeysAreRight(lib, b', st, r, ownerKey, recipientKey) && Extends(b, b')
    ensures KeysAreRight(lib, b, st, r, ownerKey, recipientKey)
  {
    hide ReEncryptsFor, Canon, Canonical;
  }

  lemma RowChanges(lib: Library, s: State, step: Step, k: RowKey)
    requires Enabled(s, step) && k in s.base.rows
    ensures var b' := Apply(lib, s, step).base;
      k in b'.rows && b'.rows[k].recordedAt == s.base.rows[k].recordedAt && (b'.rows[k].payload.Some? ==> b'.rows[k] == s.base.rows[k])
  {
    if IsGrantStep(step) {
      hide Enabled, Canon, Canonical, Loading, AsRow, Members, Rewindowing, Indexing, Keying, Committing;
      if step.WriteRange? { RewindowingKeeps(s.base, step.g); }
      if step.IndexGrant? || step.KeyGrant? || step.CommitGrant? { BaseStepKeeps(s.base, step.m); }
    } else if step.InsertUpdate? || step.DeleteUpdate? {
      hide Canon, Canonical;
    } else {
      BaseStays(lib, s, step);
      hide Apply, Enabled;
    }
  }

  /** A row that is live at the end of a run was so since it was there. */
  lemma {:induction false} LiveThroughout(lib: Library, s: State, steps: seq<Step>, s': State, k: RowKey)
    requires Leads(lib, s, steps, s') && k in s.base.rows
    ensures k in s'.base.rows && (s'.base.rows[k].payload.Some? ==> s.base.rows[k] == s'.base.rows[k])
    decreases |steps|
  {
    if steps != [] {
      hide Enabled, Apply;
      RowChanges(lib, s, steps[0], k);
      LiveThroughout(lib, Apply(lib, s, steps[0]), steps[1..], s', k);
    }
  }

  lemma ReadableThroughout(lib: Library, s: State, steps: seq<Step>, s': State, e: Entry, k: RowKey, ownerKey: string, recipientKey: string)
    requires Lawful(lib) && Inv(lib, s) && Leads(lib, s, steps, s') && k in s.base.rows
    requires Readable(lib, s'.base, e, k, ownerKey, recipientKey)
    ensures Readable(lib, s.base, e, k, ownerKey, recipientKey) && s.base.rows[k] == s'.base.rows[k]
  {
    hide Lawful, Inv, KeysAreRight, DecryptPayload, Canon;
    LiveThroughout(lib, s, steps, s', k);
    RunExtends(lib, s, steps, s');
    RightKeysBefore(lib, s.base, s'.base, e.streamId, e.recipientId, ownerKey, recipientKey);
  }

  ghost predicate Queries(steps: seq<Step>, e: Entry) { exists step <- steps :: SelectsFor(step, e) }

  /** Over every run, whatever interleaves with it: the answers that a recipient got for an update, and
      the processes on their way to one, grow by the number of queries whose window holds the update, less
      the processes that failed. Unless there is no query at all, the update is readable to the end. */
  lemma {:induction false} ReadsAreConserved(lib: Library, s: State, steps: seq<Step>, s': State, e: Entry, k: RowKey, t: Instant,
                                             ownerKey: string, recipientKey: string)
    requires Lawful(lib) && Inv(lib, s) && Leads(lib, s, steps, s') && AllCompute(lib, s.procs, e)
    requires Queries(steps, e) ==>
      k in s.base.rows && s.base.rows[k].recordedAt == t && Readable(lib, s'.base, e, k, ownerKey, recipientKey)
    ensures Answers(s'.returned, e) + BeingRead(s', e) + Losses(steps, e)
         == Answers(s.returned, e) + BeingRead(s, e) + Selections(steps, e, t)
    decreases |steps|
  {
    hide Lawful, Inv, Enabled, Apply, AllCompute, Answers, BeingRead, Readable, Canon;
    if steps != [] {
      var s1 := Apply(lib, s, steps[0]);
      assert Queries(steps, e) <==> SelectsFor(steps[0], e) || Queries(steps[1..], e) by {
        assert steps == [steps[0]] + steps[1..];
      }
      if Queries(steps, e) {
        ReadableThroughout(lib, s, steps, s', e, k, ownerKey, recipientKey);
        RowChanges(lib, s, steps[0], k);
        ReadableRow(lib, s.base, e, k, ownerKey, recipientKey);
      }
      hide Queries;
      StepConservesReads(lib, s, steps[0], e, k, ownerKey, recipientKey);
      StepKeepsInv(lib, s, steps[0]);
      ReadsAreConserved(lib, s1, steps[1..], s', e, k, t, ownerKey, recipientKey);
    }
  }

  lemma ReadableRow(lib: Library, b: Base, e: Entry, k: RowKey, ownerKey: string, recipientKey: string)
    requires Readable(lib, b, e, k, ownerKey, recipientKey)
    ensures k in b.rows && k.streamId == Canon(e.streamId) && k.id == e.updateId
  {
  }

  /** Nobody has been answered, and nobody is being answered, for an update that is not there. */
  lemma NothingBefore(lib: Library, s: State, e: Entry, k: RowKey)
    requires Inv(lib, s) && k !in s.base.inserted && Names(s.base, k.streamId, k.id, k)
    requires k.streamId == Canon(e.streamId) && k.id == e.updateId && Canonical(k.id)
    ensures Answers(s.returned, e) == 0 && BeingRead(s, e) == 0 && AllCompute(lib, s.procs, e)
  {
    hide Inv, Computed;
    forall p | p in s.procs ensures !Serves(p, e) {
      if Serves(p, e) { ReadingIsOfInserted(lib, s, p, e); }
    }
    forall q ensures Serving(s.procs, e)[q] == 0 { ServingCounts(s.procs, e, q); }
    forall x | x in s.returned ensures EntryOf(x) != e {
      if EntryOf(x) == e { AnswerIsOfInserted(lib, s, x, e); }
    }
    NoneOf(s.returned, e);
  }

  lemma ReadingIsOfInserted(lib: Library, s: State, p: Proc, e: Entry)
    requires Inv(lib, s) && p in s.procs && Serves(p, e)
    ensures p.k in s.base.inserted && Names(s.base, p.k.streamId, p.k.id, p.k) && p.k.streamId == Canon(e.streamId)
  {
    ProcOf(lib, s, p);
    BaseOf(lib, s);
    hide Inv, Computed, ReEncryptPayload, Canon, Canonical;
    if p.Storing? { ExplainedIsInserted(lib, s.base, p.recipientId, p.k, p.payload); }
  }

  lemma AnswerIsOfInserted(lib: Library, s: State, x: Returned, e: Entry)
    requires Inv(lib, s) && x in s.returned && EntryOf(x) == e
    ensures Canon(e.streamId) in s.base.owners && RowOf(s.base, e.streamId, e.updateId) in s.base.inserted
  {
    assert ReturnedOk(lib, s.base, x);
    hide Inv, ReEncryptPayload, Canonical;
    ExplainedIsInserted(lib, s.base, x.recipientId, RowOf(s.base, x.streamId, x.updateId), x.payload.s);
  }

  lemma {:induction false} NoneOf(returned: seq<Returned>, e: Entry)
    requires forall x <- returned :: EntryOf(x) != e
    ensures Answers(returned, e) == 0
  {
    if returned != [] { NoneOf(returned[..|returned| - 1], e); }
  }

  /** Over the whole life of an update that is still readable: a recipient got one answer for each query
      whose window held it, but for the processes that failed or are not done. */
  lemma AnswersOverALife(lib: Library, s: State, u: Update, steps: seq<Step>, s': State, e: Entry, ownerKey: string, recipientKey: string)
    requires Lawful(lib) && Reachable(lib, s) && Enabled(s, InsertUpdate(u))
    requires Leads(lib, Apply(lib, s, InsertUpdate(u)), steps, s') && Readable(lib, s'.base, e, KeyOf(u), ownerKey, recipientKey)
    ensures Answers(s'.returned, e) + BeingRead(s', e) + Losses(steps, e) == Selections(steps, e, u.recordedAt)
  {
    ReachableInv(lib, s);
    hide Lawful, Reachable, AllCompute, Answers, BeingRead, Inv;
    var k, s1 := KeyOf(u), Apply(lib, s, InsertUpdate(u));
    BaseOf(lib, s);
    InsertStep(lib, s, u);
    hide Enabled, Apply;
    ReadableRow(lib, s'.base, e, k, ownerKey, recipientKey);
    assert k !in s.base.inserted;
    hide BaseOk, Readable, Names, Canonical;
    NothingBefore(lib, s, e, k);
    OthersLeaveReadsAlone(lib, s, InsertUpdate(u), e);
    InsertUpdateKeepsInv(lib, s, u);
    assert k in s1.base.rows && s1.base.rows[k].recordedAt == u.recordedAt;
    hide KeyOf, Canon;
    ReadsAreConserved(lib, s1, steps, s', e, k, u.recordedAt, ownerKey, recipientKey);
  }

  // ----- A whole read -----

  lemma Prepend(lib: Library, s: State, a: Step, b: Step, steps: seq<Step>, s': State)
    requires Leads(lib, s, [a, b] + steps, s')
    ensures Enabled(s, a) && Enabled(Apply(lib, s, a), b) && Leads(lib, Apply(lib, Apply(lib, s, a), b), steps, s')
  {
    hide Enabled, Apply;
    assert ([a, b] + steps)[1..] == [b] + steps && ([b] + steps)[1..] == steps;
  }

  /** Whatever was answered for an update decrypts to the plaintext of its row, deleted since or not. */
  lemma AnswersAreRight(lib: Library, s: State, x: Returned, k: RowKey, ownerKey: string, recipientKey: string)
    requires Lawful(lib) && Inv(lib, s) && x in s.returned && k in s.base.inserted
    requires k.streamId == Canon(x.streamId) && k.id == x.updateId
    requires KeysAreRight(lib, s.base, x.streamId, x.recipientId, ownerKey, recipientKey)
    ensures x.payload.Str?
    ensures DecryptPayload(lib, s.base.inserted[k].payload, ownerKey).Some? ==>
      DecryptPayload(lib, x.payload.s, recipientKey) == DecryptPayload(lib, s.base.inserted[k].payload, ownerKey)
  {
    assert ReturnedOk(lib, s.base, x);
    BaseOf(lib, s);
    RowsOf(s.base);
    assert KeyOf(s.base.inserted[k]) == k && Names(s.base, k.streamId, k.id, k);
    hide Lawful, Inv, Explained, KeysAreRight, DecryptPayload, BaseOk, RowsOk;
    ExplainedIsReadable(lib, s.base, x.streamId, x.recipientId, k, x.payload.s, ownerKey, recipientKey);
  }

  lemma StepAnswers(lib: Library, s: State, step: Step)
    requires Enabled(s, step)
    ensures s.returned <= Apply(lib, s, step).returned
  {
    hide Computed, Truthy, Get, Enabled, Apply;
    if step.LookUpPayload? {
      LookUpStep(lib, s, step.recipientId, step.streamId, step.found, step.k, step.row);
    } else if step.StoreComputed? {
      StoreStep(lib, s, step.recipientId, step.streamId, step.k, step.payload);
    } else {
      OthersKeepAnswers(lib, s, step);
    }
  }

  /** What was answered stays answered. */
  lemma {:induction false} AnswersStay(lib: Library, s: State, steps: seq<Step>, s': State)
    requires Leads(lib, s, steps, s')
    ensures s.returned <= s'.returned
    decreases |steps|
  {
    if steps != [] {
      hide Enabled, Apply;
      StepAnswers(lib, s, steps[0]);
      AnswersStay(lib, Apply(lib, s, steps[0]), steps[1..], s');
    }
  }

  /** The row of the update is in the window. */
  ghost predicate Wanted(b: Base, w: Window, e: Entry) { exists k :: InWindow(b, e.streamId, w, k) && k.id == e.updateId }

  /** Querying a window starts one process for the update iff its row is in the window. */
  lemma SelectedOnce(lib: Library, s: State, w: Window, found: seq<Grant>, e: Entry, ownerKey: string, recipientKey: string)
    requires Lawful(lib) && Inv(lib, s) && Enabled(s, SelectUpdates(e.recipientId, e.streamId, w, found))
    requires AllCompute(lib, s.procs, e) && KeysAreRight(lib, s.base, e.streamId, e.recipientId, ownerKey, recipientKey)
    requires forall k :: InWindow(s.base, e.streamId, w, k) && k.id == e.updateId ==>
      s.base.rows[k].payload.Some? && DecryptPayload(lib, s.base.rows[k].payload.value, ownerKey).Some?
    ensures var s' := Apply(lib, s, SelectUpdates(e.recipientId, e.streamId, w, found));
      && s'.returned == s.returned && s'.base == s.base && AllCompute(lib, s'.procs, e)
      && BeingRead(s', e) == BeingRead(s, e) + if Wanted(s.base, w, e) then 1 else 0
  {
    hide Lawful, Inv, KeysAreRight, DecryptPayload, Canon, AllCompute, BeingRead, Serving, Readings;
    SelectStep(lib, s, e.recipientId, e.streamId, w, found);
    var s' := Apply(lib, s, SelectUpdates(e.recipientId, e.streamId, w, found));
    hide Apply, Enabled;
    if Wanted(s.base, w, e) {
      var k :| InWindow(s.base, e.streamId, w, k) && k.id == e.updateId;
      SelectConserves(lib, s, e.recipientId, e.streamId, w, found, e, k, ownerKey, recipientKey);
    } else {
      var qs := Readings(s.base, e.recipientId, e.streamId, w, found);
      SelectCounts(lib, s, e.recipientId, e.streamId, w, found, e);
      NoneIsSelected(s.base, e.recipientId, e.streamId, w, found, e);
      SelectionComputes(lib, s.procs, s'.procs, qs, e);
    }
  }

  lemma NothingComesToNothing(lib: Library, s: State, e: Entry)
    requires BeingRead(s, e) == 0
    ensures AllCompute(lib, s.procs, e)
  {
    hide Computed, Serving;
    forall p <- s.procs ensures !Serves(p, e) { ServingCounts(s.procs, e, p); }
  }

  lemma {:induction false} NoQueryNoSelection(steps: seq<Step>, e: Entry, t: Instant)
    requires !Queries(steps, e)
    ensures Selections(steps, e, t) == 0
  {
    if steps != [] {
      assert steps[0] in steps && forall step <- steps[1..] :: step in steps;
      NoQueryNoSelection(steps[1..], e, t);
    }
  }

  /** A row that was in the table with its payload is in history with that payload. */
  lemma InsertedRow(lib: Library, s: State, k: RowKey)
    requires Inv(lib, s) && k in s.base.rows && s.base.rows[k].payload.Some?
    ensures k in s.base.inserted && s.base.inserted[k].payload == s.base.rows[k].payload.value
  {
  }

  /** A read of a granted window, whatever interleaves with it once the query has run. If none of the update's
      processes failed and none is left, it was answered exactly once if its row was in the window, and not at
      all otherwise; and the answer decrypts to the row's plaintext. The row may be deleted meanwhile. */
  lemma WholeRead(lib: Library, s: State, w: Window, found: seq<Grant>, steps: seq<Step>, s': State, e: Entry,
                  ownerKey: string, recipientKey: string)
    requires Lawful(lib) && Reachable(lib, s) && Outcome(SortByFrom(found), w) == Granted
    requires Leads(lib, s,
      [CheckWindow(e.recipientId, e.streamId, w, found), SelectUpdates(e.recipientId, e.streamId, w, found)] + steps, s')
    requires KeysAreRight(lib, s'.base, e.streamId, e.recipientId, ownerKey, recipientKey)
    requires forall k :: InWindow(s.base, e.streamId, w, k) && k.id == e.updateId ==>
      s.base.rows[k].payload.Some? && DecryptPayload(lib, s.base.rows[k].payload.value, ownerKey).Some?
    requires !Queries(steps, e) && Losses(steps, e) == 0 && BeingRead(s, e) == 0 && BeingRead(s', e) == 0
    ensures Answers(s'.returned, e) == Answers(s.returned, e) + if Wanted(s.base, w, e) then 1 else 0
    ensures s.returned <= s'.returned
    ensures forall x, k :: x in s'.returned && EntryOf(x) == e && InWindow(s.base, e.streamId, w, k) && k.id == e.updateId ==>
      x.payload.Str? && DecryptPayload(lib, x.payload.s, recipientKey) == DecryptPayload(lib, s.base.rows[k].payload.value, ownerKey)
  {
    ReachableInv(lib, s);
    var check, select := CheckWindow(e.recipientId, e.streamId, w, found), SelectUpdates(e.recipientId, e.streamId, w, found);
    hide Lawful, Inv, Enabled, Apply, Leads, Reachable, KeysAreRight, DecryptPayload, AllCompute, Answers, BeingRead, Canon;
    hide Outcome, Queries, Wanted;
    Prepend(lib, s, check, select, steps, s');
    NothingComesToNothing(lib, s, e);
    var s1 := Apply(lib, s, check);
    var s2 := Apply(lib, s1, select);
    CheckConserves(lib, s, e.recipientId, e.streamId, w, found, e);
    CheckStep(lib, s, e.recipientId, e.streamId, w, found);
    StepKeepsInv(lib, s, check);
    StepKeepsInv(lib, s1, select);
    RunExtends(lib, s2, steps, s');
    SelectStep(lib, s1, e.recipientId, e.streamId, w, found);
    RightKeysBefore(lib, s.base, s'.base, e.streamId, e.recipientId, ownerKey, recipientKey);
    SelectedOnce(lib, s1, w, found, e, ownerKey, recipientKey);
    NoQueryNoSelection(steps, e, 0.0);
    ReadsAreConserved(lib, s2, steps, s', e, RowKey("", "", ""), 0.0, ownerKey, recipientKey);
    RunKeepsInv(lib, s2, steps, s');
    AnswersStay(lib, s2, steps, s');
    forall x, k | x in s'.returned && EntryOf(x) == e && InWindow(s.base, e.streamId, w, k) && k.id == e.updateId
      ensures x.payload.Str? && DecryptPayload(lib, x.payload.s, recipientKey) == DecryptPayload(lib, s.base.rows[k].payload.value, ownerKey)
    {
      InsertedRow(lib, s, k);
      AnswersAreRight(lib, s', x, k, ownerKey, recipientKey);
    }
  }

  // ----- A read, run alone -----

  /** The processes of a query that found these rows. */
  function ReadingsOf(b: Base, r: Id, st: Id, found: seq<Grant>, ks: seq<RowKey>): set<Proc> {
    set k | k in ks && k in b.rows :: Reading(r, st, found, k, b.rows[k])
  }

  predicate Distinct(ks: seq<RowKey>) { forall i, j :: 0 <= i < j < |ks| ==> ks[i] != ks[j] }

  ghost predicate AllAnswered(lib: Library, b: Base, found: seq<Grant>, ks: seq<RowKey>) {
    forall k <- ks :: k in b.rows && Computed(lib, found, b.rows[k]).Some?
  }

  lemma ReadingsOfOneMore(lib: Library, b: Base, r: Id, st: Id, found: seq<Grant>, ks: seq<RowKey>, q: multiset<Proc>)
    requires ks != [] && AllAnswered(lib, b, found, ks) && Distinct(ks)
    ensures AllAnswered(lib, b, found, ks[1..]) && Distinct(ks[1..])
    ensures ks[0] in b.rows && Computed(lib, found, b.rows[ks[0]]).Some?
    ensures q + multiset(ReadingsOf(b, r, st, found, ks))
         == q + multiset(ReadingsOf(b, r, st, found, ks[1..])) + multiset{Reading(r, st, found, ks[0], b.rows[ks[0]])}
  {
    hide Computed;
    var p := Reading(r, st, found, ks[0], b.rows[ks[0]]);
    assert ks == [ks[0]] + ks[1..] && ks[0] !in ks[1..];
    assert ReadingsOf(b, r, st, found, ks) == ReadingsOf(b, r, st, found, ks[1..]) + {p};
    assert p !in ReadingsOf(b, r, st, found, ks[1..]);
  }

  /** The state after the process `p` is gone, with the answer `x` and the cache `payloads`. */
  function AfterAnswer(s: State, q: multiset<Proc>, payloads: map<Entry, string>, x: Returned): State {
    s.(procs := q, payloads := payloads, returned := s.returned + [x])
  }

  lemma HitIsARun(lib: Library, s: State, q: multiset<Proc>, r: Id, st: Id, found: seq<Grant>, k: RowKey, row: Row)
    requires s.procs == q + multiset{Reading(r, st, found, k, row)} && Truthy(Get(s.payloads, Entry(r, st, k.id)))
    ensures Leads(lib, s, [LookUpPayload(r, st, found, k, row)],
      AfterAnswer(s, q, s.payloads, Returned(r, st, k.id, Get(s.payloads, Entry(r, st, k.id)))))
  {
    hide Truthy, Get, Apply, Leads;
    var p, lookUp := Reading(r, st, found, k, row), LookUpPayload(r, st, found, k, row);
    GoesThrough(q, p, p);
    LookUpStep(lib, s, r, st, found, k, row);
    OneStep(lib, s, lookUp, Apply(lib, s, lookUp));
  }

  lemma MayLookUpAndStore(s: State, s1: State, p: Proc, q: Proc)
    requires p.Reading? && p in s.procs && q.Storing? && q in s1.procs
    ensures Enabled(s, LookUpPayload(p.recipientId, p.streamId, p.grants, p.k, p.row))
    ensures Enabled(s1, StoreComputed(q.recipientId, q.streamId, q.k, q.payload))
  {
  }

  lemma MissIsARun(lib: Library, s: State, q: multiset<Proc>, r: Id, st: Id, found: seq<Grant>, k: RowKey, row: Row)
    requires s.procs == q + multiset{Reading(r, st, found, k, row)} && !Truthy(Get(s.payloads, Entry(r, st, k.id)))
    requires Computed(lib, found, row).Some?
    ensures var c := Computed(lib, found, row).value;
      Leads(lib, s, [LookUpPayload(r, st, found, k, row), StoreComputed(r, st, k, c)],
        AfterAnswer(s, q, s.payloads[Entry(r, st, k.id) := c], Returned(r, st, k.id, Str(c))))
  {
    hide Truthy, Get, Computed, Apply, Leads;
    var c := Computed(lib, found, row).value;
    var p, stored := Reading(r, st, found, k, row), Storing(r, st, k, c);
    var lookUp, store := LookUpPayload(r, st, found, k, row), StoreComputed(r, st, k, c);
    var s1 := s.(procs := q + multiset{stored});
    var s2 := AfterAnswer(s, q, s.payloads[Entry(r, st, k.id) := c], Returned(r, st, k.id, Str(c)));
    GoesThrough(q, p, stored);
    MayLookUpAndStore(s, s1, p, stored);
    hide Enabled;
    LookUpStep(lib, s, r, st, found, k, row);
    assert Apply(lib, s, lookUp) == s1;
    StoreStep(lib, s1, r, st, k, c);
    assert Apply(lib, s1, store) == s2;
    OneStep(lib, s1, store, s2);
    OneStepMore(lib, s, lookUp, [store], s2);
    assert [lookUp] + [store] == [lookUp, store];
  }

  ghost predicate Answering(steps: seq<Step>) { forall step <- steps :: step.LookUpPayload? || step.StoreComputed? }

  /** One update's process, run alone, answers for it: from the cache, or after computing and storing. */
  lemma OneReadIsARun(lib: Library, s: State, q: multiset<Proc>, r: Id, st: Id, found: seq<Grant>, k: RowKey, row: Row)
    returns (steps: seq<Step>, payloads: map<Entry, string>, x: Returned)
    requires s.procs == q + multiset{Reading(r, st, found, k, row)} && Computed(lib, found, row).Some?
    ensures Leads(lib, s, steps, AfterAnswer(s, q, payloads, x)) && EntryOf(x) == Entry(r, st, k.id) && Answering(steps)
  {
    hide Leads, Computed, Truthy, AfterAnswer;
    payloads := s.payloads;
    steps, x := [LookUpPayload(r, st, found, k, row)], Returned(r, st, k.id, Get(s.payloads, Entry(r, st, k.id)));
    if Truthy(x.payload) {
      HitIsARun(lib, s, q, r, st, found, k, row);
    } else {
      MissIsARun(lib, s, q, r, st, found, k, row);
      var c := Computed(lib, found, row).value;
      payloads := s.payloads[Entry(r, st, k.id) := c];
      steps, x := [LookUpPayload(r, st, found, k, row), StoreComputed(r, st, k, c)], Returned(r, st, k.id, Str(c));
    }
  }

  /** The answers are for these rows, in this order. */
  ghost predicate AnswersFor(xs: seq<Returned>, r: Id, st: Id, ks: seq<RowKey>) {
    |xs| == |ks| && forall i :: 0 <= i < |ks| ==> EntryOf(xs[i]) == Entry(r, st, ks[i].id)
  }

  lemma AnswersForOneMore(x: Returned, xs: seq<Returned>, r: Id, st: Id, ks: seq<RowKey>)
    requires ks != [] && AnswersFor(xs, r, st, ks[1..]) && EntryOf(x) == Entry(r, st, ks[0].id)
    ensures AnswersFor([x] + xs, r, st, ks)
  {
    hide EntryOf;
    assert forall i :: 0 < i < |ks| ==> ks[i] == ks[1..][i - 1];
  }

  lemma OneReadMore(lib: Library, s: State, first: seq<Step>, s1: State, x: Returned, rest: seq<Step>, more: seq<Returned>, s': State,
                    r: Id, st: Id, ks: seq<RowKey>)
    requires Leads(lib, s, first, s1) && Leads(lib, s1, rest, s') && Answering(first) && Answering(rest)
    requires s1.returned == s.returned + [x] && s'.returned == s1.returned + more
    requires ks != [] && AnswersFor(more, r, st, ks[1..]) && EntryOf(x) == Entry(r, st, ks[0].id)
    ensures Leads(lib, s, first + rest, s') && Answering(first + rest)
    ensures s'.returned == s.returned + ([x] + more) && AnswersFor([x] + more, r, st, ks)
  {
    hide Leads, AnswersFor, EntryOf;
    LeadsOn(lib, s, first, s1, rest, s');
    AnswersForOneMore(x, more, r, st, ks);
    assert s.returned + [x] + more == s.returned + ([x] + more);
  }

  lemma {:induction false} ReadsAreARun(lib: Library, s: State, q: multiset<Proc>, r: Id, st: Id, found: seq<Grant>, ks: seq<RowKey>)
    returns (steps: seq<Step>, xs: seq<Returned>, s': State)
    requires Distinct(ks) && AllAnswered(lib, s.base, found, ks)
    requires s.procs == q + multiset(ReadingsOf(s.base, r, st, found, ks))
    ensures Leads(lib, s, steps, s') && s'.procs == q && s'.base == s.base
    ensures s'.returned == s.returned + xs && AnswersFor(xs, r, st, ks) && Answering(steps)
    decreases |ks|
  {
    if ks == [] {
      hide Computed;
      assert ReadingsOf(s.base, r, st, found, ks) == {};
      steps, xs, s' := [], [], s;
    } else {
      hide Leads, Computed, ReadingsOf, AnswersFor, AllAnswered, Distinct;
      ReadingsOfOneMore(lib, s.base, r, st, found, ks, q);
      var q' := q + multiset(ReadingsOf(s.base, r, st, found, ks[1..]));
      var first, payloads, x := OneReadIsARun(lib, s, q', r, st, found, ks[0], s.base.rows[ks[0]]);
      var s1 := AfterAnswer(s, q', payloads, x);
      assert s1.base == s.base && s1.procs == q' && s1.returned == s.returned + [x];
      hide AfterAnswer, EntryOf, Answering;
      var rest, more;
      rest, more, s' := ReadsAreARun(lib, s1, q, r, st, found, ks[1..]);
      steps, xs := first + rest, [x] + more;
      OneReadMore(lib, s, first, s1, x, rest, more, s', r, st, ks);
    }
  }

  lemma MayCheck(s: State, r: Id, st: Id, w: Window, found: seq<Grant>)
    requires Canon(st) != UNDEFINED && ByRange(found, s.base.grants.Values, Canon(r), Canon(st), w)
    ensures Enabled(s, CheckWindow(r, st, w, found))
  {
  }

  lemma MaySelect(s: State, r: Id, st: Id, w: Window, found: seq<Grant>)
    requires WindowChecked(r, st, w, found) in s.procs
    ensures Enabled(s, SelectUpdates(r, st, w, found))
  {
  }

  lemma ReadingsAgree(b: Base, r: Id, st: Id, w: Window, found: seq<Grant>, ks: seq<RowKey>)
    requires forall k :: k in ks <==> InWindow(b, st, w, k)
    ensures ReadingsOf(b, r, st, found, ks) == Readings(b, r, st, w, found)
  {
    hide Canon;
  }

  /** After the check of a granted window and its query, the new processes are those of its rows. */
  lemma QueryIsARun(lib: Library, s: State, r: Id, st: Id, w: Window, found: seq<Grant>, ks: seq<RowKey>, steps: seq<Step>, s': State)
    requires Outcome(SortByFrom(found), w) == Granted
    requires Canon(st) != UNDEFINED && ByRange(found, s.base.grants.Values, Canon(r), Canon(st), w)
    requires forall k :: k in ks <==> InWindow(s.base, st, w, k)
    requires Leads(lib, s.(procs := s.procs + multiset(ReadingsOf(s.base, r, st, found, ks))), steps, s')
    ensures Leads(lib, s, [CheckWindow(r, st, w, found), SelectUpdates(r, st, w, found)] + steps, s')
  {
    hide Leads, Outcome, ByRange, Canon, Apply;
    var check, select, p := CheckWindow(r, st, w, found), SelectUpdates(r, st, w, found), WindowChecked(r, st, w, found);
    var s1 := Began(s, p);
    var s2 := s.(procs := s.procs + multiset(ReadingsOf(s.base, r, st, found, ks)));
    ReadingsAgree(s.base, r, st, w, found, ks);
    GoesThrough(s.procs, p, p);
    hide InWindow, Readings, ReadingsOf, Enabled;
    MayCheck(s, r, st, w, found);
    MaySelect(s1, r, st, w, found);
    CheckStep(lib, s, r, st, w, found);
    SelectStep(lib, s1, r, st, w, found);
    assert Apply(lib, s1, select) == s2;
    OneStepMore(lib, s1, select, steps, s');
    OneStepMore(lib, s, check, [select] + steps, s');
    assert [check] + ([select] + steps) == [check, select] + steps;
  }

  /** The lookup that follows an accepted window computes every live row of it. */
  lemma WindowComputes(lib: Library, b: Base, r: Id, st: Id, w: Window, found: seq<Grant>, k: RowKey, ownerKey: string, recipientKey: string)
    requires Lawful(lib) && BaseOk(b) && Outcome(SortByFrom(found), w) == Granted
    requires Canon(st) != UNDEFINED && ByRange(found, b.grants.Values, Canon(r), Canon(st), w)
    requires KeysAreRight(lib, b, st, r, ownerKey, recipientKey) && InWindow(b, st, w, k)
    requires b.rows[k].payload.Some? && DecryptPayload(lib, b.rows[k].payload.value, ownerKey).Some?
    ensures Computed(lib, found, b.rows[k]).Some?
  {
    hide Lawful, KeysAreRight, DecryptPayload, Outcome, Computed, ByRange, ProcOk, BaseOk, Canon;
    FoundAreKnown(lib, b, r, st, w, found);
    SelectedIsReadable(lib, b, r, st, w, found, k);
    LiveReadingComputes(lib, b, r, st, found, k, b.rows[k], ownerKey, recipientKey);
  }

  /** A read of a granted window that nothing interrupts is a run of the protocol, in whichever order the
      database lists the rows `ks` of the window: it answers for each of them once, in that order, with a
      payload that decrypts to the row's plaintext, and leaves nothing behind. */
  lemma UninterruptedRead(lib: Library, s: State, r: Id, st: Id, w: Window, found: seq<Grant>, ks: seq<RowKey>,
                          ownerKey: string, recipientKey: string)
    returns (steps: seq<Step>, xs: seq<Returned>, s': State)
    requires Lawful(lib) && Reachable(lib, s) && Outcome(SortByFrom(found), w) == Granted
    requires Canon(st) != UNDEFINED && ByRange(found, s.base.grants.Values, Canon(r), Canon(st), w)
    requires KeysAreRight(lib, s.base, st, r, ownerKey, recipientKey)
    requires (forall k :: k in ks <==> InWindow(s.base, st, w, k)) && Distinct(ks)
    requires forall k :: InWindow(s.base, st, w, k) ==>
      s.base.rows[k].payload.Some? && DecryptPayload(lib, s.base.rows[k].payload.value, ownerKey).Some?
    ensures Leads(lib, s, [CheckWindow(r, st, w, found), SelectUpdates(r, st, w, found)] + steps, s') && Answering(steps)
    ensures s'.procs == s.procs && s'.base == s.base && s'.returned == s.returned + xs && AnswersFor(xs, r, st, ks)
    ensures forall i :: 0 <= i < |ks| ==>
      && InWindow(s.base, st, w, ks[i]) && xs[i].payload.Str?
      && DecryptPayload(lib, xs[i].payload.s, recipientKey) == DecryptPayload(lib, s.base.rows[ks[i]].payload.value, ownerKey)
  {
    ReachableInv(lib, s);
    BaseOf(lib, s);
    hide Lawful, Inv, Leads, Reachable, KeysAreRight, DecryptPayload, Outcome, Computed, ByRange, Canon, BaseOk;
    forall k <- ks ensures InWindow(s.base, st, w, k) && Computed(lib, found, s.base.rows[k]).Some? {
      WindowComputes(lib, s.base, r, st, w, found, k, ownerKey, recipientKey);
    }
    var s2 := s.(procs := s.procs + multiset(ReadingsOf(s.base, r, st, found, ks)));
    steps, xs, s' := ReadsAreARun(lib, s2, s.procs, r, st, found, ks);
    QueryIsARun(lib, s, r, st, w, found, ks, steps, s');
    RunKeepsInv(lib, s, [CheckWindow(r, st, w, found), SelectUpdates(r, st, w, found)] + steps, s');
    forall i | 0 <= i < |ks| ensures
      && InWindow(s.base, st, w, ks[i]) && xs[i].payload.Str?
      && DecryptPayload(lib, xs[i].payload.s, recipientKey) == DecryptPayload(lib, s.base.rows[ks[i]].payload.value, ownerKey)
    {
      assert ks[i] in ks && xs[i] in s'.returned;
      InsertedRow(lib, s, ks[i]);
      AnswersAreRight(lib, s', xs[i], ks[i], ownerKey, recipientKey);
    }
  }
}

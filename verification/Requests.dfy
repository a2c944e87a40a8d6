/** Saving updates and grants: where a request leads if nothing interrupts it, and what every run keeps of it. */
module Requests {
  import opened Entities
  import opened Json
  import opened Cache
  import opened Coverage
  import opened Pre
  import opened Pipeline
  import opened PipelineResults
  import opened FanOut
  import opened Reads

  // ----- Saving an update -----

  lemma QueueStep(lib: Library, s: State, u: Update)
    requires UpdateInserted(u) in s.procs
    ensures Enabled(s, QueueUpdate(u))
    ensures Apply(lib, s, QueueUpdate(u))
         == s.(statusQueue := s.statusQueue + {u}, procs := s.procs - multiset{UpdateInserted(u)})
  {
  }

  /** Saving an update, run alone, leaves a live row under its canonical id with its instant and payload, and
      the update itself in the worker's queue, and nothing else. */
  lemma SavedUpdateIsQueued(lib: Library, s: State, u: Update) returns (s': State)
    requires Enabled(s, InsertUpdate(u))
    ensures Leads(lib, s, [InsertUpdate(u), QueueUpdate(u)], s')
    ensures var k := RowKey(Canon(u.id), u.userId, u.streamId);
      && s'.base.rows == s.base.rows[k := Row(u.recordedAt, Some(u.payload))]
      && s'.base == s.base.(rows := s'.base.rows, inserted := s.base.inserted[k := u])
      && s' == s.(base := s'.base, statusQueue := s.statusQueue + {u})
  {
    hide Canon, Leads, Apply;
    var p := UpdateInserted(u);
    var s1 := s.(base := Pipeline.Insert(s.base, u), procs := s.procs + multiset{p});
    s' := s.(base := Pipeline.Insert(s.base, u), statusQueue := s.statusQueue + {u});
    GoesThrough(s.procs, p, p);
    InsertStep(lib, s, u);
    QueueStep(lib, s1, u);
    OneStep(lib, s1, QueueUpdate(u), s');
    OneStepMore(lib, s, InsertUpdate(u), [QueueUpdate(u)], s');
    assert [InsertUpdate(u)] + [QueueUpdate(u)] == [InsertUpdate(u), QueueUpdate(u)];
  }

  lemma QueueStays(lib: Library, s: State, step: Step)
    requires Enabled(s, step) && !step.QueueUpdate?
    ensures Apply(lib, s, step).statusQueue == s.statusQueue
  {
    if IsGrantStep(step) {
      GrantStepsKeepTheQueue(lib, s, step);
    } else if IsReadStep(step) {
      ReadStepsKeepTheQueue(lib, s, step);
    } else {
      OthersKeepTheStatusQueue(lib, s, step);
    }
    hide Enabled, Apply;
  }

  lemma GrantStepsKeepTheQueue(lib: Library, s: State, step: Step)
    requires Enabled(s, step) && IsGrantStep(step)
    ensures Apply(lib, s, step).statusQueue == s.statusQueue
  {
    hide Enabled, Canon, Canonical, Loading, AsRow, Indexing, Keying, Committing, Rewindowing, Members;
  }

  lemma ReadStepsKeepTheQueue(lib: Library, s: State, step: Step)
    requires Enabled(s, step) && IsReadStep(step)
    ensures Apply(lib, s, step).statusQueue == s.statusQueue
  {
    hide Enabled, Apply, Computed, Outcome, Truthy, Get, Readings;
    match step
    case CheckWindow(r, st, w, found) => CheckStep(lib, s, r, st, w, found);
    case SelectUpdates(r, st, w, found) => SelectStep(lib, s, r, st, w, found);
    case LookUpPayload(r, st, found, k, row) => LookUpStep(lib, s, r, st, found, k, row);
    case StoreComputed(r, st, k, c) => StoreStep(lib, s, r, st, k, c);
  }

  lemma OthersKeepTheStatusQueue(lib: Library, s: State, step: Step)
    requires Enabled(s, step) && !IsGrantStep(step) && !IsReadStep(step) && !step.QueueUpdate?
    ensures Apply(lib, s, step).statusQueue == s.statusQueue
  {
    hide ReEncryptPayload, Truthy, Get, FanOutTasks, Message, EntryFor, TaskOf, Canon, Canonical, Pipeline.Insert;
  }

  lemma InsertedStays(lib: Library, s: State, step: Step, p: Proc)
    requires Enabled(s, step) && p.UpdateInserted? && p in s.procs && step != QueueUpdate(p.u) && step != Fail(p)
    ensures p in Apply(lib, s, step).procs
  {
    hide Enabled, Apply;
    if step.InsertUpdate? {
      InsertStep(lib, s, step.u);
    } else if step.QueueUpdate? {
      QueueEnds(lib, s, step.u);
    } else if step.Fail? {
      Reads.FailStep(lib, s, step.p);
    } else if IsGrantStep(step) {
      GrantStepsKeepTheProcess(lib, s, step, p);
    } else if IsReadStep(step) {
      ReadStepsKeepTheProcess(lib, s, step, p);
    } else if IsFanOut(step) {
      FanOutStepsKeepTheProcess(lib, s, step, p);
    } else {
      WorkStepsKeepTheProcess(lib, s, step, p);
    }
  }

  lemma QueueEnds(lib: Library, s: State, u: Update)
    requires Enabled(s, QueueUpdate(u))
    ensures Apply(lib, s, QueueUpdate(u)) == s.(statusQueue := s.statusQueue + {u}, procs := s.procs - multiset{UpdateInserted(u)})
  {
  }

  /** Whatever interleaves with it, an update whose saving began is in the worker's queue for good, unless its
      process failed or is not done. */
  lemma {:induction false} SavedUpdatesReachTheQueue(lib: Library, s: State, steps: seq<Step>, s': State, u: Update)
    requires Leads(lib, s, steps, s')
    requires InsertUpdate(u) in steps || u in s.statusQueue || UpdateInserted(u) in s.procs
    ensures u in s'.statusQueue || UpdateInserted(u) in s'.procs || Fail(UpdateInserted(u)) in steps
    decreases |steps|
  {
    if steps != [] {
      hide Enabled, Apply;
      var step, s1 := steps[0], Apply(lib, s, steps[0]);
      assert steps == [step] + steps[1..];
      if step == InsertUpdate(u) { InsertStep(lib, s, u); }
      if step.QueueUpdate? { QueueEnds(lib, s, step.u); } else { QueueStays(lib, s, step); }
      if step != Fail(UpdateInserted(u)) {
        if UpdateInserted(u) in s.procs && step != QueueUpdate(u) { InsertedStays(lib, s, step, UpdateInserted(u)); }
        SavedUpdatesReachTheQueue(lib, s1, steps[1..], s', u);
      }
    }
  }

  // ----- Saving a grant -----

  lemma KeyStep(lib: Library, s: State, m: IndexEntry)
    requires GrantIndexed(m) in s.procs
    ensures Enabled(s, KeyGrant(m))
    ensures Apply(lib, s, KeyGrant(m)) == Becomes(s.(base := Keying(s.base, m)), GrantIndexed(m), GrantKeyed(m))
  {
  }

  lemma CommitStep(lib: Library, s: State, m: IndexEntry)
    requires GrantKeyed(m) in s.procs && m.grant.id !in s.base.grants
    ensures Enabled(s, CommitGrant(m))
    ensures Apply(lib, s, CommitGrant(m)) == Ended(s.(base := Committing(s.base, m)), GrantKeyed(m))
  {
  }

  lemma FourSteps(lib: Library, s: State, a: Step, s1: State, b: Step, s2: State, c: Step, s3: State, d: Step, s4: State)
    requires Enabled(s, a) && Apply(lib, s, a) == s1 && Enabled(s1, b) && Apply(lib, s1, b) == s2
    requires Enabled(s2, c) && Apply(lib, s2, c) == s3 && Enabled(s3, d) && Apply(lib, s3, d) == s4
    ensures Leads(lib, s, [a, b, c, d], s4)
  {
    hide *;
    assert [c] + [d] == [c, d] && [b] + [c, d] == [b, c, d] && [a] + [b, c, d] == [a, b, c, d];
    OneStep(lib, s3, d, s4);
    OneStepMore(lib, s2, c, [d], s4);
    OneStepMore(lib, s1, b, [c, d], s4);
    OneStepMore(lib, s, a, [b, c, d], s4);
  }

  /** Saving a grant, run alone, leaves the row with the ids in canonical spelling, the entity as it was sent
      in the set of the stream id as it was sent, and the key under the grant's id. */
  lemma SavedGrantIsIndexed(lib: Library, s: State, g: Grant) returns (s': State)
    requires Lawful(lib) && Reachable(lib, s) && Enabled(s, InsertGrant(g))
    ensures var m := IndexEntry(g, false); Leads(lib, s, [InsertGrant(g), IndexGrant(m), KeyGrant(m), CommitGrant(m)], s')
    ensures s' == s.(base := s'.base)
    ensures s'.base == s.base.(
      grants := s.base.grants[g.id := Grant(g.id, Canon(g.streamId), g.ownerId, Canon(g.recipientId), g.kind, g.fromDate, g.toDate, g.reEncryptionKey)],
      issued := s.base.issued[g.id := g], committed := s.base.committed + {g.id},
      index := s.base.index[g.streamId := Members(s.base, g.streamId) + {IndexEntry(g, false)}],
      keys := s.base.keys[g.id := g.reEncryptionKey])
  {
    ReachableInv(lib, s);
    BaseOf(lib, s);
    IssueStep(lib, s, g);
    NotInTable(s.base, g.id);
    hide Lawful, Reachable, Inv, BaseOk, Enabled, Apply, Leads, Canon;
    var m, ps := IndexEntry(g, false), s.procs;
    var b1 := s.base.(issued := s.base.issued[g.id := g]);
    var b2, b3 := Indexing(b1, m), Keying(Indexing(b1, m), m);
    var s1 := s.(base := b1, procs := ps + multiset{GrantInserted(m)});
    var s2 := s.(base := b2, procs := ps + multiset{GrantIndexed(m)});
    var s3 := s.(base := b3, procs := ps + multiset{GrantKeyed(m)});
    s' := s.(base := Committing(b3, m));
    GoesThrough(ps, GrantInserted(m), GrantIndexed(m));
    GoesThrough(ps, GrantIndexed(m), GrantKeyed(m));
    SavedBase(s.base, g);
    hide Indexing, Keying, Committing, Members, AsRow;
    IndexStep(lib, s1, m);
    KeyStep(lib, s2, m);
    CommitStep(lib, s3, m);
    FourSteps(lib, s, InsertGrant(g), s1, IndexGrant(m), s2, KeyGrant(m), s3, CommitGrant(m), s');
  }

  lemma SavedBase(b: Base, g: Grant)
    ensures var m, b1 := IndexEntry(g, false), b.(issued := b.issued[g.id := g]);
      Committing(Keying(Indexing(b1, m), m), m) == b.(
      grants := b.grants[g.id := Grant(g.id, Canon(g.streamId), g.ownerId, Canon(g.recipientId), g.kind, g.fromDate, g.toDate, g.reEncryptionKey)],
      issued := b.issued[g.id := g], committed := b.committed + {g.id},
      index := b.index[g.streamId := Members(b, g.streamId) + {m}], keys := b.keys[g.id := g.reEncryptionKey])
    ensures var m, b1 := IndexEntry(g, false), b.(issued := b.issued[g.id := g]);
      Indexing(b1, m).grants == b.grants && Keying(Indexing(b1, m), m).grants == b.grants
  {
    hide Canon;
  }

  lemma NotInTable(b: Base, id: Id)
    requires BaseOk(b) && id !in b.issued
    ensures id !in b.grants
  {
    assert id in b.grants ==> KnownGrant(b, b.grants[id]);
  }

  // ----- The windows of the table -----

  /** Some request of the run asked for this window: the one that saved the grant, or a change of it. */
  ghost predicate AskedFor(steps: seq<Step>, id: Id, fromDate: Instant, toDate: Instant) {
    || (exists step <- steps :: step.InsertGrant? && step.g.id == id && step.g.fromDate == fromDate && step.g.toDate == toDate)
    || (exists step <- steps :: step.LoadRange? && step.id == id && step.fromDate == fromDate && step.toDate == toDate)
  }

  ghost predicate Asked(steps: seq<Step>, g: Grant) { AskedFor(steps, g.id, g.fromDate, g.toDate) }

  function Holds(p: Proc): Grant
    requires CarriesGrant(p)
  {
    if p.RangeLoaded? then p.g else p.m.grant
  }

  ghost predicate AllAsked(steps: seq<Step>, s: State) {
    && (forall id <- s.base.grants :: s.base.grants[id].id == id && Asked(steps, s.base.grants[id]))
    && (forall p <- s.procs :: CarriesGrant(p) ==> Asked(steps, Holds(p)))
  }

  lemma AskedStays(steps: seq<Step>, step: Step, g: Grant)
    ensures Asked(steps, g) ==> Asked(steps + [step], g)
    ensures step.InsertGrant? && step.g == g ==> Asked(steps + [step], g)
    ensures step.LoadRange? && step.id == g.id && step.fromDate == g.fromDate && step.toDate == g.toDate ==> Asked(steps + [step], g)
  {
    assert step in steps + [step] && forall other <- steps :: other in steps + [step];
  }

  lemma OthersCarryNoMore(lib: Library, s: State, step: Step, p: Proc)
    requires Enabled(s, step) && !IsGrantStep(step) && CarriesGrant(p) && p in Apply(lib, s, step).procs
    ensures p in s.procs
  {
    hide Enabled, Apply;
    if step.Fail? {
      Reads.FailStep(lib, s, step.p);
    } else if IsReadStep(step) {
      ReadStepsKeepTheProcess(lib, s, step, p);
    } else if IsFanOut(step) {
      FanOutStepsKeepTheProcess(lib, s, step, p);
    } else {
      WorkStepsKeepTheProcess(lib, s, step, p);
    }
  }

  lemma OthersKeepGrants(lib: Library, s: State, step: Step)
    requires Enabled(s, step) && !IsGrantStep(step)
    ensures Apply(lib, s, step).base.grants == s.base.grants
  {
    if step.InsertUpdate? {
      InsertStep(lib, s, step.u);
      hide Apply, Enabled;
    } else if step.DeleteUpdate? {
      hide Enabled;
    } else {
      BaseStays(lib, s, step);
      hide Apply, Enabled;
    }
  }

  /** What a grant's own steps put into the table or carry on: nothing but what was there or what they ask for. */
  lemma GrantStepsCarry(lib: Library, s: State, step: Step, p: Proc)
    requires Enabled(s, step) && IsGrantStep(step) && CarriesGrant(p) && p in Apply(lib, s, step).procs
    ensures || p in s.procs
            || (step.InsertGrant? && p == GrantInserted(IndexEntry(step.g, false)))
            || (step.LoadRange? && step.id in s.base.grants && Holds(p) == Loading(s.base.grants[step.id], step.fromDate, step.toDate, step.streamLoaded))
            || (step.IndexGrant? && GrantInserted(step.m) in s.procs && p == GrantIndexed(step.m))
            || (step.KeyGrant? && GrantIndexed(step.m) in s.procs && p == GrantKeyed(step.m))
            || (step.WriteRange? && RangeLoaded(step.g) in s.procs && p == GrantInserted(IndexEntry(step.g, true)))
  {
    hide Enabled, Apply, Loading;
    MayCarry(s, step);
    GrantStepsMove(lib, s, step);
    var ps := s.procs;
    match step
    case InsertGrant(g) => Moved(ps, p, GrantInserted(IndexEntry(g, false)), p);
    case IndexGrant(m) => Moved(ps, GrantInserted(m), GrantIndexed(m), p);
    case KeyGrant(m) => Moved(ps, GrantIndexed(m), GrantKeyed(m), p);
    case CommitGrant(m) => Moved(ps, GrantKeyed(m), p, p);
    case LoadRange(id, from, to, loaded) =>
      var g := Loading(s.base.grants[id], from, to, loaded);
      Moved(ps, p, RangeLoaded(g), p);
    case WriteRange(g) => Moved(ps, RangeLoaded(g), GrantInserted(IndexEntry(g, true)), p);
    case BeginDelete(id) => Moved(ps, p, GrantDeleting(id), p);
    case DropRow(id) => Moved(ps, GrantDeleting(id), p, p);
    case _ =>
  }

  lemma Moved(ps: multiset<Proc>, a: Proc, b: Proc, p: Proc)
    ensures p in ps - multiset{a} ==> p in ps
    ensures p in ps + multiset{b} ==> p in ps || p == b
    ensures p in ps - multiset{a} + multiset{b} ==> p in ps || p == b
  {
  }

  /** Which processes a grant's step ends and begins. */
  lemma GrantStepsMove(lib: Library, s: State, step: Step)
    requires Enabled(s, step) && IsGrantStep(step)
    ensures step.LoadRange? ==> step.id in s.base.grants
    ensures Apply(lib, s, step).procs ==
      match step
      case InsertGrant(g) => s.procs + multiset{GrantInserted(IndexEntry(g, false))}
      case IndexGrant(m) => s.procs - multiset{GrantInserted(m)} + multiset{GrantIndexed(m)}
      case KeyGrant(m) => s.procs - multiset{GrantIndexed(m)} + multiset{GrantKeyed(m)}
      case CommitGrant(m) => s.procs - multiset{GrantKeyed(m)}
      case LoadRange(id, from, to, loaded) =>
        if id in s.base.grants then s.procs + multiset{RangeLoaded(Loading(s.base.grants[id], from, to, loaded))} else s.procs
      case WriteRange(g) =>
        if g.id in s.base.grants then s.procs - multiset{RangeLoaded(g)}
        else s.procs - multiset{RangeLoaded(g)} + multiset{GrantInserted(IndexEntry(g, true))}
      case BeginDelete(id) => s.procs + multiset{GrantDeleting(id)}
      case DropRow(id) => s.procs - multiset{GrantDeleting(id)}
      case _ => s.procs
  {
    hide Canon, Canonical, Indexing, Keying, Committing, Rewindowing, Loading, Members, AsRow;
  }

  /** The process that a grant's step goes on from is there, and so is the row it loads. */
  lemma MayCarry(s: State, step: Step)
    requires Enabled(s, step)
    ensures step.IndexGrant? ==> GrantInserted(step.m) in s.procs
    ensures step.KeyGrant? ==> GrantIndexed(step.m) in s.procs
    ensures step.WriteRange? ==> RangeLoaded(step.g) in s.procs
    ensures step.LoadRange? ==> step.id in s.base.grants
  {
  }

  lemma GrantStepsWrite(lib: Library, s: State, step: Step, id: Id)
    requires Enabled(s, step) && IsGrantStep(step) && id in Apply(lib, s, step).base.grants
    ensures var g' := Apply(lib, s, step).base.grants[id];
      || (id in s.base.grants && g' == s.base.grants[id])
      || (step.CommitGrant? && GrantKeyed(step.m) in s.procs && id == step.m.grant.id && g' == AsRow(step.m.grant))
      || (step.WriteRange? && RangeLoaded(step.g) in s.procs && id == step.g.id && id in s.base.grants
          && g' == s.base.grants[id].(fromDate := step.g.fromDate, toDate := step.g.toDate))
  {
    hide Canon, AsRow, Loading, Members, Indexing, Keying;
    if step.IndexGrant? || step.KeyGrant? { GrantsAreKept(s.base, step.m); }
  }

  lemma GrantsAreKept(b: Base, m: IndexEntry)
    ensures Indexing(b, m).grants == b.grants && Keying(b, m).grants == b.grants
  {
  }

  lemma LoadedWindow(grants: map<Id, Grant>, step: Step)
    requires step.LoadRange? && step.id in grants
    ensures var g := Loading(grants[step.id], step.fromDate, step.toDate, step.streamLoaded);
      g.id == grants[step.id].id && g.fromDate == step.fromDate && g.toDate == step.toDate
  {
  }

  lemma RowStaysAsked(lib: Library, past: seq<Step>, s: State, step: Step, id: Id)
    requires AllAsked(past, s) && Enabled(s, step) && id in Apply(lib, s, step).base.grants
    ensures var g := Apply(lib, s, step).base.grants[id]; g.id == id && Asked(past + [step], g)
  {
    if IsGrantStep(step) {
      GrantStepsWrite(lib, s, step, id);
      RowAsked(past, s, step, id, Apply(lib, s, step).base.grants[id]);
    } else {
      OthersKeepGrants(lib, s, step);
      AskedStays(past, step, s.base.grants[id]);
    }
    hide Enabled, Apply, Asked, Loading, AsRow;
  }

  lemma ProcStaysAsked(lib: Library, past: seq<Step>, s: State, step: Step, p: Proc)
    requires AllAsked(past, s) && Enabled(s, step) && CarriesGrant(p) && p in Apply(lib, s, step).procs
    ensures Asked(past + [step], Holds(p))
  {
    if IsGrantStep(step) {
      GrantStepsCarry(lib, s, step, p);
      if step.LoadRange? && step.id in s.base.grants { LoadedWindow(s.base.grants, step); }
    } else {
      OthersCarryNoMore(lib, s, step, p);
    }
    AskedStays(past, step, Holds(p));
    hide Enabled, Apply, Asked, Loading, AsRow;
  }

  lemma StepAsks(lib: Library, past: seq<Step>, s: State, step: Step)
    requires AllAsked(past, s) && Enabled(s, step)
    ensures AllAsked(past + [step], Apply(lib, s, step))
  {
    var s' := Apply(lib, s, step);
    forall id <- s'.base.grants ensures s'.base.grants[id].id == id && Asked(past + [step], s'.base.grants[id]) {
      RowStaysAsked(lib, past, s, step, id);
    }
    forall p <- s'.procs | CarriesGrant(p) ensures Asked(past + [step], Holds(p)) { ProcStaysAsked(lib, past, s, step, p); }
    hide Enabled, Apply, Asked;
  }

  lemma SameWindow(steps: seq<Step>, g: Grant, g': Grant)
    requires g.id == g'.id && g.fromDate == g'.fromDate && g.toDate == g'.toDate
    ensures Asked(steps, g) == Asked(steps, g')
  {
  }

  lemma RowAsked(past: seq<Step>, s: State, step: Step, id: Id, g': Grant)
    requires AllAsked(past, s)
    requires || (id in s.base.grants && g' == s.base.grants[id])
             || (step.CommitGrant? && GrantKeyed(step.m) in s.procs && id == step.m.grant.id && g' == AsRow(step.m.grant))
             || (step.WriteRange? && RangeLoaded(step.g) in s.procs && id == step.g.id && id in s.base.grants
                 && g' == s.base.grants[id].(fromDate := step.g.fromDate, toDate := step.g.toDate))
    ensures g'.id == id && Asked(past + [step], g')
  {
    hide Asked, Canon;
    AskedStays(past, step, g');
    if id in s.base.grants && g' == s.base.grants[id] {
    } else if step.CommitGrant? {
      assert Asked(past, Holds(GrantKeyed(step.m)));
      SameWindow(past, g', step.m.grant);
    } else {
      assert Asked(past, Holds(RangeLoaded(step.g)));
      SameWindow(past, g', step.g);
    }
  }

  lemma OneStepLater(past: seq<Step>, steps: seq<Step>)
    requires steps != []
    ensures past + [steps[0]] + steps[1..] == past + steps
  {
  }

  lemma {:induction false} RunAsks(lib: Library, past: seq<Step>, s: State, steps: seq<Step>, s': State)
    requires AllAsked(past, s) && Leads(lib, s, steps, s')
    ensures AllAsked(past + steps, s')
    decreases |steps|
  {
    if steps == [] {
      assert past + steps == past;
    } else {
      hide Enabled, Apply, AllAsked;
      StepAsks(lib, past, s, steps[0]);
      RunAsks(lib, past + [steps[0]], Apply(lib, s, steps[0]), steps[1..], s');
      OneStepLater(past, steps);
    }
  }

  /** After any run every row of the table has the window that one request asked for: the one that saved the
      grant, or one that changed its window, also where the row was inserted again. */
  lemma EveryWindowWasAskedFor(lib: Library, steps: seq<Step>, s: State, id: Id)
    requires Leads(lib, INIT, steps, s) && id in s.base.grants
    ensures AskedFor(steps, id, s.base.grants[id].fromDate, s.base.grants[id].toDate)
  {
    assert AllAsked([], INIT);
    hide Leads, AskedFor;
    RunAsks(lib, [], INIT, steps, s);
    assert [] + steps == steps;
  }
}

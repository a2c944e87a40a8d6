/** Fanning an update out over the index of its stream: how many messages a grant gets over whole
    runs, and that the handler, run alone, is one of the runs. */
module FanOut {
  import opened Entities
  import opened Json
  import opened Cache
  import opened Coverage
  import opened Pre
  import opened Pipeline
  import opened PipelineResults

  /** The message that fanning `u` out makes for an index entry: None where its key reads as nothing. */
  function TaskFor(u: Update, member: IndexEntry, keys: map<Id, string>): Option<PreTask> {
    var key := Get(keys, member.grant.id);
    if Truthy(key) then Some(TaskOf(u, member, key)) else None
  }

  // ----- Messages are conserved -----

  function KeyOfEntry(m: IndexEntry): JsValue { Loaded(m.grant.reEncryptionKey) }

  /** The processes that are on the way to send a message about `u` for an entry. */
  function InFlight(s: State, u: Update, m: IndexEntry): nat {
    s.procs[FanOutTask(u, m)] + s.procs[FanOutSending(u, m, KeyOfEntry(m))]
  }

  function Sent(s: State, u: Update, m: IndexEntry): nat { s.preQueue[TaskOf(u, m, KeyOfEntry(m))] }

  function Reads(steps: seq<Step>, u: Update): nat { multiset(steps)[ReadIndex(u)] }

  function Failures(steps: seq<Step>, u: Update, m: IndexEntry): nat {
    multiset(steps)[Fail(FanOutTask(u, m))] + multiset(steps)[Fail(FanOutSending(u, m, KeyOfEntry(m)))]
  }

  /** The entry of a committed grant of the update's stream, whose key reads as something. */
  ghost predicate Settled(b: Base, u: Update, m: IndexEntry) {
    && !m.revived && m.grant.id in b.committed && m.grant.id in b.issued && b.issued[m.grant.id] == m.grant
    && m.grant.streamId == u.streamId && Truthy(KeyOfEntry(m))
  }

  /** No other entry of the update's stream has the id. */
  ghost predicate Alone(b: Base, u: Update, m: IndexEntry) {
    forall m' :: m' in Members(b, u.streamId) && m'.grant.id == m.grant.id ==> m' == m
  }

  lemma SettledStays(lib: Library, s: State, step: Step, u: Update, m: IndexEntry)
    requires Enabled(s, step) && Settled(s.base, u, m)
    ensures Settled(Apply(lib, s, step).base, u, m)
  {
    hide ReEncryptPayload, Computed, Outcome, Canon, Truthy, Loaded;
  }

  /** In a settled entry's stream the entry is there, and its key is what a fan-out reads. */
  lemma SettledEntry(lib: Library, s: State, u: Update, m: IndexEntry)
    requires Inv(lib, s) && Settled(s.base, u, m)
    ensures m in Members(s.base, u.streamId) && Get(s.base.keys, m.grant.id) == KeyOfEntry(m)
  {
    assert Indexed(s.base, m.grant.id);
  }

  predicate IsFanOut(step: Step) { step.ReadIndex? || step.ReadKey? || step.SendTask? || step.Fail? }

  lemma OthersKeepTheQueue(lib: Library, s: State, step: Step)
    requires Enabled(s, step) && !IsFanOut(step)
    ensures Apply(lib, s, step).preQueue == s.preQueue
  {
    hide ReEncryptPayload, Computed, Outcome, Canon, Truthy, Loaded, Get;
  }

  predicate FansOut(p: Proc) { p.FanOutTask? || p.FanOutSending? }

  predicate ReadsOne(p: Proc) { p.Reading? || p.Storing? }

  predicate CarriesGrant(p: Proc) { p.GrantInserted? || p.GrantIndexed? || p.GrantKeyed? || p.RangeLoaded? }

  /** Starting, ending and going on as another process leave every third process alone. */
  lemma ThirdProcess(ps: multiset<Proc>, a: Proc, b: Proc, p: Proc)
    requires p != a && p != b
    ensures (ps - multiset{a})[p] == ps[p] && (ps + multiset{b})[p] == ps[p]
    ensures (ps - multiset{a} + multiset{b})[p] == ps[p]
  {
  }

  lemma GrantStepsKeepTheProcess(lib: Library, s: State, step: Step, p: Proc)
    requires Enabled(s, step) && IsGrantStep(step) && !CarriesGrant(p) && !p.GrantDeleting?
    ensures Apply(lib, s, step).procs[p] == s.procs[p]
  {
    hide Canon, Indexing, Keying, Committing, Rewindowing, Loading, Members, ReEncryptPayload, Computed, Outcome, Enabled;
    var ps, b := s.procs, s.base;
    match step
    case CreateStream(_, _) =>
    case InsertGrant(g) => ThirdProcess(ps, GrantInserted(IndexEntry(g, false)), GrantInserted(IndexEntry(g, false)), p);
    case IndexGrant(m) => ThirdProcess(ps, GrantInserted(m), GrantIndexed(m), p);
    case KeyGrant(m) => ThirdProcess(ps, GrantIndexed(m), GrantKeyed(m), p);
    case CommitGrant(m) => ThirdProcess(ps, GrantKeyed(m), GrantKeyed(m), p);
    case LoadRange(id, from, to, loaded) =>
      EnabledLoad(s, id, from, to, loaded);
      var q := RangeLoaded(Loading(b.grants[id], from, to, loaded));
      ThirdProcess(ps, q, q, p);
    case WriteRange(g) => ThirdProcess(ps, RangeLoaded(g), GrantInserted(IndexEntry(g, true)), p);
    case BeginDelete(id) => ThirdProcess(ps, GrantDeleting(id), GrantDeleting(id), p);
    case DropRow(id) => ThirdProcess(ps, GrantDeleting(id), GrantDeleting(id), p);
  }

  lemma EnabledLoad(s: State, id: Id, from: Instant, to: Instant, loaded: bool)
    requires Enabled(s, LoadRange(id, from, to, loaded))
    ensures id in s.base.grants
  {
  }

  lemma ReadStepsKeepTheProcess(lib: Library, s: State, step: Step, p: Proc)
    requires Enabled(s, step) && IsReadStep(step) && !ReadsOne(p) && !p.WindowChecked?
    ensures Apply(lib, s, step).procs[p] == s.procs[p]
  {
    hide Computed, Outcome, Canon, Truthy, Get, ByRange, Readings, ReEncryptPayload, Enabled;
    var ps, b := s.procs, s.base;
    match step
    case CheckWindow(r, st, w, found) =>
      var q := WindowChecked(r, st, w, found);
      ThirdProcess(ps, q, q, p);
    case SelectUpdates(r, st, w, found) =>
      var q := WindowChecked(r, st, w, found);
      ThirdProcess(ps, q, q, p);
      OnlyReadings(b, r, st, w, found, p);
    case LookUpPayload(r, st, found, k, row) =>
      var q := Reading(r, st, found, k, row);
      ThirdProcess(ps, q, q, p);
      if Computed(lib, found, row).Some? {
        ThirdProcess(ps, q, Storing(r, st, k, Computed(lib, found, row).value), p);
      }
    case StoreComputed(r, st, k, c) => ThirdProcess(ps, Storing(r, st, k, c), Storing(r, st, k, c), p);
  }

  lemma OnlyReadings(b: Base, r: Id, st: Id, w: Window, found: seq<Grant>, p: Proc)
    requires !p.Reading?
    ensures p !in Readings(b, r, st, w, found)
  {
  }

  lemma OthersKeepTheProcess(lib: Library, s: State, step: Step, p: Proc)
    requires Enabled(s, step) && !IsFanOut(step) && FansOut(p)
    ensures Apply(lib, s, step).procs[p] == s.procs[p]
  {
    if IsGrantStep(step) {
      GrantStepsKeepTheProcess(lib, s, step, p);
    } else if IsReadStep(step) {
      ReadStepsKeepTheProcess(lib, s, step, p);
    } else {
      WorkStepsKeepTheProcess(lib, s, step, p);
    }
  }

  predicate OutsideTheWork(step: Step, p: Proc) {
    FansOut(p) || ReadsOne(p) || CarriesGrant(p) || (p.UpdateInserted? && !step.InsertUpdate? && !step.QueueUpdate?)
  }

  lemma WorkStepsKeepTheProcess(lib: Library, s: State, step: Step, p: Proc)
    requires Enabled(s, step) && !IsFanOut(step) && !IsGrantStep(step) && !IsReadStep(step)
    requires OutsideTheWork(step, p)
    ensures Apply(lib, s, step).procs[p] == s.procs[p]
  {
    if step.DeliverTask? || step.FindListener? || step.StorePayload? || step.Publish? {
      TaskStepsKeepTheProcess(lib, s, step, p);
    } else {
      UpdateStepsKeepTheProcess(lib, s, step, p);
    }
    hide Enabled, Apply;
  }

  lemma UpdateStepsKeepTheProcess(lib: Library, s: State, step: Step, p: Proc)
    requires Enabled(s, step) && (step.InsertUpdate? || step.QueueUpdate? || step.DeleteUpdate? || step.DeliverUpdate?)
    requires OutsideTheWork(step, p)
    ensures Apply(lib, s, step).procs[p] == s.procs[p]
  {
    hide Pipeline.Insert, Enabled;
    var ps := s.procs;
    match step
    case InsertUpdate(u) => ThirdProcess(ps, UpdateInserted(u), UpdateInserted(u), p);
    case QueueUpdate(u) => ThirdProcess(ps, UpdateInserted(u), UpdateInserted(u), p);
    case DeleteUpdate(_) =>
    case DeliverUpdate(u) => ThirdProcess(ps, FanOutStarted(u), FanOutStarted(u), p);
  }

  lemma TaskStepsKeepTheProcess(lib: Library, s: State, step: Step, p: Proc)
    requires Enabled(s, step) && (step.DeliverTask? || step.FindListener? || step.StorePayload? || step.Publish?)
    requires OutsideTheWork(step, p)
    ensures Apply(lib, s, step).procs[p] == s.procs[p]
  {
    hide ReEncryptPayload, Enabled, Message, EntryFor;
    var ps := s.procs;
    match step
    case DeliverTask(t) => ThirdProcess(ps, PreStarted(t), PreStarted(t), p);
    case FindListener(t) => ThirdProcess(ps, PreStarted(t), PreListening(t), p);
    case StorePayload(t) =>
      ThirdProcess(ps, PreListening(t), PreListening(t), p);
      var c := ReEncryptPayload(lib, t.update.payload, t.reEncryptionKey);
      if c.Some? { ThirdProcess(ps, PreListening(t), PrePublishing(t, c.value), p); }
    case Publish(t, c) => ThirdProcess(ps, PrePublishing(t, c), PrePublishing(t, c), p);
  }

  lemma FanOutStepsKeepTheProcess(lib: Library, s: State, step: Step, p: Proc)
    requires Enabled(s, step) && IsFanOut(step) && !step.Fail? && !FansOut(p) && !p.FanOutStarted?
    ensures Apply(lib, s, step).procs[p] == s.procs[p]
  {
    hide Truthy, Get, TaskOf, FanOutTasks, Enabled;
    match step
    case ReadIndex(u) =>
      ThirdProcess(s.procs, FanOutStarted(u), FanOutStarted(u), p);
      OnlyFanOutTasks(s.base, u, p);
    case ReadKey(u, m) =>
      ThirdProcess(s.procs, FanOutTask(u, m), FanOutSending(u, m, Get(s.base.keys, m.grant.id)), p);
    case SendTask(u, m, key) => ThirdProcess(s.procs, FanOutSending(u, m, key), FanOutSending(u, m, key), p);
  }

  lemma OnlyFanOutTasks(b: Base, u: Update, p: Proc)
    requires !p.FanOutTask?
    ensures p !in FanOutTasks(b, u)
  {
  }

  /** Only the steps of a fan-out make or end its processes or send its messages. */
  lemma OthersLeaveItAlone(lib: Library, s: State, step: Step, u: Update, m: IndexEntry)
    requires Enabled(s, step) && !IsFanOut(step)
    ensures Sent(Apply(lib, s, step), u, m) == Sent(s, u, m)
    ensures InFlight(Apply(lib, s, step), u, m) == InFlight(s, u, m)
  {
    OthersKeepTheQueue(lib, s, step);
    OthersKeepTheProcess(lib, s, step, FanOutTask(u, m));
    OthersKeepTheProcess(lib, s, step, FanOutSending(u, m, KeyOfEntry(m)));
    hide Enabled, Apply, Loaded;
  }

  lemma ReadIndexAdds(lib: Library, s: State, v: Update, u: Update, m: IndexEntry)
    requires Enabled(s, ReadIndex(v)) && m in Members(s.base, u.streamId)
    ensures Sent(Apply(lib, s, ReadIndex(v)), u, m) == Sent(s, u, m)
    ensures InFlight(Apply(lib, s, ReadIndex(v)), u, m) == InFlight(s, u, m) + if v == u then 1 else 0
  {
    hide Members, Loaded;
    var s' := Apply(lib, s, ReadIndex(v));
    assert s'.procs == s.procs - multiset{FanOutStarted(v)} + multiset(FanOutTasks(s.base, v));
    assert FanOutTask(u, m) in FanOutTasks(s.base, v) <==> v == u;
    assert FanOutSending(u, m, KeyOfEntry(m)) !in FanOutTasks(s.base, v);
  }

  lemma ReadKeyKeeps(lib: Library, s: State, v: Update, n: IndexEntry, u: Update, m: IndexEntry)
    requires Enabled(s, ReadKey(v, n)) && Get(s.base.keys, m.grant.id) == KeyOfEntry(m) && Truthy(KeyOfEntry(m))
    ensures Sent(Apply(lib, s, ReadKey(v, n)), u, m) == Sent(s, u, m)
    ensures InFlight(Apply(lib, s, ReadKey(v, n)), u, m) == InFlight(s, u, m)
  {
    hide Get, Truthy, Loaded;
  }

  lemma ReadKeyStep(lib: Library, s: State, u: Update, m: IndexEntry)
    requires FanOutTask(u, m) in s.procs && Truthy(Get(s.base.keys, m.grant.id))
    ensures Enabled(s, ReadKey(u, m))
    ensures Apply(lib, s, ReadKey(u, m)) == Becomes(s, FanOutTask(u, m), FanOutSending(u, m, Get(s.base.keys, m.grant.id)))
  {
  }

  lemma SendTaskStep(lib: Library, s: State, u: Update, m: IndexEntry, key: JsValue)
    requires FanOutSending(u, m, key) in s.procs
    ensures Enabled(s, SendTask(u, m, key))
    ensures Apply(lib, s, SendTask(u, m, key))
         == Ended(s.(preQueue := s.preQueue + multiset{TaskOf(u, m, key)}), FanOutSending(u, m, key))
  {
  }

  lemma EndsOne(ps: multiset<Proc>, a: Proc, p: Proc)
    requires a in ps
    ensures (ps - multiset{a})[p] == ps[p] - if a == p then 1 else 0
  {
  }

  lemma AddsOne(queue: multiset<PreTask>, t: PreTask, t': PreTask)
    ensures (queue + multiset{t})[t'] == queue[t'] + if t == t' then 1 else 0
  {
  }

  /** Where an entry is alone, only its own process sends its message. */
  lemma OwnMessage(lib: Library, s: State, v: Update, n: IndexEntry, key: JsValue, u: Update, m: IndexEntry)
    requires Inv(lib, s) && Enabled(s, SendTask(v, n, key)) && Alone(s.base, u, m)
    ensures TaskOf(v, n, key) == TaskOf(u, m, KeyOfEntry(m)) <==> FanOutSending(v, n, key) == FanOutSending(u, m, KeyOfEntry(m))
  {
    ProcOf(lib, s, FanOutSending(v, n, key));
    assert n in Members(s.base, v.streamId);
    hide Inv, Loaded, Members, ProcOk;
  }

  lemma SendTaskKeeps(lib: Library, s: State, v: Update, n: IndexEntry, key: JsValue, u: Update, m: IndexEntry)
    requires Inv(lib, s) && Enabled(s, SendTask(v, n, key)) && Alone(s.base, u, m)
    ensures var s' := Apply(lib, s, SendTask(v, n, key)); Sent(s', u, m) + InFlight(s', u, m) == Sent(s, u, m) + InFlight(s, u, m)
  {
    OwnMessage(lib, s, v, n, key, u, m);
    var p, t := FanOutSending(v, n, key), TaskOf(v, n, key);
    EndsOne(s.procs, p, FanOutTask(u, m));
    EndsOne(s.procs, p, FanOutSending(u, m, KeyOfEntry(m)));
    AddsOne(s.preQueue, t, TaskOf(u, m, KeyOfEntry(m)));
    SendTaskStep(lib, s, v, n, key);
    hide Inv, KeyOfEntry, TaskOf, Alone, Enabled, Apply;
    var s' := Ended(s.(preQueue := s.preQueue + multiset{t}), p);
    assert s'.procs == s.procs - multiset{p} && s'.preQueue == s.preQueue + multiset{t};
  }

  lemma FailLoses(lib: Library, s: State, p: Proc, u: Update, m: IndexEntry)
    requires Enabled(s, Fail(p))
    ensures Sent(Apply(lib, s, Fail(p)), u, m) == Sent(s, u, m)
    ensures InFlight(Apply(lib, s, Fail(p)), u, m)
         == InFlight(s, u, m) - if p == FanOutTask(u, m) || p == FanOutSending(u, m, KeyOfEntry(m)) then 1 else 0
  {
    hide Loaded;
  }

  lemma CountsOfOne(step: Step, u: Update, m: IndexEntry)
    ensures Reads([step], u) == if step == ReadIndex(u) then 1 else 0
    ensures Failures([step], u, m)
         == if step == Fail(FanOutTask(u, m)) || step == Fail(FanOutSending(u, m, KeyOfEntry(m))) then 1 else 0
  {
    assert multiset([step]) == multiset{step};
    hide KeyOfEntry;
  }

  lemma StepConserves(lib: Library, s: State, step: Step, u: Update, m: IndexEntry)
    requires Inv(lib, s) && Enabled(s, step) && Settled(s.base, u, m) && Alone(s.base, u, m)
    ensures var s' := Apply(lib, s, step);
      Sent(s', u, m) + InFlight(s', u, m) + Failures([step], u, m) == Sent(s, u, m) + InFlight(s, u, m) + Reads([step], u)
  {
    CountsOfOne(step, u, m);
    if IsFanOut(step) {
      FanOutStepConserves(lib, s, step, u, m);
    } else {
      OthersLeaveItAlone(lib, s, step, u, m);
    }
    hide Inv, Enabled, Apply, Settled, Alone, Sent, InFlight, KeyOfEntry, Reads, Failures;
  }

  lemma FanOutStepConserves(lib: Library, s: State, step: Step, u: Update, m: IndexEntry)
    requires Inv(lib, s) && Enabled(s, step) && IsFanOut(step) && Settled(s.base, u, m) && Alone(s.base, u, m)
    ensures var s' := Apply(lib, s, step);
      Sent(s', u, m) + InFlight(s', u, m) == Sent(s, u, m) + InFlight(s, u, m)
        + (if step == ReadIndex(u) then 1 else 0)
        - (if step == Fail(FanOutTask(u, m)) || step == Fail(FanOutSending(u, m, KeyOfEntry(m))) then 1 else 0)
  {
    SettledEntry(lib, s, u, m);
    assert Truthy(KeyOfEntry(m));
    hide Inv, Enabled, Apply, Settled, Alone, Sent, InFlight, Members, Get, Truthy, KeyOfEntry;
    if step.ReadIndex? {
      ReadIndexAdds(lib, s, step.u, u, m);
    } else if step.ReadKey? {
      ReadKeyKeeps(lib, s, step.u, step.member, u, m);
    } else if step.SendTask? {
      SendTaskKeeps(lib, s, step.u, step.member, step.key, u, m);
    } else {
      FailLoses(lib, s, step.p, u, m);
    }
  }

  lemma AloneBefore(lib: Library, s: State, steps: seq<Step>, s': State, u: Update, m: IndexEntry)
    requires Leads(lib, s, steps, s') && Alone(s'.base, u, m)
    ensures Alone(s.base, u, m)
  {
    hide Leads, Members;
    forall m' | m' in Members(s.base, u.streamId) && m'.grant.id == m.grant.id ensures m' == m {
      IndexRecordsTheRun(lib, s, steps, s', u.streamId, m');
    }
  }

  /** Over every run, whatever interleaves with it: the messages about an update that a committed grant
      has been sent, and the processes on their way to send one, grow by the number of times the index was
      read for the update, less the processes that failed. The grant's row may be deleted meanwhile. */
  lemma {:induction false} FanOutIsConserved(lib: Library, s: State, steps: seq<Step>, s': State, u: Update, m: IndexEntry)
    requires Lawful(lib) && Inv(lib, s) && Leads(lib, s, steps, s')
    requires Settled(s.base, u, m) && Alone(s'.base, u, m)
    ensures Sent(s', u, m) + InFlight(s', u, m) + Failures(steps, u, m) == Sent(s, u, m) + InFlight(s, u, m) + Reads(steps, u)
    decreases |steps|
  {
    hide Lawful, Inv, Enabled, Apply, Settled, Alone, Sent, InFlight;
    if steps == [] {
    } else {
      var s1 := Apply(lib, s, steps[0]);
      AloneBefore(lib, s, steps, s', u, m);
      StepConserves(lib, s, steps[0], u, m);
      StepKeepsInv(lib, s, steps[0]);
      SettledStays(lib, s, steps[0], u, m);
      FanOutIsConserved(lib, s1, steps[1..], s', u, m);
      assert multiset(steps) == multiset([steps[0]]) + multiset(steps[1..]) by { assert steps == [steps[0]] + steps[1..]; }
    }
  }

  /** A non-empty key that is no JSON text is read as it is and passes the test for a key; an empty one does not. */
  lemma PlainKeyPasses(key: string)
    ensures key != "" && !IsJsonText(key) ==> Loaded(key) == Str(key) && Truthy(Loaded(key))
    ensures key == "" ==> !Truthy(Loaded(key))
  {
    if key == "" { assert SkipSpace("") == ""; }
    hide Parse;
  }

  /** A run in which none of these processes fails, and after which none is left, has sent every
      committed grant of the stream that is indexed once, and whose key is not empty and no JSON text,
      exactly one message with that key for each time the index was read for the update, and for each
      process that was on its way. */
  lemma FanOutReachesEveryCommittedGrant(lib: Library, s: State, steps: seq<Step>, s': State, u: Update, id: Id)
    requires Lawful(lib) && Reachable(lib, s) && Leads(lib, s, steps, s')
    requires id in s.base.committed && id in s.base.issued && IndexedOnce(s'.base, id)
    requires var g := s.base.issued[id]; g.streamId == u.streamId && g.reEncryptionKey != "" && !IsJsonText(g.reEncryptionKey)
    requires var m := IndexEntry(s.base.issued[id], false); Failures(steps, u, m) == 0 && InFlight(s', u, m) == 0
    ensures var g := s.base.issued[id];
      var t := PreTask(u, g.recipientId, Str(g.reEncryptionKey), id);
      s'.preQueue[t] == s.preQueue[t] + InFlight(s, u, IndexEntry(g, false)) + Reads(steps, u)
  {
    ReachableInv(lib, s);
    EveryCommittedGrantIsIndexed(lib, s, id);
    var g := s.base.issued[id];
    var m := IndexEntry(g, false);
    PlainKeyPasses(g.reEncryptionKey);
    assert g.id == id && Settled(s.base, u, m);
    hide Lawful, Reachable, Inv, Settled, Leads, Truthy, Members, Canon, Canonical;
    IndexRecordsTheRun(lib, s, steps, s', g.streamId, m);
    assert Alone(s'.base, u, m);
    FanOutIsConserved(lib, s, steps, s', u, m);
  }

  /** Reading the index leaves one process for each committed grant of the stream that is indexed once,
      and that process finds the grant's own key. */
  lemma FanOutStartsOneProcessPerCommittedGrant(lib: Library, s: State, u: Update, id: Id)
    requires Lawful(lib) && Reachable(lib, s) && FanOutStarted(u) in s.procs
    requires id in s.base.committed && id in s.base.issued && s.base.issued[id].streamId == u.streamId && IndexedOnce(s.base, id)
    ensures var m := IndexEntry(s.base.issued[id], false);
      && FanOutTask(u, m) in FanOutTasks(s.base, u)
      && (forall m' :: FanOutTask(u, m') in FanOutTasks(s.base, u) && m'.grant.id == id ==> m' == m)
      && Get(s.base.keys, id) == KeyOfEntry(m)
  {
    EveryCommittedGrantIsIndexed(lib, s, id);
  }

  // ----- The handler, run alone -----

  /** The messages for a list of index entries, in list order. The source runs them concurrently, so
      only how often each occurs matters. */
  function TasksOf(members: seq<IndexEntry>, keys: map<Id, string>, u: Update, rejected: set<Id>): seq<PreTask> {
    if members == [] then []
    else
      var rest := TasksOf(members[..|members| - 1], keys, u, rejected);
      var m := members[|members| - 1];
      if m.grant.id !in rejected && TaskFor(u, m, keys).Some? then rest + [TaskFor(u, m, keys).value] else rest
  }

  function EntrySteps(u: Update, m: IndexEntry, keys: map<Id, string>, rejected: set<Id>): seq<Step> {
    var key := Get(keys, m.grant.id);
    if m.grant.id in rejected then [Fail(FanOutTask(u, m))]
    else if Truthy(key) then [ReadKey(u, m), SendTask(u, m, key)]
    else [ReadKey(u, m)]
  }

  /** The steps the handler's loop is cut into. */
  function LoopSteps(u: Update, members: seq<IndexEntry>, keys: map<Id, string>, rejected: set<Id>): seq<Step> {
    if members == [] then []
    else LoopSteps(u, members[..|members| - 1], keys, rejected) + EntrySteps(u, members[|members| - 1], keys, rejected)
  }

  function Procs(u: Update, members: seq<IndexEntry>): set<Proc> { set m | m in members :: FanOutTask(u, m) }

  lemma OneStep(lib: Library, s: State, step: Step, s': State)
    requires Enabled(s, step) && Apply(lib, s, step) == s'
    ensures Leads(lib, s, [step], s')
  {
    hide Enabled, Apply;
    NoStep(lib, s');
    OneStepMore(lib, s, step, [], s');
    assert [step] + [] == [step];
  }

  lemma EntryIsARun(lib: Library, s: State, q: multiset<Proc>, u: Update, m: IndexEntry, rejected: set<Id>)
    requires s.procs == q + multiset{FanOutTask(u, m)}
    ensures Leads(lib, s, EntrySteps(u, m, s.base.keys, rejected), AfterEntry(s, q, u, m, rejected))
  {
    hide Truthy, Get;
    var p, key := FanOutTask(u, m), Get(s.base.keys, m.grant.id);
    assert s.procs - multiset{p} == q;
    if m.grant.id !in rejected && Truthy(key) {
      SendingIsARun(lib, s, q, u, m);
    } else {
      assert Ended(s, p) == s.(procs := q);
      OneStep(lib, s, if m.grant.id in rejected then Fail(p) else ReadKey(u, m), Ended(s, p));
    }
  }

  lemma GoesThrough(q: multiset<Proc>, p: Proc, p': Proc)
    ensures q + multiset{p} - multiset{p} == q
    ensures q + multiset{p} - multiset{p} + multiset{p'} == q + multiset{p'}
    ensures q + multiset{p'} - multiset{p'} == q
  {
  }

  lemma SendingIsARun(lib: Library, s: State, q: multiset<Proc>, u: Update, m: IndexEntry)
    requires s.procs == q + multiset{FanOutTask(u, m)} && Truthy(Get(s.base.keys, m.grant.id))
    ensures var key := Get(s.base.keys, m.grant.id);
      Leads(lib, s, [ReadKey(u, m), SendTask(u, m, key)],
        s.(procs := q, preQueue := s.preQueue + multiset{TaskOf(u, m, key)}))
  {
    hide Truthy, Get, Enabled, Apply, TaskOf, Leads;
    var key := Get(s.base.keys, m.grant.id);
    var p, sending := FanOutTask(u, m), FanOutSending(u, m, key);
    var s1 := Becomes(s, p, sending);
    var s2 := s.(procs := q, preQueue := s.preQueue + multiset{TaskOf(u, m, key)});
    GoesThrough(q, p, sending);
    assert s1.base == s.base && s1.preQueue == s.preQueue && s1.procs == q + multiset{sending};
    assert p in s.procs && sending in s1.procs;
    assert Ended(s1.(preQueue := s1.preQueue + multiset{TaskOf(u, m, key)}), sending) == s2;
    hide Becomes, Ended;
    ReadKeyStep(lib, s, u, m);
    SendTaskStep(lib, s1, u, m, key);
    OneStep(lib, s1, SendTask(u, m, key), s2);
    OneStepMore(lib, s, ReadKey(u, m), [SendTask(u, m, key)], s2);
    assert [ReadKey(u, m)] + [SendTask(u, m, key)] == [ReadKey(u, m), SendTask(u, m, key)];
  }

  /** The state after one entry's process has ended and only the processes `q` are left. */
  function AfterEntry(s: State, q: multiset<Proc>, u: Update, m: IndexEntry, rejected: set<Id>): State {
    if m.grant.id !in rejected && TaskFor(u, m, s.base.keys).Some?
    then s.(procs := q, preQueue := s.preQueue + multiset{TaskFor(u, m, s.base.keys).value})
    else s.(procs := q)
  }

  lemma ProcsOfOneMore(u: Update, members: seq<IndexEntry>)
    requires members != [] && forall i, j :: 0 <= i < j < |members| ==> members[i] != members[j]
    ensures var before, m := members[..|members| - 1], members[|members| - 1];
      multiset(Procs(u, members)) == multiset(Procs(u, before)) + multiset{FanOutTask(u, m)}
  {
    var before, m := members[..|members| - 1], members[|members| - 1];
    assert members == before + [m] && m !in before;
    assert Procs(u, members) == Procs(u, before) + {FanOutTask(u, m)} && FanOutTask(u, m) !in Procs(u, before);
  }

  /** The state after the loop has gone through the list and only the processes `q` are left. */
  function AfterLoop(s: State, q: multiset<Proc>, u: Update, members: seq<IndexEntry>, rejected: set<Id>): State {
    s.(procs := q, preQueue := s.preQueue + multiset(TasksOf(members, s.base.keys, u, rejected)))
  }

  lemma OneEntryMore(s: State, q': multiset<Proc>, q: multiset<Proc>, u: Update, members: seq<IndexEntry>, rejected: set<Id>)
    requires members != []
    ensures AfterEntry(AfterLoop(s, q', u, members[..|members| - 1], rejected), q, u, members[|members| - 1], rejected)
         == AfterLoop(s, q, u, members, rejected)
  {
    hide TaskFor;
    var s', s'' := AfterLoop(s, q', u, members[..|members| - 1], rejected), AfterLoop(s, q, u, members, rejected);
    assert s'.base == s.base;
    var t := TaskFor(u, members[|members| - 1], s.base.keys);
    if members[|members| - 1].grant.id !in rejected && t.Some? {
      assert s''.preQueue == s'.preQueue + multiset{t.value};
    }
  }

  lemma {:induction false} LoopIsARun(lib: Library, s: State, q: multiset<Proc>, u: Update, members: seq<IndexEntry>, rejected: set<Id>)
    requires s.procs == q + multiset(Procs(u, members))
    requires forall i, j :: 0 <= i < j < |members| ==> members[i] != members[j]
    ensures Leads(lib, s, LoopSteps(u, members, s.base.keys, rejected), AfterLoop(s, q, u, members, rejected))
    decreases |members|
  {
    if members == [] {
      assert Procs(u, members) == {};
      assert s == AfterLoop(s, q, u, members, rejected);
    } else {
      var keys := s.base.keys;
      var before, m := members[..|members| - 1], members[|members| - 1];
      var q' := q + multiset{FanOutTask(u, m)};
      ProcsOfOneMore(u, members);
      OneEntryMore(s, q', q, u, members, rejected);
      var s1 := AfterLoop(s, q', u, before, rejected);
      assert s1.procs == q' && s1.base == s.base;
      hide Leads, TaskFor, EntrySteps, Procs, TasksOf, AfterLoop, AfterEntry;
      LoopIsARun(lib, s, q', u, before, rejected);
      EntryIsARun(lib, s1, q, u, m, rejected);
      LeadsOn(lib, s, LoopSteps(u, before, keys, rejected), s1, EntrySteps(u, m, keys, rejected), AfterEntry(s1, q, u, m, rejected));
    }
  }

  lemma DeliverStep(lib: Library, s: State, u: Update)
    requires u in s.statusQueue
    ensures Enabled(s, DeliverUpdate(u)) && Apply(lib, s, DeliverUpdate(u)) == Began(s, FanOutStarted(u))
  {
  }

  lemma ReadIndexStep(lib: Library, s: State, u: Update)
    requires FanOutStarted(u) in s.procs
    ensures Enabled(s, ReadIndex(u))
    ensures Apply(lib, s, ReadIndex(u)) == Spawns(s, FanOutStarted(u), FanOutTasks(s.base, u))
  {
  }

  /** The whole handler is a run of the protocol: from delivery and the reading of the index, in any
      order Redis lists it, to the messages that the loop sends. */
  lemma HandlerLoopIsARun(lib: Library, s: State, u: Update, members: seq<IndexEntry>, rejected: set<Id>)
    requires u in s.statusQueue && forall m :: m in members <==> m in Members(s.base, u.streamId)
    requires forall i, j :: 0 <= i < j < |members| ==> members[i] != members[j]
    ensures Leads(lib, s, [DeliverUpdate(u), ReadIndex(u)] + LoopSteps(u, members, s.base.keys, rejected),
      s.(preQueue := s.preQueue + multiset(TasksOf(members, s.base.keys, u, rejected))))
  {
    hide Enabled, Apply, LoopSteps, TasksOf, Leads;
    var s1 := Began(s, FanOutStarted(u));
    var s2 := s.(procs := s.procs + multiset(Procs(u, members)));
    assert Procs(u, members) == FanOutTasks(s.base, u);
    hide FanOutTasks, Procs;
    GoesThrough(s.procs, FanOutStarted(u), FanOutStarted(u));
    assert Spawns(s1, FanOutStarted(u), FanOutTasks(s.base, u)) == s2;
    assert FanOutStarted(u) in s1.procs && s1.base == s.base;
    hide Began, Spawns;
    DeliverStep(lib, s, u);
    ReadIndexStep(lib, s1, u);
    var loop := LoopSteps(u, members, s.base.keys, rejected);
    var s3 := s.(preQueue := s.preQueue + multiset(TasksOf(members, s.base.keys, u, rejected)));
    LoopIsARun(lib, s2, s.procs, u, members, rejected);
    OneStepMore(lib, s1, ReadIndex(u), loop, s3);
    OneStepMore(lib, s, DeliverUpdate(u), [ReadIndex(u)] + loop, s3);
    assert [DeliverUpdate(u)] + ([ReadIndex(u)] + loop) == [DeliverUpdate(u), ReadIndex(u)] + loop;
  }

  /** Where a grant's key reads as nothing, it is sent nothing. */
  lemma {:induction false} NothingIsSentTo(members: seq<IndexEntry>, keys: map<Id, string>, u: Update, id: Id)
    requires !Truthy(Get(keys, id))
    ensures forall t <- TasksOf(members, keys, u, {}) :: t.grantId != id
    decreases |members|
  {
    if members != [] {
      hide Get, Truthy;
      NothingIsSentTo(members[..|members| - 1], keys, u, id);
    }
  }

  /** Over a list that holds an entry once, and no other of its id, its message is sent once. */
  lemma {:induction false} EachEntryIsSentOnce(members: seq<IndexEntry>, keys: map<Id, string>, u: Update, m: IndexEntry)
    requires forall i, j :: 0 <= i < j < |members| ==> members[i] != members[j]
    requires forall m' :: m' in members && m'.grant.id == m.grant.id ==> m' == m
    ensures var t := TaskOf(u, m, Get(keys, m.grant.id));
      multiset(TasksOf(members, keys, u, {}))[t] == if m in members && Truthy(t.reEncryptionKey) then 1 else 0
    decreases |members|
  {
    if members != [] {
      hide Get, Truthy;
      var before, last := members[..|members| - 1], members[|members| - 1];
      assert members == before + [last] && last !in before;
      EachEntryIsSentOnce(before, keys, u, m);
      assert m in members <==> m in before || m == last;
    }
  }
}

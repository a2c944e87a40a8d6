/** Saving, modifying and deleting grants as processes that interleave at every `await`: a save checks
    that no `latest` grant stands in its way, then looks its stream up, then inserts. Requests that
    overlap may each pass the check before either inserts. */
module GrantRuns {
  import opened Entities
  import opened Grants

  datatype Request = Request(uuid: Id, dto: GrantDto, scopes: set<Scope>)

  /** A save that has passed its check, or its stream lookup as well. */
  datatype Pending = Checked(req: Request) | Looked(req: Request)

  /** `issued` is history: the row of every grant as it was first inserted. `loaded` are the rows that
      window changes have read and not yet written. */
  datatype State = State(
    streams: map<Id, Stream>, supported: map<string, set<GrantType>>,
    grants: map<Id, Grant>, issued: map<Id, Grant>, pending: multiset<Pending>, loaded: multiset<Grant>)

  datatype Step =
    | CreateStream(id: Id, stream: Stream)
    | CreateStreamType(streamType: string, kinds: set<GrantType>)
    | Check(req: Request)
    | LookUp(req: Request)
    | Insert(req: Request, id: Id)
    | Abandon(p: Pending)
    | Load(id: Id, fromDate: Instant, toDate: Instant, streamLoaded: bool)
    | Write(g: Grant)
    | Drop(id: Id)

  const INIT := State(map[], map[], map[], map[], multiset{}, multiset{})

  predicate Enabled(s: State, step: Step) {
    match step
    case CreateStream(id, _) => id !in s.streams && Canonical(id)
    case CreateStreamType(t, _) => t !in s.supported
    case Check(req) => |req.dto.recipientId| == ID_LENGTH
    case LookUp(req) => Checked(req) in s.pending
    case Insert(req, id) => Looked(req) in s.pending && id !in s.issued
    case Abandon(p) => p in s.pending
    case Load(id, _, _, _) => id in s.grants && s.grants[id].kind == Range
    case Write(g) => g in s.loaded
    case Drop(id) => id in s.grants
  }

  function RowOf(req: Request, id: Id): Grant { AsRow(NewGrant(req.uuid, req.dto, id)) }

  function Apply(s: State, step: Step): State
    requires Enabled(s, step)
  {
    match step
    case CreateStream(id, stream) => s.(streams := s.streams[id := stream])
    case CreateStreamType(t, kinds) => s.(supported := s.supported[t := kinds])
    case Check(req) =>
      if CheckRefusal(s.grants, req.uuid, req.dto, req.scopes).Some? then s
      else s.(pending := s.pending + multiset{Checked(req)})
    case LookUp(req) =>
      var rest := s.pending - multiset{Checked(req)};
      if StreamRefusal(s.streams, s.supported, req.uuid, req.dto).Some? then s.(pending := rest)
      else s.(pending := rest + multiset{Looked(req)})
    case Insert(req, id) =>
      s.(grants := s.grants[id := RowOf(req, id)], issued := s.issued[id := RowOf(req, id)],
         pending := s.pending - multiset{Looked(req)})
    case Abandon(p) => s.(pending := s.pending - multiset{p})
    case Load(id, from, to, streamLoaded) => s.(loaded := s.loaded + multiset{Loading(s.grants[id], from, to, streamLoaded)})
    // A row that has been deleted meanwhile is inserted again.
    case Write(g) =>
      var row := if g.id in s.grants then s.grants[g.id].(fromDate := g.fromDate, toDate := g.toDate) else g;
      s.(grants := s.grants[g.id := row], loaded := s.loaded - multiset{g})
    case Drop(id) => s.(grants := s.grants - {id})
  }

  predicate Leads(s: State, steps: seq<Step>, s': State)
    decreases |steps|
  {
    if steps == [] then s' == s
    else Enabled(s, steps[0]) && Leads(Apply(s, steps[0]), steps[1..], s')
  }

  // ----- What every run keeps, overlapping or not -----

  /** But for its window, the row is what was first inserted under its id; if it was inserted again it may
      have lost its stream. */
  predicate Descends(s: State, g: Grant) {
    && g.id in s.issued && g == s.issued[g.id].(fromDate := g.fromDate, toDate := g.toDate, streamId := g.streamId)
    && (g.streamId == s.issued[g.id].streamId || (g.streamId == UNDEFINED && g.kind == Range))
  }

  predicate Acceptable(s: State, req: Request) {
    StreamRefusal(s.streams, s.supported, req.uuid, req.dto).None? && |req.dto.recipientId| == ID_LENGTH
  }

  ghost predicate PendingOk(s: State) {
    forall p <- s.pending :: |p.req.dto.recipientId| == ID_LENGTH && (p.Looked? ==> Acceptable(s, p.req))
  }

  ghost predicate IssuedOk(s: State) {
    forall id <- s.issued :: s.issued[id].id == id && WellIssued(s.streams, s.supported, s.issued[id])
  }

  ghost predicate RowsOk(s: State) {
    && (forall id <- s.grants :: s.grants[id].id == id && Descends(s, s.grants[id]))
    && (forall g <- s.loaded :: Descends(s, g) && g.kind == Range)
  }

  ghost predicate Inv(s: State) { PendingOk(s) && IssuedOk(s) && RowsOk(s) }

  /** What a request is refused for does not come back once its stream and type are there. */
  lemma StaysAcceptable(s: State, s': State, req: Request)
    requires Acceptable(s, req)
    requires WorldGrows(s, s')
    ensures Acceptable(s', req)
  {
    hide Canon, Canonical;
  }

  /** The steps that only add streams or types, give a save up, or remove or load a row. */
  predicate IsMinor(step: Step) {
    step.CreateStream? || step.CreateStreamType? || step.Abandon? || step.Load? || step.Drop?
  }

  predicate WorldGrows(s: State, s': State) {
    && (forall id <- s.streams :: id in s'.streams && s'.streams[id] == s.streams[id])
    && (forall t <- s.supported :: t in s'.supported && s'.supported[t] == s.supported[t])
  }

  predicate GrantsShrink(s: State, s': State) { forall id <- s'.grants :: id in s.grants && s'.grants[id] == s.grants[id] }

  lemma MinorSteps(s: State, step: Step)
    requires Enabled(s, step) && IsMinor(step)
    ensures var s' := Apply(s, step);
      && WorldGrows(s, s') && GrantsShrink(s, s') && s'.issued == s.issued && s'.pending <= s.pending
      && (!step.Load? ==> s'.loaded == s.loaded)
  {
    hide CheckRefusal, StreamRefusal, RowOf, Canonical;
  }

  lemma MajorSteps(s: State, step: Step)
    requires Enabled(s, step) && !IsMinor(step)
    ensures WorldGrows(s, Apply(s, step)) && (step.Insert? || step.Write? ==> Apply(s, step).pending <= s.pending)
  {
    hide CheckRefusal, StreamRefusal, RowOf, Canonical;
  }

  lemma WorldKeepsPending(s: State, s': State)
    requires PendingOk(s) && s'.pending <= s.pending
    requires WorldGrows(s, s')
    ensures PendingOk(s')
  {
    hide Acceptable;
    forall p <- s'.pending ensures |p.req.dto.recipientId| == ID_LENGTH && (p.Looked? ==> Acceptable(s', p.req)) {
      assert p in s.pending;
      if p.Looked? { StaysAcceptable(s, s', p.req); }
    }
  }

  lemma LookUpKeepsPending(s: State, req: Request)
    requires PendingOk(s) && Enabled(s, LookUp(req))
    ensures PendingOk(Apply(s, LookUp(req)))
  {
    var s' := Apply(s, LookUp(req));
    assert Checked(req) in s.pending;
    forall p <- s'.pending ensures |p.req.dto.recipientId| == ID_LENGTH && (p.Looked? ==> Acceptable(s', p.req)) {
      assert p == Looked(req) || p in s.pending;
      assert p != Looked(req) && p.Looked? ==> Acceptable(s, p.req);
      hide StreamRefusal;
    }
  }

  lemma CheckKeepsPending(s: State, req: Request)
    requires PendingOk(s) && Enabled(s, Check(req))
    ensures PendingOk(Apply(s, Check(req)))
  {
    var s' := Apply(s, Check(req));
    assert forall p <- s'.pending :: p == Checked(req) || p in s.pending;
    forall p <- s'.pending ensures |p.req.dto.recipientId| == ID_LENGTH && (p.Looked? ==> Acceptable(s', p.req)) {
      assert p != Checked(req) && p.Looked? ==> Acceptable(s, p.req);
      hide StreamRefusal, CheckRefusal;
    }
  }

  lemma StepKeepsPending(s: State, step: Step)
    requires PendingOk(s) && Enabled(s, step)
    ensures PendingOk(Apply(s, step))
  {
    hide Enabled, Apply, PendingOk;
    if step.Check? {
      CheckKeepsPending(s, step.req);
    } else if step.LookUp? {
      LookUpKeepsPending(s, step.req);
    } else {
      if IsMinor(step) { MinorSteps(s, step); } else { MajorSteps(s, step); }
      WorldKeepsPending(s, Apply(s, step));
    }
  }

  lemma AcceptableIsWellIssued(s: State, req: Request, id: Id)
    requires Acceptable(s, req)
    ensures WellIssued(s.streams, s.supported, RowOf(req, id)) && RowOf(req, id).id == id
  {
  }

  lemma StepKeepsIssued(s: State, step: Step)
    requires PendingOk(s) && IssuedOk(s) && Enabled(s, step)
    ensures IssuedOk(Apply(s, step))
  {
    if step.Insert? { AcceptableIsWellIssued(s, step.req, step.id); }
    hide Canonical, Existing, RowOf, CheckRefusal;
  }

  lemma InsertKeepsRows(s: State, req: Request, id: Id)
    requires RowsOk(s) && Enabled(s, Insert(req, id))
    ensures RowsOk(Apply(s, Insert(req, id)))
  {
    var s', row := Apply(s, Insert(req, id)), RowOf(req, id);
    assert row.id == id && id !in s.issued && s'.loaded == s.loaded;
    assert s'.grants == s.grants[id := row] && s'.issued == s.issued[id := row];
    hide RowOf, Enabled, Apply;
    forall g | Descends(s, g) ensures Descends(s', g) { }
    assert Descends(s', row);
    hide Descends;
  }

  lemma WriteKeepsRows(s: State, g: Grant)
    requires RowsOk(s) && Enabled(s, Write(g))
    ensures RowsOk(Apply(s, Write(g)))
  {
    var s' := Apply(s, Write(g));
    assert Descends(s, s'.grants[g.id]);
    assert forall h :: Descends(s, h) <==> Descends(s', h);
    hide Descends;
  }

  lemma LoadKeepsRows(s: State, id: Id, fromDate: Instant, toDate: Instant, streamLoaded: bool)
    requires RowsOk(s) && Enabled(s, Load(id, fromDate, toDate, streamLoaded))
    ensures RowsOk(Apply(s, Load(id, fromDate, toDate, streamLoaded)))
  {
    var s', g := Apply(s, Load(id, fromDate, toDate, streamLoaded)), Loading(s.grants[id], fromDate, toDate, streamLoaded);
    assert Descends(s, s.grants[id]) && s'.issued == s.issued;
    assert Descends(s', g) && g.kind == Range;
    forall h | Descends(s, h) ensures Descends(s', h) { }
    hide Descends;
  }

  /** Rows and loaded rows that were there before, under the same history, still descend from it. */
  lemma FewerRows(s: State, s': State)
    requires RowsOk(s) && s'.issued == s.issued && s'.loaded == s.loaded
    requires forall id <- s'.grants :: id in s.grants && s'.grants[id] == s.grants[id]
    ensures RowsOk(s')
  {
    forall h | Descends(s, h) ensures Descends(s', h) { }
    hide Descends;
  }

  lemma CheckKeepsTables(s: State, req: Request)
    requires Enabled(s, Check(req))
    ensures var s' := Apply(s, Check(req)); s'.grants == s.grants && s'.issued == s.issued && s'.loaded == s.loaded
  {
    hide CheckRefusal;
  }

  lemma LookUpKeepsTables(s: State, req: Request)
    requires Enabled(s, LookUp(req))
    ensures var s' := Apply(s, LookUp(req)); s'.grants == s.grants && s'.issued == s.issued && s'.loaded == s.loaded
  {
    hide StreamRefusal;
  }

  lemma StepKeepsRows(s: State, step: Step)
    requires RowsOk(s) && Enabled(s, step)
    ensures RowsOk(Apply(s, step))
  {
    hide RowsOk, Enabled, Apply;
    if step.Insert? {
      InsertKeepsRows(s, step.req, step.id);
    } else if step.Write? {
      WriteKeepsRows(s, step.g);
    } else if step.Load? {
      LoadKeepsRows(s, step.id, step.fromDate, step.toDate, step.streamLoaded);
    } else {
      match step {
        case Check(req) => CheckKeepsTables(s, req);
        case LookUp(req) => LookUpKeepsTables(s, req);
        case _ => MinorSteps(s, step);
      }
      FewerRows(s, Apply(s, step));
    }
  }

  /** Every row was issued by its stream's owner with a type that the stream's type supports, and descends
      from that. */
  lemma {:induction false} RunsKeepInv(s: State, steps: seq<Step>, s': State)
    requires Inv(s) && Leads(s, steps, s')
    ensures Inv(s')
    decreases |steps|
  {
    hide PendingOk, IssuedOk, RowsOk, Enabled, Apply;
    if steps != [] {
      StepKeepsPending(s, steps[0]);
      StepKeepsIssued(s, steps[0]);
      StepKeepsRows(s, steps[0]);
      RunsKeepInv(Apply(s, steps[0]), steps[1..], s');
    }
  }

  /** The rows that are there at first, and those of the run's inserts, with what was requested. */
  lemma {:induction false} RowsAreWhatWasRequested(s: State, steps: seq<Step>, s': State, id: Id)
    requires Leads(s, steps, s') && id in s'.issued && id !in s.issued
    ensures exists req :: Insert(req, id) in steps && var row, dto := s'.issued[id], req.dto;
      && row.id == id && row.streamId == Canon(dto.streamId) && row.ownerId == req.uuid
      && row.recipientId == Canon(dto.recipientId) && row.kind == dto.kind
      && row.fromDate == dto.fromDate && row.toDate == dto.toDate && row.reEncryptionKey == dto.reEncryptionKey
    decreases |steps|
  {
    hide Apply, Enabled, Canon, Canonical;
    assert steps == [steps[0]] + steps[1..];
    var s1 := Apply(s, steps[0]);
    IssuedChanges(s, steps[0], id);
    if id in s1.issued {
      IssuedStays(s1, steps[1..], s', id);
    } else {
      RowsAreWhatWasRequested(s1, steps[1..], s', id);
    }
  }

  lemma IssuedChanges(s: State, step: Step, id: Id)
    requires Enabled(s, step)
    ensures id in s.issued ==> id in Apply(s, step).issued && Apply(s, step).issued[id] == s.issued[id]
    ensures id in Apply(s, step).issued && id !in s.issued ==>
      && step.Insert? && step.id == id && var row, dto := Apply(s, step).issued[id], step.req.dto;
      && row.id == id && row.streamId == Canon(dto.streamId) && row.ownerId == step.req.uuid
      && row.recipientId == Canon(dto.recipientId) && row.kind == dto.kind
      && row.fromDate == dto.fromDate && row.toDate == dto.toDate && row.reEncryptionKey == dto.reEncryptionKey
  {
    if step.Insert? {
    } else if step.Write? {
    } else if IsMinor(step) {
      MinorSteps(s, step);
      hide Apply, Enabled;
    } else if step.Check? {
      CheckKeepsTables(s, step.req);
      hide Apply, Enabled;
    } else {
      LookUpKeepsTables(s, step.req);
      hide Apply, Enabled;
    }
  }

  lemma {:induction false} IssuedStays(s: State, steps: seq<Step>, s': State, id: Id)
    requires Leads(s, steps, s') && id in s.issued
    ensures id in s'.issued && s'.issued[id] == s.issued[id]
    decreases |steps|
  {
    hide Apply, Enabled;
    if steps != [] {
      IssuedChanges(s, steps[0], id);
      IssuedStays(Apply(s, steps[0]), steps[1..], s', id);
    }
  }

  // ----- At most one `latest` grant -----

  predicate SameTriple(a: Request, b: Request) {
    SameId(a.dto.streamId, b.dto.streamId) && a.uuid == b.uuid && SameId(a.dto.recipientId, b.dto.recipientId)
  }

  /** Both ask for a `latest` grant of the same stream, owner and recipient. */
  predicate Compete(a: Request, b: Request) { a.dto.kind == Latest && b.dto.kind == Latest && SameTriple(a, b) }

  /** The step begins a save while another one for the same triple is under way. */
  ghost predicate Overlaps(s: State, step: Step) {
    step.Check? && exists p <- s.pending :: Compete(step.req, p.req)
  }

  ghost predicate NonOverlapping(s: State, steps: seq<Step>)
    decreases |steps|
  {
    steps == [] || (!Overlaps(s, steps[0]) && (Enabled(s, steps[0]) ==> NonOverlapping(Apply(s, steps[0]), steps[1..])))
  }

  /** No `latest` grant stands in the request's way. */
  predicate Clear(grants: map<Id, Grant>, req: Request) {
    req.dto.kind == Latest ==> Existing(grants, Canon(req.dto.streamId), req.uuid, Canon(req.dto.recipientId)) == {}
  }

  /** Uniqueness holds, and the saves under way cannot break it. */
  ghost predicate Safe(s: State) { LatestIsUnique(s.grants) && PendingAreClear(s) && PendingAreAlone(s) }

  ghost predicate PendingAreClear(s: State) { forall p <- s.pending :: Clear(s.grants, p.req) }

  ghost predicate PendingAreAlone(s: State) {
    forall p <- s.pending, q <- s.pending :: Compete(p.req, q.req) ==> p == q && s.pending[p] == 1
  }

  lemma ClearIff(grants: map<Id, Grant>, req: Request)
    ensures Clear(grants, req) <==> forall id <- grants :: !StandsInTheWay(grants[id], req)
  {
    hide Canon, Canonical;
    var existing := Existing(grants, Canon(req.dto.streamId), req.uuid, Canon(req.dto.recipientId));
    assert forall id <- grants :: req.dto.kind == Latest ==> (id in existing <==> StandsInTheWay(grants[id], req));
    if req.dto.kind == Latest && existing != {} {
      var id :| id in existing;
      assert StandsInTheWay(grants[id], req);
    }
  }

  predicate StandsInTheWay(g: Grant, req: Request) {
    && req.dto.kind == Latest && g.kind == Latest
    && g.streamId == Canon(req.dto.streamId) && g.ownerId == req.uuid && g.recipientId == Canon(req.dto.recipientId)
  }

  /** The row that a request inserts stands in the way of exactly the requests it competes with. */
  lemma InsertedStandsInTheWay(req: Request, id: Id, other: Request)
    ensures StandsInTheWay(RowOf(req, id), other) <==> Compete(req, other)
  {
  }

  /** Changes of the table that add no `latest` grant keep it unique and every request clear. */
  lemma FewerLatest(s: State, s': State)
    requires forall id <- s'.grants :: s'.grants[id].kind == Latest ==>
      id in s.grants && SameLatest(s.grants[id], s'.grants[id])
    ensures LatestIsUnique(s.grants) ==> LatestIsUnique(s'.grants)
    ensures PendingAreClear(s) && s'.pending <= s.pending ==> PendingAreClear(s')
  {
    if PendingAreClear(s) && s'.pending <= s.pending {
      forall p <- s'.pending ensures Clear(s'.grants, p.req) {
        assert p in s.pending;
        ClearIff(s.grants, p.req);
        ClearIff(s'.grants, p.req);
      }
    }
    hide Clear, Canon, Canonical;
  }

  lemma FewerPending(s: State, s': State)
    requires PendingAreAlone(s) && s'.pending <= s.pending
    ensures PendingAreAlone(s')
  {
    hide Compete;
    assert forall p <- s'.pending :: p in s.pending && 1 <= s'.pending[p] <= s.pending[p];
  }

  lemma InsertKeepsSafe(s: State, req: Request, id: Id)
    requires Inv(s) && Safe(s) && Enabled(s, Insert(req, id))
    ensures Safe(Apply(s, Insert(req, id)))
  {
    var s' := Apply(s, Insert(req, id));
    var row := RowOf(req, id);
    assert id !in s.grants;
    assert Clear(s.grants, req);
    assert row.kind == req.dto.kind && row.id == id && row.streamId == Canon(req.dto.streamId)
      && row.ownerId == req.uuid && row.recipientId == Canon(req.dto.recipientId);
    InsertKeepsLatestUniqueIff(s.grants, row);
    FewerPending(s, s');
    hide RowOf, Clear, Compete, LatestIsUnique, Inv;
    forall p <- s'.pending ensures Clear(s'.grants, p.req) {
      assert p in s.pending && Looked(req) in s.pending;
      // A competing save would be the one that has just ended.
      assert Compete(req, p.req) ==> p == Looked(req) && s.pending[p] == 1;
      StaysClear(s.grants, req, id, p.req);
    }
  }

  lemma StaysClear(grants: map<Id, Grant>, req: Request, id: Id, other: Request)
    requires Clear(grants, other) && !Compete(req, other)
    ensures Clear(grants[id := RowOf(req, id)], other)
  {
    ClearIff(grants, other);
    ClearIff(grants[id := RowOf(req, id)], other);
    InsertedStandsInTheWay(req, id, other);
    hide RowOf, Clear, Compete, StandsInTheWay;
  }

  lemma CheckKeepsSafe(s: State, req: Request)
    requires Safe(s) && Enabled(s, Check(req)) && !Overlaps(s, Check(req))
    ensures Safe(Apply(s, Check(req)))
  {
    var s', p := Apply(s, Check(req)), Checked(req);
    if s' != s {
      assert Clear(s.grants, req);
      forall q <- s'.pending, q' <- s'.pending | Compete(q.req, q'.req) ensures q == q' && s'.pending[q] == 1 {
        Symmetric(q.req, q'.req);
        assert q == p || q in s.pending;
        assert q' == p || q' in s.pending;
      }
    }
  }

  lemma Symmetric(a: Request, b: Request)
    ensures Compete(a, b) <==> Compete(b, a)
    ensures Compete(a, b) ==> Compete(a, a) && Compete(b, b)
  {
  }

  lemma LookUpKeepsSafe(s: State, req: Request)
    requires Safe(s) && Enabled(s, LookUp(req))
    ensures Safe(Apply(s, LookUp(req)))
  {
    hide StreamRefusal, Compete, Clear, LatestIsUnique;
    var s', p := Apply(s, LookUp(req)), Checked(req);
    assert p in s.pending && s'.grants == s.grants;
    if StreamRefusal(s.streams, s.supported, req.uuid, req.dto).Some? {
      assert s'.pending <= s.pending;
      FewerPending(s, s');
    } else {
      LookedIsAlone(s, s', req);
    }
    hide PendingAreAlone, Apply;
  }

  /** A save that goes on competes with nothing it did not compete with before. */
  lemma LookedIsAlone(s: State, s': State, req: Request)
    requires PendingAreAlone(s) && Checked(req) in s.pending
    requires s'.pending == s.pending - multiset{Checked(req)} + multiset{Looked(req)}
    ensures PendingAreAlone(s') && forall q <- s'.pending :: q == Looked(req) || q in s.pending
  {
    var p, p' := Checked(req), Looked(req);
    hide Compete;
    forall q <- s'.pending, q' <- s'.pending | Compete(q.req, q'.req) ensures q == q' && s'.pending[q] == 1 {
      Symmetric(q.req, q'.req);
      var was, was' := if q == p' then p else q, if q' == p' then p else q';
      assert was in s.pending && was' in s.pending && was.req == q.req && was'.req == q'.req;
      assert was == was' && s.pending[was] == 1;
      assert p' in s.pending && Compete(req, req) ==> p == p';
    }
  }

  lemma WriteKeepsSafe(s: State, g: Grant)
    requires Inv(s) && Safe(s) && Enabled(s, Write(g))
    ensures Safe(Apply(s, Write(g)))
  {
    assert g in s.loaded && g.kind == Range;
    var s' := Apply(s, Write(g));
    hide Safe, Inv, SameLatest;
    assert g.id in s.grants ==> s'.grants[g.id].kind == s.grants[g.id].kind;
    forall id <- s'.grants | s'.grants[id].kind == Latest ensures id in s.grants && SameLatest(s.grants[id], s'.grants[id]) {
      LikeItself(s'.grants[id], s.grants[id]);
    }
    FewerIsSafe(s, s');
  }

  lemma LikeItself(g: Grant, h: Grant)
    requires g.kind == Latest && h == g.(fromDate := h.fromDate, toDate := h.toDate)
    ensures SameLatest(g, h) && SameLatest(h, g)
  {
  }

  lemma StepKeepsSafe(s: State, step: Step)
    requires Inv(s) && Safe(s) && Enabled(s, step) && !Overlaps(s, step)
    ensures Safe(Apply(s, step))
  {
    hide Inv, Safe, Overlaps, Enabled, Apply;
    match step
    case Check(req) => CheckKeepsSafe(s, req);
    case LookUp(req) => LookUpKeepsSafe(s, req);
    case Insert(req, id) => InsertKeepsSafe(s, req, id);
    case Write(g) => WriteKeepsSafe(s, g);
    case _ =>
      MinorSteps(s, step);
      FewerIsSafe(s, Apply(s, step));
  }

  lemma FewerIsSafe(s: State, s': State)
    requires Safe(s) && s'.pending <= s.pending
    requires forall id <- s'.grants :: s'.grants[id].kind == Latest ==>
      id in s.grants && SameLatest(s.grants[id], s'.grants[id])
    ensures Safe(s')
  {
    hide LatestIsUnique, PendingAreAlone, PendingAreClear;
    FewerLatest(s, s');
    FewerPending(s, s');
  }

  /** In every run in which no two saves for a `latest` grant of one stream, owner and recipient overlap,
      whatever else happens between their awaits, there is at most one such grant. */
  lemma {:induction false} NonOverlappingRunsKeepLatestUnique(s: State, steps: seq<Step>, s': State)
    requires Inv(s) && Safe(s) && Leads(s, steps, s') && NonOverlapping(s, steps)
    ensures LatestIsUnique(s'.grants) && Safe(s')
    decreases |steps|
  {
    hide Enabled, Apply, Inv, Overlaps;
    if steps != [] {
      StepKeepsSafe(s, steps[0]);
      RunsKeepInv(s, [steps[0]], Apply(s, steps[0])) by { assert [steps[0]][1..] == []; }
      NonOverlappingRunsKeepLatestUnique(Apply(s, steps[0]), steps[1..], s');
    }
  }

  /** From the empty tables: at most one `latest` grant for each stream, owner and recipient, as long as
      saves of one triple do not overlap; and always, every row was well issued and keeps all but its window,
      unless it was deleted and inserted again without its stream. */
  lemma AtMostOneLatestGrant(steps: seq<Step>, s: State)
    requires Leads(INIT, steps, s)
    ensures NonOverlapping(INIT, steps) ==> LatestIsUnique(s.grants)
    ensures forall id <- s.grants ::
      && id in s.issued && WellIssued(s.streams, s.supported, s.issued[id])
      && var g, i := s.grants[id], s.issued[id];
      && g == i.(fromDate := g.fromDate, toDate := g.toDate, streamId := g.streamId)
      && (g.streamId == i.streamId || (g.streamId == UNDEFINED && g.kind == Range))
  {
    RunsKeepInv(INIT, steps, s);
    assert forall id <- s.grants :: Descends(s, s.grants[id]);
    if NonOverlapping(INIT, steps) {
      hide Leads, NonOverlapping;
      NonOverlappingRunsKeepLatestUnique(INIT, steps, s);
    }
  }

  // ----- When overlapping saves break it -----

  lemma NoStep(s: State)
    ensures Leads(s, [], s)
  {
  }

  lemma OneStepMore(s: State, step: Step, steps: seq<Step>, s': State)
    requires Enabled(s, step) && Leads(Apply(s, step), steps, s')
    ensures Leads(s, [step] + steps, s')
  {
    hide Enabled, Apply;
    assert ([step] + steps)[1..] == steps;
  }

  /** A save that nothing interrupts: a check, a lookup and an insert. */
  function SaveSteps(req: Request, id: Id): seq<Step> { [Check(req), LookUp(req), Insert(req, id)] }

  function Inserted(s: State, req: Request, id: Id): State {
    s.(grants := s.grants[id := RowOf(req, id)], issued := s.issued[id := RowOf(req, id)])
  }

  predicate Accepted(s: State, req: Request) {
    Refusal(s.streams, s.supported, s.grants, req.uuid, req.dto, req.scopes).None? && |req.dto.recipientId| == ID_LENGTH
  }

  lemma CheckStep(s: State, req: Request)
    requires Accepted(s, req)
    ensures Enabled(s, Check(req)) && Apply(s, Check(req)) == s.(pending := s.pending + multiset{Checked(req)})
  {
  }

  lemma LookUpStep(s: State, req: Request)
    requires Checked(req) in s.pending && StreamRefusal(s.streams, s.supported, req.uuid, req.dto).None?
    ensures Enabled(s, LookUp(req))
    ensures Apply(s, LookUp(req)) == s.(pending := s.pending - multiset{Checked(req)} + multiset{Looked(req)})
  {
  }

  lemma InsertStep(s: State, req: Request, id: Id)
    requires Looked(req) in s.pending && id !in s.issued
    ensures Enabled(s, Insert(req, id))
    ensures Apply(s, Insert(req, id)) == Inserted(s, req, id).(pending := s.pending - multiset{Looked(req)})
  {
  }

  /** `GrantService.Save` is the run in which nothing happens between its awaits. */
  lemma SaveIsARun(s: State, req: Request, id: Id)
    requires Accepted(s, req) && id !in s.issued
    ensures Leads(s, SaveSteps(req, id), Inserted(s, req, id))
  {
    hide Enabled, Apply, Leads;
    var q := s.pending;
    var s1, s2 := s.(pending := q + multiset{Checked(req)}), s.(pending := q + multiset{Looked(req)});
    CheckStep(s, req);
    hide Inserted, Canon, Existing, CheckRefusal, StreamRefusal;
    GoesOn(q, Checked(req), Looked(req), Checked(req));
    GoesOn(q, Looked(req), Looked(req), Checked(req));
    LookUpStep(s1, req);
    InsertStep(s2, req, id);
    InsertedIgnoresPending(s, s2, req, id);
    NoStep(Inserted(s, req, id));
    assert [Insert(req, id)] + [] == [Insert(req, id)] && [LookUp(req)] + [Insert(req, id)] == [LookUp(req), Insert(req, id)];
    OneStepMore(s2, Insert(req, id), [], Inserted(s, req, id));
    OneStepMore(s1, LookUp(req), [Insert(req, id)], Inserted(s, req, id));
    OneStepMore(s, Check(req), [LookUp(req), Insert(req, id)], Inserted(s, req, id));
    assert [Check(req)] + [LookUp(req), Insert(req, id)] == SaveSteps(req, id);
  }

  lemma InsertedIgnoresPending(s: State, s2: State, req: Request, id: Id)
    requires s2 == s.(pending := s2.pending)
    ensures Inserted(s2, req, id).(pending := s.pending) == Inserted(s, req, id)
  {
  }

  /** One run after another is a run. */
  lemma {:induction false} LeadsOn(s: State, steps: seq<Step>, s1: State, more: seq<Step>, s2: State)
    requires Leads(s, steps, s1) && Leads(s1, more, s2)
    ensures Leads(s, steps + more, s2)
    decreases |steps|
  {
    hide Enabled, Apply;
    if steps == [] {
      assert steps + more == more;
    } else {
      LeadsOn(Apply(s, steps[0]), steps[1..], s1, more, s2);
      assert (steps + more)[1..] == steps[1..] + more;
    }
  }

  /** Two grants under new ids that both carry the triple of the requests they come from. */
  lemma TwoRowsOfATriple(grants: map<Id, Grant>, a: Request, i: Id, b: Request, j: Id)
    requires i != j && Compete(a, b)
    ensures !LatestIsUnique(grants[i := RowOf(a, i)][j := RowOf(b, j)])
  {
    var grants' := grants[i := RowOf(a, i)][j := RowOf(b, j)];
    assert i in grants' && j in grants' && SameLatest(grants'[i], grants'[j]);
  }

  lemma GoesOn(q: multiset<Pending>, p: Pending, p': Pending, other: Pending)
    ensures q + multiset{p} + multiset{other} - multiset{p} == q + multiset{other}
    ensures q + multiset{p} + multiset{other} - multiset{p} + multiset{p'} == q + multiset{p'} + multiset{other}
    ensures q + multiset{p} - multiset{p} == q && q + multiset{p} - multiset{p} + multiset{p'} == q + multiset{p'}
  {
  }

  lemma FourSteps(s: State, a: Step, s1: State, b: Step, s2: State, c: Step, s3: State, d: Step, s4: State)
    requires Enabled(s, a) && Apply(s, a) == s1 && Enabled(s1, b) && Apply(s1, b) == s2
    requires Enabled(s2, c) && Apply(s2, c) == s3 && Enabled(s3, d) && Apply(s3, d) == s4
    ensures Leads(s, [a, b, c, d], s4)
  {
    hide *;
    NoStep(s4);
    assert [d] + [] == [d] && [c] + [d] == [c, d] && [b] + [c, d] == [b, c, d] && [a] + [b, c, d] == [a, b, c, d];
    OneStepMore(s3, d, [], s4);
    OneStepMore(s2, c, [d], s4);
    OneStepMore(s1, b, [c, d], s4);
    OneStepMore(s, a, [b, c, d], s4);
  }

  lemma BothPassTheCheck(s: State, a: Request, b: Request)
    requires Accepted(s, a) && Accepted(s, b)
    ensures Leads(s, [Check(a), Check(b), LookUp(a), LookUp(b)], s.(pending := s.pending + multiset{Looked(a)} + multiset{Looked(b)}))
  {
    assert StreamRefusal(s.streams, s.supported, a.uuid, a.dto).None? && StreamRefusal(s.streams, s.supported, b.uuid, b.dto).None?;
    var q := s.pending;
    var s1 := s.(pending := q + multiset{Checked(a)});
    var s2 := s.(pending := q + multiset{Checked(a)} + multiset{Checked(b)});
    var s3 := s.(pending := q + multiset{Looked(a)} + multiset{Checked(b)});
    var s4 := s.(pending := q + multiset{Looked(a)} + multiset{Looked(b)});
    assert Accepted(s1, b);
    hide Enabled, Apply, Leads, StreamRefusal, Accepted;
    CheckStep(s, a);
    CheckStep(s1, b);
    GoesOn(q, Checked(a), Looked(a), Checked(b));
    GoesOn(q + multiset{Looked(a)}, Checked(b), Looked(b), Checked(b));
    LookUpStep(s2, a);
    LookUpStep(s3, b);
    FourSteps(s, Check(a), s1, Check(b), s2, LookUp(a), s3, LookUp(b), s4);
  }

  // ----- Exactly when the saves under way can break it -----

  /** A run that only brings saves to an end that have looked their stream up. */
  predicate Completes(steps: seq<Step>) { forall step <- steps :: step.Insert? || step.Abandon? }

  lemma {:induction false} CompletionsDoNotOverlap(s: State, steps: seq<Step>)
    requires Completes(steps)
    ensures NonOverlapping(s, steps)
    decreases |steps|
  {
    if steps != [] {
      assert steps[0] in steps;
      hide Apply, Enabled;
      if Enabled(s, steps[0]) { CompletionsDoNotOverlap(Apply(s, steps[0]), steps[1..]); }
    }
  }

  /** Two saves that look alike are told apart by their number. */
  lemma InsertTwo(s: State, a: Request, i: Id, b: Request, j: Id) returns (s': State)
    requires Looked(a) in s.pending && Looked(b) in s.pending - multiset{Looked(a)} && Compete(a, b)
    requires i != j && i !in s.issued && j !in s.issued
    ensures Leads(s, [Insert(a, i), Insert(b, j)], s') && !LatestIsUnique(s'.grants)
  {
    TwoRowsOfATriple(s.grants, a, i, b, j);
    var s1 := Inserted(s, a, i).(pending := s.pending - multiset{Looked(a)});
    s' := Inserted(s1, b, j).(pending := s1.pending - multiset{Looked(b)});
    InsertStep(s, a, i);
    InsertStep(s1, b, j);
    hide Enabled, Apply, Compete, RowOf, LatestIsUnique;
    NoStep(s');
    OneStepMore(s1, Insert(b, j), [], s');
    OneStepMore(s, Insert(a, i), [Insert(b, j)], s');
    assert [Insert(b, j)] + [] == [Insert(b, j)] && [Insert(a, i)] + [Insert(b, j)] == [Insert(a, i), Insert(b, j)];
  }

  /** From any state that would accept both of two competing requests there is a run in which their saves
      overlap and both pass the check, and after which there are two `latest` grants of one triple. */
  lemma OverlappingSavesMayBothPass(s: State, a: Request, i: Id, b: Request, j: Id) returns (s': State)
    requires Accepted(s, a) && Accepted(s, b) && Compete(a, b) && i != j && i !in s.issued && j !in s.issued
    ensures Leads(s, [Check(a), Check(b), LookUp(a), LookUp(b), Insert(a, i), Insert(b, j)], s')
    ensures !LatestIsUnique(s'.grants)
  {
    hide Leads, Enabled, Apply, Accepted, Compete, LatestIsUnique;
    var s4 := s.(pending := s.pending + multiset{Looked(a)} + multiset{Looked(b)});
    BothPassTheCheck(s, a, b);
    s' := InsertTwo(s4, a, i, b, j);
    LeadsOn(s, [Check(a), Check(b), LookUp(a), LookUp(b)], s4, [Insert(a, i), Insert(b, j)], s');
    assert [Check(a), Check(b), LookUp(a), LookUp(b)] + [Insert(a, i), Insert(b, j)]
        == [Check(a), Check(b), LookUp(a), LookUp(b), Insert(a, i), Insert(b, j)];
  }

  lemma InsertOne(s: State, a: Request, i: Id) returns (s': State)
    requires Looked(a) in s.pending && !Clear(s.grants, a) && LatestIsUnique(s.grants) && i !in s.issued && i !in s.grants
    ensures Leads(s, [Insert(a, i)], s') && !LatestIsUnique(s'.grants)
  {
    InsertKeepsLatestUniqueIff(s.grants, RowOf(a, i));
    s' := Apply(s, Insert(a, i));
    hide Existing, Canon, LatestIsUnique;
    NoStep(s');
    OneStepMore(s, Insert(a, i), [], s');
    assert [Insert(a, i)] + [] == [Insert(a, i)];
  }

  /** Once every save under way has looked its stream up, uniqueness survives every way of completing them
      iff it holds, nothing stands in the way of any of them, and no two of them compete. */
  lemma CompletionsKeepLatestUniqueIff(s: State, i: Id, j: Id)
    requires Inv(s) && (forall p <- s.pending :: p.Looked?) && i != j && i !in s.issued && j !in s.issued
    ensures (forall steps, s' :: Completes(steps) && Leads(s, steps, s') ==> LatestIsUnique(s'.grants)) <==> Safe(s)
  {
    if Safe(s) {
      forall steps, s' | Completes(steps) && Leads(s, steps, s') ensures LatestIsUnique(s'.grants) {
        CompletionsDoNotOverlap(s, steps);
        NonOverlappingRunsKeepLatestUnique(s, steps, s');
      }
    } else {
      var steps, s' := BreakingCompletion(s, i, j);
    }
  }

  lemma IssuedBeforeSaved(s: State)
    requires Inv(s)
    ensures forall id <- s.grants :: id in s.issued
  {
    assert forall id <- s.grants :: Descends(s, s.grants[id]);
  }

  lemma BreakingCompletion(s: State, i: Id, j: Id) returns (steps: seq<Step>, s': State)
    requires Inv(s) && !Safe(s) && (forall p <- s.pending :: p.Looked?) && i != j && i !in s.issued && j !in s.issued
    ensures Completes(steps) && Leads(s, steps, s') && !LatestIsUnique(s'.grants)
  {
    IssuedBeforeSaved(s);
    hide Inv, Leads, Enabled, Apply, LatestIsUnique, Clear, Compete;
    if !LatestIsUnique(s.grants) {
      steps, s' := [], s;
      NoStep(s);
    } else if !PendingAreClear(s) {
      hide PendingAreAlone;
      var p :| p in s.pending && !Clear(s.grants, p.req);
      steps := [Insert(p.req, i)];
      assert p == Looked(p.req);
      s' := InsertOne(s, p.req, i);
    } else {
      hide PendingAreClear, PendingAreAlone;
      var p, q := Competitors(s);
      steps := [Insert(p.req, i), Insert(q.req, j)];
      assert p == Looked(p.req) && q == Looked(q.req);
      s' := InsertTwo(s, p.req, i, q.req, j);
    }
  }

  lemma Competitors(s: State) returns (p: Pending, q: Pending)
    requires !PendingAreAlone(s)
    ensures p in s.pending && q in s.pending - multiset{p} && Compete(p.req, q.req)
  {
    hide Compete;
    p, q :| p in s.pending && q in s.pending && Compete(p.req, q.req) && !(p == q && s.pending[p] == 1);
  }

  // ----- `all` grants -----

  /** Two `all` grants of one stream, owner and recipient may be saved one after the other, without any
      overlap: a check looks for `latest` grants only. */
  lemma SecondAllGrantIsSaved(s: State, a: Request, i: Id, b: Request, j: Id)
    requires Accepted(s, a) && Accepted(s, b) && a.dto.kind == All && b.dto.kind == All && SameTriple(a, b)
    requires i != j && i !in s.issued && j !in s.issued && i !in s.grants
    ensures NonOverlapping(s, SaveSteps(a, i) + SaveSteps(b, j))
    ensures Leads(s, SaveSteps(a, i) + SaveSteps(b, j), Inserted(Inserted(s, a, i), b, j))
  {
    var s1 := Inserted(s, a, i);
    AllGrantsDoNotBlock(s, a, i, b);
    assert s1.issued == s.issued[i := RowOf(a, i)];
    hide Leads, Accepted, Inserted, Enabled, Apply;
    SaveIsARun(s, a, i);
    SaveIsARun(s1, b, j);
    LeadsOn(s, SaveSteps(a, i), s1, SaveSteps(b, j), Inserted(s1, b, j));
    var steps := SaveSteps(a, i) + SaveSteps(b, j);
    assert forall step <- steps :: step.Check? ==> step.req.dto.kind == All;
    AllDoNotOverlap(s, steps);
  }

  lemma AllGrantsDoNotBlock(s: State, a: Request, i: Id, b: Request)
    requires Accepted(s, b) && a.dto.kind == All && i !in s.grants
    ensures Accepted(Inserted(s, a, i), b)
  {
    var st, r := Canon(b.dto.streamId), Canon(b.dto.recipientId);
    assert RowOf(a, i).kind == All;
    hide Canon, RowOf;
    assert Existing(s.grants[i := RowOf(a, i)], st, b.uuid, r) == Existing(s.grants, st, b.uuid, r);
    hide Existing;
  }

  lemma {:induction false} AllDoNotOverlap(s: State, steps: seq<Step>)
    requires forall step <- steps :: step.Check? ==> step.req.dto.kind == All
    ensures NonOverlapping(s, steps)
    decreases |steps|
  {
    if steps != [] {
      assert steps[0] in steps;
      assert !Overlaps(s, steps[0]);
      hide Apply, Enabled, Overlaps;
      if Enabled(s, steps[0]) { AllDoNotOverlap(Apply(s, steps[0]), steps[1..]); }
    }
  }
}

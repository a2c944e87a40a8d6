/** The window check of the grant service: a recipient may read a stream's updates of a
    time window only when the grants issued for that recipient and stream cover the whole
    window. Instants are reals, so "the whole window" means every instant and not only
    the ones some clock can name. */
module Coverage {

  import opened Entities

  datatype Window = Window(fromDate: Instant, toDate: Instant)

  /** The ways `checkContinuousRange` ends: a normal return or one of its three exceptions. */
  datatype Verdict = Granted | GrantNotFound | GapBetweenGrants | RangeIsNotGranted

  // ----- getByRange -----

  predicate Overlaps(g: Grant, recipientId: Id, streamId: Id, w: Window) {
    g.recipientId == recipientId && g.streamId == streamId && g.fromDate <= w.toDate && g.toDate >= w.fromDate
  }

  /** `gs` is a result the database may give for `getByRange`: the matching rows, in any order. */
  ghost predicate ByRange(gs: seq<Grant>, table: set<Grant>, recipientId: Id, streamId: Id, w: Window) {
    forall g :: g in gs <==> g in table && Overlaps(g, recipientId, streamId, w)
  }

  /** Every row of `gs` overlaps the window: what `checkContinuousRange` is given. */
  ghost predicate AllOverlap(gs: seq<Grant>, w: Window) {
    forall g <- gs :: g.fromDate <= w.toDate && g.toDate >= w.fromDate
  }

  // ----- _.sortBy(grants, "fromDate"): a stable sort -----

  function Insert(g: Grant, sorted: seq<Grant>): (r: seq<Grant>) {
    if sorted == [] || g.fromDate <= sorted[0].fromDate then [g] + sorted
    else [sorted[0]] + Insert(g, sorted[1..])
  }

  function SortByFrom(gs: seq<Grant>): (r: seq<Grant>) {
    if gs == [] then [] else Insert(gs[0], SortByFrom(gs[1..]))
  }

  ghost predicate Sorted(gs: seq<Grant>) {
    forall i, j :: 0 <= i < j < |gs| ==> gs[i].fromDate <= gs[j].fromDate
  }

  lemma {:induction false} InsertMembers(g: Grant, sorted: seq<Grant>)
    ensures multiset(Insert(g, sorted)) == multiset{g} + multiset(sorted)
  {
    if sorted == [] || g.fromDate <= sorted[0].fromDate {
    } else {
      InsertMembers(g, sorted[1..]);
      assert sorted == [sorted[0]] + sorted[1..];
    }
  }

  lemma {:induction false} InsertSorts(g: Grant, sorted: seq<Grant>)
    requires Sorted(sorted)
    ensures Sorted(Insert(g, sorted))
  {
    if sorted == [] || g.fromDate <= sorted[0].fromDate {
    } else {
      var s, rest := sorted[0], Insert(g, sorted[1..]);
      InsertSorts(g, sorted[1..]);
      InsertMembers(g, sorted[1..]);
      forall k | 0 <= k < |rest| ensures s.fromDate <= rest[k].fromDate {
        assert rest[k] in multiset(rest);
        assert rest[k] == g || rest[k] in sorted[1..];
      }
    }
  }

  /** The sort orders the rows by start and neither loses nor invents one. */
  lemma {:induction false} SortByFromSorts(gs: seq<Grant>)
    ensures Sorted(SortByFrom(gs))
    ensures multiset(SortByFrom(gs)) == multiset(gs)
  {
    if gs == [] {
    } else {
      SortByFromSorts(gs[1..]);
      InsertSorts(gs[0], SortByFrom(gs[1..]));
      InsertMembers(gs[0], SortByFrom(gs[1..]));
      assert gs == [gs[0]] + gs[1..];
    }
  }

  /** The rows before `i` that start no later keep their places: equal starts stay in table order. */
  lemma {:induction false} InsertIsStable(g: Grant, sorted: seq<Grant>, at: Instant)
    requires Sorted(sorted)
    ensures StartingAt(Insert(g, sorted), at) == StartingAt([g] + sorted, at)
  {
    if sorted == [] || g.fromDate <= sorted[0].fromDate {
    } else {
      InsertIsStable(g, sorted[1..], at);
      var s, t := sorted[0], sorted[1..];
      assert ([g] + sorted)[1..] == sorted && ([s] + Insert(g, t))[1..] == Insert(g, t);
      assert ([g] + t)[1..] == t;
    }
  }

  function StartingAt(gs: seq<Grant>, at: Instant): seq<Grant> {
    if gs == [] then [] else (if gs[0].fromDate == at then [gs[0]] else []) + StartingAt(gs[1..], at)
  }

  /** Grants that start together are swept in the order the table gave them. */
  lemma {:induction false} SortByFromIsStable(gs: seq<Grant>, at: Instant)
    ensures StartingAt(SortByFrom(gs), at) == StartingAt(gs, at)
  {
    if gs == [] {
    } else {
      SortByFromIsStable(gs[1..], at);
      SortByFromSorts(gs[1..]);
      InsertIsStable(gs[0], SortByFrom(gs[1..]), at);
      assert ([gs[0]] + SortByFrom(gs[1..]))[1..] == SortByFrom(gs[1..]);
    }
  }

  // ----- checkContinuousRange -----

  /** The furthest end among the first `n` grants. */
  function FurthestEnd(gs: seq<Grant>, n: nat): Instant
    requires 1 <= n <= |gs|
  {
    if n == 1 then gs[0].toDate
    else if gs[n - 1].toDate <= FurthestEnd(gs, n - 1) then FurthestEnd(gs, n - 1)
    else gs[n - 1].toDate
  }

  lemma {:induction false} FurthestEndIsMaximum(gs: seq<Grant>, n: nat)
    requires 1 <= n <= |gs|
    ensures forall i :: 0 <= i < n ==> gs[i].toDate <= FurthestEnd(gs, n)
    ensures exists i :: 0 <= i < n && gs[i].toDate == FurthestEnd(gs, n)
  {
    assert FurthestEnd(gs, n) == gs[n - 1].toDate || (n > 1 && FurthestEnd(gs, n) == FurthestEnd(gs, n - 1));
    if n > 1 { FurthestEndIsMaximum(gs, n - 1); }
  }

  /** Some grant of the sorted list starts after everything before it (and itself, for the first) has ended. */
  ghost predicate HasGap(sorted: seq<Grant>) {
    exists i :: IsGap(sorted, i)
  }

  ghost predicate IsGap(sorted: seq<Grant>, i: int) {
    0 <= i < |sorted| && sorted[i].fromDate > FurthestEnd(sorted, if i == 0 then 1 else i)
  }

  /** Which exception, if any, the sweep ends in. */
  ghost function Outcome(sorted: seq<Grant>, w: Window): Verdict {
    if sorted == [] then GrantNotFound
    else if HasGap(sorted) then GapBetweenGrants
    else if sorted[0].fromDate <= w.fromDate && FurthestEnd(sorted, |sorted|) >= w.toDate then Granted
    else RangeIsNotGranted
  }

  method CheckContinuousRange(grants: seq<Grant>, w: Window) returns (v: Verdict)
    ensures v == Outcome(SortByFrom(grants), w)
  {
    var sortedGrants := SortByFrom(grants);
    if sortedGrants == [] {
      return GrantNotFound;
    }
    var continuousFrom, continuousTo := sortedGrants[0].fromDate, sortedGrants[0].toDate;
    for i := 0 to |sortedGrants|
      invariant continuousFrom == sortedGrants[0].fromDate
      invariant continuousTo == FurthestEnd(sortedGrants, if i == 0 then 1 else i)
      invariant forall j :: 0 <= j < i ==> !IsGap(sortedGrants, j)
    {
      var grant := sortedGrants[i];
      if !(grant.fromDate <= continuousTo) {
        assert IsGap(sortedGrants, i);
        return GapBetweenGrants;
      }
      if grant.toDate <= continuousTo {
        continue;
      }
      continuousTo := grant.toDate;
    }
    if continuousFrom <= w.fromDate && continuousTo >= w.toDate {
      return Granted;
    }
    return RangeIsNotGranted;
  }

  // ----- What acceptance means -----

  ghost predicate CoveredAt(gs: seq<Grant>, t: Instant) {
    exists g <- gs :: g.Contains(t)
  }

  /** Every instant of the closed window lies inside some grant. */
  ghost predicate Covered(gs: seq<Grant>, w: Window) {
    forall t: Instant :: w.fromDate <= t <= w.toDate ==> CoveredAt(gs, t)
  }

  /** No gap up to `n` and a start before `t` put `t` inside one of the first `n` grants, if one of them ends after it. */
  lemma {:induction false} NoGapCovers(sorted: seq<Grant>, n: nat, t: Instant)
    requires Sorted(sorted) && 1 <= n <= |sorted|
    requires forall i :: 0 <= i < n ==> !IsGap(sorted, i)
    requires sorted[0].fromDate <= t <= FurthestEnd(sorted, n)
    ensures exists i :: 0 <= i < n && sorted[i].Contains(t)
  {
    if n == 1 {
      assert sorted[0].Contains(t);
    } else {
      if t <= FurthestEnd(sorted, n - 1) {
        NoGapCovers(sorted, n - 1, t);
      } else {
        assert !IsGap(sorted, n - 1);
        assert sorted[n - 1].Contains(t);
      }
    }
  }

  /** Between a gap and what came before it lies an instant that no grant of the list contains. */
  lemma GapUncovers(sorted: seq<Grant>, w: Window, i: nat) returns (t: Instant)
    requires Sorted(sorted) && AllOverlap(sorted, w) && w.fromDate <= w.toDate
    requires IsGap(sorted, i)
    ensures w.fromDate <= t <= w.toDate && !CoveredAt(sorted, t)
  {
    assert sorted[0] in sorted && sorted[i] in sorted;
    if i == 0 {
      // The first grant is inverted, so it lies inside the window and nothing starts earlier.
      t := w.fromDate;
      forall g <- sorted ensures !g.Contains(t) { assert sorted[0].fromDate <= g.fromDate; }
    } else {
      FurthestEndIsMaximum(sorted, i);
      t := (FurthestEnd(sorted, i) + sorted[i].fromDate) / 2.0;
      forall j | 0 <= j < |sorted| ensures !sorted[j].Contains(t) {}
    }
  }

  /** The sweep over a sorted list of overlapping grants accepts exactly the covered windows. */
  lemma SortedSweepIsCoverage(sorted: seq<Grant>, w: Window)
    requires Sorted(sorted) && AllOverlap(sorted, w) && w.fromDate <= w.toDate
    ensures Outcome(sorted, w) == Granted <==> Covered(sorted, w)
  {
    if sorted == [] {
      assert !CoveredAt(sorted, w.fromDate);
    } else if HasGap(sorted) {
      var i :| IsGap(sorted, i);
      var t := GapUncovers(sorted, w, i);
    } else if Outcome(sorted, w) == Granted {
      forall t: Instant | w.fromDate <= t <= w.toDate ensures CoveredAt(sorted, t) {
        NoGapCovers(sorted, |sorted|, t);
      }
    } else if sorted[0].fromDate > w.fromDate {
      assert !CoveredAt(sorted, w.fromDate);
    } else {
      FurthestEndIsMaximum(sorted, |sorted|);
      assert !CoveredAt(sorted, w.toDate);
    }
  }

  lemma SameMembers(a: seq<Grant>, b: seq<Grant>)
    requires multiset(a) == multiset(b)
    ensures forall g :: g in a <==> g in b
  {
    forall g ensures g in a <==> g in b {
      assert g in a <==> g in multiset(a);
      assert g in b <==> g in multiset(b);
    }
  }

  /** Soundness and completeness of the sweep, for overlapping grants in any order. */
  lemma SweepIsCoverage(gs: seq<Grant>, w: Window)
    requires AllOverlap(gs, w) && w.fromDate <= w.toDate
    ensures Outcome(SortByFrom(gs), w) == Granted <==> Covered(gs, w)
  {
    var sorted := SortByFrom(gs);
    SortByFromSorts(gs);
    SameMembers(sorted, gs);
    SortedSweepIsCoverage(sorted, w);
    forall t: Instant ensures CoveredAt(sorted, t) <==> CoveredAt(gs, t) {}
  }

  ghost predicate GrantedAt(table: set<Grant>, recipientId: Id, streamId: Id, t: Instant) {
    exists g <- table :: g.recipientId == recipientId && g.streamId == streamId && g.Contains(t)
  }

  /** The whole check, from the table: it passes iff every instant of the window is granted to
      this recipient on this stream. An inverted window passes iff some row spans it. */
  lemma WindowCheckIsExact(table: set<Grant>, gs: seq<Grant>, recipientId: Id, streamId: Id, w: Window)
    requires ByRange(gs, table, recipientId, streamId, w)
    ensures w.fromDate <= w.toDate ==>
      (Outcome(SortByFrom(gs), w) == Granted <==>
       forall t: Instant :: w.fromDate <= t <= w.toDate ==> GrantedAt(table, recipientId, streamId, t))
    ensures w.fromDate > w.toDate ==>
      (Outcome(SortByFrom(gs), w) == Granted <==> exists g <- table :: Overlaps(g, recipientId, streamId, w))
  {
    if w.fromDate <= w.toDate {
      SweepIsCoverage(gs, w);
      forall t: Instant | w.fromDate <= t <= w.toDate
        ensures CoveredAt(gs, t) <==> GrantedAt(table, recipientId, streamId, t)
      {
        if GrantedAt(table, recipientId, streamId, t) {
          var g :| g in table && g.recipientId == recipientId && g.streamId == streamId && g.Contains(t);
          assert g in gs;
        }
      }
    } else {
      InvertedWindow(gs, w);
      assert gs != [] ==> gs[0] in gs;
    }
  }

  /** Grants that all span an inverted window never leave a gap: the sweep rejects only the empty list. */
  lemma InvertedWindow(gs: seq<Grant>, w: Window)
    requires AllOverlap(gs, w) && w.fromDate > w.toDate
    ensures Outcome(SortByFrom(gs), w) == if gs == [] then GrantNotFound else Granted
  {
    var sorted := SortByFrom(gs);
    SortByFromSorts(gs);
    SameMembers(sorted, gs);
    if gs != [] {
      assert gs[0] in sorted;
      assert sorted[0] in sorted;
      forall i ensures !IsGap(sorted, i) {
        if 0 <= i < |sorted| {
          FurthestEndIsMaximum(sorted, if i == 0 then 1 else i);
          assert sorted[i] in sorted;
        }
      }
      FurthestEndIsMaximum(sorted, |sorted|);
    }
  }

  function Millisecond(ms: int): Instant { ms as real }

  /** On a clock that only names whole milliseconds the check is not complete: two grants that
      leave out no whole number still leave a gap, and the sweep rejects them. */
  lemma MillisecondsAreNotEnough(a: Grant, b: Grant, w: Window)
    requires a.fromDate == 0.0 && a.toDate == 1.0 && b.fromDate == 2.0 && b.toDate == 3.0
    requires w == Window(0.0, 3.0)
    ensures forall ms: int :: w.fromDate <= Millisecond(ms) <= w.toDate ==> CoveredAt([a, b], Millisecond(ms))
    ensures Outcome(SortByFrom([a, b]), w) == GapBetweenGrants
  {
    assert a in [a, b] && b in [a, b];
    forall ms: int | 0.0 <= Millisecond(ms) <= 3.0 ensures CoveredAt([a, b], Millisecond(ms)) {
      assert a.Contains(Millisecond(ms)) || b.Contains(Millisecond(ms));
    }
    assert [a, b][1..] == [b] && [b][1..] == [];
    assert SortByFrom([b]) == [b];
    assert SortByFrom([a, b]) == [a, b];
    assert IsGap([a, b], 1);
  }

  ghost predicate WholeMilliseconds(t: Instant) { exists ms: int :: t == Millisecond(ms) }

  /** One grant of the list contains a millisecond and the next one. */
  ghost predicate CoversTick(gs: seq<Grant>, ms: int) {
    exists g <- gs :: g.Contains(Millisecond(ms)) && g.Contains(Millisecond(ms + 1))
  }

  /** What acceptance means on such a clock, exactly: both ends of the window lie in some grant, and so
      does every millisecond of it together with the next one. */
  lemma MillisecondCheckIsExact(gs: seq<Grant>, from: int, to: int)
    requires from <= to && AllOverlap(gs, Window(Millisecond(from), Millisecond(to)))
    requires forall g <- gs :: WholeMilliseconds(g.fromDate) && WholeMilliseconds(g.toDate)
    ensures Outcome(SortByFrom(gs), Window(Millisecond(from), Millisecond(to))) == Granted <==>
            && CoveredAt(gs, Millisecond(from)) && CoveredAt(gs, Millisecond(to))
            && forall ms :: from <= ms < to ==> CoversTick(gs, ms)
  {
    var w := Window(Millisecond(from), Millisecond(to));
    SweepIsCoverage(gs, w);
    hide Outcome;
    if Covered(gs, w) {
      forall ms | from <= ms < to ensures CoversTick(gs, ms) {
        // Whoever contains the middle of a tick contains its ends.
        var t := Millisecond(ms) + 0.5;
        assert CoveredAt(gs, t);
        var g :| g in gs && g.Contains(t);
        var a, b :| g.fromDate == Millisecond(a) && g.toDate == Millisecond(b);
        assert a <= ms && ms + 1 <= b;
      }
    } else if CoveredAt(gs, Millisecond(from)) && CoveredAt(gs, Millisecond(to)) {
      var t :| w.fromDate <= t <= w.toDate && !CoveredAt(gs, t);
      var ms := t.Floor;
      if ms < to {
        assert !CoversTick(gs, ms) by {
          forall g <- gs | g.Contains(Millisecond(ms)) && g.Contains(Millisecond(ms + 1)) ensures g.Contains(t) { }
        }
        assert from <= ms;
      }
    }
  }

  // ----- grants.find(...) in the read path -----

  datatype Found = NotFound | Found(grant: Grant)

  /** The first grant of the list whose window contains the instant. */
  function FindAt(gs: seq<Grant>, t: Instant): (r: Found)
    ensures r.NotFound? ==> !CoveredAt(gs, t)
    ensures r.Found? ==> exists i :: 0 <= i < |gs| && gs[i] == r.grant && r.grant.Contains(t) && !CoveredAt(gs[..i], t)
  {
    if gs == [] then NotFound
    else if gs[0].fromDate <= t && gs[0].toDate >= t then
      assert gs[0] == gs[0] && gs[..0] == [];
      Found(gs[0])
    else
      var rest := FindAt(gs[1..], t);
      assert rest.Found? ==> exists i :: 0 <= i < |gs| && gs[i] == rest.grant && !CoveredAt(gs[..i], t) by {
        if rest.Found? {
          var i :| 0 <= i < |gs[1..]| && gs[1..][i] == rest.grant && !CoveredAt(gs[1..][..i], t);
          assert gs[..i + 1] == [gs[0]] + gs[1..][..i];
        }
      }
      rest
  }

  /** Once the check has passed, the lookup made for any update recorded inside the closed
      window finds a grant that contains its instant. No update is recorded inside an inverted window. */
  lemma AcceptedWindowsMakeLookupTotal(gs: seq<Grant>, w: Window, recordedAt: Instant)
    requires AllOverlap(gs, w)
    requires Outcome(SortByFrom(gs), w) == Granted
    requires w.fromDate <= recordedAt <= w.toDate
    ensures FindAt(gs, recordedAt).Found?
    ensures FindAt(gs, recordedAt).grant in gs && FindAt(gs, recordedAt).grant.Contains(recordedAt)
  {
    SweepIsCoverage(gs, w);
    assert CoveredAt(gs, recordedAt);
  }
}

/** What every interleaving of concurrent writes keeps. */
module ConcurrentPutsProofs {
  import opened Common
  import opened ChildTables
  import opened TableDeltas
  import opened ItineraryTables
  import opened ItineraryService
  import opened ConcurrentPuts

  // ---------------------------------------------------------------------------
  // A transaction touches its own itinerary only
  // ---------------------------------------------------------------------------

  ghost predicate OwnsActivities(db: Db, x: Tx) {
    && (forall i :: i in Touched(x.activities) ==>
          i < db.s.activities && (i in db.t.activities ==> IsChild(db.t.days, x.k, db.t.activities[i].parent)))
    && (forall i :: i in x.activities.put ==> x.activities.put[i].parent in x.days.put)
    && (forall i :: i in db.t.activities && db.t.activities[i].parent in x.days.del ==> i in x.activities.del)
  }

  ghost predicate Owns(db: Db, x: Tx) {
    && Owned(db.t.demographics, x.demographics, x.k, db.s.demographics)
    && Owned(db.t.stays, x.stays, x.k, db.s.stays)
    && Owned(db.t.days, x.days, x.k, db.s.days)
    && OwnsActivities(db, x)
  }

  lemma ViewWellFormed(db: Db, x: Tx)
    requires WellFormed(db) && Owns(db, x) && x.row.Some?
    ensures WellFormed(ViewOf(db, x)) && OthersSame(db, ViewOf(db, x), x.k)
  {
    ViewBelow(db.t.demographics, x.demographics, x.k, db.s.demographics);
    ViewBelow(db.t.stays, x.stays, x.k, db.s.stays);
    ViewBelow(db.t.days, x.days, x.k, db.s.days);
    var v := ViewOf(db, x);
    forall q | q != x.k
      ensures Same(db, v, q)
    {
      ViewOthersAgree(db.t.demographics, x.demographics, x.k, db.s.demographics, q);
      ViewOthersAgree(db.t.stays, x.stays, x.k, db.s.stays, q);
      ViewOthersAgree(db.t.days, x.days, x.k, db.s.days, q);
      forall d | IsChild(db.t.days, q, d)
        ensures Agree(db.t.activities, v.t.activities, d)
      {
        assert d !in Touched(x.days);
      }
    }
  }

  // ---------------------------------------------------------------------------
  // Its own statements
  // ---------------------------------------------------------------------------

  /** Whatever x' has touched beyond x: rows of its itinerary, or keys newly drawn. */
  ghost predicate TouchesOwn(db: Db, x: Tx, x': Tx, s': Serials) {
    && (forall i :: i in Touched(x'.demographics) ==>
          || i in Touched(x.demographics) || db.s.demographics <= i < s'.demographics
          || IsChild(db.t.demographics, x.k, i))
    && (forall i :: i in Touched(x'.stays) ==>
          i in Touched(x.stays) || db.s.stays <= i < s'.stays || IsChild(db.t.stays, x.k, i))
    && (forall i :: i in Touched(x'.days) ==>
          i in Touched(x.days) || db.s.days <= i < s'.days || IsChild(db.t.days, x.k, i))
    && (forall i :: i in Touched(x'.activities) ==>
          || i in Touched(x.activities) || db.s.activities <= i < s'.activities
          || (i in db.t.activities && IsChild(db.t.days, x.k, db.t.activities[i].parent)))
  }

  /** Statements that leave days and activities alone. */
  lemma WroteRow(db: Db, x: Tx, after: Db, pc: Pc)
    requires WellFormed(db) && Owns(db, x)
    requires SerialsGrow(db.s, after.s)
    requires var v := ViewOf(db, x);
             && ChangesOnly(v.t.demographics, after.t.demographics, x.k, db.s.demographics, after.s.demographics)
             && ChangesOnly(v.t.stays, after.t.stays, x.k, db.s.stays, after.s.stays)
             && after.t == v.t.(demographics := after.t.demographics, stays := after.t.stays)
             && after.s == v.s.(demographics := after.s.demographics, stays := after.s.stays)
    ensures var db' := Db(db.t, after.s);
            var x' := Wrote(db, x, after, pc);
            Owns(db', x') && ViewOf(db', x') == after && TouchesOwn(db, x, x', after.s)
  {
    var v := ViewOf(db, x);
    CaptureView(db.t.demographics, x.demographics, after.t.demographics);
    CaptureView(db.t.stays, x.stays, after.t.stays);
    CaptureOwned(db.t.demographics, x.demographics, after.t.demographics, x.k, db.s.demographics, after.s.demographics);
    CaptureOwned(db.t.stays, x.stays, after.t.stays, x.k, db.s.stays, after.s.stays);
    CaptureNothing(db.t.days, x.days);
    CaptureNothing(db.t.activities, x.activities);
  }

  function DaysGone(v: Db, k: Id): set<nat> { set d | d in v.t.days && v.t.days[d].parent == k }

  function ActivitiesGone(v: Db, k: Id): set<nat> {
    set i | i in v.t.activities && v.t.activities[i].parent in DaysGone(v, k)
  }

  lemma CascadeCaptured(db: Db, x: Tx, pc: Pc)
    ensures var v := ViewOf(db, x);
            var x' := Wrote(db, x, DeleteDays(v, x.k), pc);
            && x'.days.del == x.days.del + DaysGone(v, x.k)
            && x'.days.put == x.days.put - DaysGone(v, x.k)
            && x'.activities.del == x.activities.del + ActivitiesGone(v, x.k)
            && x'.activities.put == x.activities.put - ActivitiesGone(v, x.k)
  {
    var v := ViewOf(db, x);
    assert DeleteDays(v, x.k).t.activities == v.t.activities - ActivitiesGone(v, x.k);
    assert DeleteDays(v, x.k).t.days == v.t.days - DaysGone(v, x.k);
    CaptureDeletion(db.t.days, x.days, DaysGone(v, x.k));
    CaptureDeletion(db.t.activities, x.activities, ActivitiesGone(v, x.k));
    assert v.t.days.Keys * DaysGone(v, x.k) == DaysGone(v, x.k);
    assert v.t.activities.Keys * ActivitiesGone(v, x.k) == ActivitiesGone(v, x.k);
  }

  /** The cascade takes the activities of the deleted days, and no others. */
  lemma CascadeOwned(db: Db, x: Tx, x': Tx)
    requires WellFormed(db) && Owns(db, x) && x'.k == x.k
    requires x'.days.del == x.days.del + DaysGone(ViewOf(db, x), x.k)
    requires x'.days.put == x.days.put - DaysGone(ViewOf(db, x), x.k)
    requires x'.activities.del == x.activities.del + ActivitiesGone(ViewOf(db, x), x.k)
    requires x'.activities.put == x.activities.put - ActivitiesGone(ViewOf(db, x), x.k)
    ensures OwnsActivities(db, x')
    ensures forall i :: i in Touched(x'.activities) ==>
              i in Touched(x.activities) || (i in db.t.activities && IsChild(db.t.days, x.k, db.t.activities[i].parent))
  {
    var v := ViewOf(db, x);
    forall i | i in ActivitiesGone(v, x.k) && i !in Touched(x.activities)
      ensures i in db.t.activities && IsChild(db.t.days, x.k, db.t.activities[i].parent)
    {
      assert db.t.activities[i].parent in db.t.days;
    }
    forall i | i in db.t.activities && db.t.activities[i].parent in x'.days.del
      ensures i in x'.activities.del
    {
      if i !in x.activities.del && i in x.activities.put {
        assert x.activities.put[i].parent in DaysGone(v, x.k);
      }
    }
  }

  lemma WroteDayPurge(db: Db, x: Tx, pc: Pc)
    requires WellFormed(db) && Owns(db, x)
    ensures var after := DeleteDays(ViewOf(db, x), x.k);
            var x' := Wrote(db, x, after, pc);
            Owns(db, x') && ViewOf(db, x') == after && TouchesOwn(db, x, x', db.s)
  {
    var v := ViewOf(db, x);
    var after := DeleteDays(v, x.k);
    CaptureView(db.t.days, x.days, after.t.days);
    CaptureView(db.t.activities, x.activities, after.t.activities);
    CaptureOwned(db.t.days, x.days, after.t.days, x.k, db.s.days, db.s.days);
    CaptureNothing(db.t.demographics, x.demographics);
    CaptureNothing(db.t.stays, x.stays);
    CascadeCaptured(db, x, pc);
    CascadeOwned(db, x, Wrote(db, x, after, pc));
  }

  lemma WroteDay(db: Db, x: Tx, head: DayHead, pc: Pc)
    requires WellFormed(db) && Owns(db, x)
    ensures var after := InsertDay(ViewOf(db, x), x.k, head);
            var db' := Db(db.t, after.s);
            var x' := Wrote(db, x, after, pc);
            Owns(db', x') && ViewOf(db', x') == after && TouchesOwn(db, x, x', after.s)
  {
    var v := ViewOf(db, x);
    var after := InsertDay(v, x.k, head);
    ViewBelow(db.t.days, x.days, x.k, db.s.days);
    CaptureView(db.t.days, x.days, after.t.days);
    CaptureOwned(db.t.days, x.days, after.t.days, x.k, db.s.days, after.s.days);
    var x' := Wrote(db, x, after, pc);
    CaptureNothing(db.t.demographics, x.demographics);
    CaptureNothing(db.t.stays, x.stays);
    CaptureNothing(db.t.activities, x.activities);
    assert x'.days.del == x.days.del;
  }

  lemma ActivityCaptured(db: Db, x: Tx, day: nat, a: Activity)
    requires WellFormed(db) && OwnsActivities(db, x)
    ensures var after := InsertActivity(ViewOf(db, x), day, a);
            Capture(x.activities, ViewOf(db, x).t.activities, after.t.activities)
              == Delta(x.activities.del, x.activities.put[db.s.activities := Row(day, a)])
  {
    assert db.s.activities !in Touched(x.activities);
    CaptureInsertion(db.t.activities, x.activities, db.s.activities, Row(day, a));
  }

  lemma ActivityOwned(db: Db, x: Tx, x': Tx, day: nat, a: Activity, n: nat)
    requires WellFormed(db) && OwnsActivities(db, x) && day in x.days.put && n == db.s.activities + 1
    requires x' == x.(pc := x'.pc,
                      activities := Delta(x.activities.del, x.activities.put[db.s.activities := Row(day, a)]))
    ensures OwnsActivities(Db(db.t, db.s.(activities := n)), x')
    ensures forall i :: i in Touched(x'.activities) ==> i in Touched(x.activities) || db.s.activities <= i < n
  {
  }

  lemma WroteActivity(db: Db, x: Tx, day: nat, a: Activity, pc: Pc)
    requires WellFormed(db) && Owns(db, x) && day in x.days.put
    ensures var after := InsertActivity(ViewOf(db, x), day, a);
            var db' := Db(db.t, after.s);
            var x' := Wrote(db, x, after, pc);
            Owns(db', x') && ViewOf(db', x') == after && TouchesOwn(db, x, x', after.s)
  {
    var after := InsertActivity(ViewOf(db, x), day, a);
    var x' := Wrote(db, x, after, pc);
    CaptureView(db.t.activities, x.activities, after.t.activities);
    CaptureNothing(db.t.demographics, x.demographics);
    CaptureNothing(db.t.stays, x.stays);
    CaptureNothing(db.t.days, x.days);
    ActivityCaptured(db, x, day, a);
    ActivityOwned(db, x, x', day, a, after.s.activities);
  }

  // ---------------------------------------------------------------------------
  // How far a transaction has come
  // ---------------------------------------------------------------------------

  predicate StaysReplaced(pc: Pc) {
    pc.StaysFrom? || pc.DayPurge? || pc.DaysFrom? || pc.ActsFrom? || pc.Finished?
  }

  predicate DaysReplaced(pc: Pc) { pc.DaysFrom? || pc.ActsFrom? || pc.Finished? }

  /** The view v of a transaction on k with payload r that is about to send pc. */
  ghost predicate Progress(v: Db, k: Id, r: Request, pc: Pc) {
    && (pc.Finished? || Working(r, pc))
    && (pc.Locked? ==> |DemographicsOf(v, k)| <= 1)
    && (pc.Found? ==> |DemographicsOf(v, k)| <= 1 && pc.existing == FindDemographics(v, k))
    && (!pc.Locked? && !pc.Found? ==> Values(DemographicsOf(v, k)) == [r.demographics])
    && (StaysReplaced(pc) ==> StayDocs(v, k) == if pc.StaysFrom? then r.accommodation[..pc.i] else r.accommodation)
    && (pc.DaysFrom? ==> DayDocs(v, k) == r.itineraryDays[..pc.d])
    && (pc.ActsFrom? ==>
          && DaysOf(v, k) != [] && DaysOf(v, k)[|DaysOf(v, k)| - 1].0 == pc.day
          && DayDocs(v, k) == r.itineraryDays[..pc.d] +
               [Day(r.itineraryDays[pc.d].head, r.itineraryDays[pc.d].activities[..pc.j])])
    && (pc.Finished? ==> DayDocs(v, k) == r.itineraryDays)
  }

  lemma ProgressActs(v: Db, k: Id, r: Request, pc: Pc)
    requires WellFormed(v) && k in v.t.itineraries && Progress(v, k, r, pc) && pc.ActsFrom?
    ensures var (after, pc') := Execute(v, k, r, pc);
            WellFormed(after) && Progress(after, k, r, pc')
  {
    var day := r.itineraryDays[pc.d];
    var a := day.activities[pc.j];
    ActivityInserted(v, k, a);
    var after := InsertActivity(v, pc.day, a);
    var n := |DaysOf(v, k)| - 1;
    assert |DayDocs(v, k)| == pc.d + 1 && n == pc.d;
    assert DayDocs(v, k)[..n] == r.itineraryDays[..pc.d];
    assert DaysOf(v, k)[n].1 == DayDocs(v, k)[n].head;
    assert day.activities[..pc.j] + [a] == day.activities[..pc.j + 1];
    DayComplete(r, pc.d, pc.j + 1);
  }

  lemma DayComplete(r: Request, d: nat, j: nat)
    requires d < |r.itineraryDays| && j <= |r.itineraryDays[d].activities|
    ensures j == |r.itineraryDays[d].activities| ==>
              r.itineraryDays[..d] + [Day(r.itineraryDays[d].head, r.itineraryDays[d].activities[..j])]
                == r.itineraryDays[..d + 1]
    ensures r.itineraryDays[..|r.itineraryDays|] == r.itineraryDays
  {
    var day := r.itineraryDays[d];
    if j == |day.activities| {
      assert day.activities[..j] == day.activities;
      assert Day(day.head, day.activities) == day;
    }
  }

  lemma ProgressDays(v: Db, k: Id, r: Request, pc: Pc)
    requires WellFormed(v) && k in v.t.itineraries && Progress(v, k, r, pc) && (pc.DayPurge? || pc.DaysFrom?)
    ensures var (after, pc') := Execute(v, k, r, pc);
            WellFormed(after) && Progress(after, k, r, pc')
  {
    if pc.DayPurge? {
      DaysDeleted(v, k);
      assert r.itineraryDays[..0] == [];
    } else {
      DayInserted(v, k, r.itineraryDays[pc.d].head);
      DayComplete(r, pc.d, 0);
      assert r.itineraryDays[pc.d].activities[..0] == [];
    }
  }

  lemma ProgressStays(v: Db, k: Id, r: Request, pc: Pc)
    requires WellFormed(v) && k in v.t.itineraries && Progress(v, k, r, pc) && (pc.StayPurge? || pc.StaysFrom?)
    ensures var (after, pc') := Execute(v, k, r, pc);
            WellFormed(after) && Progress(after, k, r, pc')
  {
    if pc.StayPurge? {
      StaysDeleted(v, k);
      assert r.accommodation[..0] == [];
    } else {
      StayInserted(v, k, r.accommodation[pc.i]);
      assert r.accommodation[..pc.i] + [r.accommodation[pc.i]] == r.accommodation[..pc.i + 1];
      assert r.accommodation[..|r.accommodation|] == r.accommodation;
    }
  }

  lemma ProgressStep(v: Db, k: Id, r: Request, pc: Pc)
    requires WellFormed(v) && k in v.t.itineraries && Progress(v, k, r, pc) && Working(r, pc)
    ensures var (after, pc') := Execute(v, k, r, pc);
            WellFormed(after) && Progress(after, k, r, pc')
  {
    match pc
    case Locked =>
    case Found(_) => DemographicsWritten(v, k, r.demographics);
    case StayPurge => ProgressStays(v, k, r, pc);
    case StaysFrom(_) => ProgressStays(v, k, r, pc);
    case DayPurge => ProgressDays(v, k, r, pc);
    case DaysFrom(_) => ProgressDays(v, k, r, pc);
    case ActsFrom(_, _, _) => ProgressActs(v, k, r, pc);
  }

  /** Progress only depends on what the transaction sees of its own itinerary. */
  lemma ProgressSame(v: Db, u: Db, k: Id, r: Request, pc: Pc)
    requires WellFormed(v) && Same(v, u, k) && SerialsGrow(v.s, u.s) && Progress(v, k, r, pc)
    ensures Progress(u, k, r, pc)
  {
    SameDocs(v, u, k);
  }

  // ---------------------------------------------------------------------------
  // Other people's statements and commits
  // ---------------------------------------------------------------------------

  /** db became u without any row of y's itinerary, or touched by y, changing. */
  ghost predicate LeavesAlone(db: Db, u: Db, y: Tx) {
    && WellFormed(u) && SerialsGrow(db.s, u.s)
    && Same(db, u, y.k)
    && SameRows(db.t.demographics, u.t.demographics, Touched(y.demographics))
    && SameRows(db.t.stays, u.t.stays, Touched(y.stays))
    && SameRows(db.t.days, u.t.days, Touched(y.days))
    && SameRows(db.t.activities, u.t.activities, Touched(y.activities))
    && (forall i :: i in u.t.activities && u.t.activities[i].parent in y.days.del ==> i in y.activities.del)
  }

  lemma OwnsStable(db: Db, u: Db, y: Tx)
    requires WellFormed(db) && Owns(db, y) && LeavesAlone(db, u, y)
    ensures Owns(u, y)
  {
    OwnedStable(db.t.demographics, u.t.demographics, y.demographics, y.k, db.s.demographics, u.s.demographics);
    OwnedStable(db.t.stays, u.t.stays, y.stays, y.k, db.s.stays, u.s.stays);
    OwnedStable(db.t.days, u.t.days, y.days, y.k, db.s.days, u.s.days);
  }

  lemma ViewStable(db: Db, u: Db, y: Tx)
    requires WellFormed(db) && Owns(db, y) && y.row.Some? && LeavesAlone(db, u, y)
    ensures Same(ViewOf(db, y), ViewOf(u, y), y.k)
  {
    OwnedStable(db.t.demographics, u.t.demographics, y.demographics, y.k, db.s.demographics, u.s.demographics);
    OwnedStable(db.t.stays, u.t.stays, y.stays, y.k, db.s.stays, u.s.stays);
    OwnedStable(db.t.days, u.t.days, y.days, y.k, db.s.days, u.s.days);
    forall d | IsChild(ViewOf(db, y).t.days, y.k, d)
      ensures Agree(ViewOf(db, y).t.activities, ViewOf(u, y).t.activities, d)
    {
      if d in db.t.days {
        assert IsChild(db.t.days, y.k, d);
      } else {
        assert d in Touched(y.days) && d !in u.t.days;
      }
      assert Agree(db.t.activities, u.t.activities, d);
      ViewAgree(db.t.activities, u.t.activities, y.activities, d);
    }
  }

  lemma ViewAgree<P, T>(t: Table<P, T>, u: Table<P, T>, d: Delta<P, T>, p: P)
    requires Agree(t, u, p) && SameRows(t, u, Touched(d))
    ensures Agree(View(t, d), View(u, d), p)
  {
  }

  // ---------------------------------------------------------------------------
  // The invariant
  // ---------------------------------------------------------------------------

  ghost predicate Apart(x: Tx, y: Tx) {
    && x.k != y.k
    && Touched(x.demographics) !! Touched(y.demographics)
    && Touched(x.stays) !! Touched(y.stays)
    && Touched(x.days) !! Touched(y.days)
    && Touched(x.activities) !! Touched(y.activities)
  }

  ghost predicate Untouched(x: Tx) {
    && x.row.None?
    && x.demographics == Delta({}, map[]) && x.stays == Delta({}, map[])
    && x.days == Delta({}, map[]) && x.activities == Delta({}, map[])
  }

  /** Once the stays (days) are replaced, every committed one of the itinerary is deleted and so locked. */
  ghost predicate Purged(db: Db, x: Tx) {
    && (StaysReplaced(x.pc) ==> forall i :: IsChild(db.t.stays, x.k, i) ==> i in x.stays.del)
    && (DaysReplaced(x.pc) ==> forall i :: IsChild(db.t.days, x.k, i) ==> i in x.days.del)
  }

  ghost predicate TxOk(db: Db, x: Tx) {
    if Holds(x) then
      && Owns(db, x)
      && (x.kind.Put? <==> x.k in db.t.itineraries)
      && x.row.Some? && x.row.value == RowOf(x.r, x.row.value.createdAt)
      && Progress(ViewOf(db, x), x.k, x.r, x.pc)
      && Purged(db, x)
    else Untouched(x)
  }

  ghost predicate TxsOk(s: Sys) {
    && (forall id :: id in s.txs ==> TxOk(s.db, s.txs[id]))
    && (forall a, b :: a in s.txs && b in s.txs && a != b && Holds(s.txs[a]) && Holds(s.txs[b]) ==>
          Apart(s.txs[a], s.txs[b]))
  }

  /** What the last committed request on k left, less the stays deleted singly since. */
  ghost predicate FromOrigin(db: Db, k: Id, o: Origin, removed: set<nat>) {
    && k in db.t.itineraries
    && db.t.itineraries[k] == RowOf(o.r, db.t.itineraries[k].createdAt)
    && Values(DemographicsOf(db, k)) == [o.r.demographics]
    && DayDocs(db, k) == o.r.itineraryDays
    && Values(o.stays) == o.r.accommodation
    && StaysOf(db, k) == Without(o.stays, removed)
  }

  ghost predicate HistoryOk(s: Sys) {
    && (forall k :: k in s.origin ==> FromOrigin(s.db, k, s.origin[k], s.removed))
    && (forall i :: i in s.removed ==> i < s.db.s.stays && i !in s.db.t.stays)
    && (forall i, id :: i in s.removed && id in s.txs ==> i !in Touched(s.txs[id].stays))
  }

  ghost predicate Inv(s: Sys) { Healthy(s.db) && TxsOk(s) && HistoryOk(s) }

  lemma TxStable(db: Db, u: Db, y: Tx)
    requires WellFormed(db) && TxOk(db, y) && (Holds(y) ==> LeavesAlone(db, u, y))
    ensures TxOk(u, y)
  {
    if Holds(y) {
      OwnsStable(db, u, y);
      ViewWellFormed(db, y);
      ViewStable(db, u, y);
      ProgressSame(ViewOf(db, y), ViewOf(u, y), y.k, y.r, y.pc);
    }
  }

  lemma OriginStable(db: Db, u: Db, k: Id, o: Origin, removed: set<nat>)
    requires WellFormed(db) && FromOrigin(db, k, o, removed) && Same(db, u, k) && SerialsGrow(db.s, u.s)
    ensures FromOrigin(u, k, o, removed)
  {
    SameDocs(db, u, k);
  }

  // --- a statement ---

  /** A statement that turned x's view into `after` has recorded just that, within x's own rows. */
  ghost predicate Recorded(db: Db, x: Tx, after: Db, pc: Pc) {
    var db' := Db(db.t, after.s);
    var x' := Wrote(db, x, after, pc);
    && SerialsGrow(db.s, after.s)
    && Owns(db', x') && ViewOf(db', x') == after && TouchesOwn(db, x, x', after.s)
    && Purged(db', x')
  }

  lemma SelectStatement(db: Db, x: Tx)
    requires WellFormed(db) && TxOk(db, x) && x.pc.Locked?
    ensures var (after, pc) := Execute(ViewOf(db, x), x.k, x.r, x.pc); Recorded(db, x, after, pc)
  {
    var v := ViewOf(db, x);
    WroteRow(db, x, v, Found(FindDemographics(v, x.k)));
  }

  lemma DemographicsChange(v: Db, k: Id, d: Demographics)
    requires WellFormed(v)
    ensures var after := WriteDemographics(v, k, FindDemographics(v, k), d);
            && SerialsGrow(v.s, after.s)
            && ChangesOnly(v.t.demographics, after.t.demographics, k, v.s.demographics, after.s.demographics)
  {
    SelectExact(v.t.demographics, k, v.s.demographics);
    if DemographicsOf(v, k) != [] {
      var row := DemographicsOf(v, k)[0];
      assert (row.0, row.1) in DemographicsOf(v, k);
    }
  }

  lemma DemographicsStatement(db: Db, x: Tx)
    requires WellFormed(db) && Owns(db, x) && x.row.Some?
    requires x.pc.Found? && x.pc.existing == FindDemographics(ViewOf(db, x), x.k)
    ensures var (after, pc) := Execute(ViewOf(db, x), x.k, x.r, x.pc); Recorded(db, x, after, pc)
  {
    var v := ViewOf(db, x);
    ViewWellFormed(db, x);
    DemographicsChange(v, x.k, x.r.demographics);
    WroteRow(db, x, WriteDemographics(v, x.k, x.pc.existing, x.r.demographics), StayPurge);
  }

  /** Statements on the stays alone. */
  lemma WroteStays(db: Db, x: Tx, after: Db, pc: Pc)
    requires WellFormed(db) && Owns(db, x)
    requires SerialsGrow(db.s, after.s)
    requires var v := ViewOf(db, x);
             && ChangesOnly(v.t.stays, after.t.stays, x.k, db.s.stays, after.s.stays)
             && after.t == v.t.(stays := after.t.stays) && after.s == v.s.(stays := after.s.stays)
    ensures var db' := Db(db.t, after.s);
            var x' := Wrote(db, x, after, pc);
            && Owns(db', x') && ViewOf(db', x') == after && TouchesOwn(db, x, x', after.s)
            && x.stays.del <= x'.stays.del && x'.days == x.days
  {
    WroteRow(db, x, after, pc);
    CaptureNothing(db.t.days, x.days);
  }

  lemma StaysChange(v: Db, k: Id, stay: Stay)
    requires Below(v.t.stays, v.s.stays)
    ensures var after := DeleteStays(v, k);
            SerialsGrow(v.s, after.s) && ChangesOnly(v.t.stays, after.t.stays, k, v.s.stays, after.s.stays)
    ensures var after := InsertStay(v, k, stay);
            SerialsGrow(v.s, after.s) && ChangesOnly(v.t.stays, after.t.stays, k, v.s.stays, after.s.stays)
  {
  }

  lemma StayPurgeStatement(db: Db, x: Tx)
    requires WellFormed(db) && Owns(db, x) && x.pc.StayPurge?
    ensures var (after, pc) := Execute(ViewOf(db, x), x.k, x.r, x.pc); Recorded(db, x, after, pc)
  {
    var v := ViewOf(db, x);
    ViewBelow(db.t.stays, x.stays, x.k, db.s.stays);
    StaysChange(v, x.k, Stay("", None, None, None));
    WroteStays(db, x, DeleteStays(v, x.k), AfterStays(x.r, 0));
  }

  lemma StayInsertStatement(db: Db, x: Tx)
    requires WellFormed(db) && Owns(db, x) && Purged(db, x) && Working(x.r, x.pc) && x.pc.StaysFrom?
    ensures var (after, pc) := Execute(ViewOf(db, x), x.k, x.r, x.pc); Recorded(db, x, after, pc)
  {
    var v := ViewOf(db, x);
    ViewBelow(db.t.stays, x.stays, x.k, db.s.stays);
    StaysChange(v, x.k, x.r.accommodation[x.pc.i]);
    WroteStays(db, x, InsertStay(v, x.k, x.r.accommodation[x.pc.i]), AfterStays(x.r, x.pc.i + 1));
  }

  lemma DayStatement(db: Db, x: Tx)
    requires WellFormed(db) && TxOk(db, x) && Working(x.r, x.pc) && (x.pc.DayPurge? || x.pc.DaysFrom?)
    ensures var (after, pc) := Execute(ViewOf(db, x), x.k, x.r, x.pc); Recorded(db, x, after, pc)
  {
    var (after, pc) := Execute(ViewOf(db, x), x.k, x.r, x.pc);
    if x.pc.DayPurge? { WroteDayPurge(db, x, pc); } else { WroteDay(db, x, x.r.itineraryDays[x.pc.d].head, pc); }
  }

  lemma ActivityStatement(db: Db, x: Tx)
    requires WellFormed(db) && TxOk(db, x) && Working(x.r, x.pc) && x.pc.ActsFrom?
    ensures var (after, pc) := Execute(ViewOf(db, x), x.k, x.r, x.pc); Recorded(db, x, after, pc)
  {
    var v := ViewOf(db, x);
    SelectExact(v.t.days, x.k, v.s.days);
    var last := DaysOf(v, x.k)[|DaysOf(v, x.k)| - 1];
    assert (last.0, last.1) in DaysOf(v, x.k);
    assert IsChild(v.t.days, x.k, x.pc.day);
    var (after, pc) := Execute(v, x.k, x.r, x.pc);
    WroteActivity(db, x, x.pc.day, x.r.itineraryDays[x.pc.d].activities[x.pc.j], pc);
  }

  lemma StatementWrites(db: Db, x: Tx)
    requires WellFormed(db) && TxOk(db, x) && Working(x.r, x.pc)
    ensures var (after, pc) := Execute(ViewOf(db, x), x.k, x.r, x.pc); Recorded(db, x, after, pc)
  {
    match x.pc
    case Locked => SelectStatement(db, x);
    case Found(_) => DemographicsStatement(db, x);
    case StayPurge => StayPurgeStatement(db, x);
    case StaysFrom(_) => StayInsertStatement(db, x);
    case DayPurge => DayStatement(db, x);
    case DaysFrom(_) => DayStatement(db, x);
    case ActsFrom(_, _, _) => ActivityStatement(db, x);
  }

  lemma StillApart(db: Db, x: Tx, x': Tx, s': Serials, y: Tx)
    requires WellFormed(db) && Owns(db, y) && Apart(x, y) && x'.k == x.k && TouchesOwn(db, x, x', s')
    ensures Apart(x', y)
  {
  }

  lemma StatementTx(db: Db, x: Tx)
    requires Healthy(db) && TxOk(db, x) && Working(x.r, x.pc)
    ensures var (after, pc) := Execute(ViewOf(db, x), x.k, x.r, x.pc);
            var x' := Wrote(db, x, after, pc);
            && SerialsGrow(db.s, after.s) && Holds(x') && x'.k == x.k
            && TxOk(Db(db.t, after.s), x') && TouchesOwn(db, x, x', after.s)
  {
    ViewWellFormed(db, x);
    StatementWrites(db, x);
    ProgressStep(ViewOf(db, x), x.k, x.r, x.pc);
  }

  lemma SerialsLeaveAlone(db: Db, s': Serials, y: Tx)
    requires WellFormed(db) && OwnsActivities(db, y) && SerialsGrow(db.s, s')
    ensures LeavesAlone(db, Db(db.t, s'), y)
  {
  }

  lemma SerialsOnly(db: Db, s': Serials, y: Tx)
    requires WellFormed(db) && TxOk(db, y) && SerialsGrow(db.s, s')
    ensures TxOk(Db(db.t, s'), y)
  {
    if Holds(y) { SerialsLeaveAlone(db, s', y); }
    TxStable(db, Db(db.t, s'), y);
  }

  lemma StatementOthers(s: Sys, id: nat, y: nat)
    requires Inv(s) && Enabled(s, Statement(id)) && y in s.txs && y != id
    requires var x, s' := s.txs[id], Next(s, Statement(id));
             s'.txs[id].k == x.k && TouchesOwn(s.db, x, s'.txs[id], s'.db.s) && SerialsGrow(s.db.s, s'.db.s)
    ensures var s' := Next(s, Statement(id));
            && TxOk(s'.db, s.txs[y])
            && (Holds(s.txs[y]) ==> Apart(s'.txs[id], s.txs[y]) && Apart(s.txs[y], s'.txs[id]))
  {
    var s' := Next(s, Statement(id));
    SerialsOnly(s.db, s'.db.s, s.txs[y]);
    if Holds(s.txs[y]) { StillApart(s.db, s.txs[id], s'.txs[id], s'.db.s, s.txs[y]); }
  }

  lemma StatementTxs(s: Sys, id: nat)
    requires Inv(s) && Enabled(s, Statement(id))
    requires var x, s' := s.txs[id], Next(s, Statement(id));
             && s'.txs[id].k == x.k && TouchesOwn(s.db, x, s'.txs[id], s'.db.s) && SerialsGrow(s.db.s, s'.db.s)
             && TxOk(s'.db, s'.txs[id])
    ensures TxsOk(Next(s, Statement(id)))
  {
    var s' := Next(s, Statement(id));
    forall y | y in s.txs && y != id
      ensures TxOk(s'.db, s'.txs[y])
      ensures Holds(s.txs[y]) ==> Apart(s'.txs[id], s.txs[y]) && Apart(s.txs[y], s'.txs[id])
    {
      StatementOthers(s, id, y);
    }
  }

  lemma InvStatement(s: Sys, id: nat)
    requires Inv(s) && Enabled(s, Statement(id))
    ensures Inv(Next(s, Statement(id)))
  {
    StatementTx(s.db, s.txs[id]);
    RolledBack(s.db, Next(s, Statement(id)).db.s);
    StatementTxs(s, id);
    StatementHistory(s, id);
  }

  lemma StatementHistory(s: Sys, id: nat)
    requires WellFormed(s.db) && HistoryOk(s) && Enabled(s, Statement(id))
    requires var x, s' := s.txs[id], Next(s, Statement(id));
             TouchesOwn(s.db, x, s'.txs[id], s'.db.s) && SerialsGrow(s.db.s, s'.db.s)
    ensures HistoryOk(Next(s, Statement(id)))
  {
    var s' := Next(s, Statement(id));
    forall k | k in s.origin
      ensures FromOrigin(s'.db, k, s.origin[k], s.removed)
    {
      OriginStable(s.db, s'.db, k, s.origin[k], s.removed);
    }
  }

  lemma FirstTx(db: Db, x: Tx, row: ItineraryRow)
    requires Healthy(db) && Untouched(x) && (x.kind.Put? <==> x.k in db.t.itineraries)
    requires row == RowOf(x.r, row.createdAt)
    ensures TxOk(db, x.(pc := Locked, row := Some(row)))
  {
    var x' := x.(pc := Locked, row := Some(row));
    assert ViewOf(db, x').t.demographics == db.t.demographics;
    assert |DemographicsOf(db, x.k)| <= 1;
  }

  lemma UntouchedApart(x: Tx, y: Tx)
    requires Touched(x.demographics) == Touched(x.stays) == Touched(x.days) == Touched(x.activities) == {} && x.k != y.k
    ensures Apart(x, y) && Apart(y, x)
  {
  }

  lemma FirstOk(s: Sys, id: nat)
    requires Inv(s) && Enabled(s, First(id))
    ensures TxOk(s.db, Next(s, First(id)).txs[id])
  {
    var x := s.txs[id];
    if x.kind.Post? {
      FirstTx(s.db, x, RowOf(x.r, x.kind.now));
    } else if x.k in s.db.t.itineraries {
      FirstTx(s.db, x, RowOf(x.r, s.db.t.itineraries[x.k].createdAt));
    }
  }

  lemma FirstApart(s: Sys, id: nat)
    requires Inv(s) && Enabled(s, First(id))
    ensures TxsOk(Next(s, First(id)))
  {
    var s' := Next(s, First(id));
    FirstOk(s, id);
    if Holds(s'.txs[id]) {
      forall y | y in s.txs && y != id && Holds(s.txs[y])
        ensures Apart(s'.txs[id], s.txs[y]) && Apart(s.txs[y], s'.txs[id])
      {
        UntouchedApart(s'.txs[id], s.txs[y]);
      }
    }
  }

  lemma FirstHistory(s: Sys, id: nat)
    requires HistoryOk(s) && Enabled(s, First(id))
    ensures HistoryOk(Next(s, First(id)))
  {
  }

  lemma InvFirst(s: Sys, id: nat)
    requires Inv(s) && Enabled(s, First(id))
    ensures Inv(Next(s, First(id)))
  {
    FirstApart(s, id);
    FirstHistory(s, id);
  }

  lemma CommitLeavesAlone(db: Db, x: Tx, y: Tx)
    requires WellFormed(db) && TxOk(db, x) && TxOk(db, y) && Holds(x) && Holds(y) && Apart(x, y)
    ensures LeavesAlone(db, ViewOf(db, x), y)
  {
    ViewWellFormed(db, x);
    CommitSameRows(db.t.demographics, x.demographics, Touched(y.demographics));
    CommitSameRows(db.t.stays, x.stays, Touched(y.stays));
    CommitSameRows(db.t.days, x.days, Touched(y.days));
    CommitSameRows(db.t.activities, x.activities, Touched(y.activities));
    var u := ViewOf(db, x);
    forall i | i in u.t.activities && i in x.activities.put
      ensures u.t.activities[i].parent !in y.days.del
    {
      assert u.t.activities[i].parent in Touched(x.days);
    }
  }

  lemma CommitOrigin(s: Sys, id: nat)
    requires Inv(s) && id in s.txs && s.txs[id].pc.Finished?
    ensures var x := s.txs[id];
            var v := ViewOf(s.db, x);
            FromOrigin(v, x.k, Origin(x.r, StaysOf(v, x.k)), s.removed)
  {
    var x := s.txs[id];
    var v := ViewOf(s.db, x);
    var rows := StaysOf(v, x.k);
    SelectExact(v.t.stays, x.k, v.s.stays);
    forall j | 0 <= j < |rows|
      ensures rows[j].0 !in s.removed
    {
      assert (rows[j].0, rows[j].1) in rows;
    }
    WithoutNone(rows, s.removed);
  }

  lemma InvCommit(s: Sys, id: nat)
    requires Inv(s) && Enabled(s, Commit(id)) && s.txs[id].pc.Finished?
    ensures Inv(Next(s, Commit(id)))
  {
    var s' := Next(s, Commit(id));
    var x := s.txs[id];
    ViewWellFormed(s.db, x);
    assert |Values(DemographicsOf(s'.db, x.k))| == 1;
    HealthyOthers(s.db, s'.db, x.k);
    forall y | y in s'.txs
      ensures TxOk(s'.db, s'.txs[y])
    {
      if Holds(s.txs[y]) { CommitLeavesAlone(s.db, x, s.txs[y]); }
      TxStable(s.db, s'.db, s.txs[y]);
    }
    CommitOrigin(s, id);
    forall k | k in s'.origin
      ensures FromOrigin(s'.db, k, s'.origin[k], s.removed)
    {
      if k != x.k { OriginStable(s.db, s'.db, k, s.origin[k], s.removed); }
    }
  }

  /** A stay can only be deleted singly while no open transaction has replaced it. */
  lemma StayDeleteTx(db: Db, i: nat, y: Tx)
    requires WellFormed(db) && TxOk(db, y) && i in db.t.stays && i !in Touched(y.stays)
    ensures TxOk(DeleteStayById(db, i), y)
  {
    var u := DeleteStayById(db, i);
    StayDeletedSingly(db, i);
    if Holds(y) && y.k == db.t.stays[i].parent {
      assert IsChild(db.t.stays, y.k, i);
      assert !StaysReplaced(y.pc);
      assert ViewOf(u, y).t.demographics == ViewOf(db, y).t.demographics;
    } else {
      TxStable(db, u, y);
    }
  }

  lemma InvStayDelete(s: Sys, i: nat)
    requires Inv(s) && Enabled(s, StayDelete(i))
    ensures Inv(Next(s, StayDelete(i)))
  {
    var s' := Next(s, StayDelete(i));
    StayDeletedSingly(s.db, i);
    forall k ensures |DemographicsOf(s'.db, k)| <= 1 { assert DemographicsOf(s'.db, k) == DemographicsOf(s.db, k); }
    forall y | y in s.txs ensures TxOk(s'.db, s.txs[y]) { StayDeleteTx(s.db, i, s.txs[y]); }
    forall k | k in s.origin
      ensures FromOrigin(s'.db, k, s.origin[k], s'.removed)
    {
      SelectMinus(s.db.t.stays, k, i, s.db.s.stays);
      WithoutMore(s.origin[k].stays, s.removed, {i});
      assert DayDocs(s'.db, k) == DayDocs(s.db, k);
    }
  }

  lemma DeleteLeavesAlone(db: Db, k: Id, y: Tx)
    requires WellFormed(db) && Owns(db, y) && y.k != k
    ensures LeavesAlone(db, DeleteItinerary(db, k), y)
  {
    ItineraryDeleted(db, k);
    var u := DeleteItinerary(db, k);
    assert SameRows(db.t.activities, u.t.activities, Touched(y.activities));
  }

  lemma InvItineraryDelete(s: Sys, k: Id)
    requires Inv(s) && Enabled(s, ItineraryDelete(k))
    ensures Inv(Next(s, ItineraryDelete(k)))
  {
    var s' := Next(s, ItineraryDelete(k));
    ItineraryDeleted(s.db, k);
    SelectNone(s'.db.t.demographics, k, s.db.s.demographics);
    HealthyOthers(s.db, s'.db, k);
    forall y | y in s.txs
      ensures TxOk(s'.db, s.txs[y])
    {
      if Holds(s.txs[y]) { DeleteLeavesAlone(s.db, k, s.txs[y]); }
      TxStable(s.db, s'.db, s.txs[y]);
    }
    forall q | q in s'.origin
      ensures FromOrigin(s'.db, q, s'.origin[q], s.removed)
    {
      OriginStable(s.db, s'.db, q, s.origin[q], s.removed);
    }
  }

  lemma InvStep(s: Sys, e: Step)
    requires Inv(s) && Enabled(s, e)
    ensures Inv(Next(s, e))
  {
    match e
    case Begin(_, _, _, _) =>
    case First(id) => InvFirst(s, id);
    case Statement(id) => InvStatement(s, id);
    case Commit(id) => if s.txs[id].pc.Finished? { InvCommit(s, id); }
    case Abort(id) =>
    case StayDelete(i) => InvStayDelete(s, i);
    case ItineraryDelete(k) => InvItineraryDelete(s, k);
  }

  lemma {:induction false} RunInv(states: seq<Sys>, steps: seq<Step>, i: nat)
    requires IsRun(states, steps) && i < |states|
    ensures Inv(states[i])
  {
    if i > 0 {
      RunInv(states, steps, i - 1);
      InvStep(states[i - 1], steps[i - 1]);
    }
  }

  // ---------------------------------------------------------------------------
  // Results
  // ---------------------------------------------------------------------------

  /**
   * Serialised by the row lock: in every state of every interleaving, an itinerary written during
   * the run holds exactly the payload of the one request that committed on it last, its stays less
   * those deleted singly since; primary and foreign keys hold and demographics stay 1:1.
   */
  lemma CommittedFromOneRequest(states: seq<Sys>, steps: seq<Step>, i: nat, k: Id)
    requires IsRun(states, steps) && i < |states| && k in states[i].origin
    ensures Healthy(states[i].db)
    ensures FromOrigin(states[i].db, k, states[i].origin[k], states[i].removed)
  {
    RunInv(states, steps, i);
  }

  /** From its first statement to its commit or abort, nobody else commits on the transaction's itinerary. */
  lemma NobodyElseCommits(states: seq<Sys>, steps: seq<Step>, i: nat, id: nat, other: nat)
    requires IsRun(states, steps) && i < |steps|
    requires id in states[i].txs && Holds(states[i].txs[id])
    requires steps[i] == Commit(other) && other != id
    ensures Same(states[i].db, states[i + 1].db, states[i].txs[id].k)
  {
    RunInv(states, steps, i);
    var s := states[i];
    if s.txs[other].pc.Finished? {
      ViewWellFormed(s.db, s.txs[other]);
      assert Apart(s.txs[id], s.txs[other]);
    }
  }

  /** Committed rows change at commits and single-statement deletes only: an aborted transaction leaves no trace. */
  lemma OnlyCommitsShow(s: Sys, e: Step)
    requires Enabled(s, e) && (e.Begin? || e.First? || e.Statement? || e.Abort?)
    ensures Next(s, e).db.t == s.db.t && Next(s, e).origin == s.origin && Next(s, e).removed == s.removed
    ensures e.Abort? ==> Next(s, e).db == s.db && e.id !in Next(s, e).txs
  {
  }

  /** The steps by which committed rows change. */
  predicate Commits(e: Step) { e.Commit? || e.StayDelete? || e.ItineraryDelete? }

  /** However many transactions begin, write and abort: without a commit or a delete, no committed row changes. */
  lemma {:induction false} AbortsLeaveNoTrace(states: seq<Sys>, steps: seq<Step>, i: nat, j: nat)
    requires IsRun(states, steps) && i <= j < |states|
    requires forall k {:trigger steps[k]} :: i <= k < j ==> !Commits(steps[k])
    ensures states[j].db.t == states[i].db.t && states[j].origin == states[i].origin
  {
    if i < j {
      AbortsLeaveNoTrace(states, steps, i, j - 1);
      assert Enabled(states[j - 1], steps[j - 1]) && states[j] == Next(states[j - 1], steps[j - 1]);
      OnlyCommitsShow(states[j - 1], steps[j - 1]);
    }
  }

  // ---------------------------------------------------------------------------
  // When an itinerary was created
  // ---------------------------------------------------------------------------

  /** A POST is about to store its own time, a PUT the time the row already has. */
  ghost predicate TimeOk(db: Db, x: Tx) {
    Holds(x) ==>
      && x.row.Some?
      && (x.kind.Post? ==> x.row.value.createdAt == x.kind.now)
      && (x.kind.Put? ==> x.k in db.t.itineraries && x.row.value.createdAt == db.t.itineraries[x.k].createdAt)
  }

  ghost predicate TimesOk(s: Sys) { forall id :: id in s.txs ==> TimeOk(s.db, s.txs[id]) }

  lemma TimesStep(states: seq<Sys>, steps: seq<Step>, i: nat)
    requires IsRun(states, steps) && i < |steps| && TimesOk(states[i])
    ensures TimesOk(states[i + 1])
  {
    var s, e, s' := states[i], steps[i], states[i + 1];
    assert Enabled(s, e) && s' == Next(s, e);
    forall id | id in s'.txs
      ensures TimeOk(s'.db, s'.txs[id])
    {
      if id in s.txs { assert TimeOk(s.db, s.txs[id]); }
      if e.Commit? && Holds(s.txs[id]) { NobodyElseCommits(states, steps, i, id, e.id); }
    }
  }

  lemma {:induction false} RunTimes(states: seq<Sys>, steps: seq<Step>, i: nat)
    requires IsRun(states, steps) && i < |states|
    ensures TimesOk(states[i])
  {
    if i > 0 {
      RunTimes(states, steps, i - 1);
      TimesStep(states, steps, i - 1);
    }
  }

  /** However many writes race: a committed PUT keeps created_at, and a committed POST stores its own time. */
  lemma CommitKeepsCreatedAt(states: seq<Sys>, steps: seq<Step>, i: nat, id: nat)
    requires IsRun(states, steps) && i < |steps| && steps[i] == Commit(id)
    requires id in states[i].txs && states[i].txs[id].pc.Finished?
    ensures var x, before, after := states[i].txs[id], states[i].db.t.itineraries, states[i + 1].db.t.itineraries;
            && x.k in after
            && (x.kind.Post? ==> after[x.k].createdAt == x.kind.now)
            && (x.kind.Put? ==> x.k in before && after[x.k].createdAt == before[x.k].createdAt)
  {
    RunTimes(states, steps, i);
    assert TimeOk(states[i].db, states[i].txs[id]);
    assert states[i + 1] == Next(states[i], steps[i]);
  }
}

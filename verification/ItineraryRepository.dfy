/**
 * The save cascade of services/itinerary-service/src/repositories/itineraryRepository.ts as a
 * function of the database, and what it leaves there.
 */
module ItineraryRepository {
  import opened ChildTables
  import opened ItineraryTables

  // ---------------------------------------------------------------------------
  // Specification of the write cascade
  // ---------------------------------------------------------------------------

  function InsertStays(db: Db, k: Id, stays: seq<Stay>): Db {
    if stays == [] then db else InsertStay(InsertStays(db, k, stays[..|stays| - 1]), k, stays[|stays| - 1])
  }

  function InsertActivities(db: Db, day: nat, activities: seq<Activity>): Db {
    if activities == [] then db
    else InsertActivity(InsertActivities(db, day, activities[..|activities| - 1]), day, activities[|activities| - 1])
  }

  function InsertFullDay(db: Db, k: Id, day: Day): Db {
    InsertActivities(InsertDay(db, k, day.head), db.s.days, day.activities)
  }

  function InsertDays(db: Db, k: Id, days: seq<Day>): Db {
    if days == [] then db else InsertFullDay(InsertDays(db, k, days[..|days| - 1]), k, days[|days| - 1])
  }

  function SaveChildren(db: Db, k: Id, r: Request): Db {
    var db1 := WriteDemographics(db, k, FindDemographics(db, k), r.demographics);
    var db2 := InsertStays(DeleteStays(db1, k), k, r.accommodation);
    InsertDays(DeleteDays(db2, k), k, r.itineraryDays)
  }

  /** k's rows are exactly those of request r, children in payload order. */
  ghost predicate Stored(db: Db, k: Id, r: Request) {
    && k in db.t.itineraries
    && db.t.itineraries[k] == RowOf(r, db.t.itineraries[k].createdAt)
    && Values(DemographicsOf(db, k)) == [r.demographics]
    && StayDocs(db, k) == r.accommodation
    && DayDocs(db, k) == r.itineraryDays
  }

  lemma {:induction false} StaysInserted(db: Db, k: Id, stays: seq<Stay>)
    requires WellFormed(db) && k in db.t.itineraries
    ensures var db' := InsertStays(db, k, stays);
            && WellFormed(db') && SerialsGrow(db.s, db'.s)
            && db'.t == db.t.(stays := db'.t.stays) && db'.s == db.s.(stays := db'.s.stays)
            && StayDocs(db', k) == StayDocs(db, k) + stays
            && OthersSame(db, db', k)
  {
    if stays != [] {
      var n := |stays| - 1;
      StaysInserted(db, k, stays[..n]);
      var db1 := InsertStays(db, k, stays[..n]);
      StayInserted(db1, k, stays[n]);
      OthersTrans(db, db1, InsertStay(db1, k, stays[n]), k);
      assert stays == stays[..n] + [stays[n]];
    }
  }

  lemma {:induction false} ActivitiesInserted(db: Db, k: Id, day: nat, activities: seq<Activity>)
    requires WellFormed(db) && DaysOf(db, k) != [] && DaysOf(db, k)[|DaysOf(db, k)| - 1].0 == day
    ensures var n := |DaysOf(db, k)| - 1;
            var db' := InsertActivities(db, day, activities);
            && WellFormed(db') && SerialsGrow(db.s, db'.s)
            && db'.t == db.t.(activities := db'.t.activities) && db'.s == db.s.(activities := db'.s.activities)
            && DaysOf(db', k) == DaysOf(db, k)
            && DayDocs(db', k) ==
                 DayDocs(db, k)[..n] + [Day(DaysOf(db, k)[n].1, DayDocs(db, k)[n].activities + activities)]
            && OthersSame(db, db', k)
  {
    if activities == [] {
      var n := |DaysOf(db, k)| - 1;
      assert DayDocs(db, k)[n] == Day(DaysOf(db, k)[n].1, DayDocs(db, k)[n].activities + []);
      assert DayDocs(db, k) == DayDocs(db, k)[..n] + [DayDocs(db, k)[n]];
    } else {
      var m := |activities| - 1;
      ActivitiesInserted(db, k, day, activities[..m]);
      var db1 := InsertActivities(db, day, activities[..m]);
      var n := |DaysOf(db, k)| - 1;
      ActivityInserted(db1, k, activities[m]);
      OthersTrans(db, db1, InsertActivity(db1, day, activities[m]), k);
      assert DayDocs(db1, k)[..n] == DayDocs(db, k)[..n];
      assert DayDocs(db, k)[n].activities + activities ==
             DayDocs(db, k)[n].activities + activities[..m] + [activities[m]];
    }
  }

  lemma FullDayInserted(db: Db, k: Id, day: Day)
    requires WellFormed(db) && k in db.t.itineraries
    ensures var db' := InsertFullDay(db, k, day);
            && WellFormed(db') && SerialsGrow(db.s, db'.s)
            && db'.t == db.t.(days := db'.t.days, activities := db'.t.activities)
            && db'.s == db.s.(days := db'.s.days, activities := db'.s.activities)
            && DayDocs(db', k) == DayDocs(db, k) + [day]
            && OthersSame(db, db', k)
  {
    var db1 := InsertDay(db, k, day.head);
    DayInserted(db, k, day.head);
    ActivitiesInserted(db1, k, db.s.days, day.activities);
    OthersTrans(db, db1, InsertFullDay(db, k, day), k);
    assert DayDocs(db1, k)[..|DaysOf(db1, k)| - 1] == DayDocs(db, k);
    assert Day(day.head, [] + day.activities) == day;
  }

  lemma {:induction false} DaysInserted(db: Db, k: Id, days: seq<Day>)
    requires WellFormed(db) && k in db.t.itineraries
    ensures var db' := InsertDays(db, k, days);
            && WellFormed(db') && SerialsGrow(db.s, db'.s)
            && db'.t == db.t.(days := db'.t.days, activities := db'.t.activities)
            && db'.s == db.s.(days := db'.s.days, activities := db'.s.activities)
            && DayDocs(db', k) == DayDocs(db, k) + days
            && OthersSame(db, db', k)
  {
    if days != [] {
      var n := |days| - 1;
      DaysInserted(db, k, days[..n]);
      var db1 := InsertDays(db, k, days[..n]);
      FullDayInserted(db1, k, days[n]);
      OthersTrans(db, db1, InsertFullDay(db1, k, days[n]), k);
      assert days == days[..n] + [days[n]];
    }
  }

  /**
   * Whatever children k had, the cascade leaves exactly those of the request, and every other
   * itinerary is as it was down to its primary keys.
   */
  lemma ChildrenSaved(db: Db, k: Id, r: Request)
    requires WellFormed(db) && k in db.t.itineraries && |DemographicsOf(db, k)| <= 1
    ensures var db' := SaveChildren(db, k, r);
            && WellFormed(db') && SerialsGrow(db.s, db'.s) && db'.t.itineraries == db.t.itineraries
            && Values(DemographicsOf(db', k)) == [r.demographics]
            && StayDocs(db', k) == r.accommodation
            && DayDocs(db', k) == r.itineraryDays
            && OthersSame(db, db', k)
  {
    var db1 := WriteDemographics(db, k, FindDemographics(db, k), r.demographics);
    DemographicsWritten(db, k, r.demographics);
    StaysDeleted(db1, k);
    StaysInserted(DeleteStays(db1, k), k, r.accommodation);
    var db2 := InsertStays(DeleteStays(db1, k), k, r.accommodation);
    DaysDeleted(db2, k);
    DaysInserted(DeleteDays(db2, k), k, r.itineraryDays);
    assert [] + r.accommodation == r.accommodation && [] + r.itineraryDays == r.itineraryDays;
    OthersTrans(db, db1, DeleteStays(db1, k), k);
    OthersTrans(db, DeleteStays(db1, k), db2, k);
    OthersTrans(db, db2, DeleteDays(db2, k), k);
    OthersTrans(db, DeleteDays(db2, k), SaveChildren(db, k, r), k);
  }

  /** PUT is a total replacement with a frame. */
  lemma UpdateReplaces(db: Db, k: Id, r: Request)
    requires WellFormed(db) && k in db.t.itineraries && |DemographicsOf(db, k)| <= 1
    ensures var db' := SaveChildren(UpdateRow(db, k, r), k, r);
            && WellFormed(db') && SerialsGrow(db.s, db'.s) && Stored(db', k, r)
            && db'.t.itineraries[k].createdAt == db.t.itineraries[k].createdAt
            && OthersSame(db, db', k)
  {
    var db1 := UpdateRow(db, k, r);
    assert WellFormed(db1) && OthersSame(db, db1, k);
    ChildrenSaved(db1, k, r);
    OthersTrans(db, db1, SaveChildren(db1, k, r), k);
  }

  /** POST stores the whole aggregate under its new id and touches nothing else. */
  lemma SaveStores(db: Db, k: Id, r: Request, now: int)
    requires WellFormed(db) && k !in db.t.itineraries
    ensures var db' := SaveChildren(InsertRow(db, k, r, now), k, r);
            && WellFormed(db') && SerialsGrow(db.s, db'.s) && Stored(db', k, r)
            && db'.t.itineraries[k].createdAt == now
            && OthersSame(db, db', k)
  {
    var db1 := InsertRow(db, k, r, now);
    assert WellFormed(db1) && OthersSame(db, db1, k);
    SelectNone(db.t.demographics, k, db.s.demographics);
    ChildrenSaved(db1, k, r);
    OthersTrans(db, db1, SaveChildren(db1, k, r), k);
  }
}

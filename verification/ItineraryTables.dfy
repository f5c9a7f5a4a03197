/**
 * The five tables of db/init/itinerary-service.sql and the SQL statements that
 * services/itinerary-service/src/repositories/itineraryRepository.ts runs on them.
 */
module ItineraryTables {
  import opened Common
  import opened ChildTables

  type Id(==, !new, 0)        // uuid
  type Weather(==, !new, 0)   // a non-null JSON document

  // ---------------------------------------------------------------------------
  // The request payload; None is a null or absent field
  // ---------------------------------------------------------------------------

  datatype Header = Header(
    userId: Id, sourceCountry: string, destination: string, startDate: int, endDate: int,
    estimatedTotalCost: real)

  datatype Demographics = Demographics(
    currency: string, budgetMin: Option<real>, budgetMax: Option<real>, travelerType: string, purpose: string)

  datatype Stay = Stay(
    name: string, estimatedCost: Option<real>, imageUrl: Option<string>, hotelDescription: Option<string>)

  datatype Activity = Activity(
    name: string, details: string, estimatedCost: Option<real>, imageUrl: Option<string>, timing: string)

  datatype DayHead = DayHead(date: int, location: string, description: string)

  datatype Day = Day(head: DayHead, activities: seq<Activity>)

  datatype Request = Request(
    header: Header, importantNotes: seq<string>, weatherForecast: Option<Weather>,
    demographics: Demographics, accommodation: seq<Stay>, itineraryDays: seq<Day>)

  // ---------------------------------------------------------------------------
  // Tables
  // ---------------------------------------------------------------------------

  /** What JSON.parse makes of the text in the notes column. */
  datatype Notes = Absent | JsonArray(items: seq<string>) | OtherJson | NotJson(text: string)

  datatype ItineraryRow = ItineraryRow(header: Header, notes: Notes, weatherForecast: Option<Weather>, createdAt: int)

  datatype Tables = Tables(
    itineraries: map<Id, ItineraryRow>,
    demographics: Table<Id, Demographics>,
    stays: Table<Id, Stay>,
    days: Table<Id, DayHead>,
    activities: Table<nat, Activity>)

  /** The sequences behind the serial keys; PostgreSQL never rolls them back. */
  datatype Serials = Serials(demographics: nat, stays: nat, days: nat, activities: nat)

  datatype Db = Db(t: Tables, s: Serials)

  /** Primary keys come from the sequences, and no child row lacks its parent. */
  ghost predicate WellFormed(db: Db) {
    && Below(db.t.demographics, db.s.demographics)
    && Below(db.t.stays, db.s.stays)
    && Below(db.t.days, db.s.days)
    && Below(db.t.activities, db.s.activities)
    && (forall i :: i in db.t.demographics ==> db.t.demographics[i].parent in db.t.itineraries)
    && (forall i :: i in db.t.stays ==> db.t.stays[i].parent in db.t.itineraries)
    && (forall i :: i in db.t.days ==> db.t.days[i].parent in db.t.itineraries)
    && (forall i :: i in db.t.activities ==> db.t.activities[i].parent in db.t.days)
  }

  // ---------------------------------------------------------------------------
  // Statements
  // ---------------------------------------------------------------------------

  function RowOf(r: Request, createdAt: int): ItineraryRow {
    ItineraryRow(r.header, JsonArray(r.importantNotes), r.weatherForecast, createdAt)
  }

  function InsertRow(db: Db, k: Id, r: Request, now: int): Db {
    db.(t := db.t.(itineraries := db.t.itineraries[k := RowOf(r, now)]))
  }

  /** UPDATE itinerary ... WHERE id = k; created_at is not among the columns it sets. */
  function UpdateRow(db: Db, k: Id, r: Request): Db
    requires k in db.t.itineraries
  {
    db.(t := db.t.(itineraries := db.t.itineraries[k := RowOf(r, db.t.itineraries[k].createdAt)]))
  }

  function DemographicsOf(db: Db, k: Id): seq<(nat, Demographics)> {
    Select(db.t.demographics, k, db.s.demographics)
  }

  /** SELECT id FROM itinerary_demographics WHERE itinerary_id = k, first row. */
  function FindDemographics(db: Db, k: Id): Option<nat> {
    if DemographicsOf(db, k) == [] then None else Some(DemographicsOf(db, k)[0].0)
  }

  function WriteDemographics(db: Db, k: Id, existing: Option<nat>, d: Demographics): Db {
    match existing
    case Some(i) =>
      if i in db.t.demographics
      then db.(t := db.t.(demographics := db.t.demographics[i := db.t.demographics[i].(val := d)]))
      else db
    case None =>
      db.(t := db.t.(demographics := db.t.demographics[db.s.demographics := Row(k, d)]),
          s := db.s.(demographics := db.s.demographics + 1))
  }

  function DeleteStays(db: Db, k: Id): Db { db.(t := db.t.(stays := DeleteChildren(db.t.stays, k))) }

  function InsertStay(db: Db, k: Id, stay: Stay): Db {
    db.(t := db.t.(stays := db.t.stays[db.s.stays := Row(k, stay)]), s := db.s.(stays := db.s.stays + 1))
  }

  /** DELETE FROM itinerary_day WHERE itinerary_id = k, activities by ON DELETE CASCADE. */
  function DeleteDays(db: Db, k: Id): Db {
    db.(t := db.t.(days := DeleteChildren(db.t.days, k),
                   activities := map i | i in db.t.activities && !IsChild(db.t.days, k, db.t.activities[i].parent)
                                     :: db.t.activities[i]))
  }

  function InsertDay(db: Db, k: Id, head: DayHead): Db {
    db.(t := db.t.(days := db.t.days[db.s.days := Row(k, head)]), s := db.s.(days := db.s.days + 1))
  }

  function InsertActivity(db: Db, day: nat, a: Activity): Db {
    db.(t := db.t.(activities := db.t.activities[db.s.activities := Row(day, a)]),
        s := db.s.(activities := db.s.activities + 1))
  }

  // ---------------------------------------------------------------------------
  // What the tables say about one itinerary
  // ---------------------------------------------------------------------------

  function StaysOf(db: Db, k: Id): seq<(nat, Stay)> { Select(db.t.stays, k, db.s.stays) }

  function DaysOf(db: Db, k: Id): seq<(nat, DayHead)> { Select(db.t.days, k, db.s.days) }

  function ActivitiesOf(db: Db, day: nat): seq<(nat, Activity)> { Select(db.t.activities, day, db.s.activities) }

  function DayDoc(db: Db, row: (nat, DayHead)): Day { Day(row.1, Values(ActivitiesOf(db, row.0))) }

  /** The days of k with their activities, in the order they were inserted. */
  function DayDocs(db: Db, k: Id): seq<Day> {
    seq(|DaysOf(db, k)|, (i: nat) requires i < |DaysOf(db, k)| => DayDoc(db, DaysOf(db, k)[i]))
  }

  function StayDocs(db: Db, k: Id): seq<Stay> { Values(StaysOf(db, k)) }

  // ---------------------------------------------------------------------------
  // Frames: statements about one itinerary leave every other one alone
  // ---------------------------------------------------------------------------

  /** db and db' say exactly the same about itinerary q, primary keys included. */
  ghost predicate Same(db: Db, db': Db, q: Id) {
    && (q in db.t.itineraries <==> q in db'.t.itineraries)
    && (q in db.t.itineraries ==> db.t.itineraries[q] == db'.t.itineraries[q])
    && Agree(db.t.demographics, db'.t.demographics, q)
    && Agree(db.t.stays, db'.t.stays, q)
    && Agree(db.t.days, db'.t.days, q)
    && (forall d :: IsChild(db.t.days, q, d) ==> Agree(db.t.activities, db'.t.activities, d))
  }

  lemma SameTrans(a: Db, b: Db, c: Db, q: Id)
    requires Same(a, b, q) && Same(b, c, q)
    ensures Same(a, c, q)
  {
  }

  ghost predicate OthersSame(db: Db, db': Db, k: Id) { forall q :: q != k ==> Same(db, db', q) }

  lemma OthersTrans(a: Db, b: Db, c: Db, k: Id)
    requires OthersSame(a, b, k) && OthersSame(b, c, k)
    ensures OthersSame(a, c, k)
  {
    forall q | q != k ensures Same(a, c, q) { SameTrans(a, b, c, q); }
  }

  predicate SerialsGrow(s: Serials, s': Serials) {
    && s.demographics <= s'.demographics && s.stays <= s'.stays && s.days <= s'.days && s.activities <= s'.activities
  }

  lemma SameDocs(db: Db, db': Db, q: Id)
    requires WellFormed(db) && Same(db, db', q) && SerialsGrow(db.s, db'.s)
    ensures DemographicsOf(db', q) == DemographicsOf(db, q)
    ensures StaysOf(db', q) == StaysOf(db, q)
    ensures DaysOf(db', q) == DaysOf(db, q)
    ensures forall d :: IsChild(db.t.days, q, d) ==> ActivitiesOf(db', d) == ActivitiesOf(db, d)
    ensures DayDocs(db', q) == DayDocs(db, q)
  {
    SelectBeyond(db.t.demographics, q, db.s.demographics, db'.s.demographics);
    SelectAgree(db.t.demographics, db'.t.demographics, q, db'.s.demographics);
    SelectBeyond(db.t.stays, q, db.s.stays, db'.s.stays);
    SelectAgree(db.t.stays, db'.t.stays, q, db'.s.stays);
    SelectBeyond(db.t.days, q, db.s.days, db'.s.days);
    SelectAgree(db.t.days, db'.t.days, q, db'.s.days);
    forall d | IsChild(db.t.days, q, d)
      ensures ActivitiesOf(db', d) == ActivitiesOf(db, d)
    {
      SelectBeyond(db.t.activities, d, db.s.activities, db'.s.activities);
      SelectAgree(db.t.activities, db'.t.activities, d, db'.s.activities);
    }
    SelectExact(db.t.days, q, db.s.days);
    var ds := DaysOf(db, q);
    assert forall i :: 0 <= i < |ds| ==> ds[i] in ds && IsChild(db.t.days, q, ds[i].0);
  }

  // ---------------------------------------------------------------------------
  // Each statement, told on the document
  // ---------------------------------------------------------------------------

  lemma DemographicsInserted(db: Db, k: Id, d: Demographics)
    requires WellFormed(db) && k in db.t.itineraries && DemographicsOf(db, k) == []
    ensures var db' := WriteDemographics(db, k, None, d);
            WellFormed(db') && Values(DemographicsOf(db', k)) == [d] && OthersSame(db, db', k)
  {
    SelectInsert(db.t.demographics, k, d, db.s.demographics);
  }

  lemma DemographicsUpdated(db: Db, k: Id, i: nat, d: Demographics)
    requires WellFormed(db) && |DemographicsOf(db, k)| == 1 && DemographicsOf(db, k)[0].0 == i
    ensures var db' := WriteDemographics(db, k, Some(i), d);
            WellFormed(db') && Values(DemographicsOf(db', k)) == [d] && OthersSame(db, db', k)
  {
    SelectExact(db.t.demographics, k, db.s.demographics);
    assert (i, DemographicsOf(db, k)[0].1) in DemographicsOf(db, k);
    OneChildUpdated(db.t.demographics, k, i, d, db.s.demographics);
  }

  /** However many demographics rows k had, none or one, afterwards it has one: the one just written. */
  lemma DemographicsWritten(db: Db, k: Id, d: Demographics)
    requires WellFormed(db) && k in db.t.itineraries && |DemographicsOf(db, k)| <= 1
    ensures var db' := WriteDemographics(db, k, FindDemographics(db, k), d);
            WellFormed(db') && Values(DemographicsOf(db', k)) == [d] && OthersSame(db, db', k)
  {
    if DemographicsOf(db, k) == [] {
      DemographicsInserted(db, k, d);
    } else {
      DemographicsUpdated(db, k, DemographicsOf(db, k)[0].0, d);
    }
  }

  lemma {:induction false} OneChildUpdated(t: Table<Id, Demographics>, k: Id, i: nat, d: Demographics, n: nat)
    requires IsChild(t, k, i) && |Select(t, k, n)| <= 1
    requires i < n ==> Select(t, k, n) != [] && Select(t, k, n)[0].0 == i
    ensures Select(t[i := t[i].(val := d)], k, n) == if i < n then [(i, d)] else Select(t, k, n)
  {
    if n > 0 {
      if i < n - 1 {
        SelectExact(t, k, n - 1);
        assert (i, t[i].val) in Select(t, k, n - 1);
      }
      OneChildUpdated(t, k, i, d, n - 1);
    }
  }

  lemma StaysDeleted(db: Db, k: Id)
    requires WellFormed(db)
    ensures WellFormed(DeleteStays(db, k)) && StayDocs(DeleteStays(db, k), k) == []
    ensures OthersSame(db, DeleteStays(db, k), k)
  {
    SelectNone(DeleteStays(db, k).t.stays, k, db.s.stays);
  }

  lemma StayInserted(db: Db, k: Id, stay: Stay)
    requires WellFormed(db) && k in db.t.itineraries
    ensures WellFormed(InsertStay(db, k, stay))
    ensures StayDocs(InsertStay(db, k, stay), k) == StayDocs(db, k) + [stay]
    ensures OthersSame(db, InsertStay(db, k, stay), k)
  {
    SelectInsert(db.t.stays, k, stay, db.s.stays);
  }

  lemma DaysDeleted(db: Db, k: Id)
    requires WellFormed(db)
    ensures WellFormed(DeleteDays(db, k)) && DayDocs(DeleteDays(db, k), k) == []
    ensures OthersSame(db, DeleteDays(db, k), k)
  {
    SelectNone(DeleteDays(db, k).t.days, k, db.s.days);
  }

  lemma DayInserted(db: Db, k: Id, head: DayHead)
    requires WellFormed(db) && k in db.t.itineraries
    ensures WellFormed(InsertDay(db, k, head))
    ensures DaysOf(InsertDay(db, k, head), k) == DaysOf(db, k) + [(db.s.days, head)]
    ensures DayDocs(InsertDay(db, k, head), k) == DayDocs(db, k) + [Day(head, [])]
    ensures OthersSame(db, InsertDay(db, k, head), k)
  {
    var db' := InsertDay(db, k, head);
    SelectInsert(db.t.days, k, head, db.s.days);
    SelectNone(db.t.activities, db.s.days, db.s.activities);
    assert DayDoc(db', (db.s.days, head)) == Day(head, []);
    assert forall i :: 0 <= i < |DaysOf(db, k)| ==> DayDoc(db', DaysOf(db, k)[i]) == DayDocs(db, k)[i];
  }

  /** The activity goes to the day inserted last. */
  lemma ActivityInserted(db: Db, k: Id, a: Activity)
    requires WellFormed(db) && DaysOf(db, k) != []
    ensures var n := |DaysOf(db, k)| - 1;
            var db' := InsertActivity(db, DaysOf(db, k)[n].0, a);
            && WellFormed(db')
            && DaysOf(db', k) == DaysOf(db, k)
            && DayDocs(db', k) ==
                 DayDocs(db, k)[..n] + [Day(DaysOf(db, k)[n].1, DayDocs(db, k)[n].activities + [a])]
            && OthersSame(db, db', k)
  {
    var ds := DaysOf(db, k);
    var n := |ds| - 1;
    SelectExact(db.t.days, k, db.s.days);
    SelectIncreasing(db.t.days, k, db.s.days);
    assert ds[n] in ds;
    var db' := InsertActivity(db, ds[n].0, a);
    SelectInsert(db.t.activities, ds[n].0, a, db.s.activities);
    forall i | 0 <= i < n
      ensures DayDoc(db', ds[i]) == DayDoc(db, ds[i])
    {
      SelectUpTo(db.t.activities, db'.t.activities, ds[i].0, db.s.activities);
    }
    assert DayDoc(db', ds[n]) == Day(ds[n].1, Values(ActivitiesOf(db, ds[n].0)) + [a]);
    assert DayDocs(db', k)[..n] == DayDocs(db, k)[..n];
  }
}

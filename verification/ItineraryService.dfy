/**
 * The itinerary service for one request at a time: the repository's statements run inside
 * withTransaction (packages/shared/src/adapters/db.ts), any of which may fail, and the route
 * handlers of services/itinerary-service/src/routes/itineraryRoutes.ts.
 */
module ItineraryService {
  import opened Common
  import opened ChildTables
  import opened ItineraryTables
  import opened ItineraryRepository
  import opened ItineraryReads

  /** An open transaction: its view of the database, and how many statements succeed before one fails. */
  class Transaction {
    var db: Db
    var fuse: nat

    constructor (db: Db, fuse: nat)
      ensures this.db == db && this.fuse == fuse
    {
      this.db, this.fuse := db, fuse;
    }

    /** Whether the statement about to be sent succeeds. */
    method Accept() returns (ok: bool)
      modifies this`fuse
      ensures ok == (old(fuse) >= 1) && fuse == old(fuse) - One(ok)
    {
      ok := fuse > 0;
      if ok { fuse := fuse - 1; }
    }
  }

  /** The call sends n statements, and succeeds exactly when the database accepts all of them. */
  twostate predicate Sends(tx: Transaction, n: nat, ok: bool)
    reads tx
  {
    (ok <==> old(tx.fuse) >= n) && (ok ==> tx.fuse == old(tx.fuse) - n)
  }

  function DayStatements(days: seq<Day>): nat {
    if days == [] then 0 else DayStatements(days[..|days| - 1]) + 1 + |days[|days| - 1].activities|
  }

  /** One SELECT and one write for demographics, one DELETE per list, one INSERT per row. */
  function ChildStatements(r: Request): nat { 2 + (1 + |r.accommodation|) + (1 + DayStatements(r.itineraryDays)) }

  method UpdateItineraryRow(tx: Transaction, k: Id, r: Request) returns (ok: bool, found: bool)
    modifies tx
    ensures Sends(tx, 1, ok)
    ensures ok ==> (found <==> k in old(tx.db).t.itineraries)
    ensures tx.db == if ok && found then UpdateRow(old(tx.db), k, r) else old(tx.db)
  {
    found := false;
    ok := tx.Accept();
    if !ok || k !in tx.db.t.itineraries { return; }
    tx.db := UpdateRow(tx.db, k, r);
    found := true;
  }

  /** Only one demographics row changed: the first of k under its old key, or else a new one. */
  ghost predicate UpsertedInPlace(before: Db, after: Db, k: Id, d: Demographics) {
    var rows := DemographicsOf(before, k);
    var i := if rows == [] then before.s.demographics else rows[0].0;
    && after.t == before.t.(demographics := before.t.demographics[i := Row(k, d)])
    && after.s == before.s.(demographics := before.s.demographics + One(rows == []))
  }

  lemma FirstIsRow(db: Db, k: Id)
    ensures DemographicsOf(db, k) != [] ==> IsChild(db.t.demographics, k, DemographicsOf(db, k)[0].0)
  {
    SelectExact(db.t.demographics, k, db.s.demographics);
    if DemographicsOf(db, k) != [] {
      assert (DemographicsOf(db, k)[0].0, DemographicsOf(db, k)[0].1) in DemographicsOf(db, k);
    }
  }

  method UpsertDemographics(tx: Transaction, k: Id, d: Demographics) returns (ok: bool)
    modifies tx
    ensures Sends(tx, 2, ok)
    ensures ok ==> tx.db == WriteDemographics(old(tx.db), k, FindDemographics(old(tx.db), k), d)
    ensures !ok ==> tx.db == old(tx.db)
    ensures ok ==> UpsertedInPlace(old(tx.db), tx.db, k, d)
  {
    FirstIsRow(tx.db, k);
    ok := tx.Accept();
    if !ok { return; }
    var existing := FindDemographics(tx.db, k);
    ok := tx.Accept();
    if !ok { return; }
    if existing.Some? {
      tx.db := WriteDemographics(tx.db, k, Some(existing.value), d);
      return;
    }
    tx.db := WriteDemographics(tx.db, k, None, d);
  }

  method ReplaceAccommodations(tx: Transaction, k: Id, stays: seq<Stay>) returns (ok: bool)
    modifies tx
    ensures Sends(tx, 1 + |stays|, ok)
    ensures ok ==> tx.db == InsertStays(DeleteStays(old(tx.db), k), k, stays)
    ensures SerialsGrow(old(tx.db).s, tx.db.s)
  {
    ok := tx.Accept();
    if !ok { return; }
    tx.db := DeleteStays(tx.db, k);
    for i := 0 to |stays|
      invariant ok && tx.db == InsertStays(DeleteStays(old(tx.db), k), k, stays[..i])
      invariant tx.fuse == old(tx.fuse) - 1 - i
      invariant SerialsGrow(old(tx.db).s, tx.db.s)
    {
      ok := tx.Accept();
      if !ok { return; }
      tx.db := InsertStay(tx.db, k, stays[i]);
      assert stays[..i + 1][..i] == stays[..i];
    }
    assert stays[..|stays|] == stays;
  }

  method InsertDayActivities(tx: Transaction, day: nat, activities: seq<Activity>) returns (ok: bool)
    modifies tx
    ensures Sends(tx, |activities|, ok)
    ensures ok ==> tx.db == InsertActivities(old(tx.db), day, activities)
    ensures SerialsGrow(old(tx.db).s, tx.db.s)
  {
    ok := true;
    for i := 0 to |activities|
      invariant ok && tx.db == InsertActivities(old(tx.db), day, activities[..i])
      invariant tx.fuse == old(tx.fuse) - i
      invariant SerialsGrow(old(tx.db).s, tx.db.s)
    {
      ok := tx.Accept();
      if !ok { return; }
      tx.db := InsertActivity(tx.db, day, activities[i]);
      assert activities[..i + 1][..i] == activities[..i];
    }
    assert activities[..|activities|] == activities;
  }

  lemma {:induction false} DayStatementsGrow(days: seq<Day>, i: nat)
    requires i < |days|
    ensures DayStatements(days[..i + 1]) == DayStatements(days[..i]) + 1 + |days[i].activities|
    ensures DayStatements(days[..i + 1]) <= DayStatements(days)
    decreases |days|
  {
    var n := |days| - 1;
    assert days[..i + 1][..i] == days[..i];
    if i < n {
      DayStatementsGrow(days[..n], i);
      assert days[..n][..i + 1] == days[..i + 1];
    } else {
      assert days[..i + 1] == days;
    }
  }

  method ReplaceDaysWithActivities(tx: Transaction, k: Id, days: seq<Day>) returns (ok: bool)
    modifies tx
    ensures Sends(tx, 1 + DayStatements(days), ok)
    ensures ok ==> tx.db == InsertDays(DeleteDays(old(tx.db), k), k, days)
    ensures SerialsGrow(old(tx.db).s, tx.db.s)
  {
    ok := tx.Accept();
    if !ok { return; }
    tx.db := DeleteDays(tx.db, k);
    for i := 0 to |days|
      invariant ok && tx.db == InsertDays(DeleteDays(old(tx.db), k), k, days[..i])
      invariant tx.fuse == old(tx.fuse) - 1 - DayStatements(days[..i])
      invariant SerialsGrow(old(tx.db).s, tx.db.s)
    {
      DayStatementsGrow(days, i);
      ok := tx.Accept();
      if !ok { return; }
      var insertedDay := tx.db.s.days;
      tx.db := InsertDay(tx.db, k, days[i].head);
      ok := InsertDayActivities(tx, insertedDay, days[i].activities);
      if !ok { return; }
      assert days[..i + 1][..i] == days[..i];
    }
    assert days[..|days|] == days;
  }

  method SaveAllChildren(tx: Transaction, k: Id, r: Request) returns (ok: bool)
    modifies tx
    ensures Sends(tx, ChildStatements(r), ok)
    ensures ok ==> tx.db == SaveChildren(old(tx.db), k, r)
    ensures SerialsGrow(old(tx.db).s, tx.db.s)
  {
    ok := UpsertDemographics(tx, k, r.demographics);
    if !ok { return; }
    ok := ReplaceAccommodations(tx, k, r.accommodation);
    if !ok { return; }
    ok := ReplaceDaysWithActivities(tx, k, r.itineraryDays);
  }

  method UpdateItineraryWithChildren(tx: Transaction, k: Id, r: Request) returns (ok: bool, found: bool)
    modifies tx
    ensures Sends(tx, if k in old(tx.db).t.itineraries then 1 + ChildStatements(r) else 1, ok)
    ensures ok ==> (found <==> k in old(tx.db).t.itineraries)
    ensures ok ==> tx.db == if found then SaveChildren(UpdateRow(old(tx.db), k, r), k, r) else old(tx.db)
    ensures SerialsGrow(old(tx.db).s, tx.db.s)
  {
    ok, found := UpdateItineraryRow(tx, k, r);
    if !ok || !found { return; }
    ok := SaveAllChildren(tx, k, r);
  }

  /** k is the uuid the database generates. */
  method SaveItineraryWithChildren(tx: Transaction, k: Id, r: Request, now: int) returns (ok: bool)
    modifies tx
    ensures Sends(tx, 1 + ChildStatements(r), ok)
    ensures ok ==> tx.db == SaveChildren(InsertRow(old(tx.db), k, r, now), k, r)
    ensures SerialsGrow(old(tx.db).s, tx.db.s)
  {
    ok := tx.Accept();
    if !ok { return; }
    tx.db := InsertRow(tx.db, k, r, now);
    ok := SaveAllChildren(tx, k, r);
  }

  // ---------------------------------------------------------------------------
  // The deletes, one statement each
  // ---------------------------------------------------------------------------

  /** DELETE FROM itinerary WHERE id = k, children by ON DELETE CASCADE. */
  function DeleteItinerary(db: Db, k: Id): Db {
    var db' := DeleteDays(DeleteStays(db, k), k);
    db'.(t := db'.t.(itineraries := db'.t.itineraries - {k},
                     demographics := DeleteChildren(db'.t.demographics, k)))
  }

  /** DELETE FROM itinerary_accomodation WHERE id = i */
  function DeleteStayById(db: Db, i: nat): Db { db.(t := db.t.(stays := db.t.stays - {i})) }

  lemma ItineraryDeleted(db: Db, k: Id)
    requires WellFormed(db)
    ensures var db' := DeleteItinerary(db, k);
            WellFormed(db') && db'.s == db.s && k !in db'.t.itineraries && OthersSame(db, db', k)
  {
  }

  /** Deleting a stay takes exactly it out of its itinerary's list and changes nothing else. */
  lemma StayDeletedSingly(db: Db, i: nat)
    requires WellFormed(db) && i in db.t.stays
    ensures var k := db.t.stays[i].parent;
            var db' := DeleteStayById(db, i);
            && WellFormed(db') && OthersSame(db, db', k)
            && db'.t == db.t.(stays := db'.t.stays)
            && StaysOf(db', k) == Without(StaysOf(db, k), {i})
  {
    SelectMinus(db.t.stays, db.t.stays[i].parent, i, db.s.stays);
  }

  // ---------------------------------------------------------------------------
  // The service
  // ---------------------------------------------------------------------------

  /** Well-formed, and demographics 1:1 although the DDL has no UNIQUE for it. */
  ghost predicate Healthy(db: Db) {
    WellFormed(db) && forall k :: |DemographicsOf(db, k)| <= 1
  }

  lemma HealthyOthers(db: Db, db': Db, k: Id)
    requires Healthy(db) && WellFormed(db') && OthersSame(db, db', k) && SerialsGrow(db.s, db'.s)
    requires |DemographicsOf(db', k)| <= 1
    ensures Healthy(db')
  {
    forall q | q != k ensures |DemographicsOf(db', q)| <= 1 { SameDocs(db, db', q); }
  }

  /** The same rows with later sequence values: what a rollback leaves. */
  lemma RolledBack(db: Db, s: Serials)
    requires Healthy(db) && SerialsGrow(db.s, s)
    ensures Healthy(Db(db.t, s)) && forall q :: Same(db, Db(db.t, s), q)
  {
    forall q ensures |DemographicsOf(Db(db.t, s), q)| <= 1 { SameDocs(db, Db(db.t, s), q); }
  }

  lemma KeysKept(db: Db, db': Db, k: Id)
    requires OthersSame(db, db', k)
    ensures db'.t.itineraries.Keys <= db.t.itineraries.Keys + {k}
  {
    forall q | q in db'.t.itineraries && q != k ensures q in db.t.itineraries { assert Same(db, db', q); }
  }

  lemma SavedHealthy(db: Db, k: Id, r: Request, now: int)
    requires Healthy(db) && k !in db.t.itineraries
    ensures var db' := SaveChildren(InsertRow(db, k, r, now), k, r);
            && Healthy(db') && Stored(db', k, r) && db'.t.itineraries[k].createdAt == now
            && OthersSame(db, db', k) && db'.t.itineraries.Keys <= db.t.itineraries.Keys + {k}
  {
    var db' := SaveChildren(InsertRow(db, k, r, now), k, r);
    SaveStores(db, k, r, now);
    HealthyOthers(db, db', k);
    KeysKept(db, db', k);
  }

  class Service {
    var db: Db                      // the committed database
    var published: seq<Id>          // itinerary.created events that reached the broker
    ghost var everCommitted: set<Id>

    ghost predicate Valid()
      reads this
    {
      && Healthy(db)
      && db.t.itineraries.Keys <= everCommitted
      && forall i :: 0 <= i < |published| ==> published[i] in everCommitted
    }

    /** POST: commit, then publish; a broker that is down drops the event. */
    method Post(k: Id, r: Request, now: int, fuse: nat, brokerUp: bool) returns (status: nat)
      requires Valid() && k !in everCommitted
      modifies this
      ensures Valid() && everCommitted == old(everCommitted) + if status == 201 then {k} else {}
      ensures status == if fuse >= ChildStatements(r) + 3 then 201 else 500   // BEGIN, INSERT, children, COMMIT
      ensures status == 201 ==>
                && Stored(db, k, r) && db.t.itineraries[k].createdAt == now && OthersSame(old(db), db, k)
                && published == old(published) + if brokerUp then [k] else []
      ensures status == 500 ==> db.t == old(db).t && published == old(published)
    {
      var tx := new Transaction(db, fuse);
      var ok := tx.Accept();         // BEGIN
      if ok { ok := SaveItineraryWithChildren(tx, k, r, now); }
      if ok { ok := tx.Accept(); }   // COMMIT
      if !ok {
        RolledBack(db, tx.db.s);
        db := Db(db.t, tx.db.s);
        return 500;
      }
      SavedHealthy(db, k, r, now);
      db := tx.db;
      everCommitted := everCommitted + {k};
      if brokerUp { published := published + [k]; }
      return 201;
    }

    /** PUT: total replacement, 404 for an unknown id, no event. */
    method Put(k: Id, r: Request, fuse: nat) returns (status: nat)
      requires Valid()
      modifies this
      ensures Valid() && everCommitted == old(everCommitted) && published == old(published)
      ensures status == if k in old(db).t.itineraries then (if fuse >= ChildStatements(r) + 3 then 200 else 500)
                        else (if fuse >= 3 then 404 else 500)
      ensures status == 200 ==>
                && Stored(db, k, r) && OthersSame(old(db), db, k) && SerialsGrow(old(db).s, db.s)
                && k in old(db).t.itineraries && db.t.itineraries[k].createdAt == old(db).t.itineraries[k].createdAt
      ensures status != 200 ==> db.t == old(db).t
    {
      var tx := new Transaction(db, fuse);
      var found := false;
      var ok := tx.Accept();         // BEGIN
      if ok { ok, found := UpdateItineraryWithChildren(tx, k, r); }
      if ok { ok := tx.Accept(); }   // COMMIT
      if !ok {
        RolledBack(db, tx.db.s);
        db := Db(db.t, tx.db.s);
        return 500;
      }
      if !found { return 404; }
      UpdateReplaces(db, k, r);
      HealthyOthers(db, tx.db, k);
      KeysKept(db, tx.db, k);
      db := tx.db;
      return 200;
    }

    method Get(k: Id) returns (g: Option<Aggregate>, ghost ordered: seq<(nat, DayHead)>)
      requires Valid()
      ensures g.None? <==> k !in db.t.itineraries
      ensures g.Some? ==> IsAggregate(db, k, ordered, g.value)
    {
      g, ordered := GetItineraryAggregate(db, k);
    }

    method Delete(k: Id) returns (status: nat)
      requires Valid()
      modifies this`db
      ensures Valid()
      ensures status == (if k in old(db).t.itineraries then 200 else 404)
      ensures k !in db.t.itineraries && OthersSame(old(db), db, k)
    {
      status := if k in db.t.itineraries then 200 else 404;
      ItineraryDeleted(db, k);
      SelectNone(DeleteItinerary(db, k).t.demographics, k, db.s.demographics);
      HealthyOthers(db, DeleteItinerary(db, k), k);
      db := DeleteItinerary(db, k);
    }

    method DeleteAccommodation(i: nat) returns (status: nat)
      requires Valid()
      modifies this`db
      ensures Valid()
      ensures status == (if i in old(db).t.stays then 200 else 404)
      ensures db == DeleteStayById(old(db), i)
    {
      status := if i in db.t.stays then 200 else 404;
      if status == 200 { StayDeletedSingly(db, i); }
      db := DeleteStayById(db, i);
      assert forall k :: DemographicsOf(db, k) == DemographicsOf(old(db), k);
    }
  }
}

/**
 * Concurrent itinerary writes: transactions of POST and PUT requests running the statements of
 * services/itinerary-service/src/repositories/itineraryRepository.ts under READ COMMITTED
 * (PostgreSQL documentation, section 13.2.1), next to single-statement deletes.
 *
 * Each statement sees what is committed at that moment with the transaction's own changes on top.
 * A row written by an open transaction is locked until that transaction commits or aborts. Sequence
 * values are handed out once and never taken back.
 */
module ConcurrentPuts {
  import opened Common
  import opened TableDeltas
  import opened ItineraryTables
  import opened ItineraryService

  datatype Kind = Post(now: int) | Put

  /** The statement a transaction is about to send. */
  datatype Pc =
    | Begun                              // INSERT INTO itinerary, or UPDATE itinerary
    | Locked                             // SELECT id FROM itinerary_demographics
    | Found(existing: Option<nat>)       // UPDATE or INSERT the demographics
    | StayPurge                          // DELETE FROM itinerary_accomodation
    | StaysFrom(i: nat)                  // INSERT stay i
    | DayPurge                           // DELETE FROM itinerary_day
    | DaysFrom(d: nat)                   // INSERT day d
    | ActsFrom(d: nat, day: nat, j: nat) // INSERT activity j of day d, whose row is `day`
    | Finished                           // COMMIT
    | Missing                            // the UPDATE matched no row: COMMIT, then 404

  datatype Tx = Tx(
    k: Id, r: Request, kind: Kind, pc: Pc,
    row: Option<ItineraryRow>,
    demographics: Delta<Id, Demographics>,
    stays: Delta<Id, Stay>,
    days: Delta<Id, DayHead>,
    activities: Delta<nat, Activity>)

  /** The request that last committed on an itinerary, and the stay rows it committed. */
  datatype Origin = Origin(r: Request, stays: seq<(nat, Stay)>)

  datatype Sys = Sys(
    db: Db,                      // committed tables, and the sequences
    txs: map<nat, Tx>,           // open transactions
    origin: map<Id, Origin>,     // history: who committed what
    removed: set<nat>)           // history: stays deleted one by one

  datatype Step =
    | Begin(id: nat, k: Id, kind: Kind, r: Request)
    | First(id: nat)
    | Statement(id: nat)
    | Commit(id: nat)
    | Abort(id: nat)
    | StayDelete(i: nat)
    | ItineraryDelete(k: Id)

  function Fresh(k: Id, kind: Kind, r: Request): Tx {
    Tx(k, r, kind, Begun, None, Delta({}, map[]), Delta({}, map[]), Delta({}, map[]), Delta({}, map[]))
  }

  /** The transaction has written, and so locked, its itinerary row. */
  predicate Holds(x: Tx) { !x.pc.Begun? && !x.pc.Missing? }

  function ViewOf(db: Db, x: Tx): Db {
    Db(Tables(if x.row.Some? then db.t.itineraries[x.k := x.row.value] else db.t.itineraries,
              View(db.t.demographics, x.demographics),
              View(db.t.stays, x.stays),
              View(db.t.days, x.days),
              View(db.t.activities, x.activities)),
       db.s)
  }

  // ---------------------------------------------------------------------------
  // Statements
  // ---------------------------------------------------------------------------

  function AfterStays(r: Request, i: nat): Pc { if i < |r.accommodation| then StaysFrom(i) else DayPurge }

  function AfterDays(r: Request, d: nat): Pc { if d < |r.itineraryDays| then DaysFrom(d) else Finished }

  function AfterActs(r: Request, d: nat, day: nat, j: nat): Pc
    requires d < |r.itineraryDays|
  {
    if j < |r.itineraryDays[d].activities| then ActsFrom(d, day, j) else AfterDays(r, d + 1)
  }

  /** There is a next statement, and it stays within the payload. */
  predicate Working(r: Request, pc: Pc) {
    match pc
    case Locked => true
    case Found(_) => true
    case StayPurge => true
    case StaysFrom(i) => i < |r.accommodation|
    case DayPurge => true
    case DaysFrom(d) => d < |r.itineraryDays|
    case ActsFrom(d, _, j) => d < |r.itineraryDays| && j < |r.itineraryDays[d].activities|
    case _ => false
  }

  /** The next statement of a transaction that sees v. */
  function Execute(v: Db, k: Id, r: Request, pc: Pc): (Db, Pc)
    requires Working(r, pc)
  {
    match pc
    case Locked => (v, Found(FindDemographics(v, k)))
    case Found(e) => (WriteDemographics(v, k, e, r.demographics), StayPurge)
    case StayPurge => (DeleteStays(v, k), AfterStays(r, 0))
    case StaysFrom(i) => (InsertStay(v, k, r.accommodation[i]), AfterStays(r, i + 1))
    case DayPurge => (DeleteDays(v, k), AfterDays(r, 0))
    case DaysFrom(d) => (InsertDay(v, k, r.itineraryDays[d].head), AfterActs(r, d, v.s.days, 0))
    case ActsFrom(d, day, j) => (InsertActivity(v, day, r.itineraryDays[d].activities[j]), AfterActs(r, d, day, j + 1))
  }

  /** x with the changes of a statement that turned its view into `after`. */
  function Wrote(db: Db, x: Tx, after: Db, pc: Pc): Tx {
    var v := ViewOf(db, x).t;
    x.(pc := pc,
       demographics := Capture(x.demographics, v.demographics, after.t.demographics),
       stays := Capture(x.stays, v.stays, after.t.stays),
       days := Capture(x.days, v.days, after.t.days),
       activities := Capture(x.activities, v.activities, after.t.activities))
  }

  // ---------------------------------------------------------------------------
  // Steps
  // ---------------------------------------------------------------------------

  predicate Unlocked(s: Sys, id: nat, k: Id) {
    forall y :: y in s.txs && y != id && Holds(s.txs[y]) ==> s.txs[y].k != k
  }

  predicate Enabled(s: Sys, e: Step) {
    match e
    case Begin(id, _, _, _) => id !in s.txs
    case First(id) =>
      && id in s.txs && s.txs[id].pc.Begun?
      && var x := s.txs[id];
         if x.kind.Post? then x.k !in s.db.t.itineraries && Unlocked(s, id, x.k)   // a fresh uuid
         else x.k in s.db.t.itineraries ==> Unlocked(s, id, x.k)                   // waits for the row lock
    case Statement(id) => id in s.txs && Working(s.txs[id].r, s.txs[id].pc)
    case Commit(id) => id in s.txs && (s.txs[id].pc.Finished? || s.txs[id].pc.Missing?)
    case Abort(id) => id in s.txs
    case StayDelete(i) => i in s.db.t.stays && forall y :: y in s.txs ==> i !in Touched(s.txs[y].stays)
    case ItineraryDelete(k) => k in s.db.t.itineraries && forall y :: y in s.txs && Holds(s.txs[y]) ==> s.txs[y].k != k
  }

  function Next(s: Sys, e: Step): Sys
    requires Enabled(s, e)
  {
    match e
    case Begin(id, k, kind, r) => s.(txs := s.txs[id := Fresh(k, kind, r)])
    case First(id) =>
      var x := s.txs[id];
      var x' :=
        if x.kind.Post? then x.(pc := Locked, row := Some(RowOf(x.r, x.kind.now)))
        else if x.k in s.db.t.itineraries
        then x.(pc := Locked, row := Some(RowOf(x.r, s.db.t.itineraries[x.k].createdAt)))
        else x.(pc := Missing);
      s.(txs := s.txs[id := x'])
    case Statement(id) =>
      var x := s.txs[id];
      var (after, pc) := Execute(ViewOf(s.db, x), x.k, x.r, x.pc);
      s.(db := Db(s.db.t, after.s), txs := s.txs[id := Wrote(s.db, x, after, pc)])
    case Commit(id) =>
      var x := s.txs[id];
      if x.pc.Missing? then s.(txs := s.txs - {id})
      else
        var v := ViewOf(s.db, x);
        s.(db := v, txs := s.txs - {id}, origin := s.origin[x.k := Origin(x.r, StaysOf(v, x.k))])
    case Abort(id) => s.(txs := s.txs - {id})
    case StayDelete(i) => s.(db := DeleteStayById(s.db, i), removed := s.removed + {i})
    case ItineraryDelete(k) => s.(db := DeleteItinerary(s.db, k), origin := s.origin - {k})
  }

  /** Runs start from any healthy database, with no transaction open. */
  ghost predicate IsInit(s: Sys) { Healthy(s.db) && s.txs == map[] && s.origin == map[] && s.removed == {} }

  ghost predicate IsRun(states: seq<Sys>, steps: seq<Step>) {
    && |states| == |steps| + 1
    && IsInit(states[0])
    && forall i {:trigger steps[i]} :: 0 <= i < |steps| ==>
         Enabled(states[i], steps[i]) && states[i + 1] == Next(states[i], steps[i])
  }
}

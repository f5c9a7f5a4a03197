/** GET /api/itineraries/:id: the nested aggregate and how it answers what was saved. */
module ItineraryReads {
  import opened Common
  import opened ChildTables
  import opened ItineraryTables
  import opened ItineraryRepository

  // ---------------------------------------------------------------------------
  // Row mapping
  // ---------------------------------------------------------------------------

  datatype StayDto = StayDto(
    id: nat, itineraryId: Id, name: string, estimatedCost: Option<real>, imageUrl: string, hotelDescription: string)

  datatype ActivityDto = ActivityDto(
    id: nat, itineraryDayId: nat, name: string, details: string, estimatedCost: Option<real>, imageUrl: string,
    timing: string)

  datatype DayDto = DayDto(id: nat, itineraryId: Id, head: DayHead, activities: seq<ActivityDto>)

  /** demographics is None for the {} of an itinerary without a demographics row. */
  datatype Aggregate = Aggregate(
    id: Id, header: Header, importantNotes: seq<string>, weatherForecast: Option<Weather>, createdAt: int,
    demographics: Option<Demographics>, accommodation: seq<StayDto>, itineraryDays: seq<DayDto>)

  function OrEmpty(s: Option<string>): string { if s.Some? then s.value else "" }

  function ParseNotes(notes: Notes): seq<string> {
    match notes
    case Absent => []
    case JsonArray(items) => items
    case OtherJson => []
    case NotJson(text) => if text == "" then [] else [text]
  }

  function MapStayRow(k: Id, row: (nat, Stay)): StayDto {
    StayDto(row.0, k, row.1.name, row.1.estimatedCost, OrEmpty(row.1.imageUrl), OrEmpty(row.1.hotelDescription))
  }

  function MapActivityRow(day: nat, row: (nat, Activity)): ActivityDto {
    ActivityDto(row.0, day, row.1.name, row.1.details, row.1.estimatedCost, OrEmpty(row.1.imageUrl), row.1.timing)
  }

  function MapDay(db: Db, k: Id, row: (nat, DayHead)): DayDto {
    var rows := ActivitiesOf(db, row.0);
    DayDto(row.0, k, row.1, seq(|rows|, (i: nat) requires i < |rows| => MapActivityRow(row.0, rows[i])))
  }

  // ---------------------------------------------------------------------------
  // The query with ORDER BY date
  // ---------------------------------------------------------------------------

  ghost predicate ByDate(heads: seq<DayHead>) { forall i, j :: 0 <= i < j < |heads| ==> heads[i].date <= heads[j].date }

  /** ordered is one of the answers ORDER BY date allows: ties may come in any order. */
  ghost predicate OrderedByDate(rows: seq<(nat, DayHead)>, ordered: seq<(nat, DayHead)>) {
    multiset(rows) == multiset(ordered) && ByDate(Values(ordered))
  }

  lemma InsertedInOrder(heads: seq<DayHead>, i: nat, head: DayHead)
    requires ByDate(heads) && i <= |heads|
    requires forall j :: 0 <= j < i ==> heads[j].date <= head.date
    requires i < |heads| ==> head.date <= heads[i].date
    ensures ByDate(heads[..i] + [head] + heads[i..])
  {
  }

  method InsertByDate(rows: seq<(nat, DayHead)>, row: (nat, DayHead)) returns (out: seq<(nat, DayHead)>)
    requires ByDate(Values(rows))
    ensures multiset(out) == multiset(rows) + multiset{row} && ByDate(Values(out))
  {
    var i := 0;
    while i < |rows| && rows[i].1.date < row.1.date
      invariant 0 <= i <= |rows|
      invariant forall j :: 0 <= j < i ==> Values(rows)[j].date <= row.1.date
    {
      i := i + 1;
    }
    out := rows[..i] + [row] + rows[i..];
    assert rows == rows[..i] + rows[i..];
    InsertedInOrder(Values(rows), i, row.1);
    assert Values(out) == Values(rows)[..i] + [row.1] + Values(rows)[i..];
  }

  /** SELECT * FROM itinerary_day WHERE itinerary_id = k ORDER BY date */
  method SelectDaysByDate(db: Db, k: Id) returns (ordered: seq<(nat, DayHead)>)
    ensures OrderedByDate(DaysOf(db, k), ordered)
  {
    var rows := DaysOf(db, k);
    ordered := [];
    for i := 0 to |rows|
      invariant multiset(ordered) == multiset(rows[..i]) && ByDate(Values(ordered))
    {
      assert rows[..i + 1] == rows[..i] + [rows[i]];
      ordered := InsertByDate(ordered, rows[i]);
    }
    assert rows[..|rows|] == rows;
  }

  /** What GET may answer for k. */
  ghost predicate IsAggregate(db: Db, k: Id, ordered: seq<(nat, DayHead)>, g: Aggregate) {
    && k in db.t.itineraries
    && OrderedByDate(DaysOf(db, k), ordered)
    && var row := db.t.itineraries[k];
       var demographics, stays := DemographicsOf(db, k), StaysOf(db, k);
       && g.id == k && g.header == row.header && g.importantNotes == ParseNotes(row.notes)
       && g.weatherForecast == row.weatherForecast && g.createdAt == row.createdAt
       && g.demographics == (if demographics == [] then None else Some(demographics[0].1))
       && |g.accommodation| == |stays|
       && (forall i :: 0 <= i < |stays| ==> g.accommodation[i] == MapStayRow(k, stays[i]))
       && |g.itineraryDays| == |ordered|
       && (forall i :: 0 <= i < |ordered| ==> g.itineraryDays[i] == MapDay(db, k, ordered[i]))
  }

  method GetItineraryAggregate(db: Db, k: Id) returns (g: Option<Aggregate>, ghost ordered: seq<(nat, DayHead)>)
    ensures g.None? <==> k !in db.t.itineraries
    ensures g.Some? ==> IsAggregate(db, k, ordered, g.value)
  {
    ordered := [];
    if k !in db.t.itineraries { return None, []; }
    var row := db.t.itineraries[k];
    var demographicsRows := DemographicsOf(db, k);
    var accommodationRows := StaysOf(db, k);
    var dayRows := SelectDaysByDate(db, k);
    ordered := dayRows;
    var itineraryDays: seq<DayDto> := [];
    for i := 0 to |dayRows|
      invariant |itineraryDays| == i
      invariant forall j :: 0 <= j < i ==> itineraryDays[j] == MapDay(db, k, dayRows[j])
    {
      var activityRows := ActivitiesOf(db, dayRows[i].0);
      itineraryDays := itineraryDays +
        [DayDto(dayRows[i].0, k, dayRows[i].1,
                seq(|activityRows|, (j: nat) requires j < |activityRows| =>
                      MapActivityRow(dayRows[i].0, activityRows[j])))];
    }
    g := Some(Aggregate(k, row.header, ParseNotes(row.notes), row.weatherForecast, row.createdAt,
                        if demographicsRows == [] then None else Some(demographicsRows[0].1),
                        seq(|accommodationRows|, (i: nat) requires i < |accommodationRows| =>
                              MapStayRow(k, accommodationRows[i])),
                        itineraryDays));
  }

  // ---------------------------------------------------------------------------
  // The answer as a document: no keys, nulls as coded
  // ---------------------------------------------------------------------------

  /** How nulls come back: a missing URL or description as "", a missing cost as null. */
  function ShownStay(s: Stay): Stay {
    s.(imageUrl := Some(OrEmpty(s.imageUrl)), hotelDescription := Some(OrEmpty(s.hotelDescription)))
  }

  function ShownActivity(a: Activity): Activity { a.(imageUrl := Some(OrEmpty(a.imageUrl))) }

  function ShownActivities(activities: seq<Activity>): seq<Activity> {
    seq(|activities|, (i: nat) requires i < |activities| => ShownActivity(activities[i]))
  }

  function ShownDay(d: Day): Day { Day(d.head, ShownActivities(d.activities)) }

  function ShownStays(stays: seq<Stay>): seq<Stay> {
    seq(|stays|, (i: nat) requires i < |stays| => ShownStay(stays[i]))
  }

  function ShownDays(days: seq<Day>): seq<Day> { seq(|days|, (i: nat) requires i < |days| => ShownDay(days[i])) }

  function StayFrom(d: StayDto): Stay { Stay(d.name, d.estimatedCost, Some(d.imageUrl), Some(d.hotelDescription)) }

  function ActivityFrom(d: ActivityDto): Activity {
    Activity(d.name, d.details, d.estimatedCost, Some(d.imageUrl), d.timing)
  }

  function DayFrom(d: DayDto): Day {
    Day(d.head, seq(|d.activities|, (i: nat) requires i < |d.activities| => ActivityFrom(d.activities[i])))
  }

  function StaysFrom(g: Aggregate): seq<Stay> {
    seq(|g.accommodation|, (i: nat) requires i < |g.accommodation| => StayFrom(g.accommodation[i]))
  }

  function DaysFrom(g: Aggregate): seq<Day> {
    seq(|g.itineraryDays|, (i: nat) requires i < |g.itineraryDays| => DayFrom(g.itineraryDays[i]))
  }

  function Heads(days: seq<Day>): seq<DayHead> { seq(|days|, (i: nat) requires i < |days| => days[i].head) }

  lemma DayShown(db: Db, k: Id, row: (nat, DayHead))
    ensures DayFrom(MapDay(db, k, row)) == ShownDay(DayDoc(db, row))
  {
  }

  function DocsFor(db: Db, rows: seq<(nat, DayHead)>): seq<Day> {
    seq(|rows|, (i: nat) requires i < |rows| => ShownDay(DayDoc(db, rows[i])))
  }

  lemma DocsSplit(db: Db, a: seq<(nat, DayHead)>, row: (nat, DayHead), b: seq<(nat, DayHead)>)
    ensures multiset(DocsFor(db, a + [row] + b)) == multiset(DocsFor(db, a + b)) + multiset{ShownDay(DayDoc(db, row))}
  {
    assert DocsFor(db, a + [row] + b) == DocsFor(db, a) + [ShownDay(DayDoc(db, row))] + DocsFor(db, b);
    assert DocsFor(db, a + b) == DocsFor(db, a) + DocsFor(db, b);
  }

  lemma TakeOut<T>(s: seq<T>, x: T) returns (i: nat)
    requires x in multiset(s)
    ensures i < |s| && s == s[..i] + [x] + s[i + 1..]
    ensures multiset(s[..i] + s[i + 1..]) == multiset(s) - multiset{x}
  {
    i :| 0 <= i < |s| && s[i] == x;
    assert s == s[..i] + [x] + s[i + 1..];
    assert multiset(s) == multiset(s[..i] + s[i + 1..]) + multiset{x};
  }

  /** Mapping a permutation of rows gives a permutation of documents. */
  lemma {:induction false} PermutedDocs(db: Db, rows: seq<(nat, DayHead)>, ordered: seq<(nat, DayHead)>)
    requires multiset(rows) == multiset(ordered)
    ensures multiset(DocsFor(db, rows)) == multiset(DocsFor(db, ordered))
    decreases |rows|
  {
    if rows == [] {
      assert |multiset(ordered)| == 0;
    } else {
      var row := rows[0];
      var i := TakeOut(rows, row);
      var j := TakeOut(ordered, row);
      PermutedDocs(db, rows[..i] + rows[i + 1..], ordered[..j] + ordered[j + 1..]);
      DocsSplit(db, rows[..i], row, rows[i + 1..]);
      DocsSplit(db, ordered[..j], row, ordered[j + 1..]);
    }
  }

  /** The activity as its payload a reads: a missing image is the empty string. */
  ghost predicate ActivityReadsAs(d: ActivityDto, a: Activity) {
    && d.name == a.name && d.details == a.details && d.estimatedCost == a.estimatedCost && d.timing == a.timing
    && (a.imageUrl.Some? ==> d.imageUrl == a.imageUrl.value) && (a.imageUrl.None? ==> d.imageUrl == "")
  }

  ghost predicate DayReadsAs(d: DayDto, day: Day) {
    && d.head == day.head && |d.activities| == |day.activities|
    && forall j :: 0 <= j < |day.activities| ==> ActivityReadsAs(d.activities[j], day.activities[j])
  }

  ghost predicate ReadsAsOneOf(d: DayDto, days: seq<Day>) { exists j :: 0 <= j < |days| && DayReadsAs(d, days[j]) }

  ghost predicate OneReadsAs(ds: seq<DayDto>, day: Day) { exists i :: 0 <= i < |ds| && DayReadsAs(ds[i], day) }

  ghost predicate StayReadsAs(d: StayDto, stay: Stay) {
    && d.name == stay.name && d.estimatedCost == stay.estimatedCost
    && (stay.imageUrl.Some? ==> d.imageUrl == stay.imageUrl.value) && (stay.imageUrl.None? ==> d.imageUrl == "")
    && (stay.hotelDescription.Some? ==> d.hotelDescription == stay.hotelDescription.value)
    && (stay.hotelDescription.None? ==> d.hotelDescription == "")
  }

  lemma DayReads(db: Db, k: Id, row: (nat, DayHead), day: Day)
    requires DayDoc(db, row) == day
    ensures DayReadsAs(MapDay(db, k, row), day)
  {
    var rows := ActivitiesOf(db, row.0);
    assert forall j :: 0 <= j < |rows| ==> day.activities[j] == rows[j].1;
  }

  /** Each day of the answer reads as a day of the payload, and the other way round. */
  lemma DaysRead(db: Db, k: Id, r: Request, ordered: seq<(nat, DayHead)>, g: Aggregate)
    requires Stored(db, k, r) && IsAggregate(db, k, ordered, g)
    ensures forall i :: 0 <= i < |g.itineraryDays| ==> ReadsAsOneOf(g.itineraryDays[i], r.itineraryDays)
    ensures forall j :: 0 <= j < |r.itineraryDays| ==> OneReadsAs(g.itineraryDays, r.itineraryDays[j])
  {
    var rows := DaysOf(db, k);
    assert |rows| == |DayDocs(db, k)| == |r.itineraryDays|;
    forall i | 0 <= i < |g.itineraryDays|
      ensures ReadsAsOneOf(g.itineraryDays[i], r.itineraryDays)
    {
      assert ordered[i] in multiset(rows);
      var j :| 0 <= j < |rows| && rows[j] == ordered[i];
      DayReads(db, k, rows[j], DayDocs(db, k)[j]);
    }
    forall j | 0 <= j < |r.itineraryDays|
      ensures OneReadsAs(g.itineraryDays, r.itineraryDays[j])
    {
      assert rows[j] in multiset(ordered);
      var i :| 0 <= i < |ordered| && ordered[i] == rows[j];
      DayReads(db, k, rows[j], DayDocs(db, k)[j]);
    }
  }

  /** The keys of an answer are the keys of the rows it was read from, under their own parents. */
  lemma AnswerKeys(db: Db, k: Id, ordered: seq<(nat, DayHead)>, g: Aggregate)
    requires IsAggregate(db, k, ordered, g)
    ensures g.id == k && g.createdAt == db.t.itineraries[k].createdAt
    ensures forall i :: 0 <= i < |g.accommodation| ==>
              var d := g.accommodation[i];
              d.itineraryId == k && IsChild(db.t.stays, k, d.id) && StayReadsAs(d, db.t.stays[d.id].val)
    ensures forall i, j :: 0 <= i < j < |g.accommodation| ==> g.accommodation[i].id < g.accommodation[j].id
    ensures forall i :: 0 <= i < |g.itineraryDays| ==>
              var d := g.itineraryDays[i];
              d.itineraryId == k && IsChild(db.t.days, k, d.id) && d.head == db.t.days[d.id].val
    ensures forall i, j :: 0 <= i < |g.itineraryDays| && 0 <= j < |g.itineraryDays[i].activities| ==>
              var a := g.itineraryDays[i].activities[j];
              && a.itineraryDayId == g.itineraryDays[i].id && IsChild(db.t.activities, g.itineraryDays[i].id, a.id)
              && ActivityReadsAs(a, db.t.activities[a.id].val)
  {
    var stays := StaysOf(db, k);
    SelectExact(db.t.stays, k, db.s.stays);
    SelectIncreasing(db.t.stays, k, db.s.stays);
    SelectExact(db.t.days, k, db.s.days);
    forall i | 0 <= i < |stays|
      ensures IsChild(db.t.stays, k, stays[i].0) && db.t.stays[stays[i].0].val == stays[i].1
    {
      assert (stays[i].0, stays[i].1) in stays;
    }
    forall i | 0 <= i < |ordered|
      ensures IsChild(db.t.days, k, ordered[i].0) && db.t.days[ordered[i].0].val == ordered[i].1
    {
      assert ordered[i] in multiset(DaysOf(db, k));
      assert (ordered[i].0, ordered[i].1) in DaysOf(db, k);
    }
    forall i, j | 0 <= i < |g.itineraryDays| && 0 <= j < |g.itineraryDays[i].activities|
      ensures var a := g.itineraryDays[i].activities[j];
              && a.itineraryDayId == g.itineraryDays[i].id && IsChild(db.t.activities, g.itineraryDays[i].id, a.id)
              && ActivityReadsAs(a, db.t.activities[a.id].val)
    {
      ActivityKey(db, ordered[i].0, j);
    }
  }

  lemma ActivityKey(db: Db, day: nat, j: nat)
    requires j < |ActivitiesOf(db, day)|
    ensures var row := ActivitiesOf(db, day)[j];
            IsChild(db.t.activities, day, row.0) && db.t.activities[row.0].val == row.1
  {
    SelectExact(db.t.activities, day, db.s.activities);
    assert (ActivitiesOf(db, day)[j].0, ActivitiesOf(db, day)[j].1) in ActivitiesOf(db, day);
  }

  /** Notes that are a JSON list come back as they are; a legacy text that is no JSON comes back as one note. */
  lemma NotesShown(db: Db, k: Id, ordered: seq<(nat, DayHead)>, g: Aggregate)
    requires IsAggregate(db, k, ordered, g)
    ensures match db.t.itineraries[k].notes
            case Absent => g.importantNotes == []
            case JsonArray(items) => g.importantNotes == items
            case OtherJson => g.importantNotes == []
            case NotJson(text) => g.importantNotes == if text == "" then [] else [text]
  {
  }

  /** Save, then GET, as documents. */
  lemma DocumentsRead(db: Db, k: Id, r: Request, ordered: seq<(nat, DayHead)>, g: Aggregate)
    requires Stored(db, k, r) && IsAggregate(db, k, ordered, g)
    ensures g.header == r.header && g.importantNotes == r.importantNotes && g.weatherForecast == r.weatherForecast
    ensures g.demographics == Some(r.demographics)
    ensures StaysFrom(g) == ShownStays(r.accommodation)
    ensures multiset(DaysFrom(g)) == multiset(ShownDays(r.itineraryDays)) && ByDate(Heads(DaysFrom(g)))
  {
    var demographics := DemographicsOf(db, k);
    assert |demographics| == 1 && Values(demographics)[0] == demographics[0].1;
    assert StayDocs(db, k) == r.accommodation;
    assert DaysFrom(g) == DocsFor(db, ordered) by {
      forall i | 0 <= i < |ordered| ensures DaysFrom(g)[i] == DocsFor(db, ordered)[i] { DayShown(db, k, ordered[i]); }
    }
    assert DocsFor(db, DaysOf(db, k)) == ShownDays(DayDocs(db, k));
    PermutedDocs(db, DaysOf(db, k), ordered);
    assert Heads(DaysFrom(g)) == Values(ordered);
  }

  /**
   * Save, then GET: header, notes and weather come back verbatim, demographics too, stays and each
   * day's activities in payload order, days as the payload's days sorted by date, nulls as coded.
   */
  lemma SavedThenRead(db: Db, k: Id, r: Request, ordered: seq<(nat, DayHead)>, g: Aggregate)
    requires Stored(db, k, r) && IsAggregate(db, k, ordered, g)
    ensures g.header == r.header && g.importantNotes == r.importantNotes && g.weatherForecast == r.weatherForecast
    ensures g.demographics == Some(r.demographics)
    ensures StaysFrom(g) == ShownStays(r.accommodation)
    ensures |g.accommodation| == |r.accommodation|
    ensures forall j :: 0 <= j < |r.accommodation| ==> StayReadsAs(g.accommodation[j], r.accommodation[j])
    ensures forall i :: 0 <= i < |g.itineraryDays| ==> ReadsAsOneOf(g.itineraryDays[i], r.itineraryDays)
    ensures forall j :: 0 <= j < |r.itineraryDays| ==> OneReadsAs(g.itineraryDays, r.itineraryDays[j])
    ensures multiset(DaysFrom(g)) == multiset(ShownDays(r.itineraryDays)) && ByDate(Heads(DaysFrom(g)))
  {
    DocumentsRead(db, k, r, ordered, g);
    DaysRead(db, k, r, ordered, g);
    var stays := StaysOf(db, k);
    assert |stays| == |StayDocs(db, k)| && forall j :: 0 <= j < |stays| ==> StayDocs(db, k)[j] == stays[j].1;
  }

  // ---------------------------------------------------------------------------
  // Read, modify, write
  // ---------------------------------------------------------------------------

  ghost predicate DistinctDates(days: seq<Day>) {
    forall i, j :: 0 <= i < |days| && 0 <= j < |days| && days[i].head.date == days[j].head.date ==> i == j
  }

  lemma SameLast(a: seq<Day>, b: seq<Day>, n: nat)
    requires |a| == |b| == n + 1 && b[n] in a && a[n] in b
    requires ByDate(Heads(a)) && ByDate(Heads(b)) && DistinctDates(a)
    ensures a[n] == b[n]
  {
    var i :| 0 <= i < |b| && b[i] == a[n];
    var j :| 0 <= j < |a| && a[j] == b[n];
    assert Heads(b)[i].date <= Heads(b)[n].date && Heads(a)[j].date <= Heads(a)[n].date;
    assert a[n].head.date == b[n].head.date;
  }

  lemma SameRest(a: seq<Day>, b: seq<Day>, n: nat)
    requires |a| == |b| == n + 1 && multiset(a) == multiset(b) && a[n] == b[n]
    ensures multiset(a[..n]) == multiset(b[..n])
  {
    assert a == a[..n] + [a[n]] && b == b[..n] + [b[n]];
    assert multiset(a[..n]) == multiset(a) - multiset{a[n]};
    assert multiset(b[..n]) == multiset(b) - multiset{b[n]};
  }

  /** With distinct dates, sorting by date has one answer. */
  lemma {:induction false} OneOrder(a: seq<Day>, b: seq<Day>)
    requires multiset(a) == multiset(b) && ByDate(Heads(a)) && ByDate(Heads(b)) && DistinctDates(a)
    ensures a == b
    decreases |a|
  {
    assert |a| == |multiset(a)| == |multiset(b)| == |b|;
    if a != [] {
      var n := |a| - 1;
      assert a[n] in multiset(b) && b[n] in multiset(a);
      SameLast(a, b, n);
      SameRest(a, b, n);
      assert Heads(a[..n]) == Heads(a)[..n] && Heads(b[..n]) == Heads(b)[..n];
      OneOrder(a[..n], b[..n]);
    }
  }

  const NoDemographics := Demographics("", None, None, "", "")

  /** The PUT body the hotel card builds from a GET: the saved itinerary with one stay appended. */
  function WithStay(g: Aggregate, stay: Stay): Request {
    Request(g.header, g.importantNotes, g.weatherForecast,
            if g.demographics.Some? then g.demographics.value else NoDemographics,
            StaysFrom(g) + [stay], DaysFrom(g))
  }

  lemma ShownAgain(g: Aggregate)
    ensures ShownStays(StaysFrom(g)) == StaysFrom(g) && ShownDays(DaysFrom(g)) == DaysFrom(g)
  {
    forall i | 0 <= i < |g.itineraryDays|
      ensures ShownDay(DayFrom(g.itineraryDays[i])) == DayFrom(g.itineraryDays[i])
    {
      assert ShownActivities(DayFrom(g.itineraryDays[i]).activities) == DayFrom(g.itineraryDays[i]).activities;
    }
  }

  ghost predicate SameTexts(a: StayDto, b: StayDto) {
    && a.name == b.name && a.estimatedCost == b.estimatedCost
    && a.imageUrl == b.imageUrl && a.hotelDescription == b.hotelDescription
  }

  /** The same day with the same activities, but for the keys. */
  ghost predicate SameDay(a: DayDto, b: DayDto) {
    && a.head == b.head && |a.activities| == |b.activities|
    && forall j :: 0 <= j < |a.activities| ==>
         var x, y := a.activities[j], b.activities[j];
         && x.name == y.name && x.details == y.details && x.estimatedCost == y.estimatedCost
         && x.imageUrl == y.imageUrl && x.timing == y.timing
  }

  lemma SameDocsSameDay(a: DayDto, b: DayDto)
    requires DayFrom(a) == DayFrom(b)
    ensures SameDay(a, b)
  {
    assert |DayFrom(a).activities| == |a.activities| && |DayFrom(b).activities| == |b.activities|;
    forall j | 0 <= j < |a.activities|
      ensures ActivityFrom(a.activities[j]) == ActivityFrom(b.activities[j])
    {
      assert DayFrom(a).activities[j] == DayFrom(b).activities[j];
    }
  }

  lemma StaysAppended(g1: Aggregate, stay: Stay, g2: Aggregate)
    requires StaysFrom(g2) == StaysFrom(g1) + [ShownStay(stay)]
    ensures |g2.accommodation| == |g1.accommodation| + 1
    ensures forall j :: 0 <= j < |g1.accommodation| ==> SameTexts(g2.accommodation[j], g1.accommodation[j])
    ensures StayReadsAs(g2.accommodation[|g1.accommodation|], stay)
  {
    assert |StaysFrom(g2)| == |g2.accommodation| && |StaysFrom(g1)| == |g1.accommodation|;
    forall j | 0 <= j < |g1.accommodation|
      ensures SameTexts(g2.accommodation[j], g1.accommodation[j])
    {
      assert StaysFrom(g2)[j] == StaysFrom(g1)[j];
    }
    assert StaysFrom(g2)[|g1.accommodation|] == ShownStay(stay);
  }

  lemma DaysReadAgain(g1: Aggregate, g2: Aggregate)
    requires DaysFrom(g2) == DaysFrom(g1)
    ensures |g2.itineraryDays| == |g1.itineraryDays|
    ensures forall i :: 0 <= i < |g1.itineraryDays| ==> SameDay(g2.itineraryDays[i], g1.itineraryDays[i])
  {
    assert |DaysFrom(g1)| == |g1.itineraryDays| && |DaysFrom(g2)| == |g2.itineraryDays|;
    forall i | 0 <= i < |g1.itineraryDays|
      ensures SameDay(g2.itineraryDays[i], g1.itineraryDays[i])
    {
      assert DaysFrom(g2)[i] == DaysFrom(g1)[i];
      SameDocsSameDay(g2.itineraryDays[i], g1.itineraryDays[i]);
    }
  }

  /**
   * GET, append a stay, PUT, GET: exactly that stay is added at the end and everything else reads
   * as before, the weather included; the days also keep their order when their dates are distinct.
   */
  lemma AppendStayRoundTrip(db: Db, k: Id, stay: Stay, o1: seq<(nat, DayHead)>, g1: Aggregate,
                            o2: seq<(nat, DayHead)>, g2: Aggregate)
    requires WellFormed(db) && |DemographicsOf(db, k)| <= 1
    requires IsAggregate(db, k, o1, g1)
    requires var r := WithStay(g1, stay); IsAggregate(SaveChildren(UpdateRow(db, k, r), k, r), k, o2, g2)
    ensures g2.header == g1.header && g2.importantNotes == g1.importantNotes && g2.createdAt == g1.createdAt
    ensures g2.weatherForecast == g1.weatherForecast
    ensures g1.demographics.Some? ==> g2.demographics == g1.demographics
    ensures g1.demographics.None? ==> g2.demographics == Some(Demographics("", None, None, "", ""))
    ensures |g2.accommodation| == |g1.accommodation| + 1
    ensures forall j :: 0 <= j < |g1.accommodation| ==> SameTexts(g2.accommodation[j], g1.accommodation[j])
    ensures StayReadsAs(g2.accommodation[|g1.accommodation|], stay)
    ensures DistinctDates(DaysFrom(g1)) ==>
              && |g2.itineraryDays| == |g1.itineraryDays|
              && forall i :: 0 <= i < |g1.itineraryDays| ==> SameDay(g2.itineraryDays[i], g1.itineraryDays[i])
    ensures StaysFrom(g2) == StaysFrom(g1) + [ShownStay(stay)]
    ensures multiset(DaysFrom(g2)) == multiset(DaysFrom(g1))
    ensures DistinctDates(DaysFrom(g1)) ==> DaysFrom(g2) == DaysFrom(g1)
  {
    var r := WithStay(g1, stay);
    var db' := SaveChildren(UpdateRow(db, k, r), k, r);
    UpdateReplaces(db, k, r);
    DocumentsRead(db', k, r, o2, g2);
    ShownAgain(g1);
    assert ShownStays(StaysFrom(g1) + [stay]) == ShownStays(StaysFrom(g1)) + [ShownStay(stay)];
    StaysAppended(g1, stay, g2);
    if DistinctDates(DaysFrom(g1)) {
      assert Heads(DaysFrom(g1)) == Values(o1);
      OneOrder(DaysFrom(g1), DaysFrom(g2));
      DaysReadAgain(g1, g2);
    }
  }

  /** What GET answers for an itinerary is settled by what Same compares, up to the order of ties. */
  lemma UntouchedReadsAlike(db: Db, db': Db, q: Id, ordered: seq<(nat, DayHead)>, g: Aggregate)
    requires WellFormed(db) && Same(db, db', q) && SerialsGrow(db.s, db'.s)
    requires IsAggregate(db', q, ordered, g)
    ensures IsAggregate(db, q, ordered, g)
  {
    SameDocs(db, db', q);
    SelectExact(db.t.days, q, db.s.days);
    forall i | 0 <= i < |ordered|
      ensures MapDay(db, q, ordered[i]) == MapDay(db', q, ordered[i])
    {
      assert ordered[i] in multiset(DaysOf(db, q));
      assert (ordered[i].0, ordered[i].1) in DaysOf(db, q);
    }
  }
}

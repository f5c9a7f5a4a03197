/** Weather payloads of packages/shared/src/dto/gemini.ts: any JSON value in, canonical day rows out. */
module Weather {
  import opened Common

  datatype Json =
    | JNull
    | JBool(b: bool)
    | JNum(n: real)
    | JStr(s: string)
    | JArr(elements: seq<Json>)
    | JObj(fields: map<string, Json>)

  datatype Day = Day(date: string, condition: string, high: Option<real>, low: Option<real>)

  // ---------------------------------------------------------------------------
  // One day
  // ---------------------------------------------------------------------------

  /** A property of an object; None is JavaScript's undefined. */
  function Prop(o: map<string, Json>, key: string): Option<Json> { if key in o then Some(o[key]) else None }

  /** a ?? b */
  function Coalesce(a: Option<Json>, b: Option<Json>): Option<Json> {
    if a.None? || a.value.JNull? then b else a
  }

  function Number(v: Option<Json>): Option<real> { if v.Some? && v.value.JNum? then Some(v.value.n) else None }

  predicate HasString(o: map<string, Json>, key: string) { key in o && o[key].JStr? }

  /** weatherTemperatures: the high and the low. */
  function Temperatures(day: map<string, Json>): (Option<real>, Option<real>) {
    var scalar := Coalesce(Prop(day, "temperature_celsius"), Prop(day, "temperatureCelsius"));
    if Number(scalar).Some? then (Number(scalar), None)
    else
      var range := Prop(day, "temperature");
      if range.None? || !range.value.JObj? then (None, None)
      else
        (Number(Coalesce(Prop(range.value.fields, "max_celsius"), Prop(range.value.fields, "max"))),
         Number(Coalesce(Prop(range.value.fields, "min_celsius"), Prop(range.value.fields, "min"))))
  }

  predicate ValidDay(day: Json) { day.JObj? && HasString(day.fields, "date") && HasString(day.fields, "condition") }

  function RowOf(day: Json): Day
    requires ValidDay(day)
  {
    var (high, low) := Temperatures(day.fields);
    Day(day.fields["date"].s, day.fields["condition"].s, high, low)
  }

  predicate Missing(o: map<string, Json>, key: string) { key !in o || o[key] == JNull }

  /** out is the number under `key`, if there is one. */
  predicate NumberUnder(o: map<string, Json>, key: string, out: Option<real>) {
    if key in o && o[key].JNum? then out == Some(o[key].n) else out == None
  }

  /** A reading: under its first name, or under its second when the first is missing or null. */
  predicate Reading(o: map<string, Json>, first: string, second: string, out: Option<real>) {
    if Missing(o, first) then NumberUnder(o, second, out) else NumberUnder(o, first, out)
  }

  /** What a row must be for a day, told on the day's own properties. */
  ghost predicate Reads(day: Json, row: Day) {
    && day.JObj?
    && var o := day.fields;
       && "date" in o && o["date"] == JStr(row.date)
       && "condition" in o && o["condition"] == JStr(row.condition)
       && if exists v :: Reading(o, "temperature_celsius", "temperatureCelsius", Some(v)) then
            Reading(o, "temperature_celsius", "temperatureCelsius", row.high) && row.low == None
          else if "temperature" in o && o["temperature"].JObj? then
            && Reading(o["temperature"].fields, "max_celsius", "max", row.high)
            && Reading(o["temperature"].fields, "min_celsius", "min", row.low)
          else
            row.high == None && row.low == None
  }

  /**
   * Exactly how a day reads: a numeric scalar is the high and there is no low; without one, a
   * temperature object gives both; without that there is neither. And only a day with a date and a
   * condition reads at all.
   */
  lemma RowReads(day: Json, row: Day)
    ensures ValidDay(day) && RowOf(day) == row <==> Reads(day, row)
  {
    if day.JObj? {
      var o := day.fields;
      var scalar := Number(Coalesce(Prop(o, "temperature_celsius"), Prop(o, "temperatureCelsius")));
      assert forall v :: Reading(o, "temperature_celsius", "temperatureCelsius", Some(v)) <==> scalar == Some(v);
      assert scalar.Some? ==> Reading(o, "temperature_celsius", "temperatureCelsius", scalar);
    }
  }

  /** The flat shape of the monolith era: one scalar, read as the high. */
  lemma FlatDay(date: string, condition: string, v: real)
    ensures var o := map["date" := JStr(date), "condition" := JStr(condition), "temperature_celsius" := JNum(v)];
            var day := JObj(o);
            ValidDay(day) && RowOf(day) == Day(date, condition, Some(v), None)
  {
    var day := JObj(map["date" := JStr(date), "condition" := JStr(condition), "temperature_celsius" := JNum(v)]);
    var o := day.fields;
    assert o["date"] == JStr(date) && o["condition"] == JStr(condition) && o["temperature_celsius"] == JNum(v);
    assert Reading(o, "temperature_celsius", "temperatureCelsius", Some(v));
    RowReads(day, Day(date, condition, Some(v), None));
  }

  /** The rows of the valid days, in order. */
  function Rows(days: seq<Json>): seq<Day> {
    if days == [] then []
    else
      var last := days[|days| - 1];
      Rows(days[..|days| - 1]) + if ValidDay(last) then [RowOf(last)] else []
  }

  // ---------------------------------------------------------------------------
  // Containers
  // ---------------------------------------------------------------------------

  predicate IsWrapper(v: Json) { v.JObj? && "forecast" in v.fields && v.fields["forecast"].JArr? }

  function Unwrap(entry: Json): seq<Json> { if IsWrapper(entry) then entry.fields["forecast"].elements else [entry] }

  /** raw.flatMap */
  function FlatMap(entries: seq<Json>): seq<Json> {
    if entries == [] then [] else FlatMap(entries[..|entries| - 1]) + Unwrap(entries[|entries| - 1])
  }

  function Days(raw: Json): Option<seq<Json>> {
    if raw.JArr? then Some(FlatMap(raw.elements))
    else if IsWrapper(raw) then Some(raw.fields["forecast"].elements)
    else None
  }

  function Normalized(raw: Json): Option<seq<Day>> {
    var days := Days(raw);
    if days.None? || Rows(days.value) == [] then None else Some(Rows(days.value))
  }

  method NormalizeWeatherForecast(raw: Json) returns (r: Option<seq<Day>>)
    ensures r == Normalized(raw)
  {
    var days := Days(raw);
    if days.None? { return None; }
    var out: seq<Day> := [];
    for i := 0 to |days.value|
      invariant out == Rows(days.value[..i])
    {
      var day := days.value[i];
      assert days.value[..i + 1][..i] == days.value[..i];
      if !day.JObj? || !HasString(day.fields, "date") || !HasString(day.fields, "condition") { continue; }
      var (high, low) := Temperatures(day.fields);
      out := out + [Day(day.fields["date"].s, day.fields["condition"].s, high, low)];
    }
    assert days.value[..|days.value|] == days.value;
    return if |out| > 0 then Some(out) else None;
  }

  // ---------------------------------------------------------------------------
  // Containers agree
  // ---------------------------------------------------------------------------

  /** The rows of a payload, none when it normalises to null. */
  function RowsIn(raw: Json): seq<Day> { if Normalized(raw).Some? then Normalized(raw).value else [] }

  lemma {:induction false} FlatMapConcat(a: seq<Json>, b: seq<Json>)
    ensures FlatMap(a + b) == FlatMap(a) + FlatMap(b)
  {
    if b == [] {
      assert a + b == a;
    } else {
      assert (a + b)[..|a + b| - 1] == a + b[..|b| - 1];
      FlatMapConcat(a, b[..|b| - 1]);
    }
  }

  lemma {:induction false} RowsConcat(a: seq<Json>, b: seq<Json>)
    ensures Rows(a + b) == Rows(a) + Rows(b)
  {
    if b == [] {
      assert a + b == a;
    } else {
      assert (a + b)[..|a + b| - 1] == a + b[..|b| - 1];
      RowsConcat(a, b[..|b| - 1]);
    }
  }

  lemma {:induction false} FlatMapPlain(days: seq<Json>)
    requires forall i :: 0 <= i < |days| ==> !IsWrapper(days[i])
    ensures FlatMap(days) == days
  {
    if days != [] { FlatMapPlain(days[..|days| - 1]); }
  }

  /** Rows distribute over the concatenation of arrays, whatever their entries are. */
  lemma RowsDistribute(a: seq<Json>, b: seq<Json>)
    ensures RowsIn(JArr(a + b)) == RowsIn(JArr(a)) + RowsIn(JArr(b))
  {
    FlatMapConcat(a, b);
    RowsConcat(FlatMap(a), FlatMap(b));
  }

  predicate Wraps(v: Json, days: seq<Json>) { IsWrapper(v) && v.fields["forecast"].elements == days }

  /** A wrapper, with whatever other fields, reads as the array that holds just this wrapper. */
  lemma WrapperAlone(wrapper: Json)
    requires IsWrapper(wrapper)
    ensures Normalized(wrapper) == Normalized(JArr([wrapper]))
  {
    assert FlatMap([]) == [] && [wrapper][..0] == [];
    assert FlatMap([wrapper]) == Unwrap(wrapper);
  }

  function Concat(parts: seq<seq<Json>>): seq<Json> {
    if parts == [] then [] else Concat(parts[..|parts| - 1]) + parts[|parts| - 1]
  }

  lemma {:induction false} FlatMapWrappers(wrappers: seq<Json>, parts: seq<seq<Json>>)
    requires |wrappers| == |parts| && forall i :: 0 <= i < |parts| ==> Wraps(wrappers[i], parts[i])
    ensures FlatMap(wrappers) == Concat(parts)
  {
    if parts != [] { FlatMapWrappers(wrappers[..|parts| - 1], parts[..|parts| - 1]); }
  }

  /**
   * A day list, one wrapper around it, and an array of wrappers that splits it anyhow give the same
   * rows, provided no day is itself a wrapper.
   */
  lemma ContainersAgree(days: seq<Json>, wrapper: Json, wrappers: seq<Json>, parts: seq<seq<Json>>)
    requires Wraps(wrapper, days)
    requires |wrappers| == |parts| && forall i :: 0 <= i < |parts| ==> Wraps(wrappers[i], parts[i])
    requires Concat(parts) == days
    ensures Normalized(wrapper) == Normalized(JArr([wrapper])) == Normalized(JArr(wrappers))
    ensures (forall i :: 0 <= i < |days| ==> !IsWrapper(days[i])) ==> Normalized(JArr(days)) == Normalized(wrapper)
  {
    WrapperAlone(wrapper);
    FlatMapWrappers(wrappers, parts);
    if forall i :: 0 <= i < |days| ==> !IsWrapper(days[i]) { FlatMapPlain(days); }
  }

  /** A day that carries a forecast of its own: the list loses it, the wrapper keeps it. */
  lemma WrapperDayDiffers()
    ensures var day := JObj(map["date" := JStr("2025-01-01"), "condition" := JStr("Sunny"), "forecast" := JArr([])]);
            && Normalized(JArr([day])) == None
            && Normalized(JObj(map["forecast" := JArr([day])])) == Some([Day("2025-01-01", "Sunny", None, None)])
  {
    var day := JObj(map["date" := JStr("2025-01-01"), "condition" := JStr("Sunny"), "forecast" := JArr([])]);
    assert [day][..0] == [];
    assert FlatMap([day]) == FlatMap([]) + Unwrap(day) == [];
    assert Rows([day]) == Rows([]) + [RowOf(day)] == [RowOf(day)];
    var wrapper := JObj(map["forecast" := JArr([day])]);
    assert Days(wrapper) == Some([day]);
    assert RowOf(day) == Day("2025-01-01", "Sunny", None, None);
  }

  lemma Cancel<T>(a: seq<T>, x: seq<T>, y: seq<T>, b: seq<T>)
    ensures a + x + b == a + y + b <==> x == y
  {
    if a + x + b == a + y + b {
      assert |x| == |y|;
      assert (a + x + b)[|a|..|a| + |x|] == x && (a + y + b)[|a|..|a| + |y|] == y;
    }
  }

  /**
   * Exactly when a day that is a wrapper makes no difference between a bare list and a wrapper around
   * it: its own forecast reads like the day itself.
   */
  lemma WrapperDayIff(a: seq<Json>, day: Json, b: seq<Json>, wrapper: Json)
    requires IsWrapper(day) && Wraps(wrapper, a + [day] + b)
    requires (forall i :: 0 <= i < |a| ==> !IsWrapper(a[i])) && (forall i :: 0 <= i < |b| ==> !IsWrapper(b[i]))
    ensures RowsIn(JArr(a + [day] + b)) == RowsIn(wrapper) <==>
              Rows(day.fields["forecast"].elements) == if ValidDay(day) then [RowOf(day)] else []
  {
    var inner := day.fields["forecast"].elements;
    assert [day][..0] == [];
    assert FlatMap([day]) == FlatMap([]) + Unwrap(day) == inner;
    assert Rows([day]) == Rows([]) + if ValidDay(day) then [RowOf(day)] else [];
    FlatMapConcat(a + [day], b);
    FlatMapConcat(a, [day]);
    FlatMapPlain(a);
    FlatMapPlain(b);
    RowsConcat(a + inner, b);
    RowsConcat(a, inner);
    RowsConcat(a + [day], b);
    RowsConcat(a, [day]);
    Cancel(Rows(a), Rows(inner), Rows([day]), Rows(b));
  }

  // ---------------------------------------------------------------------------
  // Which days survive
  // ---------------------------------------------------------------------------

  predicate EntryOffers(entry: Json, day: Json) {
    if IsWrapper(entry) then day in entry.fields["forecast"].elements else day == entry
  }

  /** The payload offers this value as a day. */
  ghost predicate Offers(raw: Json, day: Json) {
    if raw.JArr? then exists i :: 0 <= i < |raw.elements| && EntryOffers(raw.elements[i], day)
    else IsWrapper(raw) && day in raw.fields["forecast"].elements
  }

  lemma {:induction false} FlatMapExact(entries: seq<Json>, day: Json)
    ensures day in FlatMap(entries) <==> Offers(JArr(entries), day)
  {
    if entries != [] {
      var n := |entries| - 1;
      FlatMapExact(entries[..n], day);
      if Offers(JArr(entries[..n]), day) {
        var i :| 0 <= i < n && EntryOffers(entries[..n][i], day);
        assert EntryOffers(entries[i], day);
      }
      if Offers(JArr(entries), day) && !EntryOffers(entries[n], day) {
        var i :| 0 <= i < |entries| && EntryOffers(entries[i], day);
        assert EntryOffers(entries[..n][i], day);
      }
    }
  }

  lemma {:induction false} RowsExact(days: seq<Json>, row: Day)
    ensures row in Rows(days) <==> exists i :: 0 <= i < |days| && ValidDay(days[i]) && RowOf(days[i]) == row
  {
    if days != [] { RowsExact(days[..|days| - 1], row); }
  }

  /** A row is there exactly for a valid day on offer; so the answer is null iff no valid day is. */
  lemma RowIffOffered(raw: Json, row: Day)
    ensures row in RowsIn(raw) <==> exists day :: Offers(raw, day) && ValidDay(day) && RowOf(day) == row
    ensures row in RowsIn(raw) <==> exists day :: Offers(raw, day) && Reads(day, row)
  {
    forall day ensures ValidDay(day) && RowOf(day) == row <==> Reads(day, row) { RowReads(day, row); }
    if Days(raw).Some? {
      var days := Days(raw).value;
      RowsExact(days, row);
      forall day ensures Offers(raw, day) <==> day in days {
        if raw.JArr? { FlatMapExact(raw.elements, day); }
      }
    }
  }

  lemma NullIffNoValidDay(raw: Json)
    ensures Normalized(raw).None? <==> forall day :: Offers(raw, day) ==> !ValidDay(day)
  {
    if Normalized(raw).Some? {
      var row := RowsIn(raw)[0];
      RowIffOffered(raw, row);
    }
    if day :| Offers(raw, day) && ValidDay(day) {
      RowIffOffered(raw, RowOf(day));
    }
  }

  // ---------------------------------------------------------------------------
  // The second pass
  // ---------------------------------------------------------------------------

  /** A row as the JSON object it is; undefined temperatures are not there. */
  function Encode(row: Day): Json {
    JObj(map["date" := JStr(row.date), "condition" := JStr(row.condition)]
         + (if row.high.Some? then map["temperatureCelsius" := JNum(row.high.value)] else map[])
         + (if row.low.Some? then map["temperatureMinCelsius" := JNum(row.low.value)] else map[]))
  }

  function EncodeAll(rows: seq<Day>): seq<Json> { seq(|rows|, (i: nat) requires i < |rows| => Encode(rows[i])) }

  function WithoutLows(rows: seq<Day>): seq<Day> {
    seq(|rows|, (i: nat) requires i < |rows| => rows[i].(low := None))
  }

  lemma EncodedDay(row: Day)
    ensures ValidDay(Encode(row)) && RowOf(Encode(row)) == row.(low := None) && !IsWrapper(Encode(row))
  {
    var o := Encode(row).fields;
    assert o["date"] == JStr(row.date) && o["condition"] == JStr(row.condition);
    assert Prop(o, "temperature").None? && Prop(o, "temperature_celsius").None?;
    assert Prop(o, "temperatureCelsius") == if row.high.Some? then Some(JNum(row.high.value)) else None;
  }

  lemma {:induction false} RowsOfValid(days: seq<Json>, rows: seq<Day>)
    requires |days| == |rows| && forall i :: 0 <= i < |days| ==> ValidDay(days[i]) && RowOf(days[i]) == rows[i]
    ensures Rows(days) == rows
  {
    if days != [] {
      var n := |days| - 1;
      RowsOfValid(days[..n], rows[..n]);
      assert rows == rows[..n] + [rows[n]];
    }
  }

  /** Normalising rows once more keeps dates, conditions and highs, and drops every minimum. */
  lemma SecondPass(rows: seq<Day>)
    requires rows != []
    ensures Normalized(JArr(EncodeAll(rows))) == Some(WithoutLows(rows))
  {
    var days := EncodeAll(rows);
    forall i | 0 <= i < |rows|
      ensures ValidDay(days[i]) && RowOf(days[i]) == WithoutLows(rows)[i] && !IsWrapper(days[i])
    {
      EncodedDay(rows[i]);
    }
    FlatMapPlain(days);
    RowsOfValid(days, WithoutLows(rows));
  }

  /**
   * So the normaliser is idempotent on a payload exactly when no row has a minimum, and from the
   * second pass on nothing changes any more.
   */
  lemma Idempotent(raw: Json)
    requires Normalized(raw).Some?
    ensures var once := Normalized(raw).value;
            var twice := Normalized(JArr(EncodeAll(once)));
            && (twice == Some(once) <==> forall i :: 0 <= i < |once| ==> once[i].low.None?)
            && twice.Some? && Normalized(JArr(EncodeAll(twice.value))) == twice
  {
    var once := Normalized(raw).value;
    SecondPass(once);
    var twice := WithoutLows(once);
    SecondPass(twice);
    assert WithoutLows(twice) == twice;
    assert forall i :: 0 <= i < |once| ==> twice[i] == once[i].(low := None);
    if forall i :: 0 <= i < |once| ==> once[i].low.None? { assert twice == once; }
  }

  /** On the payload: nothing changes exactly when no valid day on offer reads as having a minimum. */
  lemma IdempotentIff(raw: Json)
    requires Normalized(raw).Some?
    ensures Normalized(JArr(EncodeAll(Normalized(raw).value))) == Normalized(raw) <==>
              forall day, row :: Offers(raw, day) && Reads(day, row) ==> row.low.None?
  {
    Idempotent(raw);
    forall day, row ensures ValidDay(day) && RowOf(day) == row <==> Reads(day, row) { RowReads(day, row); }
    var once := Normalized(raw).value;
    if forall i :: 0 <= i < |once| ==> once[i].low.None? {
      forall day, row | Offers(raw, day) && Reads(day, row)
        ensures row.low.None?
      {
        RowIffOffered(raw, row);
        assert row in once;
      }
    } else {
      var i :| 0 <= i < |once| && once[i].low.Some?;
      RowIffOffered(raw, once[i]);
      var day :| Offers(raw, day) && Reads(day, once[i]);
    }
  }

  /** One day with a temperature range: the second pass loses its minimum. */
  lemma MinimumLost()
    ensures var range := JObj(map["max_celsius" := JNum(24.0), "min_celsius" := JNum(18.0)]);
            var day := JObj(map["date" := JStr("2025-01-01"), "condition" := JStr("Sunny"), "temperature" := range]);
            var raw := JArr([day]);
            var once := [Day("2025-01-01", "Sunny", Some(24.0), Some(18.0))];
            && Normalized(raw) == Some(once)
            && Normalized(JArr(EncodeAll(once))) == Some([Day("2025-01-01", "Sunny", Some(24.0), None)])
  {
    var range := JObj(map["max_celsius" := JNum(24.0), "min_celsius" := JNum(18.0)]);
    var day := JObj(map["date" := JStr("2025-01-01"), "condition" := JStr("Sunny"), "temperature" := range]);
    var row := Day("2025-01-01", "Sunny", Some(24.0), Some(18.0));
    RangeDay(day, range);
    FlatMapPlain([day]);
    RowsOfValid([day], [row]);
    SecondPass([row]);
    assert WithoutLows([row]) == [row.(low := None)];
  }

  lemma RangeDay(day: Json, range: Json)
    requires range == JObj(map["max_celsius" := JNum(24.0), "min_celsius" := JNum(18.0)])
    requires day == JObj(map["date" := JStr("2025-01-01"), "condition" := JStr("Sunny"), "temperature" := range])
    ensures ValidDay(day) && !IsWrapper(day) && RowOf(day) == Day("2025-01-01", "Sunny", Some(24.0), Some(18.0))
  {
    var o := day.fields;
    assert o["date"] == JStr("2025-01-01") && o["condition"] == JStr("Sunny") && o["temperature"] == range;
    assert Prop(o, "temperature_celsius").None? && Prop(o, "temperatureCelsius").None?;
    assert range.fields["max_celsius"] == JNum(24.0) && range.fields["min_celsius"] == JNum(18.0);
  }
}

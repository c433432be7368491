/** SubZoneService: subzone lookup, the manual irrigation trigger that feeds
    the same pending queue as the automatic rule, and the chronological
    soil-moisture history of a subzone. */
module SubZoneService {
  import opened Entities
  import opened Store
  import opened ZoneRules

  /** findById: the stored subzone, or NOT_FOUND. */
  function FindSubZone(st: State, id: int): (r: Result<SubZone>)
    ensures r.Ok? <==> id in st.subZones
    ensures r.Ok? ==> r.value == st.subZones[id]
    ensures r.Err? ==> r.failure == NotFound
  {
    if id in st.subZones then Ok(st.subZones[id]) else Err(NotFound)
  }

  /** The request triggerManualIrrigation saves: manual, for the subzone's
      default duration, requested now and not yet executed. */
  function ManualRequest(subZoneId: int, sz: SubZone, now: Instant): IrrigationRequest
  {
    IrrigationRequest(subZoneId, now, sz.defaultIrrigationDurationInSeconds, false, Manual)
  }

  /** triggerManualIrrigation: NOT_FOUND and nothing saved for an unknown
      subzone; otherwise one manual request is appended to the queue. */
  ghost function ManualTrigger(st: State, id: int, now: Instant): (r: Result<State>)
    ensures r.Err? <==> id !in st.subZones
    ensures r.Err? ==> r.failure == NotFound
    ensures r.Ok? ==>
      && r.value == st.(requests := r.value.requests)
      && |r.value.requests| == |st.requests| + 1
      && r.value.requests[..|st.requests|] == st.requests
      && var q := r.value.requests[|st.requests|];
         && q.subZoneId == id
         && q.triggeredBy == Manual
         && q.durationSeconds == st.subZones[id].defaultIrrigationDurationInSeconds
         && q.requestedAt == now
         && !q.executed
  {
    match FindSubZone(st, id)
    case Err(f) => Err(f)
    case Ok(sz) => Ok(st.(requests := st.requests + [ManualRequest(id, sz, now)]))
  }

  /** The triggered request is pending for its subzone at `t` exactly when
      `t` falls before one day after the trigger; it then joins the end of
      the subzone's pending list. */
  lemma ManualRequestPendingForADay(st: State, id: int, now: Instant, t: Instant)
    requires id in st.subZones
    ensures var after := ManualTrigger(st, id, now).value.requests;
      && (IsPending(after[|st.requests|], id, t) <==> t < now + DAY)
      && PendingRequests(after, id, t) ==
           PendingRequests(st.requests, id, t) + (if t < now + DAY then [after[|st.requests|]] else [])
  {
    var q := ManualRequest(id, st.subZones[id], now);
    PendingOfConcat(st.requests, [q], id, t);
    assert [q][1..] == [];
  }

  /** Dispatching the subzone within a day of the trigger, when no other
      pending request of that subzone is as recent, plans exactly the
      subzone's default duration. */
  lemma ManualTriggerIsDispatched(st: State, id: int, now: Instant, t: Instant)
    requires id in st.subZones
    requires t < now + DAY
    requires forall r :: r in st.requests && IsPending(r, id, t) ==> r.requestedAt < now
    ensures PlannedDuration(ManualTrigger(st, id, now).value.requests, id, t) ==
              st.subZones[id].defaultIrrigationDurationInSeconds
  {
    var q := ManualRequest(id, st.subZones[id], now);
    var after := ManualTrigger(st, id, now).value.requests;
    ManualRequestPendingForADay(st, id, now, t);
    var ps := PendingRequests(after, id, t);
    assert q in ps;
    var latest := LatestRequest(ps).value;
    assert latest in PendingRequests(st.requests, id, t) + [q];
    assert latest.requestedAt >= now;
    assert latest !in PendingRequests(st.requests, id, t);
    assert latest == q;
  }

  /** Readings in non-decreasing `recordedAt` order. */
  predicate Chronological(rs: seq<SoilMoistureReading>)
  {
    forall i, j :: 0 <= i < j < |rs| ==> rs[i].recordedAt <= rs[j].recordedAt
  }

  /** Response rows in non-decreasing `recordedAt` order. */
  predicate Ascending(ds: seq<SoilMoistureReadingDto>)
  {
    forall i, j :: 0 <= i < j < |ds| ==> ds[i].recordedAt <= ds[j].recordedAt
  }

  function ToDto(r: SoilMoistureReading): SoilMoistureReadingDto
  {
    SoilMoistureReadingDto(r.recordedAt, r.moisturePercent)
  }

  /** The stream map from readings to response rows. */
  function ToDtos(rs: seq<SoilMoistureReading>): (ds: seq<SoilMoistureReadingDto>)
    ensures |ds| == |rs|
    ensures Chronological(rs) ==> Ascending(ds)
  {
    seq(|rs|, k requires 0 <= k < |rs| => ToDto(rs[k]))
  }

  lemma ToDtosCons(r: SoilMoistureReading, rs: seq<SoilMoistureReading>)
    ensures ToDtos([r] + rs) == [ToDto(r)] + ToDtos(rs)
  {
    assert forall k :: 0 <= k < |rs| + 1 ==> ToDtos([r] + rs)[k] == ([ToDto(r)] + ToDtos(rs))[k];
  }

  /** A reading no later than any of a chronological sequence can lead it. */
  lemma EarliestFirst(a: SoilMoistureReading, rest: seq<SoilMoistureReading>)
    requires Chronological(rest)
    requires forall y :: y in rest ==> a.recordedAt <= y.recordedAt
    ensures Chronological([a] + rest)
  {
    forall i, j | 0 <= i < j < |rest| + 1
      ensures ([a] + rest)[i].recordedAt <= ([a] + rest)[j].recordedAt
    {
      assert ([a] + rest)[j] == rest[j - 1];
      if i > 0 {
        assert ([a] + rest)[i] == rest[i - 1];
      }
    }
  }

  /** Places `x` before the first reading of `s` that is not earlier, so
      readings with equal timestamps keep their relative order. */
  function InsertByTime(x: SoilMoistureReading, s: seq<SoilMoistureReading>): (r: seq<SoilMoistureReading>)
    requires Chronological(s)
    ensures Chronological(r)
    ensures forall y :: y in r <==> y == x || y in s
    ensures multiset(r) == multiset(s) + multiset{x}
    ensures |r| == |s| + 1
  {
    if s == [] || x.recordedAt <= s[0].recordedAt then
      EarliestFirst(x, s);
      [x] + s
    else
      var rest := InsertByTime(x, s[1..]);
      assert s == [s[0]] + s[1..];
      EarliestFirst(s[0], rest);
      [s[0]] + rest
  }

  /** findBySubZoneOrderByRecordedAtAsc: the readings in chronological
      order, ties in table order. */
  function SortByTime(rs: seq<SoilMoistureReading>): (r: seq<SoilMoistureReading>)
    ensures Chronological(r)
    ensures multiset(r) == multiset(rs)
    ensures |r| == |rs|
  {
    if rs == [] then []
    else
      assert rs == [rs[0]] + rs[1..];
      InsertByTime(rs[0], SortByTime(rs[1..]))
  }

  /** Mapping after an insertion adds exactly the new reading's row. */
  lemma {:induction false} InsertedRows(x: SoilMoistureReading, s: seq<SoilMoistureReading>)
    requires Chronological(s)
    ensures multiset(ToDtos(InsertByTime(x, s))) == multiset(ToDtos(s)) + multiset{ToDto(x)}
  {
    if s == [] || x.recordedAt <= s[0].recordedAt {
      RowsOfCons([x] + s);
      assert ([x] + s)[1..] == s;
    } else {
      var rest := InsertByTime(x, s[1..]);
      InsertedRows(x, s[1..]);
      RowsOfCons([s[0]] + rest);
      assert ([s[0]] + rest)[1..] == rest;
      RowsOfCons(s);
    }
  }

  /** The rows of a non-empty sequence: its head's row and its tail's rows. */
  lemma RowsOfCons(rs: seq<SoilMoistureReading>)
    requires rs != []
    ensures multiset(ToDtos(rs)) == multiset{ToDto(rs[0])} + multiset(ToDtos(rs[1..]))
  {
    assert rs == [rs[0]] + rs[1..];
    ToDtosCons(rs[0], rs[1..]);
  }

  /** Sorting permutes the rows the readings map to. */
  lemma {:induction false} SortedRows(rs: seq<SoilMoistureReading>)
    ensures multiset(ToDtos(SortByTime(rs))) == multiset(ToDtos(rs))
  {
    if rs != [] {
      SortedRows(rs[1..]);
      InsertedRows(rs[0], SortByTime(rs[1..]));
      RowsOfCons(rs);
    }
  }

  /** getSoilReadingsForSubzone: NOT_FOUND for an unknown subzone;
      otherwise one row per reading, carrying its timestamp and percent,
      in ascending time order. */
  function SoilReadings(st: State, id: int): (r: Result<seq<SoilMoistureReadingDto>>)
    ensures r.Err? <==> id !in st.subZones
    ensures r.Err? ==> r.failure == NotFound
    ensures r.Ok? ==>
      var readings := st.subZones[id].soilMoistureReadings;
      && |r.value| == |readings|
      && Ascending(r.value)
      && multiset(r.value) == multiset(ToDtos(readings))
  {
    match FindSubZone(st, id)
    case Err(f) => Err(f)
    case Ok(sz) =>
      SortedRows(sz.soilMoistureReadings);
      Ok(ToDtos(SortByTime(sz.soilMoistureReadings)))
  }

  /** Every row of the map is some reading's row, and every reading has one. */
  lemma RowsOfReadings(rs: seq<SoilMoistureReading>)
    ensures forall d :: d in ToDtos(rs) <==> exists r :: r in rs && d == ToDto(r)
  {
    forall d | d in ToDtos(rs)
      ensures exists r :: r in rs && d == ToDto(r)
    {
      var k :| 0 <= k < |rs| && ToDtos(rs)[k] == d;
      assert rs[k] in rs;
    }
    forall r | r in rs
      ensures ToDto(r) in ToDtos(rs)
    {
      var k :| 0 <= k < |rs| && rs[k] == r;
      assert ToDtos(rs)[k] == ToDto(r);
    }
  }

  /** Every response row is some reading's timestamp and percent, and
      every reading has a row. */
  lemma SoilReadingsAreTheReadings(st: State, id: int)
    requires id in st.subZones
    ensures var ds := SoilReadings(st, id).value;
      forall d :: d in ds <==> exists r :: r in st.subZones[id].soilMoistureReadings && d == ToDto(r)
  {
    var ds := SoilReadings(st, id).value;
    var rs := st.subZones[id].soilMoistureReadings;
    RowsOfReadings(rs);
    assert forall d :: d in ds <==> d in multiset(ds);
    assert forall d :: d in ToDtos(rs) <==> d in multiset(ToDtos(rs));
  }

  method FindById(db: Database, id: int) returns (r: Result<SubZone>)
    ensures r == FindSubZone(db.Snapshot(), id)
  {
    if id in db.subZones {
      r := Ok(db.subZones[id]);
    } else {
      r := Err(NotFound);
    }
  }

  method TriggerManualIrrigation(db: Database, id: int, now: Instant) returns (r: Result<()>)
    requires db.Valid()
    modifies db
    ensures db.Valid()
    ensures var spec := ManualTrigger(old(db.Snapshot()), id, now);
      && (spec.Err? ==> r == Err(spec.failure) && db.Snapshot() == old(db.Snapshot()))
      && (spec.Ok? ==> r == Ok(()) && db.Snapshot() == spec.value)
  {
    var found := FindById(db, id);
    if found.Err? {
      return Err(found.failure);
    }
    var request := ManualRequest(id, found.value, now);
    db.requests := db.requests + [request];
    r := Ok(());
  }
}

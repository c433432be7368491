/** ZoneController: the controller-facing readings endpoint, which validates
    a sensor report, ingests it and answers with the planned irrigation, and
    the zone endpoints that delegate to ZoneService. */
module ZoneController {
  import opened Entities
  import opened Store
  import opened ZoneRules
  import opened ZoneService

  /** receiveSensorData: reject a report without controller UID or subzone
      list; otherwise ingest it, then dispatch the controller's zone. */
  ghost function Receive(st: State, req: SensorDataRequest, now: Instant): (r: (Result<PlannedIrrigationResponse>, State))
    requires WellFormed(st)
    ensures WellFormed(r.1)
    ensures r.0.Err? <==> req.controllerUid.None? || req.subZones.None?
    ensures r.0.Err? ==> r.0.failure == BadRequest(InvalidSensorData) && r.1 == st
  {
    if req.controllerUid.None? || req.subZones.None? then
      (Err(BadRequest(InvalidSensorData)), st)
    else
      var uid := req.controllerUid.value;
      var ingested := Ingest(st, uid, req.subZones.value, now);
      IngestFindsOrCreatesZone(st, uid, req.subZones.value, now);
      var (plans, st') := Plan(ingested, uid, now);
      (Ok(PlannedIrrigationResponse(plans.value)), st')
  }

  /** The zone a valid report is recorded on and dispatched for. */
  lemma ReceiveUsesControllerZone(st: State, uid: string, es: seq<SubzoneData>, now: Instant)
    requires WellFormed(st)
    ensures var ingested := Ingest(st, uid, es, now);
      var zid := ControllerZone(st, uid).1;
      && zid in ingested.zones
      && Receive(st, SensorDataRequest(Some(uid), Some(es)), now) ==
           (Ok(PlannedIrrigationResponse(Dispatch(ingested, zid, now).0)), Dispatch(ingested, zid, now).1)
  {
    IngestFindsOrCreatesZone(st, uid, es, now);
  }

  /** A request pending at `now` among the appended ones, when the appended
      requests hold at most one pending request for its subzone and only if
      nothing was pending before, is the one dispatch plans. */
  lemma OnlyAddedRequestIsPlanned(before: seq<IrrigationRequest>, added: seq<IrrigationRequest>,
                                  q: IrrigationRequest, now: Instant)
    requires q in added && IsPending(q, q.subZoneId, now)
    requires var p := PendingRequests(added, q.subZoneId, now);
      p == [] || (|p| == 1 && PendingRequests(before, q.subZoneId, now) == [])
    ensures PlannedDuration(before + added, q.subZoneId, now) == q.durationSeconds
  {
    var s := q.subZoneId;
    var p := PendingRequests(added, s, now);
    assert q in p;
    assert p == [q];
    PendingOfConcat(before, added, s, now);
    assert PendingRequests(before + added, s, now) == [q];
  }

  /** The `k`-th request, an automatic one appended after `before` and the
      only pending request of its subzone, is planned for its subzone. */
  lemma AddedRequestPlanned(before: seq<IrrigationRequest>, ingested: State, zid: int, now: Instant, k: int)
    requires WellFormed(ingested) && zid in ingested.zones
    requires before <= ingested.requests && |before| <= k < |ingested.requests|
    requires AutoRequestOf(ingested, zid, ingested.requests[k], now)
    requires var p := PendingRequests(ingested.requests[|before|..], ingested.requests[k].subZoneId, now);
      p == [] || (|p| == 1 && PendingRequests(before, ingested.requests[k].subZoneId, now) == [])
    ensures var q := ingested.requests[k];
      exists j :: 0 <= j < |ingested.zones[zid].subZoneIds|
        && ingested.zones[zid].subZoneIds[j] == q.subZoneId
        && Dispatch(ingested, zid, now).0[j].plannedIrrigationDurationInSeconds == q.durationSeconds
  {
    var q := ingested.requests[k];
    var n := |before|;
    var added := ingested.requests[n..];
    AppendedPart(before, ingested.requests);
    assert q == added[k - n];
    OnlyAddedRequestIsPlanned(before, added, q, now);
    var ids := ingested.zones[zid].subZoneIds;
    var j :| 0 <= j < |ids| && ids[j] == q.subZoneId;
    assert Dispatch(ingested, zid, now).0[j] == PlanFor(ingested, q.subZoneId, now);
  }

  /** Every appended request, automatic and the only pending request of
      its subzone, is planned for its subzone. */
  lemma AddedRequestsPlanned(before: seq<IrrigationRequest>, ingested: State, zid: int, now: Instant)
    requires WellFormed(ingested) && zid in ingested.zones
    requires before <= ingested.requests
    requires forall k :: |before| <= k < |ingested.requests| ==> AutoRequestOf(ingested, zid, ingested.requests[k], now)
    requires forall s :: var p := PendingRequests(ingested.requests[|before|..], s, now);
      p == [] || (|p| == 1 && PendingRequests(before, s, now) == [])
    ensures var plans := Dispatch(ingested, zid, now).0;
      forall k :: |before| <= k < |ingested.requests| ==>
        && ingested.requests[k].triggeredBy == Auto
        && exists j :: 0 <= j < |ingested.zones[zid].subZoneIds|
             && ingested.zones[zid].subZoneIds[j] == ingested.requests[k].subZoneId
             && plans[j].plannedIrrigationDurationInSeconds == ingested.requests[k].durationSeconds
  {
    forall k | |before| <= k < |ingested.requests|
      ensures exists j :: 0 <= j < |ingested.zones[zid].subZoneIds|
                && ingested.zones[zid].subZoneIds[j] == ingested.requests[k].subZoneId
                && Dispatch(ingested, zid, now).0[j].plannedIrrigationDurationInSeconds == ingested.requests[k].durationSeconds
    {
      AddedRequestPlanned(before, ingested, zid, now, k);
    }
  }

  /** The facts about the requests ingestion appends. */
  lemma IngestedRequests(st: State, zid: int, es: seq<SubzoneData>, now: Instant, ingested: State)
    requires WellFormed(st) && zid in st.zones
    requires ingested == IngestEntries(st, zid, es, now)
    ensures st.requests <= ingested.requests
    ensures forall k :: |st.requests| <= k < |ingested.requests| ==> AutoRequestOf(ingested, zid, ingested.requests[k], now)
    ensures forall s :: var p := PendingRequests(ingested.requests[|st.requests|..], s, now);
      p == [] || (|p| == 1 && PendingRequests(st.requests, s, now) == [])
  {
    IngestAddsOnlyAutoRequests(st, zid, es, now, ingested);
    forall s ensures var p := PendingRequests(ingested.requests[|st.requests|..], s, now);
      p == [] || (|p| == 1 && PendingRequests(st.requests, s, now) == [])
    {
      IngestAtMostOneAutoPerSubZone(st, zid, es, now, s);
    }
  }

  /** An automatic request created while ingesting a report is pending when
      the same call dispatches the zone, so the response plans its subzone
      for exactly that request's duration, the subzone's default duration. */
  lemma NewAutoRequestIsDispatched(st: State, uid: string, es: seq<SubzoneData>, now: Instant)
    requires WellFormed(st)
    ensures var ingested := Ingest(st, uid, es, now);
      var zid := ControllerZone(st, uid).1;
      var response := Receive(st, SensorDataRequest(Some(uid), Some(es)), now).0;
      && zid in ingested.zones
      && response.Ok?
      && |response.value.subZones| == |ingested.zones[zid].subZoneIds|
      && forall k :: |st.requests| <= k < |ingested.requests| ==>
           && ingested.requests[k].triggeredBy == Auto
           && exists j :: 0 <= j < |ingested.zones[zid].subZoneIds|
                && ingested.zones[zid].subZoneIds[j] == ingested.requests[k].subZoneId
                && response.value.subZones[j].plannedIrrigationDurationInSeconds == ingested.requests[k].durationSeconds
  {
    var stc := ControllerZone(st, uid).0;
    var zid := ControllerZone(st, uid).1;
    var ingested := IngestEntries(stc, zid, es, now);
    ReceiveUsesControllerZone(st, uid, es, now);
    assert ingested == Ingest(st, uid, es, now);
    IngestedRequests(stc, zid, es, now, ingested);
    AddedRequestsPlanned(stc.requests, ingested, zid, now);
    assert Receive(st, SensorDataRequest(Some(uid), Some(es)), now).0 ==
      Ok(PlannedIrrigationResponse(Dispatch(ingested, zid, now).0));
  }

  /** The subzone indexes a response plans for, in order. */
  function PlanIndexes(plans: seq<SubZonePlan>): seq<int>
  {
    seq(|plans|, k requires 0 <= k < |plans| => plans[k].subzoneIndex)
  }

  /** For a controller seen for the first time, the response has one plan
      per distinct subzone index of the report, in first-seen order. */
  lemma FirstSeenControllerResponse(st: State, uid: string, es: seq<SubzoneData>, now: Instant)
    requires WellFormed(st)
    requires ZoneKeyOf(st.zones, uid).None?
    ensures var response := Receive(st, SensorDataRequest(Some(uid), Some(es)), now).0;
      && response.Ok?
      && PlanIndexes(response.value.subZones) == AppendNew([], EntryIndexes(es))
      && (forall i :: i in PlanIndexes(response.value.subZones) <==> i in EntryIndexes(es))
      && (forall a, b :: 0 <= a < b < |response.value.subZones| ==>
            response.value.subZones[a].subzoneIndex != response.value.subZones[b].subzoneIndex)
  {
    var ingested := Ingest(st, uid, es, now);
    var zid := ControllerZone(st, uid).1;
    ReceiveUsesControllerZone(st, uid, es, now);
    FirstSeenControllerSubZones(st, uid, es, now);
    var idx := AppendNew([], EntryIndexes(es));
    assert SubZoneIndexes(ingested, zid) == idx;
    PlansFollowIndexes(ingested, zid, Dispatch(ingested, zid, now).0, idx);
  }

  /** Plans made in the order of a zone's subzones carry the zone's
      subzone indexes, so distinct indexes give distinct plans. */
  lemma PlansFollowIndexes(st: State, zid: int, plans: seq<SubZonePlan>, idx: seq<int>)
    requires WellFormed(st) && zid in st.zones
    requires |plans| == |st.zones[zid].subZoneIds|
    requires forall k :: 0 <= k < |plans| ==>
      plans[k].subzoneIndex == st.subZones[st.zones[zid].subZoneIds[k]].subzoneIndex
    requires SubZoneIndexes(st, zid) == idx
    requires forall i, j :: 0 <= i < j < |idx| ==> idx[i] != idx[j]
    ensures PlanIndexes(plans) == idx
    ensures forall a, b :: 0 <= a < b < |plans| ==> plans[a].subzoneIndex != plans[b].subzoneIndex
  {
    assert forall k :: 0 <= k < |plans| ==> plans[k].subzoneIndex == idx[k];
  }

  method ReceiveSensorData(db: Database, req: SensorDataRequest, now: Instant) returns (r: Result<PlannedIrrigationResponse>)
    requires db.Valid()
    modifies db
    ensures db.Valid()
    ensures (r, db.Snapshot()) == Receive(old(db.Snapshot()), req, now)
  {
    if req.controllerUid.None? || req.subZones.None? {
      return Err(BadRequest(InvalidSensorData));
    }
    ghost var st0 := db.Snapshot();
    IngestFindsOrCreatesZone(st0, req.controllerUid.value, req.subZones.value, now);
    IngestSensorData(db, req.controllerUid.value, req.subZones.value, now);
    var plans := CalculatePlannedIrrigation(db, req.controllerUid.value, now);
    r := Ok(PlannedIrrigationResponse(plans.value));
  }

  method UpdateZone(db: Database, id: int, incoming: Zone) returns (r: Result<Zone>)
    requires db.Valid()
    modifies db
    ensures db.Valid()
    ensures var spec := ZoneUpdate(old(db.Snapshot()), id, incoming);
      && (spec.Err? ==> r == Err(NotFound) && db.Snapshot() == old(db.Snapshot()))
      && (spec.Ok? ==> db.Snapshot() == spec.value && r == Ok(db.zones[id]))
  {
    r := ZoneService.UpdateZone(db, id, incoming);
  }

  method GetById(db: Database, id: int) returns (r: Result<Zone>)
    ensures r.Ok? <==> id in db.zones
    ensures r.Ok? ==> r.value == db.zones[id]
    ensures r.Err? ==> r.failure == ServerError(ZoneMissing)
  {
    r := FindById(db, id);
  }

  method DeleteZone(db: Database, id: int) returns (r: Result<()>)
    requires db.Valid()
    modifies db
    ensures db.Valid()
    ensures var spec := ZoneDeletion(old(db.Snapshot()), id);
      && (spec.Err? ==> r == Err(spec.failure) && db.Snapshot() == old(db.Snapshot()))
      && (spec.Ok? ==> r == Ok(()) && db.Snapshot() == spec.value)
  {
    r := ZoneService.DeleteZone(db, id);
  }
}

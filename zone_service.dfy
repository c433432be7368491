/** ZoneService: sensor ingestion with the adaptive auto-irrigation rule,
    planned-irrigation dispatch, and zone update, lookup and deletion.
    Each service method is proved against a specification function on the
    `State` value of the database. */
module ZoneService {
  import opened Entities
  import opened Store
  import opened ZoneRules

  // ---------------------------------------------------------------------
  // Lookups and new records

  /** zoneRepo.findByControllerUid: the zone carrying the UID, if any. */
  ghost function ZoneKeyOf(zones: map<int, Zone>, uid: string): (r: Option<int>)
    ensures r.Some? ==> r.value in zones && zones[r.value].controllerUid == uid
    ensures r.None? ==> forall z :: z in zones ==> zones[z].controllerUid != uid
  {
    if exists z :: z in zones && zones[z].controllerUid == uid then
      Some(var z :| z in zones && zones[z].controllerUid == uid; z)
    else
      None
  }

  lemma ZoneKeyOfUnique(st: State, uid: string, z: int)
    requires WellFormed(st)
    requires z in st.zones && st.zones[z].controllerUid == uid
    ensures ZoneKeyOf(st.zones, uid) == Some(z)
  {
  }

  function NewZone(uid: string): Zone
  {
    Zone(None, None, None, None, uid, [])
  }

  function NewSubZone(zoneId: int, index: int): SubZone
  {
    SubZone(zoneId, None, index, None, None, None, 0, None, [], [])
  }

  /** The position of the first subzone in `ids` with the given index. */
  function FirstWithIndex(ids: seq<int>, subZones: map<int, SubZone>, index: int): (r: Option<nat>)
    requires forall k :: 0 <= k < |ids| ==> ids[k] in subZones
    ensures r.Some? ==> r.value < |ids| && subZones[ids[r.value]].subzoneIndex == index
    ensures r.Some? ==> forall j :: 0 <= j < r.value ==> subZones[ids[j]].subzoneIndex != index
    ensures r.None? ==> forall j :: 0 <= j < |ids| ==> subZones[ids[j]].subzoneIndex != index
  {
    if ids == [] then None
    else if subZones[ids[0]].subzoneIndex == index then Some(0)
    else match FirstWithIndex(ids[1..], subZones, index)
      case None => None
      case Some(p) => Some(p + 1)
  }

  /** The subzone indexes of a zone, in list order. */
  function SubZoneIndexes(st: State, zid: int): seq<int>
    requires WellFormed(st) && zid in st.zones
  {
    var ids := st.zones[zid].subZoneIds;
    seq(|ids|, k requires 0 <= k < |ids| => st.subZones[ids[k]].subzoneIndex)
  }

  // ---------------------------------------------------------------------
  // Ingestion

  /** Step 1: the zone of the controller, created on the fly when unknown. */
  ghost function ControllerZone(st: State, uid: string): (r: (State, int))
    requires WellFormed(st)
    ensures WellFormed(r.0) && r.1 in r.0.zones && r.0.zones[r.1].controllerUid == uid
  {
    match ZoneKeyOf(st.zones, uid)
    case Some(z) => (st, z)
    case None =>
      (st.(zones := st.zones[st.nextZoneId := NewZone(uid)], nextZoneId := st.nextZoneId + 1), st.nextZoneId)
  }

  /** The subzone an entry is recorded on: the first of the zone with the
      entry's index, or the id the next created subzone receives. */
  function EntrySubZone(st: State, zid: int, index: int): int
    requires WellFormed(st) && zid in st.zones
  {
    var ids := st.zones[zid].subZoneIds;
    match FirstWithIndex(ids, st.subZones, index)
    case Some(p) => ids[p]
    case None => st.nextSubZoneId
  }

  /** Only the readings of a subzone differ. */
  ghost predicate SameSettings(a: SubZone, b: SubZone)
  {
    a.(soilMoistureReadings := b.soilMoistureReadings, rainSensorReadings := b.rainSensorReadings) == b
  }

  /** What ingestion into zone `zid` may change: it appends subzones to that
      zone, readings to subzones, and requests; nothing else. */
  ghost predicate IngestFrame(st: State, r: State, zid: int)
    requires zid in st.zones
  {
    && r.zones.Keys == st.zones.Keys
    && (forall z :: z in st.zones && z != zid ==> r.zones[z] == st.zones[z])
    && r.zones[zid].(subZoneIds := st.zones[zid].subZoneIds) == st.zones[zid]
    && st.zones[zid].subZoneIds <= r.zones[zid].subZoneIds
    && (forall s :: s in st.subZones ==>
          && s in r.subZones
          && SameSettings(st.subZones[s], r.subZones[s])
          && st.subZones[s].soilMoistureReadings <= r.subZones[s].soilMoistureReadings
          && st.subZones[s].rainSensorReadings <= r.subZones[s].rainSensorReadings)
    && st.requests <= r.requests
    && r.history == st.history
    && r.plantTypes == st.plantTypes
    && r.soilTypes == st.soilTypes
    && r.nextZoneId == st.nextZoneId
  }

  lemma IngestFrameTransitive(a: State, b: State, c: State, zid: int)
    requires zid in a.zones && zid in b.zones
    requires IngestFrame(a, b, zid) && IngestFrame(b, c, zid)
    ensures IngestFrame(a, c, zid)
  {
  }

  /** Steps 2 and 3 for one subzone entry of a sensor report. */
  function IngestEntry(st: State, zid: int, e: SubzoneData, now: Instant): (r: State)
    requires WellFormed(st) && zid in st.zones
    ensures WellFormed(r) && r.zones.Keys == st.zones.Keys && st.requests <= r.requests
  {
    var ids := st.zones[zid].subZoneIds;
    var sid := EntrySubZone(st, zid, e.subzoneIndex);
    var st1 :=
      if sid in st.subZones then st
      else
        (NewSubZoneKeepsWellFormed(st, zid, e.subzoneIndex);
         st.(subZones := st.subZones[sid := NewSubZone(zid, e.subzoneIndex)],
             zones := st.zones[zid := st.zones[zid].(subZoneIds := ids + [sid])],
             nextSubZoneId := sid + 1));
    var sz := st1.subZones[sid];
    var sz' := sz.(rainSensorReadings := sz.rainSensorReadings + [RainSensorReading(e.rainDetected, now)],
                   soilMoistureReadings := sz.soilMoistureReadings + [SoilMoistureReading(e.soilMoisturePercent, now)]);
    var added := if AutoIrrigationDue(sz', sid, e, st1.requests, st1.history, now) then [AutoRequest(sid, sz', now)] else [];
    SubZoneRewriteKeepsWellFormed(st1, sid, sz', st1.requests + added);
    st1.(subZones := st1.subZones[sid := sz'], requests := st1.requests + added)
  }

  /** Appending a fresh subzone to a zone keeps the database invariant. */
  lemma NewSubZoneKeepsWellFormed(st: State, zid: int, index: int)
    requires WellFormed(st) && zid in st.zones
    ensures var sid := st.nextSubZoneId;
      WellFormed(st.(subZones := st.subZones[sid := NewSubZone(zid, index)],
                     zones := st.zones[zid := st.zones[zid].(subZoneIds := st.zones[zid].subZoneIds + [sid])],
                     nextSubZoneId := sid + 1))
  {
    var sid := st.nextSubZoneId;
    var st' := st.(subZones := st.subZones[sid := NewSubZone(zid, index)],
                   zones := st.zones[zid := st.zones[zid].(subZoneIds := st.zones[zid].subZoneIds + [sid])],
                   nextSubZoneId := sid + 1);
    forall z | z in st'.zones
      ensures OwnsItsSubZones(st', z)
    {
      assert OwnsItsSubZones(st, z);
    }
  }

  /** Rewriting a subzone within its zone, and replacing the requests,
      keeps the database invariant. */
  lemma SubZoneRewriteKeepsWellFormed(st: State, sid: int, sz: SubZone, requests: seq<IrrigationRequest>)
    requires WellFormed(st) && sid in st.subZones && sz.zoneId == st.subZones[sid].zoneId
    requires forall k :: 0 <= k < |requests| ==> requests[k].subZoneId in st.subZones
    ensures WellFormed(st.(subZones := st.subZones[sid := sz], requests := requests))
  {
    var st' := st.(subZones := st.subZones[sid := sz], requests := requests);
    forall z | z in st'.zones
      ensures OwnsItsSubZones(st', z)
    {
      assert OwnsItsSubZones(st, z);
    }
  }

  /** Steps 2 and 3 for the entries of a report, in order. */
  function IngestEntries(st: State, zid: int, es: seq<SubzoneData>, now: Instant): (r: State)
    requires WellFormed(st) && zid in st.zones
    ensures WellFormed(r) && r.zones.Keys == st.zones.Keys && st.requests <= r.requests
    decreases |es|
  {
    if es == [] then st
    else IngestEntry(IngestEntries(st, zid, es[..|es| - 1], now), zid, es[|es| - 1], now)
  }

  lemma IngestEntryFrame(st: State, zid: int, e: SubzoneData, now: Instant)
    requires WellFormed(st) && zid in st.zones
    ensures IngestFrame(st, IngestEntry(st, zid, e, now), zid)
  {
  }

  lemma {:induction false} IngestEntriesFrame(st: State, zid: int, es: seq<SubzoneData>, now: Instant)
    requires WellFormed(st) && zid in st.zones
    ensures IngestFrame(st, IngestEntries(st, zid, es, now), zid)
    decreases |es|
  {
    if es != [] {
      var mid := IngestEntries(st, zid, es[..|es| - 1], now);
      IngestEntriesFrame(st, zid, es[..|es| - 1], now);
      IngestEntryFrame(mid, zid, es[|es| - 1], now);
      IngestFrameTransitive(st, mid, IngestEntry(mid, zid, es[|es| - 1], now), zid);
    }
  }

  /** ingestSensorData. */
  ghost function Ingest(st: State, uid: string, es: seq<SubzoneData>, now: Instant): (r: State)
    requires WellFormed(st)
    ensures WellFormed(r)
  {
    var (st1, zid) := ControllerZone(st, uid);
    IngestEntries(st1, zid, es, now)
  }

  /** An entry's subzone is the first of the zone with its index; only when
      there is none is one new subzone, with that index, appended. */
  lemma IngestEntrySubZone(st: State, zid: int, e: SubzoneData, now: Instant)
    requires WellFormed(st) && zid in st.zones
    ensures var ids := st.zones[zid].subZoneIds;
      var sid := EntrySubZone(st, zid, e.subzoneIndex);
      var r := IngestEntry(st, zid, e, now);
      && sid in r.zones[zid].subZoneIds
      && r.subZones[sid].subzoneIndex == e.subzoneIndex
      && (sid in st.subZones ==>
            && r.zones[zid].subZoneIds == ids
            && exists p :: 0 <= p < |ids| && ids[p] == sid &&
                 forall j :: 0 <= j < p ==> st.subZones[ids[j]].subzoneIndex != e.subzoneIndex)
      && (sid !in st.subZones ==>
            && r.zones[zid].subZoneIds == ids + [sid]
            && r.subZones.Keys == st.subZones.Keys + {sid}
            && (forall j :: 0 <= j < |ids| ==> st.subZones[ids[j]].subzoneIndex != e.subzoneIndex)
            && SameSettings(NewSubZone(zid, e.subzoneIndex), r.subZones[sid]))
  {
    var ids := st.zones[zid].subZoneIds;
    var found := FirstWithIndex(ids, st.subZones, e.subzoneIndex);
    if found.Some? {
      assert ids[found.value] in st.subZones;
    }
  }

  /** Each entry appends exactly one rain reading and one moisture reading,
      stamped `now`, to its subzone, and changes no other subzone. */
  lemma IngestEntryReadings(st: State, zid: int, e: SubzoneData, now: Instant)
    requires WellFormed(st) && zid in st.zones
    ensures var sid := EntrySubZone(st, zid, e.subzoneIndex);
      var r := IngestEntry(st, zid, e, now);
      var before := if sid in st.subZones then st.subZones[sid] else NewSubZone(zid, e.subzoneIndex);
      && sid in r.subZones
      && r.subZones[sid].rainSensorReadings == before.rainSensorReadings + [RainSensorReading(e.rainDetected, now)]
      && r.subZones[sid].soilMoistureReadings == before.soilMoistureReadings + [SoilMoistureReading(e.soilMoisturePercent, now)]
      && forall s :: s in st.subZones && s != sid ==> r.subZones[s] == st.subZones[s]
  {
  }

  /** An entry creates an automatic request exactly when its subzone has a
      plant type, the reported moisture is strictly below the plant's
      minimum, it is not raining, the subzone has no irrigation issue,
      nothing is pending for it, and it was not irrigated within the hour. */
  lemma IngestEntryRequests(st: State, zid: int, e: SubzoneData, now: Instant)
    requires WellFormed(st) && zid in st.zones
    ensures var sid := EntrySubZone(st, zid, e.subzoneIndex);
      var r := IngestEntry(st, zid, e, now);
      var due :=
        && sid in st.subZones
        && st.subZones[sid].plantType.Some?
        && e.soilMoisturePercent < st.subZones[sid].plantType.value.optimalMoistureMin
        && !e.rainDetected
        && st.subZones[sid].hasIrrigationIssue != Some(true)
        && (forall q :: q in st.requests ==> !IsPending(q, sid, now))
        && (forall h :: h in st.history && h.subZoneId == sid ==> h.startTime <= now - HOUR);
      && sid in r.subZones
      && r.requests == st.requests + (if due then [AutoRequest(sid, r.subZones[sid], now)] else [])
      && (due ==> PendingRequests(st.requests, sid, now) == [])
  {
    var sid := EntrySubZone(st, zid, e.subzoneIndex);
    var r := IngestEntry(st, zid, e, now);
    AutoIrrigationRule(r.subZones[sid], sid, e, st.requests, st.history, now);
    NoPendingIff(st.requests, sid, now);
  }

  /** Ingestion with an unknown controller UID creates exactly one zone, which
      carries the UID; with a known UID it reuses that zone. */
  lemma IngestFindsOrCreatesZone(st: State, uid: string, es: seq<SubzoneData>, now: Instant)
    requires WellFormed(st)
    ensures var r := Ingest(st, uid, es, now);
      var zid := ControllerZone(st, uid).1;
      && ZoneKeyOf(r.zones, uid) == Some(zid)
      && (ZoneKeyOf(st.zones, uid).Some? ==> zid == ZoneKeyOf(st.zones, uid).value && r.zones.Keys == st.zones.Keys)
      && (ZoneKeyOf(st.zones, uid).None? ==>
            zid == st.nextZoneId && zid !in st.zones && r.zones.Keys == st.zones.Keys + {zid})
  {
    var (st1, zid) := ControllerZone(st, uid);
    var r := IngestEntries(st1, zid, es, now);
    IngestEntriesFrame(st1, zid, es, now);
    ZoneKeyOfUnique(r, uid, zid);
  }

  /** Ingestion never removes a zone, a subzone, a reading, a request or a
      history row, and appends subzones only at the end of a zone's list. */
  lemma IngestKeepsEverything(st: State, uid: string, es: seq<SubzoneData>, now: Instant)
    requires WellFormed(st)
    ensures var r := Ingest(st, uid, es, now);
      && st.zones.Keys <= r.zones.Keys
      && (forall z :: z in st.zones ==> st.zones[z].subZoneIds <= r.zones[z].subZoneIds)
      && (forall s :: s in st.subZones ==>
            && s in r.subZones
            && st.subZones[s].soilMoistureReadings <= r.subZones[s].soilMoistureReadings
            && st.subZones[s].rainSensorReadings <= r.subZones[s].rainSensorReadings)
      && st.requests <= r.requests
      && r.history == st.history
  {
    var st1 := ControllerZone(st, uid).0;
    var zid := ControllerZone(st, uid).1;
    IngestEntriesFrame(st1, zid, es, now);
    KeptThroughFrame(st, st1, IngestEntries(st1, zid, es, now), zid);
  }

  /** A state that differs from `st` by at most a new zone keeps
      everything `st` holds through an ingestion frame. */
  lemma KeptThroughFrame(st: State, st1: State, r: State, zid: int)
    requires zid in st1.zones
    requires st.zones.Keys <= st1.zones.Keys && forall z :: z in st.zones ==> st1.zones[z] == st.zones[z]
    requires st1.subZones == st.subZones && st1.requests == st.requests && st1.history == st.history
    requires IngestFrame(st1, r, zid)
    ensures st.zones.Keys <= r.zones.Keys
    ensures forall z :: z in st.zones ==> st.zones[z].subZoneIds <= r.zones[z].subZoneIds
    ensures forall s :: s in st.subZones ==>
      && s in r.subZones
      && st.subZones[s].soilMoistureReadings <= r.subZones[s].soilMoistureReadings
      && st.subZones[s].rainSensorReadings <= r.subZones[s].rainSensorReadings
    ensures st.requests <= r.requests
    ensures r.history == st.history
  {
  }

  /** The indexes of `ys` not yet in `xs`, appended in first-seen order. */
  function AppendNew(xs: seq<int>, ys: seq<int>): (r: seq<int>)
    ensures xs <= r
    ensures forall y :: y in r <==> y in xs || y in ys
    ensures (forall i, j :: 0 <= i < j < |xs| ==> xs[i] != xs[j]) ==> forall i, j :: 0 <= i < j < |r| ==> r[i] != r[j]
    decreases |ys|
  {
    if ys == [] then xs
    else
      var p := AppendNew(xs, ys[..|ys| - 1]);
      var y := ys[|ys| - 1];
      assert forall v :: v in ys <==> v in ys[..|ys| - 1] || v == y by {
        assert ys == ys[..|ys| - 1] + [y];
      }
      if y in p then p else p + [y]
  }

  function EntryIndexes(es: seq<SubzoneData>): seq<int>
  {
    seq(|es|, k requires 0 <= k < |es| => es[k].subzoneIndex)
  }

  lemma EntryIndexesOfInit(es: seq<SubzoneData>)
    requires es != []
    ensures var ys := EntryIndexes(es);
      ys[..|ys| - 1] == EntryIndexes(es[..|es| - 1]) && ys[|ys| - 1] == es[|es| - 1].subzoneIndex
  { }

  lemma IngestEntryIndexes(st: State, zid: int, e: SubzoneData, now: Instant)
    requires WellFormed(st) && zid in st.zones
    ensures var old_ := SubZoneIndexes(st, zid);
      SubZoneIndexes(IngestEntry(st, zid, e, now), zid) ==
        if e.subzoneIndex in old_ then old_ else old_ + [e.subzoneIndex]
  {
    var r := IngestEntry(st, zid, e, now);
    var ids := st.zones[zid].subZoneIds;
    var xs := SubZoneIndexes(st, zid);
    var ys := SubZoneIndexes(r, zid);
    IngestEntrySubZone(st, zid, e, now);
    var sid := EntrySubZone(st, zid, e.subzoneIndex);
    assert forall k :: 0 <= k < |ids| ==> ys[k] == xs[k] by {
      forall k | 0 <= k < |ids| ensures ys[k] == xs[k] {
        assert ids[k] in st.subZones;
        assert SameSettings(st.subZones[ids[k]], r.subZones[ids[k]]);
      }
    }
    if sid in st.subZones {
      var p :| 0 <= p < |ids| && ids[p] == sid;
      assert xs[p] == e.subzoneIndex;
    } else {
      assert e.subzoneIndex !in xs;
    }
  }

  lemma {:induction false} IngestEntriesIndexes(st: State, zid: int, es: seq<SubzoneData>, now: Instant)
    requires WellFormed(st) && zid in st.zones
    ensures SubZoneIndexes(IngestEntries(st, zid, es, now), zid) == AppendNew(SubZoneIndexes(st, zid), EntryIndexes(es))
    decreases |es|
  {
    if es != [] {
      var init := es[..|es| - 1];
      var e := es[|es| - 1];
      var mid := IngestEntries(st, zid, init, now);
      var xs := SubZoneIndexes(st, zid);
      var ys := EntryIndexes(es);
      assert SubZoneIndexes(mid, zid) == AppendNew(xs, EntryIndexes(init)) by {
        IngestEntriesIndexes(st, zid, init, now);
      }
      assert SubZoneIndexes(IngestEntry(mid, zid, e, now), zid) ==
        if e.subzoneIndex in SubZoneIndexes(mid, zid) then SubZoneIndexes(mid, zid)
        else SubZoneIndexes(mid, zid) + [e.subzoneIndex] by {
        IngestEntryIndexes(mid, zid, e, now);
      }
      EntryIndexesOfInit(es);
      assert IngestEntries(st, zid, es, now) == IngestEntry(mid, zid, e, now);
      var p := AppendNew(xs, EntryIndexes(init));
      assert AppendNew(xs, ys) == if e.subzoneIndex in p then p else p + [e.subzoneIndex];
    }
  }

  /** A first-seen controller's new zone has one subzone per distinct index
      of the report, in first-seen order. */
  lemma FirstSeenControllerSubZones(st: State, uid: string, es: seq<SubzoneData>, now: Instant)
    requires WellFormed(st)
    requires ZoneKeyOf(st.zones, uid).None?
    ensures var r := Ingest(st, uid, es, now);
      SubZoneIndexes(r, st.nextZoneId) == AppendNew([], EntryIndexes(es))
  {
    var (st1, zid) := ControllerZone(st, uid);
    IngestEntriesIndexes(st1, zid, es, now);
    assert SubZoneIndexes(st1, zid) == [];
  }

  /** An automatic request as ingestion into zone `zid` creates it. */
  ghost predicate AutoRequestOf(st: State, zid: int, q: IrrigationRequest, now: Instant)
    requires zid in st.zones
  {
    && q.triggeredBy == Auto
    && q.requestedAt == now
    && !q.executed
    && q.subZoneId in st.zones[zid].subZoneIds
    && q.subZoneId in st.subZones
    && q.durationSeconds == st.subZones[q.subZoneId].defaultIrrigationDurationInSeconds
  }

  /** What ingestion adds to the request table: only automatic requests,
      stamped `now`, unexecuted, for subzones of the zone, each with its
      subzone's default duration. */
  lemma {:induction false} IngestAddsOnlyAutoRequests(st: State, zid: int, es: seq<SubzoneData>, now: Instant, r: State)
    requires WellFormed(st) && zid in st.zones
    requires r == IngestEntries(st, zid, es, now)
    ensures forall k :: |st.requests| <= k < |r.requests| ==> AutoRequestOf(r, zid, r.requests[k], now)
    decreases |es|
  {
    if es != [] {
      var init := es[..|es| - 1];
      var e := es[|es| - 1];
      var mid := IngestEntries(st, zid, init, now);
      IngestAddsOnlyAutoRequests(st, zid, init, now, mid);
      assert r == IngestEntry(mid, zid, e, now);
      IngestEntryAddsAuto(mid, zid, e, now);
      IngestEntryFrame(mid, zid, e, now);
      AutoRequestsKept(|st.requests|, mid, r, zid, now);
    }
  }

  /** The request one entry may add is automatic, for the entry's subzone. */
  lemma IngestEntryAddsAuto(st: State, zid: int, e: SubzoneData, now: Instant)
    requires WellFormed(st) && zid in st.zones
    ensures var r := IngestEntry(st, zid, e, now);
      forall k :: |st.requests| <= k < |r.requests| ==> AutoRequestOf(r, zid, r.requests[k], now)
  {
    IngestEntryRequests(st, zid, e, now);
    IngestEntrySubZone(st, zid, e, now);
  }

  /** Requests already automatic stay so across an ingestion frame, which
      only appends requests and readings. */
  lemma AutoRequestsKept(n: nat, mid: State, r: State, zid: int, now: Instant)
    requires zid in mid.zones && zid in r.zones
    requires IngestFrame(mid, r, zid)
    requires forall k :: n <= k < |mid.requests| ==> AutoRequestOf(mid, zid, mid.requests[k], now)
    requires forall k :: |mid.requests| <= k < |r.requests| ==> AutoRequestOf(r, zid, r.requests[k], now)
    ensures forall k :: n <= k < |r.requests| ==> AutoRequestOf(r, zid, r.requests[k], now)
  {
    forall k | n <= k < |mid.requests|
      ensures AutoRequestOf(r, zid, r.requests[k], now)
    {
      var q := mid.requests[k];
      assert r.requests[k] == q;
      assert SameSettings(mid.subZones[q.subZoneId], r.subZones[q.subZoneId]);
    }
  }

  lemma AppendedPart<T>(a: seq<T>, b: seq<T>)
    requires a <= b
    ensures b == a + b[|a|..]
  {
  }

  lemma AppendedParts<T>(a: seq<T>, b: seq<T>, c: seq<T>)
    requires a <= b && b <= c
    ensures c[|a|..] == b[|a|..] + c[|b|..]
  {
  }

  lemma AtMostOnePendingStep(before: seq<IrrigationRequest>, added: seq<IrrigationRequest>,
                             step: seq<IrrigationRequest>, s: int, now: Instant)
    requires var p := PendingRequests(added, s, now);
      p == [] || (|p| == 1 && PendingRequests(before, s, now) == [])
    requires step == [] ||
      (|step| == 1 && IsPending(step[0], step[0].subZoneId, now)
       && PendingRequests(before + added, step[0].subZoneId, now) == [])
    ensures var p := PendingRequests(added + step, s, now);
      p == [] || (|p| == 1 && PendingRequests(before, s, now) == [])
  {
    PendingOfConcat(added, step, s, now);
    PendingOfConcat(before, added, s, now);
    if step != [] {
      assert step == [step[0]];
      PendingOfConcat([], step, s, now);
      if step[0].subZoneId == s {
        PendingOfConcat(before, added, step[0].subZoneId, now);
      }
    }
  }

  /** Ingestion adds at most one request per subzone, and only to a subzone
      that had nothing pending. */
  lemma {:induction false} IngestAtMostOneAutoPerSubZone(st: State, zid: int, es: seq<SubzoneData>, now: Instant, s: int)
    requires WellFormed(st) && zid in st.zones
    ensures var r := IngestEntries(st, zid, es, now);
      var added := PendingRequests(r.requests[|st.requests|..], s, now);
      added == [] || (|added| == 1 && PendingRequests(st.requests, s, now) == [])
    decreases |es|
  {
    if es != [] {
      var init := es[..|es| - 1];
      var e := es[|es| - 1];
      var n := |st.requests|;
      IngestAtMostOneAutoPerSubZone(st, zid, init, now, s);
      assert var r0 := IngestEntries(st, zid, init, now);
        var added := PendingRequests(r0.requests[n..], s, now);
        added == [] || (|added| == 1 && PendingRequests(st.requests, s, now) == []);
      var mid := IngestEntries(st, zid, init, now);
      var r := IngestEntry(mid, zid, e, now);
      var step := r.requests[|mid.requests|..];
      assert step == [] ||
        (|step| == 1 && IsPending(step[0], step[0].subZoneId, now)
         && PendingRequests(mid.requests, step[0].subZoneId, now) == []) by {
        IngestEntryRequests(mid, zid, e, now);
      }
      AppendedPart(st.requests, mid.requests);
      AppendedParts(st.requests, mid.requests, r.requests);
      AtMostOnePendingStep(st.requests, mid.requests[n..], step, s, now);
    }
  }

  // ---------------------------------------------------------------------
  // Planned-irrigation dispatch

  /** The plan of one subzone: its index and its planned duration. */
  function PlanFor(st: State, sid: int, now: Instant): SubZonePlan
    requires sid in st.subZones
  {
    SubZonePlan(st.subZones[sid].subzoneIndex, PlannedDuration(st.requests, sid, now))
  }

  function PlansFor(st: State, ids: seq<int>, now: Instant): seq<SubZonePlan>
    requires forall k :: 0 <= k < |ids| ==> ids[k] in st.subZones
  {
    seq(|ids|, k requires 0 <= k < |ids| => PlanFor(st, ids[k], now))
  }

  /** Dispatch for the subzones of one zone: one plan per subzone in list
      order, one history row per subzone with a pending request, and every
      pending request of those subzones executed. */
  function Dispatch(st: State, zid: int, now: Instant): (r: (seq<SubZonePlan>, State))
    requires WellFormed(st) && zid in st.zones
    ensures WellFormed(r.1)
    ensures |r.0| == |st.zones[zid].subZoneIds|
    ensures forall k :: 0 <= k < |r.0| ==>
      r.0[k].subzoneIndex == st.subZones[st.zones[zid].subZoneIds[k]].subzoneIndex
  {
    var ids := st.zones[zid].subZoneIds;
    (PlansFor(st, ids, now),
     st.(requests := MarkExecuted(st.requests, ids, now),
         history := st.history + HistoryRows(st.requests, ids, now)))
  }

  /** calculatePlannedIrrigation. */
  ghost function Plan(st: State, uid: string, now: Instant): (r: (Result<seq<SubZonePlan>>, State))
    requires WellFormed(st)
    ensures WellFormed(r.1)
    ensures r.0.Err? <==> ZoneKeyOf(st.zones, uid).None?
    ensures r.0.Err? ==> r.0.failure == NotFound && r.1 == st
  {
    match ZoneKeyOf(st.zones, uid)
    case None => (Err(NotFound), st)
    case Some(zid) =>
      var (plans, st') := Dispatch(st, zid, now);
      (Ok(plans), st')
  }

  /** After dispatch nothing is pending for the zone's subzones, at `now` or
      later; requests of other subzones, zones and subzones are untouched. */
  lemma DispatchExecutesAllPending(st: State, zid: int, now: Instant, later: Instant)
    requires WellFormed(st) && zid in st.zones
    requires now <= later
    ensures var r := Dispatch(st, zid, now).1;
      && r.zones == st.zones && r.subZones == st.subZones
      && (forall s :: s in st.zones[zid].subZoneIds ==> PendingRequests(r.requests, s, later) == [])
      && (forall s :: s !in st.zones[zid].subZoneIds ==>
            PendingRequests(r.requests, s, now) == PendingRequests(st.requests, s, now))
  {
    var ids := st.zones[zid].subZoneIds;
    forall s | s in ids
      ensures PendingRequests(MarkExecuted(st.requests, ids, now), s, later) == []
    {
      NothingPendingAfterMark(st.requests, ids, s, now, later);
    }
    forall s | s !in ids
      ensures PendingRequests(MarkExecuted(st.requests, ids, now), s, now) == PendingRequests(st.requests, s, now)
    {
      PendingUnaffected(st.requests, ids, s, now);
    }
  }

  lemma {:induction false} NoHistoryWithoutPending(rs: seq<IrrigationRequest>, ids: seq<int>, now: Instant)
    requires forall s :: s in ids ==> PendingRequests(rs, s, now) == []
    ensures HistoryRows(rs, ids, now) == []
    decreases |ids|
  {
    if ids != [] {
      assert ids[|ids| - 1] in ids;
      assert forall s :: s in ids[..|ids| - 1] ==> s in ids;
      NoHistoryWithoutPending(rs, ids[..|ids| - 1], now);
    }
  }

  /** A second dispatch, at the same time or later and with no new requests,
      plans 0 for every subzone and writes no history. */
  lemma ReplanIsIdle(st: State, uid: string, now: Instant, later: Instant)
    requires WellFormed(st)
    requires ZoneKeyOf(st.zones, uid).Some?
    requires now <= later
    ensures var first := Plan(st, uid, now).1;
      var second := Plan(first, uid, later);
      var ids := st.zones[ZoneKeyOf(st.zones, uid).value].subZoneIds;
      && second.0.Ok?
      && |second.0.value| == |ids|
      && (forall k :: 0 <= k < |ids| ==> second.0.value[k].plannedIrrigationDurationInSeconds == 0)
      && second.1.history == first.history
  {
    var zid := ZoneKeyOf(st.zones, uid).value;
    var ids := st.zones[zid].subZoneIds;
    var first := Plan(st, uid, now).1;
    DispatchExecutesAllPending(st, zid, now, later);
    ZoneKeyOfUnique(first, uid, zid);
    forall k | 0 <= k < |ids|
      ensures PlannedDuration(first.requests, ids[k], later) == 0
    {
      assert ids[k] in ids;
    }
    NoHistoryWithoutPending(first.requests, ids, later);
  }

  // ---------------------------------------------------------------------
  // Zone update, lookup and deletion

  /** updateZone: copies name, coordinates and extra info of the incoming
      zone; controller UID and subzones stay as they were. */
  function ZoneUpdate(st: State, id: int, incoming: Zone): (r: Result<State>)
    ensures r.Err? <==> id !in st.zones
    ensures r.Err? ==> r.failure == NotFound
    ensures r.Ok? ==>
      && r.value.zones.Keys == st.zones.Keys
      && r.value.zones[id].name == incoming.name
      && r.value.zones[id].latitude == incoming.latitude
      && r.value.zones[id].longitude == incoming.longitude
      && r.value.zones[id].extraInfo == incoming.extraInfo
      && r.value.zones[id].controllerUid == st.zones[id].controllerUid
      && r.value.zones[id].subZoneIds == st.zones[id].subZoneIds
      && (forall z :: z in st.zones && z != id ==> r.value.zones[z] == st.zones[z])
      && r.value.(zones := st.zones) == st
  {
    if id !in st.zones then Err(NotFound)
    else
      var existing := st.zones[id];
      var updated := existing.(name := incoming.name, latitude := incoming.latitude,
                               longitude := incoming.longitude, extraInfo := incoming.extraInfo);
      Ok(st.(zones := st.zones[id := updated]))
  }

  lemma ZoneUpdatePreservesWellFormed(st: State, id: int, incoming: Zone)
    requires WellFormed(st)
    ensures ZoneUpdate(st, id, incoming).Ok? ==> WellFormed(ZoneUpdate(st, id, incoming).value)
  {
    var r := ZoneUpdate(st, id, incoming);
    if r.Ok? {
      forall z | z in r.value.zones ensures OwnsItsSubZones(r.value, z) {
        assert OwnsItsSubZones(st, z);
      }
    }
  }

  /** The requests of the subzones outside `ids`, in order (the rest are
      removed with their subzone by the ON DELETE CASCADE of their key). */
  function RequestsOutside(rs: seq<IrrigationRequest>, ids: seq<int>): (r: seq<IrrigationRequest>)
    ensures |r| <= |rs|
    ensures forall q :: q in r <==> q in rs && q.subZoneId !in ids
    ensures forall q: IrrigationRequest :: q.subZoneId !in ids ==> multiset(r)[q] == multiset(rs)[q]
    ensures (forall k :: 0 <= k < |rs| ==> rs[k].subZoneId !in ids) ==> r == rs
  {
    if rs == [] then []
    else
      assert rs == [rs[0]] + rs[1..];
      (if rs[0].subZoneId in ids then [] else [rs[0]]) + RequestsOutside(rs[1..], ids)
  }

  /** Removing requests of some subzones from two runs of the table removes
      them from each run, keeping the order. */
  lemma {:induction false} RequestsOutsideOfConcat(a: seq<IrrigationRequest>, b: seq<IrrigationRequest>, ids: seq<int>)
    ensures RequestsOutside(a + b, ids) == RequestsOutside(a, ids) + RequestsOutside(b, ids)
  {
    if a == [] {
      assert a + b == b;
    } else {
      RequestsOutsideOfConcat(a[1..], b, ids);
      RequestsOutsideCons(a, ids);
      RequestsOutsideCons(a + b, ids);
      TailOfConcat(a, b);
      ConcatAssociates(if a[0].subZoneId in ids then [] else [a[0]],
        RequestsOutside(a[1..], ids), RequestsOutside(b, ids));
    }
  }

  lemma ConcatAssociates<T>(x: seq<T>, y: seq<T>, z: seq<T>)
    ensures x + (y + z) == (x + y) + z
  { }

  lemma TailOfConcat<T>(a: seq<T>, b: seq<T>)
    requires a != []
    ensures (a + b)[0] == a[0] && (a + b)[1..] == a[1..] + b
  { }

  /** One step of the removal: the first request is kept or dropped. */
  lemma RequestsOutsideCons(rs: seq<IrrigationRequest>, ids: seq<int>)
    requires rs != []
    ensures RequestsOutside(rs, ids) ==
      (if rs[0].subZoneId in ids then [] else [rs[0]]) + RequestsOutside(rs[1..], ids)
  { }

  /** Removing other subzones' requests leaves a subzone's pending list as it was. */
  lemma {:induction false} PendingOutside(rs: seq<IrrigationRequest>, ids: seq<int>, s: int, now: Instant)
    requires s !in ids
    ensures PendingRequests(RequestsOutside(rs, ids), s, now) == PendingRequests(rs, s, now)
  {
    if rs != [] {
      PendingOutside(rs[1..], ids, s, now);
      var head := if rs[0].subZoneId in ids then [] else [rs[0]];
      PendingOfConcat(head, RequestsOutside(rs[1..], ids), s, now);
      if head != [] {
        assert head[1..] == [];
      }
    }
  }

  /** Whether some history row names one of the subzones `ids`. */
  function HistoryMentions(hs: seq<IrrigationHistory>, ids: seq<int>): (b: bool)
    ensures b <==> exists k :: 0 <= k < |hs| && hs[k].subZoneId in ids
  {
    if hs == [] then false
    else
      assert forall k :: 1 <= k < |hs| ==> hs[k] == hs[1..][k - 1];
      hs[0].subZoneId in ids || HistoryMentions(hs[1..], ids)
  }

  /** The tables after the zone `id` and its subzones' rows are removed. */
  function ZoneRemoved(st: State, id: int): State
    requires id in st.zones
  {
    var ids := st.zones[id].subZoneIds;
    st.(zones := st.zones - {id},
        subZones := map s | s in st.subZones && s !in ids :: st.subZones[s],
        requests := RequestsOutside(st.requests, ids))
  }

  /** Removing a zone with no history keeps the database invariant. */
  lemma ZoneRemovedKeepsWellFormed(st: State, id: int)
    requires WellFormed(st) && id in st.zones
    requires !HistoryMentions(st.history, st.zones[id].subZoneIds)
    ensures WellFormed(ZoneRemoved(st, id))
  {
    var ids := st.zones[id].subZoneIds;
    var r := ZoneRemoved(st, id);
    forall z | z in r.zones ensures OwnsItsSubZones(r, z) {
      assert OwnsItsSubZones(st, z) && OwnsItsSubZones(st, id);
      var zids := st.zones[z].subZoneIds;
      forall k | 0 <= k < |zids| ensures zids[k] !in ids {
        assert st.subZones[zids[k]].zoneId == z;
        assert forall m :: 0 <= m < |ids| ==> st.subZones[ids[m]].zoneId == id;
      }
    }
    forall k | 0 <= k < |r.requests| ensures r.requests[k].subZoneId in r.subZones {
      assert r.requests[k] in r.requests;
      var j :| 0 <= j < |st.requests| && st.requests[j] == r.requests[k];
    }
  }

  /** deleteZone: a server error for an unknown zone. Removing the zone
      cascades to its subzones and, through their keys, to their requests;
      a history row of one of those subzones blocks the delete, since its
      non-null key has no cascade, and nothing is removed. */
  function ZoneDeletion(st: State, id: int): (r: Result<State>)
    requires WellFormed(st)
    ensures r.Err? <==> id !in st.zones || HistoryMentions(st.history, st.zones[id].subZoneIds)
    ensures id !in st.zones ==> r == Err(ServerError(ZoneMissing))
    ensures id in st.zones && HistoryMentions(st.history, st.zones[id].subZoneIds) ==>
      r == Err(ServerError(SubZoneHasHistory))
    ensures r.Ok? ==>
      var ids := st.zones[id].subZoneIds;
      && WellFormed(r.value)
      && r.value.zones == st.zones - {id}
      && (forall s :: s in r.value.subZones <==> s in st.subZones && s !in ids)
      && (forall s :: s in r.value.subZones ==> r.value.subZones[s] == st.subZones[s])
      && r.value.requests == RequestsOutside(st.requests, ids)
      && r.value.(zones := st.zones, subZones := st.subZones, requests := st.requests) == st
  {
    if id !in st.zones then Err(ServerError(ZoneMissing))
    else if HistoryMentions(st.history, st.zones[id].subZoneIds) then Err(ServerError(SubZoneHasHistory))
    else
      ZoneRemovedKeepsWellFormed(st, id);
      Ok(ZoneRemoved(st, id))
  }

  /** Deleting a zone leaves every other subzone's pending requests as they were. */
  lemma DeletionKeepsOtherPending(st: State, id: int, s: int, now: Instant)
    requires WellFormed(st)
    requires ZoneDeletion(st, id).Ok?
    requires s !in st.zones[id].subZoneIds
    ensures PendingRequests(ZoneDeletion(st, id).value.requests, s, now) == PendingRequests(st.requests, s, now)
  {
    PendingOutside(st.requests, st.zones[id].subZoneIds, s, now);
  }

  // ---------------------------------------------------------------------
  // The service methods, on the database

  /** findById: a missing zone raises IllegalStateException (HTTP 500). */
  method FindById(db: Database, id: int) returns (r: Result<Zone>)
    ensures id in db.zones ==> r == Ok(db.zones[id])
    ensures id !in db.zones ==> r == Err(ServerError(ZoneMissing))
  {
    if id in db.zones {
      r := Ok(db.zones[id]);
    } else {
      r := Err(ServerError(ZoneMissing));
    }
  }

  method UpdateZone(db: Database, id: int, incoming: Zone) returns (r: Result<Zone>)
    requires db.Valid()
    modifies db
    ensures db.Valid()
    ensures var spec := ZoneUpdate(old(db.Snapshot()), id, incoming);
      && (spec.Err? ==> r == Err(spec.failure) && db.Snapshot() == old(db.Snapshot()))
      && (spec.Ok? ==> db.Snapshot() == spec.value && r == Ok(db.zones[id]))
  {
    ZoneUpdatePreservesWellFormed(db.Snapshot(), id, incoming);
    if id !in db.zones {
      return Err(NotFound);
    }
    var existing := db.zones[id];
    existing := existing.(name := incoming.name);
    existing := existing.(latitude := incoming.latitude);
    existing := existing.(longitude := incoming.longitude);
    existing := existing.(extraInfo := incoming.extraInfo);
    db.zones := db.zones[id := existing];
    r := Ok(existing);
  }

  method DeleteZone(db: Database, id: int) returns (r: Result<()>)
    requires db.Valid()
    modifies db
    ensures db.Valid()
    ensures var spec := ZoneDeletion(old(db.Snapshot()), id);
      && (spec.Err? ==> r == Err(spec.failure) && db.Snapshot() == old(db.Snapshot()))
      && (spec.Ok? ==> r == Ok(()) && db.Snapshot() == spec.value)
  {
    ghost var st := db.Snapshot();
    var found := FindById(db, id);
    if found.Err? {
      return Err(found.failure);
    }
    var ids := db.zones[id].subZoneIds;
    if HistoryMentions(db.history, ids) {
      return Err(ServerError(SubZoneHasHistory));
    }
    db.zones := db.zones - {id};
    db.subZones := map s | s in db.subZones && s !in ids :: db.subZones[s];
    db.requests := RequestsOutside(db.requests, ids);
    ZoneRemovedKeepsWellFormed(st, id);
    assert db.Snapshot() == ZoneRemoved(st, id);
    assert ZoneDeletion(st, id) == Ok(ZoneRemoved(st, id));
    r := Ok(());
  }

  /** Steps 2 and 3 of ingestSensorData for one entry, in place. */
  method IngestSubzoneData(db: Database, zid: int, e: SubzoneData, now: Instant)
    requires db.Valid() && zid in db.zones
    modifies db
    ensures db.Snapshot() == IngestEntry(old(db.Snapshot()), zid, e, now)
  {
    var ids := db.zones[zid].subZoneIds;
    var found := FirstWithIndex(ids, db.subZones, e.subzoneIndex);
    var sid: int;
    if found.None? {
      sid := db.nextSubZoneId;
      db.subZones := db.subZones[sid := NewSubZone(zid, e.subzoneIndex)];
      db.zones := db.zones[zid := db.zones[zid].(subZoneIds := ids + [sid])];
      db.nextSubZoneId := db.nextSubZoneId + 1;
    } else {
      sid := ids[found.value];
    }
    var subZone := db.subZones[sid];
    subZone := subZone.(rainSensorReadings := subZone.rainSensorReadings + [RainSensorReading(e.rainDetected, now)]);
    subZone := subZone.(soilMoistureReadings := subZone.soilMoistureReadings + [SoilMoistureReading(e.soilMoisturePercent, now)]);
    db.subZones := db.subZones[sid := subZone];
    if AutoIrrigationDue(subZone, sid, e, db.requests, db.history, now) {
      db.requests := db.requests + [AutoRequest(sid, subZone, now)];
    }
  }

  lemma IngestEntriesSnoc(st: State, zid: int, es: seq<SubzoneData>, i: int, now: Instant)
    requires WellFormed(st) && zid in st.zones
    requires 0 <= i < |es|
    ensures IngestEntries(st, zid, es[..i + 1], now) == IngestEntry(IngestEntries(st, zid, es[..i], now), zid, es[i], now)
  {
    assert es[..i + 1][..i] == es[..i];
  }

  method IngestSensorData(db: Database, uid: string, es: seq<SubzoneData>, now: Instant)
    requires db.Valid()
    modifies db
    ensures db.Valid()
    ensures db.Snapshot() == Ingest(old(db.Snapshot()), uid, es, now)
  {
    ghost var st0 := db.Snapshot();
    var zid: int;
    if exists z :: z in db.zones && db.zones[z].controllerUid == uid {
      zid :| zid in db.zones && db.zones[zid].controllerUid == uid;
      ZoneKeyOfUnique(st0, uid, zid);
    } else {
      zid := db.nextZoneId;
      db.zones := db.zones[zid := NewZone(uid)];
      db.nextZoneId := db.nextZoneId + 1;
    }
    ghost var st1 := db.Snapshot();
    assert (st1, zid) == ControllerZone(st0, uid);
    assert es[..0] == [];
    var i := 0;
    while i < |es|
      invariant 0 <= i <= |es|
      invariant db.Snapshot() == IngestEntries(st1, zid, es[..i], now)
    {
      IngestSubzoneData(db, zid, es[i], now);
      IngestEntriesSnoc(st1, zid, es, i, now);
      i := i + 1;
    }
    assert es[..|es|] == es;
  }

  /** Marks executed, one by one, the requests pending for a subzone. */
  method MarkPendingExecuted(db: Database, sid: int, now: Instant)
    modifies db
    ensures db.requests == MarkExecuted(old(db.requests), [sid], now)
    ensures db.Snapshot() == old(db.Snapshot()).(requests := db.requests)
  {
    var k := 0;
    while k < |db.requests|
      invariant 0 <= k <= |db.requests| == |old(db.requests)|
      invariant forall j :: 0 <= j < k ==> db.requests[j] == Mark(old(db.requests)[j], [sid], now)
      invariant forall j :: k <= j < |db.requests| ==> db.requests[j] == old(db.requests)[j]
      invariant db.Snapshot() == old(db.Snapshot()).(requests := db.requests)
    {
      if IsPending(db.requests[k], sid, now) {
        db.requests := db.requests[k := db.requests[k].(executed := true)];
      }
      k := k + 1;
    }
  }

  /** The dispatch of one subzone: its history row when something is
      pending, and its pending requests executed. */
  function DispatchOne(st: State, sid: int, now: Instant): State
  {
    st.(requests := MarkExecuted(st.requests, [sid], now),
        history := st.history + match HistoryRow(st.requests, sid, now) case None => [] case Some(h) => [h])
  }

  /** The state after dispatching the first `i` subzones of `ids`. */
  function Dispatched(st: State, ids: seq<int>, i: int, now: Instant): State
    requires 0 <= i <= |ids|
  {
    st.(requests := MarkExecuted(st.requests, ids[..i], now),
        history := st.history + HistoryRows(st.requests, ids[..i], now))
  }

  lemma MarkedPrefixNext(rs: seq<IrrigationRequest>, ids: seq<int>, i: int, now: Instant)
    requires 0 <= i < |ids|
    ensures MarkExecuted(rs, ids[..i + 1], now) == MarkExecuted(MarkExecuted(rs, ids[..i], now), [ids[i]], now)
  {
    assert ids[..i + 1] == ids[..i] + [ids[i]];
    MarkExecutedTwice(rs, ids[..i], [ids[i]], now);
  }

  lemma HistoryRowsNext(rs: seq<IrrigationRequest>, ids: seq<int>, i: int, now: Instant)
    requires 0 <= i < |ids|
    ensures HistoryRows(rs, ids[..i + 1], now) ==
      HistoryRows(rs, ids[..i], now) + match HistoryRow(rs, ids[i], now) case None => [] case Some(h) => [h]
  {
    assert ids[..i + 1][..i] == ids[..i];
  }

  /** Since the subzones are distinct, a subzone's pending requests are the
      same after the subzones before it were dispatched. */
  lemma PendingBeforeTurn(rs: seq<IrrigationRequest>, ids: seq<int>, i: int, now: Instant)
    requires 0 <= i < |ids|
    requires forall a, b :: 0 <= a < b < |ids| ==> ids[a] != ids[b]
    ensures PendingRequests(MarkExecuted(rs, ids[..i], now), ids[i], now) == PendingRequests(rs, ids[i], now)
  {
    assert ids[i] !in ids[..i];
    PendingUnaffected(rs, ids[..i], ids[i], now);
  }

  /** Dispatch runs in place subzone by subzone; the plan and history row of
      one subzone do not depend on the subzones dispatched before it. */
  lemma DispatchedNext(st: State, ids: seq<int>, i: int, now: Instant)
    requires 0 <= i < |ids|
    requires forall a, b :: 0 <= a < b < |ids| ==> ids[a] != ids[b]
    requires forall k :: 0 <= k < |ids| ==> ids[k] in st.subZones
    ensures Dispatched(st, ids, i + 1, now) == DispatchOne(Dispatched(st, ids, i, now), ids[i], now)
    ensures PlanFor(Dispatched(st, ids, i, now), ids[i], now) == PlanFor(st, ids[i], now)
  {
    var rs := st.requests;
    MarkedPrefixNext(rs, ids, i, now);
    HistoryRowsNext(rs, ids, i, now);
    PendingBeforeTurn(rs, ids, i, now);
    var row := match HistoryRow(rs, ids[i], now) case None => [] case Some(h) => [h];
    assert (st.history + HistoryRows(rs, ids[..i], now)) + row == st.history + (HistoryRows(rs, ids[..i], now) + row);
  }

  lemma PlansForNext(st: State, ids: seq<int>, i: int, now: Instant)
    requires 0 <= i < |ids|
    requires forall k :: 0 <= k < |ids| ==> ids[k] in st.subZones
    ensures PlansFor(st, ids[..i + 1], now) == PlansFor(st, ids[..i], now) + [PlanFor(st, ids[i], now)]
  {
    assert ids[..i + 1] == ids[..i] + [ids[i]];
  }

  /** The loop body of calculatePlannedIrrigation for one subzone. */
  method DispatchSubZone(db: Database, sid: int, now: Instant) returns (plan: SubZonePlan)
    requires sid in db.subZones
    modifies db
    ensures plan == PlanFor(old(db.Snapshot()), sid, now)
    ensures db.Snapshot() == DispatchOne(old(db.Snapshot()), sid, now)
  {
    var pending := PendingRequests(db.requests, sid, now);
    var lastRequest := LatestRequest(pending);
    var plannedDuration := 0;
    if lastRequest.Some? {
      plannedDuration := lastRequest.value.durationSeconds;
      db.history := db.history + [IrrigationHistory(sid, now, lastRequest.value.durationSeconds, lastRequest.value.triggeredBy)];
    }
    plan := SubZonePlan(db.subZones[sid].subzoneIndex, plannedDuration);
    MarkPendingExecuted(db, sid, now);
  }

  /** The dispatch loop of calculatePlannedIrrigation over a zone's subzones. */
  method DispatchZone(db: Database, zid: int, now: Instant) returns (plans: seq<SubZonePlan>)
    requires db.Valid() && zid in db.zones
    modifies db
    ensures (plans, db.Snapshot()) == Dispatch(old(db.Snapshot()), zid, now)
  {
    ghost var st0 := db.Snapshot();
    var ids := db.zones[zid].subZoneIds;
    assert OwnsItsSubZones(st0, zid);
    plans := [];
    assert ids[..0] == [];
    assert MarkExecuted(st0.requests, [], now) == st0.requests;
    var i := 0;
    while i < |ids|
      invariant 0 <= i <= |ids|
      invariant plans == PlansFor(st0, ids[..i], now)
      invariant db.Snapshot() == Dispatched(st0, ids, i, now)
    {
      DispatchedNext(st0, ids, i, now);
      PlansForNext(st0, ids, i, now);
      var plan := DispatchSubZone(db, ids[i], now);
      plans := plans + [plan];
      i := i + 1;
    }
    assert ids[..|ids|] == ids;
  }

  method CalculatePlannedIrrigation(db: Database, uid: string, now: Instant) returns (r: Result<seq<SubZonePlan>>)
    requires db.Valid()
    modifies db
    ensures db.Valid()
    ensures (r, db.Snapshot()) == Plan(old(db.Snapshot()), uid, now)
  {
    if !exists z :: z in db.zones && db.zones[z].controllerUid == uid {
      return Err(NotFound);
    }
    var zid :| zid in db.zones && db.zones[zid].controllerUid == uid;
    ZoneKeyOfUnique(db.Snapshot(), uid, zid);
    var plans := DispatchZone(db, zid, now);
    r := Ok(plans);
  }
}

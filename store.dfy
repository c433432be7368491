/** The tables the irrigation services read and write, as one value (`State`)
    for specifications and as one mutable object (`Database`) for the services. */
module Store {
  import opened Entities

  datatype State = State(
    zones: map<int, Zone>,
    subZones: map<int, SubZone>,
    requests: seq<IrrigationRequest>,
    history: seq<IrrigationHistory>,
    plantTypes: map<int, PlantType>,
    soilTypes: map<int, SoilType>,
    nextZoneId: int,
    nextSubZoneId: int)

  /** Zone `z` lists distinct subzones, each stored and owned by `z`. */
  ghost predicate OwnsItsSubZones(st: State, z: int)
    requires z in st.zones
  {
    var ids := st.zones[z].subZoneIds;
    && (forall k :: 0 <= k < |ids| ==> ids[k] in st.subZones && st.subZones[ids[k]].zoneId == z)
    && (forall i, j :: 0 <= i < j < |ids| ==> ids[i] != ids[j])
  }

  /** The database invariant: identity generators are ahead of every stored id,
      zones own their subzones, controller UIDs are unique, and every request
      and history row names a stored subzone (their non-null foreign keys). */
  ghost predicate WellFormed(st: State)
  {
    && (forall z :: z in st.zones ==> z < st.nextZoneId)
    && (forall s :: s in st.subZones ==> s < st.nextSubZoneId)
    && (forall z :: z in st.zones ==> OwnsItsSubZones(st, z))
    && (forall z1, z2 ::
          (z1 in st.zones && z2 in st.zones && st.zones[z1].controllerUid == st.zones[z2].controllerUid) ==> z1 == z2)
    && (forall k :: 0 <= k < |st.requests| ==> st.requests[k].subZoneId in st.subZones)
    && (forall k :: 0 <= k < |st.history| ==> st.history[k].subZoneId in st.subZones)
  }

  /** The id the next subzone receives is named by no request and no history
      row, so a subzone created during ingestion starts with none. */
  lemma FreshSubZoneIdUnused(st: State)
    requires WellFormed(st)
    ensures forall k :: 0 <= k < |st.requests| ==> st.requests[k].subZoneId != st.nextSubZoneId
    ensures forall k :: 0 <= k < |st.history| ==> st.history[k].subZoneId != st.nextSubZoneId
  {
  }

  class Database {
    var zones: map<int, Zone>
    var subZones: map<int, SubZone>
    var requests: seq<IrrigationRequest>
    var history: seq<IrrigationHistory>
    var plantTypes: map<int, PlantType>
    var soilTypes: map<int, SoilType>
    var nextZoneId: int
    var nextSubZoneId: int

    function Snapshot(): State
      reads this
    {
      State(zones, subZones, requests, history, plantTypes, soilTypes, nextZoneId, nextSubZoneId)
    }

    ghost predicate Valid()
      reads this
    {
      WellFormed(Snapshot())
    }

    /** An empty database over the given plant-type and soil-type catalogues. */
    constructor (plantTypes: map<int, PlantType>, soilTypes: map<int, SoilType>)
      ensures Valid()
      ensures Snapshot() == State(map[], map[], [], [], plantTypes, soilTypes, 0, 0)
    {
      this.zones := map[];
      this.subZones := map[];
      this.requests := [];
      this.history := [];
      this.plantTypes := plantTypes;
      this.soilTypes := soilTypes;
      this.nextZoneId := 0;
      this.nextSubZoneId := 0;
    }
  }
}

/** SubZoneController: the endpoint that edits a subzone's settings,
    validating its plant-type and soil-type references against the
    catalogues. */
module SubZoneController {
  import opened Entities
  import opened Store
  import SubZoneService

  /** A catalogue reference in a request body; its id may be absent. */
  datatype TypeRef = TypeRef(id: Option<int>)

  /** The fields of the incoming subzone that the endpoint reads; either
      reference may be absent (null). */
  datatype SubZoneForm = SubZoneForm(
    name: Option<string>,
    plantType: Option<TypeRef>,
    soilType: Option<TypeRef>,
    extraInfo: Option<string>,
    defaultIrrigationDurationInSeconds: int)

  /** The id a reference names, when both the reference and its id are given. */
  function RefId(ref: Option<TypeRef>): Option<int>
  {
    if ref.Some? then ref.value.id else None
  }

  /** A reference that clears the field or names a catalogue row. */
  predicate Resolvable<T>(catalogue: map<int, T>, ref: Option<TypeRef>)
  {
    RefId(ref).None? || RefId(ref).value in catalogue
  }

  /** What a resolvable reference sets the field to. */
  function Resolve<T>(catalogue: map<int, T>, ref: Option<TypeRef>): Option<T>
    requires Resolvable(catalogue, ref)
  {
    if RefId(ref).None? then None else Some(catalogue[RefId(ref).value])
  }

  /** updateSubZone: NOT_FOUND for an unknown subzone; otherwise copy the
      simple fields, then resolve the plant type and the soil type in that
      order, rejecting an unknown id (nothing saved) and clearing the field
      for a missing reference. */
  ghost function SubZoneUpdate(st: State, id: int, form: SubZoneForm): (r: Result<State>)
    ensures id !in st.subZones ==> r == Err(NotFound)
    ensures id in st.subZones && !Resolvable(st.plantTypes, form.plantType) ==>
      r == Err(BadRequest(InvalidPlantTypeId(RefId(form.plantType).value)))
    ensures id in st.subZones && Resolvable(st.plantTypes, form.plantType) && !Resolvable(st.soilTypes, form.soilType) ==>
      r == Err(BadRequest(InvalidSoilTypeId(RefId(form.soilType).value)))
    ensures r.Ok? <==>
      id in st.subZones && Resolvable(st.plantTypes, form.plantType) && Resolvable(st.soilTypes, form.soilType)
    ensures r.Ok? ==> id in r.value.subZones
    ensures r.Ok? ==>
      var before := st.subZones[id];
      var after := r.value.subZones[id];
      && r.value == st.(subZones := st.subZones[id := after])
      && after.name == form.name
      && after.extraInfo == form.extraInfo
      && after.defaultIrrigationDurationInSeconds == form.defaultIrrigationDurationInSeconds
      && (after.plantType.None? <==> RefId(form.plantType).None?)
      && (after.plantType.Some? ==> after.plantType.value == st.plantTypes[RefId(form.plantType).value])
      && (after.soilType.None? <==> RefId(form.soilType).None?)
      && (after.soilType.Some? ==> after.soilType.value == st.soilTypes[RefId(form.soilType).value])
      && after.zoneId == before.zoneId
      && after.subzoneIndex == before.subzoneIndex
      && after.hasIrrigationIssue == before.hasIrrigationIssue
      && after.soilMoistureReadings == before.soilMoistureReadings
      && after.rainSensorReadings == before.rainSensorReadings
  {
    if id !in st.subZones then Err(NotFound)
    else if !Resolvable(st.plantTypes, form.plantType) then
      Err(BadRequest(InvalidPlantTypeId(RefId(form.plantType).value)))
    else if !Resolvable(st.soilTypes, form.soilType) then
      Err(BadRequest(InvalidSoilTypeId(RefId(form.soilType).value)))
    else
      var edited := st.subZones[id].(
        name := form.name,
        extraInfo := form.extraInfo,
        defaultIrrigationDurationInSeconds := form.defaultIrrigationDurationInSeconds,
        plantType := Resolve(st.plantTypes, form.plantType),
        soilType := Resolve(st.soilTypes, form.soilType));
      Ok(st.(subZones := st.subZones[id := edited]))
  }

  /** An edit keeps the database invariant: the subzone stays in its zone. */
  lemma SubZoneUpdateKeepsWellFormed(st: State, id: int, form: SubZoneForm)
    requires WellFormed(st)
    ensures SubZoneUpdate(st, id, form).Ok? ==> WellFormed(SubZoneUpdate(st, id, form).value)
  {
    var r := SubZoneUpdate(st, id, form);
    if r.Ok? {
      var st' := r.value;
      forall z | z in st'.zones
        ensures OwnsItsSubZones(st', z)
      {
        assert OwnsItsSubZones(st, z);
      }
    }
  }

  /** Submitting the same form again changes nothing more. */
  lemma SubZoneUpdateIdempotent(st: State, id: int, form: SubZoneForm)
    requires SubZoneUpdate(st, id, form).Ok?
    ensures SubZoneUpdate(SubZoneUpdate(st, id, form).value, id, form) == SubZoneUpdate(st, id, form)
  {
    var once := SubZoneUpdate(st, id, form).value;
    var twice := SubZoneUpdate(once, id, form).value;
    assert twice.subZones[id] == once.subZones[id];
    assert twice.subZones == once.subZones;
  }

  method UpdateSubZone(db: Database, zoneId: int, id: int, form: SubZoneForm) returns (r: Result<SubZone>)
    requires db.Valid()
    modifies db
    ensures db.Valid()
    ensures var spec := SubZoneUpdate(old(db.Snapshot()), id, form);
      && (spec.Err? ==> r == Err(spec.failure) && db.Snapshot() == old(db.Snapshot()))
      && (spec.Ok? ==> db.Snapshot() == spec.value && r == Ok(db.subZones[id]))
  {
    ghost var st := db.Snapshot();
    SubZoneUpdateKeepsWellFormed(st, id, form);
    var found := SubZoneService.FindById(db, id);
    if found.Err? {
      return Err(found.failure);
    }
    var existing := found.value;
    existing := existing.(
      name := form.name,
      extraInfo := form.extraInfo,
      defaultIrrigationDurationInSeconds := form.defaultIrrigationDurationInSeconds);
    if form.plantType.Some? && form.plantType.value.id.Some? {
      var plantTypeId := form.plantType.value.id.value;
      if plantTypeId in db.plantTypes {
        existing := existing.(plantType := Some(db.plantTypes[plantTypeId]));
      } else {
        return Err(BadRequest(InvalidPlantTypeId(plantTypeId)));
      }
    } else {
      existing := existing.(plantType := None);
    }
    if form.soilType.Some? && form.soilType.value.id.Some? {
      var soilTypeId := form.soilType.value.id.value;
      if soilTypeId in db.soilTypes {
        existing := existing.(soilType := Some(db.soilTypes[soilTypeId]));
      } else {
        return Err(BadRequest(InvalidSoilTypeId(soilTypeId)));
      }
    } else {
      existing := existing.(soilType := None);
    }
    db.subZones := db.subZones[id := existing];
    r := Ok(existing);
  }
}

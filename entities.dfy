/** Records of the irrigation back end: the persisted entities, the request
    and response bodies of the controllers, and the failures they report. */
module Entities {

  /** Local wall-clock time (Europe/Kyiv), in whole seconds. */
  type Instant = int

  const HOUR: int := 3600
  const DAY: int := 86400

  datatype Option<+T> = None | Some(value: T)

  /** Why a request fails: the HTTP status the caller sees, with its cause. */
  datatype Failure =
    | NotFound
    | BadRequest(reason: BadRequestReason)
    | ServerError(cause: ServerErrorCause)

  datatype BadRequestReason =
    | InvalidSensorData
    | InvalidPlantTypeId(plantTypeId: int)
    | InvalidSoilTypeId(soilTypeId: int)
    | UsernameInUse
    | InvalidRoleId

  /** Exceptions that no handler maps to a status, so they surface as 500. */
  datatype ServerErrorCause =
    | ZoneMissing        // IllegalStateException from ZoneService.findById
    | MissingRole        // the incoming user has no role, or a role without id
    | MissingPassword    // the password encoder rejects a null password
    | DuplicateUsername  // the unique constraint on Users.username
    | SubZoneHasHistory  // a history row still references a deleted subzone

  datatype Result<+T> = Ok(value: T) | Err(failure: Failure)

  datatype TriggeredBy = Auto | Manual

  datatype PlantType = PlantType(
    id: int, name: string, description: Option<string>,
    optimalMoistureMin: int, optimalMoistureMax: int)

  datatype SoilType = SoilType(id: int, name: string, description: Option<string>)

  datatype SoilMoistureReading = SoilMoistureReading(moisturePercent: int, recordedAt: Instant)

  datatype RainSensorReading = RainSensorReading(raining: bool, recordedAt: Instant)

  /** A subzone and the readings it owns. `zoneId` is the owning zone. */
  datatype SubZone = SubZone(
    zoneId: int,
    name: Option<string>,
    subzoneIndex: int,
    plantType: Option<PlantType>,
    soilType: Option<SoilType>,
    extraInfo: Option<string>,
    defaultIrrigationDurationInSeconds: int,
    hasIrrigationIssue: Option<bool>,
    soilMoistureReadings: seq<SoilMoistureReading>,
    rainSensorReadings: seq<RainSensorReading>)

  /** A zone; `subZoneIds` is its ordered list of subzones. */
  datatype Zone = Zone(
    name: Option<string>,
    latitude: Option<real>,
    longitude: Option<real>,
    extraInfo: Option<string>,
    controllerUid: string,
    subZoneIds: seq<int>)

  /** A queued irrigation request (manual or automatic). */
  datatype IrrigationRequest = IrrigationRequest(
    subZoneId: int,
    requestedAt: Instant,
    durationSeconds: int,
    executed: bool,
    triggeredBy: TriggeredBy)

  /** A dispatched irrigation. */
  datatype IrrigationHistory = IrrigationHistory(
    subZoneId: int,
    startTime: Instant,
    durationSeconds: int,
    triggeredBy: TriggeredBy)

  /** One subzone's entry in a controller's sensor report. */
  datatype SubzoneData = SubzoneData(subzoneIndex: int, soilMoisturePercent: int, rainDetected: bool)

  /** A controller's sensor report; either field may be absent (null). */
  datatype SensorDataRequest = SensorDataRequest(
    controllerUid: Option<string>,
    subZones: Option<seq<SubzoneData>>)

  datatype SubZonePlan = SubZonePlan(subzoneIndex: int, plannedIrrigationDurationInSeconds: int)

  datatype PlannedIrrigationResponse = PlannedIrrigationResponse(subZones: seq<SubZonePlan>)

  datatype SoilMoistureReadingDto = SoilMoistureReadingDto(recordedAt: Instant, soilMoisturePercent: int)
}

# Smart irrigation backend — a Dafny model

This project models the server side of a smart irrigation system. Each field
controller is identified by a controller UID. It periodically posts, for each of its subzones, a
soil-moisture percentage and a rain flag. The server files these readings
under the controller's zone, creating the zone and the subzones on first
sight. It queues an automatic irrigation request when a planted subzone is
too dry and it is not raining. It then answers with an irrigation plan per subzone, built from
the latest pending request of each subzone. Pending requests are then marked executed and
logged in the irrigation history. Users can also queue a manual
request, read a subzone's soil-moisture history, edit zones and subzones,
and manage user accounts.

The model is organised as follows:

- `entities.dfy` (module `Entities`): the rows of the tables (zones, subzones, readings,
  requests, history rows, plant and soil types), the request and response
  bodies, and the `Result` type. Error outcomes carry an HTTP status and a reason.
  Time is whole seconds; `HOUR` and `DAY` are 3600 and 86400.
- `store.dfy` (module `Store`): the database as a `State` value and as a `Database`
  class whose fields the services update. `WellFormed` is the table
  invariant: identity generators lie ahead of every id, every zone owns its subzones,
  controller UIDs are unique, and every request and history row names a stored subzone
  (the non-null foreign keys of those tables).
- `zone_rules.dfy` (module `ZoneRules`): the pure rules of the irrigation loop. It covers:
  - the pending-request query;
  - the latest pending request;
  - the automatic-irrigation rule;
  - marking requests executed;
  - the planned duration and the history rows.
- `zone_service.dfy` (module `ZoneService`): sensor ingestion, planning, zone update, zone lookup
  and zone deletion. Each is a module-level method that takes the `Database` and updates
  its fields. Each is proved against a specification function on `State`.
- `zone_controller.dfy` (module `ZoneController`): the endpoints over the zone service. The
  readings endpoint ingests and then plans; the proofs show that every request it
  queues shows up in the plan it returns.
- `subzone_service.dfy` (module `SubZoneService`): subzone lookup, the manual trigger, and the
  chronological soil-moisture history.
- `subzone_controller.dfy` (module `SubZoneController`): the subzone edit endpoint.
- `user_management.dfy` (module `UserManagement`): creating, editing and deleting accounts.

The system clock is a parameter `now` of every operation that reads it.
The password encoder is a parameter `encode` of the account operations.

## Model

| member | source | states |
|---|---|---|
| Store.FreshSubZoneIdUnused | src/main/java/com/example/smartirrigationsystem/service/ZoneService.java:78-82 | in a well-formed database no request and no history row names the id the next subzone receives |
| ZoneRules.PendingRequests | src/main/java/com/example/smartirrigationsystem/service/ZoneService.java:178-183 | a request is in the result exactly when it is unexecuted, belongs to the subzone and was requested strictly after `now` minus one day; table order is kept |
| ZoneRules.PendingOfConcat | src/main/java/com/example/smartirrigationsystem/repository/ManualIrrigationRequestRepository.java:11-12 | the query over two table segments is the query over the first followed by the query over the second |
| ZoneRules.NoPendingIff | src/main/java/com/example/smartirrigationsystem/service/ZoneService.java:113-114 | the pending list is empty exactly when no stored request is pending for the subzone |
| ZoneRules.LaterOf | src/main/java/com/example/smartirrigationsystem/service/ZoneService.java:152-154 | the running maximum is the seed or one of the rest and is no earlier than any of them |
| ZoneRules.LatestRequest | src/main/java/com/example/smartirrigationsystem/service/ZoneService.java:152-154 | no request exactly for an empty list; otherwise a member of the list that no other member postdates |
| ZoneRules.LaterOfPosition | src/main/java/com/example/smartirrigationsystem/service/ZoneService.java:152-154 | the maximum sits at a position where every earlier request is strictly earlier (ties keep the first) |
| ZoneRules.LatestIsFirstMaximal | src/main/java/com/example/smartirrigationsystem/service/ZoneService.java:152-154 | the latest pending request is the first of the maximal ones in table order |
| ZoneRules.LastIrrigationStart | src/main/java/com/example/smartirrigationsystem/service/ZoneService.java:116-118 | none exactly when the subzone has no history; otherwise the start time of one of its rows and no earlier than any of them |
| ZoneRules.RecentlyIrrigatedIff | src/main/java/com/example/smartirrigationsystem/service/ZoneService.java:119-120 | recently irrigated exactly when some history row of the subzone started less than one hour before `now` |
| ZoneRules.AutoIrrigationRule | src/main/java/com/example/smartirrigationsystem/service/ZoneService.java:103-123 | an automatic request is due exactly when all of these hold: the subzone has a plant type, moisture is below its optimal minimum, no rain is detected, the issue flag is not true, nothing is pending, and no history row started within the last hour |
| ZoneRules.MarkExecuted | src/main/java/com/example/smartirrigationsystem/service/ZoneService.java:171-173 | same length, every field but `executed` kept, and a request ends executed exactly when it already was, or it was pending and its subzone is among those planned |
| ZoneRules.MarkExecutedTwice | src/main/java/com/example/smartirrigationsystem/service/ZoneService.java:171-173 | marking for one group of subzones and then another is marking for both at once |
| ZoneRules.PendingUnaffected | src/main/java/com/example/smartirrigationsystem/service/ZoneService.java:171-173 | marking other subzones' requests leaves a subzone's pending list unchanged |
| ZoneRules.NothingPendingAfterMark | src/main/java/com/example/smartirrigationsystem/service/ZoneService.java:171-173 | after marking, a planned subzone has nothing pending at `now` or any later time |
| ZoneRules.PlannedDurationIsLatestPending | src/main/java/com/example/smartirrigationsystem/service/ZoneService.java:152-159 | zero when nothing is pending; otherwise the duration of a pending request that no pending request postdates |
| ZoneRules.HistoryRow | src/main/java/com/example/smartirrigationsystem/service/ZoneService.java:162-170 | no row exactly when the subzone has nothing pending. Otherwise one row for that subzone, starting at `now`, lasting the planned duration, with the origin (`triggeredBy`) of the latest pending request |
| ZoneRules.HistoryRows | src/main/java/com/example/smartirrigationsystem/service/ZoneService.java:162-170 | no more rows than planned subzones. Each row is exactly the row of one of the planned subzones, so it has the start, duration and origin stated for a single row. When the subzones are distinct, no two rows name the same subzone |
| ZoneRules.HistoryRowsSnoc | src/main/java/com/example/smartirrigationsystem/service/ZoneService.java:149-170 | the rows follow the loop order: one more subzone appends its row, if any, after all the others |
| ZoneRules.AutoIrrigationDue | src/main/java/com/example/smartirrigationsystem/service/ZoneService.java:103-123 | the automatic-irrigation condition. Its meaning is stated by `ZoneRules.AutoIrrigationRule` |
| ZoneRules.PlannedDuration | src/main/java/com/example/smartirrigationsystem/service/ZoneService.java:152-159 | the planned duration of one subzone. Its meaning is stated by `ZoneRules.PlannedDurationIsLatestPending` |
| ZoneRules.HistoryRowForEachPending | src/main/java/com/example/smartirrigationsystem/service/ZoneService.java:162-170 | every planned subzone with a pending request gets a history row |
| ZoneService.ZoneKeyOf | src/main/java/com/example/smartirrigationsystem/repository/ZoneRepository.java:7 | the zone whose controller UID matches, or none exactly when no zone has that UID |
| ZoneService.ZoneKeyOfUnique | src/main/java/com/example/smartirrigationsystem/entity/Zone.java:35 | in a well-formed database the zone holding a UID is the one the lookup finds |
| ZoneService.FirstWithIndex | src/main/java/com/example/smartirrigationsystem/service/ZoneService.java:73-75 | the first subzone of the zone carrying the index, or none when no subzone carries it |
| ZoneService.ControllerZone | src/main/java/com/example/smartirrigationsystem/service/ZoneService.java:60-66 | the resulting database is well formed and holds a zone with the UID |
| ZoneService.IngestEntry | src/main/java/com/example/smartirrigationsystem/service/ZoneService.java:69-134 | one subzone report keeps the database well formed, adds no zone and only appends requests |
| ZoneService.IngestEntries | src/main/java/com/example/smartirrigationsystem/service/ZoneService.java:69-135 | the same for the whole report list, entry by entry |
| ZoneService.IngestEntryFrame | src/main/java/com/example/smartirrigationsystem/service/ZoneService.java:69-134 | one report touches only its zone: other zones, every subzone's settings, the history and the catalogues are kept; subzone lists, readings and requests only grow |
| ZoneService.IngestEntriesFrame | src/main/java/com/example/smartirrigationsystem/service/ZoneService.java:69-135 | the same frame for the whole report list |
| ZoneService.Ingest | src/main/java/com/example/smartirrigationsystem/service/ZoneService.java:58-139 | ingesting a report keeps the database well formed |
| ZoneService.IngestEntrySubZone | src/main/java/com/example/smartirrigationsystem/service/ZoneService.java:73-85 | the first subzone carrying the index is reused; when none carries it, a new subzone with that index and fresh settings is appended to the zone |
| ZoneService.IngestEntryReadings | src/main/java/com/example/smartirrigationsystem/service/ZoneService.java:87-100 | exactly one rain reading and one soil reading stamped `now` are appended to that subzone; other subzones are unchanged |
| ZoneService.IngestEntryRequests | src/main/java/com/example/smartirrigationsystem/service/ZoneService.java:102-131 | the request table gains one automatic request exactly when the rule holds for a stored subzone, and nothing otherwise |
| ZoneService.IngestFindsOrCreatesZone | src/main/java/com/example/smartirrigationsystem/service/ZoneService.java:60-66 | afterwards the UID resolves to the existing zone, or to a new zone under the next id when there was none |
| ZoneService.IngestKeepsEverything | src/main/java/com/example/smartirrigationsystem/service/ZoneService.java:58-139 | ingestion loses nothing: zones, subzones, readings and requests are kept, and the history is unchanged |
| ZoneService.IngestEntryIndexes | src/main/java/com/example/smartirrigationsystem/service/ZoneService.java:73-85 | the zone's subzone indexes gain the report's index exactly when it was absent |
| ZoneService.IngestEntriesIndexes | src/main/java/com/example/smartirrigationsystem/service/ZoneService.java:69-85 | the zone's indexes become the old ones followed by the new indexes in first-seen order |
| ZoneService.FirstSeenControllerSubZones | src/main/java/com/example/smartirrigationsystem/service/ZoneService.java:60-85 | a new controller's zone holds one subzone per distinct reported index, in first-seen order |
| ZoneService.IngestEntryAddsAuto | src/main/java/com/example/smartirrigationsystem/service/ZoneService.java:123-131 | every request one report adds is automatic, unexecuted, stamped `now`, for a subzone of the zone, with that subzone's default duration |
| ZoneService.IngestAddsOnlyAutoRequests | src/main/java/com/example/smartirrigationsystem/service/ZoneService.java:123-131 | the same for every request added by a whole report |
| ZoneService.IngestAtMostOneAutoPerSubZone | src/main/java/com/example/smartirrigationsystem/service/ZoneService.java:113-131 | one report adds at most one pending request per subzone, and only to a subzone that had none |
| ZoneService.Dispatch | src/main/java/com/example/smartirrigationsystem/service/ZoneService.java:148-175 | one plan per subzone of the zone, in the zone's order and carrying its index; the database stays well formed |
| ZoneService.Plan | src/main/java/com/example/smartirrigationsystem/service/ZoneService.java:142-176 | NOT_FOUND with nothing changed exactly when no zone has the UID |
| ZoneService.DispatchExecutesAllPending | src/main/java/com/example/smartirrigationsystem/service/ZoneService.java:171-173 | after planning, no subzone of the zone has a pending request at any later time; other subzones' pending lists and all zones and subzones are unchanged |
| ZoneService.NoHistoryWithoutPending | src/main/java/com/example/smartirrigationsystem/service/ZoneService.java:162-170 | with nothing pending, planning logs no history |
| ZoneService.ReplanIsIdle | src/main/java/com/example/smartirrigationsystem/service/ZoneService.java:142-176 | planning the same controller again plans zero seconds for every subzone and logs nothing |
| ZoneService.ZoneUpdate | src/main/java/com/example/smartirrigationsystem/service/ZoneService.java:42-55 | NOT_FOUND exactly for an unknown id; otherwise name, coordinates and extra info are copied, and UID, subzones and every other table are kept |
| ZoneService.ZoneUpdatePreservesWellFormed | src/main/java/com/example/smartirrigationsystem/service/ZoneService.java:42-55 | an update keeps the database well formed |
| ZoneService.RequestsOutside | src/main/java/com/example/smartirrigationsystem/entity/ManualIrrigationRequest.java:26-29 | the cascade of a subzone delete to its requests. No request is added. A request stays exactly when its subzone is not deleted, and each surviving request keeps its number of copies. The table is unchanged when no request is hit |
| ZoneService.RequestsOutsideOfConcat | src/main/java/com/example/smartirrigationsystem/entity/ManualIrrigationRequest.java:26-29 | the cascade works run by run, so surviving requests keep their table order |
| ZoneService.PendingOutside | src/main/java/com/example/smartirrigationsystem/entity/ManualIrrigationRequest.java:26-29 | removing other subzones' requests leaves a subzone's pending list unchanged |
| ZoneService.HistoryMentions | src/main/java/com/example/smartirrigationsystem/entity/IrrigationHistory.java:23-25 | true exactly when some history row names one of the given subzones |
| ZoneService.ZoneRemovedKeepsWellFormed | src/main/java/com/example/smartirrigationsystem/service/ZoneService.java:191-195 | removing a zone whose subzones have no history keeps every invariant, including the foreign keys |
| ZoneService.ZoneDeletion | src/main/java/com/example/smartirrigationsystem/service/ZoneService.java:191-195 | an unknown id is a server error. A history row naming one of the zone's subzones is also a server error, because that foreign key is non-null and has no cascade; nothing changes in either case. Otherwise the zone and its subzones go, and the requests become the cascade result. Every other zone and subzone keeps its value, and the history, catalogues and id generators are kept. The database stays well formed |
| ZoneService.DeletionKeepsOtherPending | src/main/java/com/example/smartirrigationsystem/service/ZoneService.java:191-195 | deleting a zone leaves every other subzone's pending requests, in order |
| ZoneService.FindById | src/main/java/com/example/smartirrigationsystem/service/ZoneService.java:185-189 | the stored zone, or a server error for an unknown id |
| ZoneService.UpdateZone | src/main/java/com/example/smartirrigationsystem/service/ZoneService.java:42-55 | the new state and answer are those of the update specification; nothing changes on failure |
| ZoneService.DeleteZone | src/main/java/com/example/smartirrigationsystem/service/ZoneService.java:191-195 | the new state and answer are those of the deletion specification, including the refusal when history exists |
| ZoneService.IngestSubzoneData | src/main/java/com/example/smartirrigationsystem/service/ZoneService.java:69-134 | the loop body leaves the database as the one-report specification says |
| ZoneService.IngestSensorData | src/main/java/com/example/smartirrigationsystem/service/ZoneService.java:57-139 | the database afterwards is the ingestion specification applied to the one before, and stays well formed |
| ZoneService.MarkPendingExecuted | src/main/java/com/example/smartirrigationsystem/service/ZoneService.java:171-173 | only the request table changes, and it is marked for the one subzone |
| ZoneService.DispatchSubZone | src/main/java/com/example/smartirrigationsystem/service/ZoneService.java:149-173 | one loop iteration returns the subzone's plan and changes the database as the one-subzone specification says |
| ZoneService.DispatchZone | src/main/java/com/example/smartirrigationsystem/service/ZoneService.java:148-175 | the loop returns the plans and the state of the dispatch specification |
| ZoneService.CalculatePlannedIrrigation | src/main/java/com/example/smartirrigationsystem/service/ZoneService.java:141-176 | the answer and the new state are those of the planning specification |
| ZoneController.Receive | src/main/java/com/example/smartirrigationsystem/controller/ZoneController.java:34-43 | a bad request with nothing changed exactly when the UID or the subzone list is missing; the database stays well formed |
| ZoneController.ReceiveUsesControllerZone | src/main/java/com/example/smartirrigationsystem/controller/ZoneController.java:39-42 | a valid report is ingested, then the controller's zone is dispatched, and the response carries those plans |
| ZoneController.IngestedRequests | src/main/java/com/example/smartirrigationsystem/service/ZoneService.java:102-131 | a report only appends requests, every added request is automatic for the zone, and each subzone gains at most one pending request, only when it had none |
| ZoneController.NewAutoRequestIsDispatched | src/main/java/com/example/smartirrigationsystem/controller/ZoneController.java:39-42 | the response has one plan per subzone, and every request the report queued is planned with its duration at its subzone's position |
| ZoneController.FirstSeenControllerResponse | src/main/java/com/example/smartirrigationsystem/controller/ZoneController.java:39-42 | for a new controller the response lists each reported index once, in first-seen order, and no other |
| ZoneController.ReceiveSensorData | src/main/java/com/example/smartirrigationsystem/controller/ZoneController.java:34-43 | the answer and new state are those of the readings-endpoint specification |
| ZoneController.UpdateZone | src/main/java/com/example/smartirrigationsystem/controller/ZoneController.java:25-32 | delegates to the zone update: NOT_FOUND or the updated zone, with the specification's new state |
| ZoneController.GetById | src/main/java/com/example/smartirrigationsystem/controller/ZoneController.java:45-49 | the stored zone, or a server error for an unknown id |
| ZoneController.DeleteZone | src/main/java/com/example/smartirrigationsystem/controller/ZoneController.java:51-55 | delegates to the zone deletion: its server errors with nothing changed, otherwise the deletion's new state |
| SubZoneService.FindSubZone | src/main/java/com/example/smartirrigationsystem/service/SubZoneService.java:57-60 | the stored subzone, or NOT_FOUND exactly for an unknown id |
| SubZoneService.ManualTrigger | src/main/java/com/example/smartirrigationsystem/service/SubZoneService.java:63-76 | NOT_FOUND with nothing changed exactly for an unknown subzone; otherwise exactly one request is appended and nothing else changes: manual, unexecuted, stamped `now`, for the subzone's default duration |
| SubZoneService.ManualRequestPendingForADay | src/main/java/com/example/smartirrigationsystem/service/SubZoneService.java:64-74 | the manual request is pending exactly until one day after the trigger, and it joins the end of the subzone's pending list |
| SubZoneService.ManualTriggerIsDispatched | src/main/java/com/example/smartirrigationsystem/service/SubZoneService.java:64-74 | when no other pending request of the subzone is as recent, planning within the day plans the subzone's default duration |
| SubZoneService.ToDtos | src/main/java/com/example/smartirrigationsystem/service/SubZoneService.java:49-51 | one row per reading, and chronological readings give ascending rows |
| SubZoneService.InsertByTime | src/main/java/com/example/smartirrigationsystem/repository/SoilMoistureReadingRepository.java:13 | inserting into a chronological list keeps it chronological and adds exactly the one reading |
| SubZoneService.SortByTime | src/main/java/com/example/smartirrigationsystem/repository/SoilMoistureReadingRepository.java:13 | the ordered query is chronological and a permutation of the subzone's readings |
| SubZoneService.InsertedRows | src/main/java/com/example/smartirrigationsystem/service/SubZoneService.java:49-51 | mapping after an insertion adds exactly the new reading's row |
| SubZoneService.SortedRows | src/main/java/com/example/smartirrigationsystem/service/SubZoneService.java:45-51 | sorting then mapping yields the same rows as mapping the readings |
| SubZoneService.SoilReadings | src/main/java/com/example/smartirrigationsystem/service/SubZoneService.java:35-52 | NOT_FOUND exactly for an unknown subzone; otherwise one row per reading, in ascending time, a permutation of the readings' rows |
| SubZoneService.RowsOfReadings | src/main/java/com/example/smartirrigationsystem/service/SubZoneService.java:49-51 | every mapped row is some reading's row, and every reading's row is there |
| SubZoneService.SoilReadingsAreTheReadings | src/main/java/com/example/smartirrigationsystem/service/SubZoneService.java:35-52 | every response row is some reading's timestamp and percent, and every reading has a row |
| SubZoneService.FindById | src/main/java/com/example/smartirrigationsystem/service/SubZoneService.java:57-60 | answers as the lookup specification on the current database |
| SubZoneService.TriggerManualIrrigation | src/main/java/com/example/smartirrigationsystem/service/SubZoneService.java:63-76 | the answer and new state are those of the trigger specification |
| SubZoneController.SubZoneUpdate | src/main/java/com/example/smartirrigationsystem/controller/SubZoneController.java:32-78 | checks in order: NOT_FOUND, then an unknown plant-type id, then an unknown soil-type id, each with nothing saved. Otherwise only this subzone changes: name, extra info and default duration are copied, and each type is cleared exactly when no id is given, else set to the catalogue row. Zone, index, issue flag and readings are kept |
| SubZoneController.SubZoneUpdateKeepsWellFormed | src/main/java/com/example/smartirrigationsystem/controller/SubZoneController.java:44-76 | an edit keeps the database well formed |
| SubZoneController.SubZoneUpdateIdempotent | src/main/java/com/example/smartirrigationsystem/controller/SubZoneController.java:44-76 | submitting the same form twice gives the same database as submitting it once |
| SubZoneController.UpdateSubZone | src/main/java/com/example/smartirrigationsystem/controller/SubZoneController.java:32-78 | the answer and new state are those of the edit specification |
| UserManagement.IsBlank | src/main/java/com/example/smartirrigationsystem/controller/UserManagementController.java:99 | String.isBlank: every character is whitespace as Character.isWhitespace defines it. The empty string counts as blank. `UserManagement.Updated` states what it decides: whether the password is replaced |
| UserManagement.Created | src/main/java/com/example/smartirrigationsystem/controller/UserManagementController.java:47-67 | checks in order: a username in use is a bad request, a missing password or role a server error, and an unknown role id a bad request, each with nothing stored. Otherwise the account is stored under the next id with the encoded password and the looked-up role, and unique usernames are preserved |
| UserManagement.Updated | src/main/java/com/example/smartirrigationsystem/controller/UserManagementController.java:84-105 | checks in order: NOT_FOUND, a missing role, an unknown role id, and a username held by another account (a constraint violation), each with nothing stored. Otherwise the username and role are replaced, the hash changes exactly when a non-blank password is sent, and unique usernames are preserved |
| UserManagement.Deleted | src/main/java/com/example/smartirrigationsystem/controller/UserManagementController.java:111-119 | NOT_FOUND exactly for an unknown id; otherwise only that account is removed |
| UserManagement.DeleteUndoesCreate | src/main/java/com/example/smartirrigationsystem/controller/UserManagementController.java:47-67 | deleting the account just created restores the table, except for the spent id |
| UserManagement.CreatedUsernameResolves | src/main/java/com/example/smartirrigationsystem/entity/User.java:25-26 | after a create the username belongs to the new account and to no other |
| UserManagement.UserDirectory.Create | src/main/java/com/example/smartirrigationsystem/controller/UserManagementController.java:47-67 | the answer and new table are those of the create specification |
| UserManagement.UserDirectory.Update | src/main/java/com/example/smartirrigationsystem/controller/UserManagementController.java:84-105 | the answer and new table are those of the update specification |
| UserManagement.UserDirectory.Delete | src/main/java/com/example/smartirrigationsystem/controller/UserManagementController.java:111-119 | the answer and new table are those of the delete specification |

## Left out

- Persistence mechanics are not modelled: transactions, flushing, lazy loading and JPA cascades. The database is a value; an endpoint that returns early after
  changing a loaded entity saves nothing (none of those endpoints is transactional).
- Password hashing (BCrypt) is the parameter `encode`; the wall clock (Europe/Kyiv local time) is the parameter `now` in seconds.
  Time zones and daylight-saving shifts are not modelled.
- Zone coordinates are Java doubles; the model holds them as optional reals that are only ever copied, so floating-point rounding plays no part.
- The following are not part of this model:
  - the list endpoints (`findAll`, `listAll`), `getOne`, and the subzone GET;
  - the irrigation service, the security configuration, the frontend, and the plain CRUD controllers for types, roles and history.
- SubZone's default duration, issue flag and history list are not declared in SubZone.java. They are modelled as an integer (0 for a new subzone),
  an optional boolean, and the history rows carrying the subzone's id.
- The order of rows the queries return for equal keys is taken to be table order. Consequently the ordered soil-reading query is modelled as a stable sort.
- SubZoneController.UpdateSubZone: the `zoneId` path variable is accepted and ignored, as in the source.
- UserManagement.Created: a null username and a client-supplied account id are not modelled. The username is always present, and the id always comes from the generator.
- ZoneService.FindById: the source throws IllegalStateException for an unknown id, which Spring answers with HTTP 500. The model returns a server error there,
  not NOT_FOUND, following the code.
- A subzone created during ingestion has no id until it is saved. The pending query for it therefore finds nothing. The model gives it the next id instead. `Store.FreshSubZoneIdUnused` proves that no request or history row names that id, so the outcome is the same.
- ZoneController.Receive: a null element inside the report's subzone list is not modelled, because the list is a sequence of values. In the source that element makes the ingest loop throw a NullPointerException: an HTTP 500, with the transactional ingest rolled back.
- UserManagement.Updated: a null username is not modelled, because the form always carries one. In the source, saving it violates the non-null username column and fails with an HTTP 500.
- Console logging in the manual trigger is not modelled; it has no effect on the tables or the answer.
- ZoneService.ZoneDeletion: SubZone.java declares no history collection. The model therefore applies the database's foreign key on history rows, which has no cascade. A mapped history collection with a cascade would delete those rows instead of refusing the delete.

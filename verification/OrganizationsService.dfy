/**
 Buildings, floors and zones, with the foreign keys and unique codes that the database enforces and the
 cascades it runs on a delete.
 */
module Organizations {
  import opened Domain

  /** Stands for a well-formed UUID. */
  type Id = nat

  datatype Floor = Floor(buildingId: Option<Id>, name: string, level: int)

  datatype Zone = Zone(
    code: string,
    name: string,
    floorId: Option<Id>,
    minDurationSec: Option<int>,
    maxDurationSec: Option<int>)

  /** Buildings map to their name, tasks to their zone and scans to their task, if they have one. */
  datatype Tables = Tables(
    buildings: map<Id, string>,
    floors: map<Id, Floor>,
    zones: map<Id, Zone>,
    tasks: map<Id, Id>,
    scans: map<Id, Option<Id>>)

  predicate Refers<T>(key: Option<Id>, rows: map<Id, T>)
  {
    key.Some? ==> key.value in rows
  }

  predicate Within(key: Option<Id>, ids: set<Id>)
  {
    key.Some? && key.value in ids
  }

  // ---- Delete rules of the schema -------------------------------------------------------------

  function Unlinked(key: Option<Id>, ids: set<Id>): Option<Id>
  {
    if Within(key, ids) then None else key
  }

  /** A scan outlives its task (SetNull). */
  function DropTasks(db: Tables, ids: set<Id>): Tables
  {
    db.(tasks := db.tasks - ids, scans := map s | s in db.scans :: Unlinked(db.scans[s], ids))
  }

  /** The tasks of a zone go with it (Cascade). */
  function DropZones(db: Tables, ids: set<Id>): Tables
  {
    DropTasks(db, set t | t in db.tasks && db.tasks[t] in ids).(zones := db.zones - ids)
  }

  /** A zone outlives its floor (SetNull). */
  function DropFloors(db: Tables, ids: set<Id>): Tables
  {
    db.(floors := db.floors - ids,
        zones := map z | z in db.zones :: db.zones[z].(floorId := Unlinked(db.zones[z].floorId, ids)))
  }

  /** The floors of a building go with it (Cascade). */
  function DropBuildings(db: Tables, ids: set<Id>): Tables
  {
    DropFloors(db, set f | f in db.floors && Within(db.floors[f].buildingId, ids)).(buildings := db.buildings - ids)
  }

  // ---- Statements and the constraints they meet -----------------------------------------------

  /**
   The columns of an update. An absent property leaves its column alone; a given one may be null, as
   update bodies are not validated.
   */
  datatype BuildingPatch = BuildingPatch(name: Option<Option<string>>)

  datatype FloorPatch = FloorPatch(
    buildingId: Option<Option<Id>>,
    name: Option<Option<string>>,
    level: Option<Option<int>>)

  datatype ZonePatch = ZonePatch(
    code: Option<Option<string>>,
    name: Option<Option<string>>,
    floorId: Option<Option<Id>>,
    minDurationSec: Option<Option<int>>,
    maxDurationSec: Option<Option<int>>)

  /** A required text column takes no null, and PostgreSQL stores no NUL character. */
  predicate BadText(value: Option<string>)
  {
    value.None? || '\0' in value.value
  }

  /** An integer column has 32 bits. */
  predicate BadNumber(value: Option<int>)
  {
    value.Some? && !(-0x8000_0000 <= value.value < 0x8000_0000)
  }

  predicate BuildingUnfit(dto: BuildingPatch)
  {
    dto.name.Some? && BadText(dto.name.value)
  }

  /** The level is a required column. */
  predicate FloorUnfit(dto: FloorPatch)
  {
    || (dto.name.Some? && BadText(dto.name.value))
    || (dto.level.Some? && (dto.level.value.None? || BadNumber(dto.level.value)))
  }

  predicate ZoneUnfit(dto: ZonePatch)
  {
    || (dto.code.Some? && BadText(dto.code.value))
    || (dto.name.Some? && BadText(dto.name.value))
    || (dto.minDurationSec.Some? && BadNumber(dto.minDurationSec.value))
    || (dto.maxDurationSec.Some? && BadNumber(dto.maxDurationSec.value))
  }

  /** A new row as a patch that gives every column. */
  function WholeFloor(floor: Floor): FloorPatch
  {
    FloorPatch(Some(floor.buildingId), Some(Some(floor.name)), Some(Some(floor.level)))
  }

  function WholeZone(zone: Zone): ZonePatch
  {
    ZonePatch(Some(Some(zone.code)), Some(Some(zone.name)), Some(zone.floorId),
              Some(zone.minDurationSec), Some(zone.maxDurationSec))
  }

  function OrNullable<T>(change: Option<Option<T>>, current: Option<T>): Option<T>
  {
    if change.Some? then change.value else current
  }

  function Or<T>(change: Option<Option<T>>, current: T): T
  {
    if change.Some? && change.value.Some? then change.value.value else current
  }

  function PatchFloor(floor: Floor, dto: FloorPatch): Floor
  {
    Floor(OrNullable(dto.buildingId, floor.buildingId), Or(dto.name, floor.name), Or(dto.level, floor.level))
  }

  function PatchZone(zone: Zone, dto: ZonePatch): Zone
  {
    Zone(Or(dto.code, zone.code), Or(dto.name, zone.name), OrNullable(dto.floorId, zone.floorId),
         OrNullable(dto.minDurationSec, zone.minDurationSec), OrNullable(dto.maxDurationSec, zone.maxDurationSec))
  }

  datatype Statement =
    | InsertBuilding(id: Id, name: string)
    | InsertFloor(id: Id, floor: Floor)
    | InsertZone(id: Id, zone: Zone)
    | InsertTask(id: Id, zoneId: Id)
    | InsertScan(id: Id, taskId: Option<Id>)
    | UpdateBuildingRow(id: Id, building: BuildingPatch)
    | UpdateFloorRow(id: Id, floorChange: FloorPatch)
    | UpdateZoneRow(id: Id, zoneChange: ZonePatch)
    | UpdateTaskRow(id: Id, zoneId: Id)
    | UpdateScanRow(id: Id, taskId: Option<Id>)
    | DeleteBuildingRow(id: Id)
    | DeleteFloorRow(id: Id)
    | DeleteZoneRow(id: Id)
    | DeleteTaskRow(id: Id)

  predicate CodeTaken(db: Tables, id: Id, code: string)
  {
    exists z | z in db.zones :: z != id && db.zones[z].code == code
  }

  predicate FloorFits(db: Tables, floor: Floor)
  {
    Refers(floor.buildingId, db.buildings)
  }

  predicate ZoneFits(db: Tables, id: Id, zone: Zone)
  {
    Refers(zone.floorId, db.floors) && !CodeTaken(db, id, zone.code)
  }

  /** The statement's effect, or None when a constraint rejects it. */
  function Execute(db: Tables, statement: Statement): Option<Tables>
  {
    match statement
    case InsertBuilding(id, name) =>
      if id in db.buildings || BuildingUnfit(BuildingPatch(Some(Some(name)))) then None
      else Some(db.(buildings := db.buildings[id := name]))
    case InsertFloor(id, floor) =>
      if id in db.floors || FloorUnfit(WholeFloor(floor)) || !FloorFits(db, floor) then None
      else Some(db.(floors := db.floors[id := floor]))
    case InsertZone(id, zone) =>
      if id in db.zones || ZoneUnfit(WholeZone(zone)) || !ZoneFits(db, id, zone) then None
      else Some(db.(zones := db.zones[id := zone]))
    case InsertTask(id, zoneId) =>
      if id in db.tasks || zoneId !in db.zones then None else Some(db.(tasks := db.tasks[id := zoneId]))
    case InsertScan(id, taskId) =>
      if id in db.scans || !Refers(taskId, db.tasks) then None else Some(db.(scans := db.scans[id := taskId]))
    case UpdateBuildingRow(id, dto) =>
      if id !in db.buildings || BuildingUnfit(dto) then None
      else Some(db.(buildings := db.buildings[id := Or(dto.name, db.buildings[id])]))
    case UpdateFloorRow(id, dto) =>
      if id !in db.floors || FloorUnfit(dto) then None
      else if !FloorFits(db, PatchFloor(db.floors[id], dto)) then None
      else Some(db.(floors := db.floors[id := PatchFloor(db.floors[id], dto)]))
    case UpdateZoneRow(id, dto) =>
      if id !in db.zones || ZoneUnfit(dto) then None
      else if !ZoneFits(db, id, PatchZone(db.zones[id], dto)) then None
      else Some(db.(zones := db.zones[id := PatchZone(db.zones[id], dto)]))
    case UpdateTaskRow(id, zoneId) =>
      if id !in db.tasks || zoneId !in db.zones then None else Some(db.(tasks := db.tasks[id := zoneId]))
    case UpdateScanRow(id, taskId) =>
      if id !in db.scans || !Refers(taskId, db.tasks) then None else Some(db.(scans := db.scans[id := taskId]))
    case DeleteBuildingRow(id) => if id in db.buildings then Some(DropBuildings(db, {id})) else None
    case DeleteFloorRow(id) => if id in db.floors then Some(DropFloors(db, {id})) else None
    case DeleteZoneRow(id) => if id in db.zones then Some(DropZones(db, {id})) else None
    case DeleteTaskRow(id) => if id in db.tasks then Some(DropTasks(db, {id})) else None
  }

  /** Runs statements in order; a rejected one changes nothing. */
  function RunAll(db: Tables, statements: seq<Statement>): Tables
  {
    if statements == [] then db
    else
      var before := RunAll(db, statements[..|statements| - 1]);
      var r := Execute(before, statements[|statements| - 1]);
      if r.Some? then r.value else before
  }

  // ---- The service ----------------------------------------------------------------------------

  /** Create bodies are validated, so that only optional columns can be missing; the level defaults to 0. */
  datatype Op =
    | CreateBuilding(id: Id, name: string)
    | UpdateBuilding(id: Id, buildingPatch: BuildingPatch)
    | DeleteBuilding(id: Id)
    | CreateFloor(id: Id, buildingId: Option<Id>, floorName: string, level: Option<int>)
    | UpdateFloor(id: Id, floorPatch: FloorPatch)
    | DeleteFloor(id: Id)
    | CreateZone(id: Id, zone: Zone)
    | UpdateZone(id: Id, zonePatch: ZonePatch)
    | DeleteZone(id: Id)

  /** Not found and conflict are the service's own answers; a rejected statement surfaces as a server error. */
  datatype Result = Done | NotFound | Conflict | DatabaseError

  datatype Decision = Refuse(result: Result) | Issue(statement: Statement)

  /** A given, non-empty code. */
  predicate NamesCode(code: Option<Option<string>>)
  {
    code.Some? && code.value.Some? && code.value.value != ""
  }

  function FloorOf(buildingId: Option<Id>, name: string, level: Option<int>): Floor
  {
    Floor(buildingId, name, if level.Some? then level.value else 0)
  }

  /** What a handler does about the tables it reads: it refuses, or issues one statement. */
  function Decide(db: Tables, op: Op): Decision
  {
    match op
    case CreateBuilding(id, name) => Issue(InsertBuilding(id, name))
    case UpdateBuilding(id, dto) =>
      if id !in db.buildings then Refuse(NotFound) else Issue(UpdateBuildingRow(id, dto))
    case DeleteBuilding(id) =>
      if id !in db.buildings then Refuse(NotFound) else Issue(DeleteBuildingRow(id))
    case CreateFloor(id, buildingId, name, level) =>
      if !Refers(buildingId, db.buildings) then Refuse(NotFound)
      else Issue(InsertFloor(id, FloorOf(buildingId, name, level)))
    case UpdateFloor(id, dto) =>
      if id !in db.floors then Refuse(NotFound) else Issue(UpdateFloorRow(id, dto))
    case DeleteFloor(id) =>
      if id !in db.floors then Refuse(NotFound) else Issue(DeleteFloorRow(id))
    case CreateZone(id, zone) =>
      if !Refers(zone.floorId, db.floors) then Refuse(NotFound)
      else if exists z | z in db.zones :: db.zones[z].code == zone.code then Refuse(Conflict)
      else Issue(InsertZone(id, zone))
    case UpdateZone(id, dto) =>
      if id !in db.zones then Refuse(NotFound)
      else if NamesCode(dto.code) && CodeTaken(db, id, dto.code.value.value) then Refuse(Conflict)
      else Issue(UpdateZoneRow(id, dto))
    case DeleteZone(id) =>
      if id !in db.zones then Refuse(NotFound) else Issue(DeleteZoneRow(id))
  }

  function Submit(db: Tables, statement: Statement): (Tables, Result)
  {
    match Execute(db, statement)
    case None => (db, DatabaseError)
    case Some(after) => (after, Done)
  }

  /** A handler that nothing disturbs between its lookups and its statement. */
  function Handle(db: Tables, op: Op): (Tables, Result)
  {
    match Decide(db, op)
    case Refuse(result) => (db, result)
    case Issue(statement) => Submit(db, statement)
  }

  /** Exactly the building and its floors are gone, and exactly the zones of those floors are detached. */
  ghost predicate BuildingDeleted(db: Tables, after: Tables, id: Id)
  {
    && after.buildings == db.buildings - {id}
    && (forall f :: f in after.floors <==> f in db.floors && db.floors[f].buildingId != Some(id))
    && (forall f | f in after.floors :: after.floors[f] == db.floors[f])
    && after.zones.Keys == db.zones.Keys
    && (forall z | z in db.zones ::
          after.zones[z] == if InBuilding(db, db.zones[z], id) then db.zones[z].(floorId := None) else db.zones[z])
    && after.tasks == db.tasks && after.scans == db.scans
  }

  predicate InBuilding(db: Tables, zone: Zone, building: Id)
  {
    zone.floorId.Some? && zone.floorId.value in db.floors && db.floors[zone.floorId.value].buildingId == Some(building)
  }

  /** Exactly the floor is gone, and exactly its zones are detached. */
  ghost predicate FloorDeleted(db: Tables, after: Tables, id: Id)
  {
    && after.buildings == db.buildings && after.floors == db.floors - {id}
    && after.zones.Keys == db.zones.Keys
    && (forall z | z in db.zones ::
          after.zones[z] == if db.zones[z].floorId == Some(id) then db.zones[z].(floorId := None) else db.zones[z])
    && after.tasks == db.tasks && after.scans == db.scans
  }

  /** Exactly the zone and its tasks are gone, and exactly the scans of those tasks are detached. */
  ghost predicate ZoneDeleted(db: Tables, after: Tables, id: Id)
  {
    && after.buildings == db.buildings && after.floors == db.floors && after.zones == db.zones - {id}
    && (forall t :: t in after.tasks <==> t in db.tasks && db.tasks[t] != id)
    && (forall t | t in after.tasks :: after.tasks[t] == db.tasks[t])
    && after.scans.Keys == db.scans.Keys
    && (forall s | s in db.scans ::
          after.scans[s] == if TaskIn(db, db.scans[s], id) then None else db.scans[s])
  }

  predicate TaskIn(db: Tables, task: Option<Id>, zone: Id)
  {
    task.Some? && task.value in db.tasks && db.tasks[task.value] == zone
  }

  /** Every handler is a lookup or two on `db` and at most one write statement. */
  class OrganizationsService {
    var db: Tables

    constructor (db: Tables)
      ensures this.db == db
    {
      this.db := db;
    }

    method Write(statement: Statement) returns (r: Result)
      modifies this
      ensures (db, r) == Submit(old(db), statement)
      ensures Consistent(old(db)) ==> Consistent(db)
    {
      var after := Execute(db, statement);
      if after.None? { return DatabaseError; }
      ghost var before := db;
      if Consistent(before) { ExecuteKeeps(before, statement); }
      db := after.value;
      r := Done;
    }

    method FindZoneByCode(code: string) returns (found: Option<Id>)
      ensures found.None? ==> forall z | z in db.zones :: db.zones[z].code != code
      ensures found.Some? ==> found.value in db.zones && db.zones[found.value].code == code
    {
      if z :| z in db.zones && db.zones[z].code == code {
        return Some(z);
      }
      found := None;
    }

    method CreateBuilding(id: Id, name: string) returns (r: Result)
      modifies this
      ensures (db, r) == Handle(old(db), Op.CreateBuilding(id, name))
      ensures Consistent(old(db)) ==> Consistent(db)
    {
      r := Write(InsertBuilding(id, name));
    }

    method UpdateBuilding(id: Id, dto: BuildingPatch) returns (r: Result)
      modifies this
      ensures (db, r) == Handle(old(db), Op.UpdateBuilding(id, dto))
      ensures Consistent(old(db)) ==> Consistent(db)
    {
      if id !in db.buildings { return NotFound; }
      r := Write(UpdateBuildingRow(id, dto));
    }

    /** Removes the building and its floors and detaches their zones, exactly when the building exists. */
    method DeleteBuilding(id: Id) returns (r: Result)
      modifies this
      ensures (db, r) == Handle(old(db), Op.DeleteBuilding(id))
      ensures r == (if id in old(db).buildings then Done else NotFound)
      ensures if r == Done then BuildingDeleted(old(db), db, id) else db == old(db)
      ensures Consistent(old(db)) ==> Consistent(db)
    {
      if id !in db.buildings { return NotFound; }
      DeleteBuildingRemovesOnlyFloors(db, id);
      r := Write(DeleteBuildingRow(id));
    }

    method CreateFloor(id: Id, buildingId: Option<Id>, name: string, level: Option<int>) returns (r: Result)
      modifies this
      ensures (db, r) == Handle(old(db), Op.CreateFloor(id, buildingId, name, level))
      ensures Consistent(old(db)) ==> Consistent(db)
    {
      if buildingId.Some? {
        if buildingId.value !in db.buildings { return NotFound; }
      }
      r := Write(InsertFloor(id, FloorOf(buildingId, name, level)));
    }

    method UpdateFloor(id: Id, dto: FloorPatch) returns (r: Result)
      modifies this
      ensures (db, r) == Handle(old(db), Op.UpdateFloor(id, dto))
      ensures Consistent(old(db)) ==> Consistent(db)
    {
      if id !in db.floors { return NotFound; }
      r := Write(UpdateFloorRow(id, dto));
    }

    /** Removes the floor and detaches its zones, exactly when the floor exists. */
    method DeleteFloor(id: Id) returns (r: Result)
      modifies this
      ensures (db, r) == Handle(old(db), Op.DeleteFloor(id))
      ensures r == (if id in old(db).floors then Done else NotFound)
      ensures if r == Done then FloorDeleted(old(db), db, id) else db == old(db)
      ensures Consistent(old(db)) ==> Consistent(db)
    {
      if id !in db.floors { return NotFound; }
      DeleteFloorRemovesOnlyIt(db, id);
      r := Write(DeleteFloorRow(id));
    }

    method CreateZone(id: Id, dto: Zone) returns (r: Result)
      modifies this
      ensures (db, r) == Handle(old(db), Op.CreateZone(id, dto))
      ensures Consistent(old(db)) ==> Consistent(db)
    {
      if dto.floorId.Some? {
        if dto.floorId.value !in db.floors { return NotFound; }
      }
      var existing := FindZoneByCode(dto.code);
      if existing.Some? { return Conflict; }
      r := Write(InsertZone(id, dto));
    }

    /** Looks the code up as the source does: one row at most has it, as codes are unique. */
    method UpdateZone(id: Id, dto: ZonePatch) returns (r: Result)
      requires CodesUnique(db)
      modifies this
      ensures (db, r) == Handle(old(db), Op.UpdateZone(id, dto))
      ensures Consistent(old(db)) ==> Consistent(db)
    {
      if id !in db.zones { return NotFound; }
      if NamesCode(dto.code) {
        var existing := FindZoneByCode(dto.code.value.value);
        if existing.Some? && existing.value != id { return Conflict; }
      }
      r := Write(UpdateZoneRow(id, dto));
    }

    /** Removes the zone and its tasks and detaches their scans, exactly when the zone exists. */
    method DeleteZone(id: Id) returns (r: Result)
      modifies this
      ensures (db, r) == Handle(old(db), Op.DeleteZone(id))
      ensures r == (if id in old(db).zones then Done else NotFound)
      ensures if r == Done then ZoneDeleted(old(db), db, id) else db == old(db)
      ensures Consistent(old(db)) ==> Consistent(db)
    {
      if id !in db.zones { return NotFound; }
      DeleteZoneRemovesOnlyTasks(db, id);
      r := Write(DeleteZoneRow(id));
    }
  }

  // ---- Referential integrity over every run ---------------------------------------------------

  ghost predicate KeysValid(db: Tables)
  {
    && (forall f | f in db.floors :: Refers(db.floors[f].buildingId, db.buildings))
    && (forall z | z in db.zones :: Refers(db.zones[z].floorId, db.floors))
    && (forall t | t in db.tasks :: db.tasks[t] in db.zones)
    && (forall s | s in db.scans :: Refers(db.scans[s], db.tasks))
  }

  ghost predicate CodesUnique(db: Tables)
  {
    forall y, z | y in db.zones && z in db.zones && db.zones[y].code == db.zones[z].code :: y == z
  }

  ghost predicate Consistent(db: Tables)
  {
    KeysValid(db) && CodesUnique(db)
  }

  lemma DropKeeps(db: Tables, ids: set<Id>)
    requires Consistent(db)
    ensures Consistent(DropTasks(db, ids)) && Consistent(DropZones(db, ids))
  {
  }

  lemma DropFloorsKeeps(db: Tables, ids: set<Id>)
    requires Consistent(db)
    ensures Consistent(DropFloors(db, ids))
  {
  }

  lemma DropBuildingsKeeps(db: Tables, ids: set<Id>)
    requires Consistent(db)
    ensures Consistent(DropBuildings(db, ids))
  {
    var floors := set f | f in db.floors && Within(db.floors[f].buildingId, ids);
    DropFloorsKeeps(db, floors);
    assert forall f | f in DropFloors(db, floors).floors :: !Within(db.floors[f].buildingId, ids);
  }

  lemma PutZoneKeeps(db: Tables, id: Id, zone: Zone)
    requires Consistent(db) && ZoneFits(db, id, zone)
    ensures Consistent(db.(zones := db.zones[id := zone]))
  {
    assert forall z | z in db.zones && z != id :: db.zones[z].code != zone.code;
  }

  lemma PutFloorKeeps(db: Tables, id: Id, floor: Floor)
    requires Consistent(db) && FloorFits(db, floor)
    ensures Consistent(db.(floors := db.floors[id := floor]))
  {
  }

  lemma PutBuildingKeeps(db: Tables, id: Id, name: string)
    requires Consistent(db)
    ensures Consistent(db.(buildings := db.buildings[id := name]))
  {
  }

  lemma PutTaskKeeps(db: Tables, id: Id, zoneId: Id)
    requires Consistent(db) && zoneId in db.zones
    ensures Consistent(db.(tasks := db.tasks[id := zoneId]))
  {
  }

  lemma PutScanKeeps(db: Tables, id: Id, taskId: Option<Id>)
    requires Consistent(db) && Refers(taskId, db.tasks)
    ensures Consistent(db.(scans := db.scans[id := taskId]))
  {
  }

  /** Every accepted statement, a cascading delete included, keeps the tables consistent. */
  lemma ExecuteKeeps(db: Tables, statement: Statement)
    requires Consistent(db) && Execute(db, statement).Some?
    ensures Consistent(Execute(db, statement).value)
  {
    hide Consistent, DropBuildings, DropFloors, DropZones, DropTasks, PatchFloor, PatchZone, Or;
    match statement
    case InsertBuilding(id, name) => PutBuildingKeeps(db, id, name);
    case UpdateBuildingRow(id, dto) => PutBuildingKeeps(db, id, Or(dto.name, db.buildings[id]));
    case InsertFloor(id, floor) => PutFloorKeeps(db, id, floor);
    case UpdateFloorRow(id, dto) => PutFloorKeeps(db, id, PatchFloor(db.floors[id], dto));
    case InsertZone(id, zone) => PutZoneKeeps(db, id, zone);
    case UpdateZoneRow(id, dto) => PutZoneKeeps(db, id, PatchZone(db.zones[id], dto));
    case InsertTask(id, zoneId) => PutTaskKeeps(db, id, zoneId);
    case UpdateTaskRow(id, zoneId) => PutTaskKeeps(db, id, zoneId);
    case InsertScan(id, taskId) => PutScanKeeps(db, id, taskId);
    case UpdateScanRow(id, taskId) => PutScanKeeps(db, id, taskId);
    case DeleteBuildingRow(id) => DropBuildingsKeeps(db, {id});
    case DeleteFloorRow(id) => DropFloorsKeeps(db, {id});
    case DeleteZoneRow(id) => DropKeeps(db, {id});
    case DeleteTaskRow(id) => DropKeeps(db, {id});
  }

  /**
   However the writes of concurrent handlers interleave with each other and with other services, every
   reachable state has valid foreign keys and unique zone codes.
   */
  lemma {:induction false} RunKeepsIntegrity(db: Tables, statements: seq<Statement>)
    requires Consistent(db)
    ensures Consistent(RunAll(db, statements))
  {
    if statements != [] {
      var n := |statements| - 1;
      RunKeepsIntegrity(db, statements[..n]);
      var before := RunAll(db, statements[..n]);
      if Execute(before, statements[n]).Some? {
        ExecuteKeeps(before, statements[n]);
      }
    }
  }

  /** A run of undisturbed handlers. */
  function Served(db: Tables, ops: seq<Op>): Tables
  {
    if ops == [] then db else Handle(Served(db, ops[..|ops| - 1]), ops[|ops| - 1]).0
  }

  /** A handler leaves the tables alone or executes one accepted statement, and answers accordingly. */
  lemma HandleIsOneStatement(db: Tables, op: Op)
    ensures var (after, r) := Handle(db, op);
            if r == Done
            then exists st :: Decide(db, op) == Issue(st) && Execute(db, st) == Some(after)
            else after == db
  {
  }

  /** Every run of the service's handlers keeps foreign keys valid and codes unique. */
  lemma {:induction false} OpsKeepIntegrity(db: Tables, ops: seq<Op>)
    requires Consistent(db)
    ensures Consistent(Served(db, ops))
  {
    if ops != [] {
      hide Consistent, Execute, Decide;
      var n := |ops| - 1;
      OpsKeepIntegrity(db, ops[..n]);
      var before := Served(db, ops[..n]);
      match Decide(before, ops[n])
      case Refuse(_) =>
      case Issue(st) => if Execute(before, st).Some? { ExecuteKeeps(before, st); }
    }
  }

  // ---- Handlers that interleave ---------------------------------------------------------------

  /** The tables, and the statements that handlers have decided on but not run yet. */
  datatype Site = Site(db: Tables, issued: seq<Statement>)

  /** A handler's lookups, a decided statement reaching the database, or a statement of another service. */
  datatype Move = Check(op: Op) | Arrive(k: nat) | Other(statement: Statement)

  function Play(s: Site, m: Move): Site
  {
    match m
    case Check(op) =>
      (match Decide(s.db, op)
       case Refuse(_) => s
       case Issue(st) => s.(issued := s.issued + [st]))
    case Arrive(k) =>
      if k < |s.issued| then Site(Submit(s.db, s.issued[k]).0, s.issued[..k] + s.issued[k + 1..]) else s
    case Other(st) => s.(db := Submit(s.db, st).0)
  }

  function PlayAll(s: Site, moves: seq<Move>): Site
  {
    if moves == [] then s else Play(PlayAll(s, moves[..|moves| - 1]), moves[|moves| - 1])
  }

  lemma SubmitKeeps(db: Tables, statement: Statement)
    requires Consistent(db)
    ensures Consistent(Submit(db, statement).0)
  {
    hide Consistent, Execute;
    if Execute(db, statement).Some? {
      ExecuteKeeps(db, statement);
    }
  }

  /** However handlers interleave between their lookups and their writes, integrity is kept. */
  lemma {:induction false} InterleavingKeepsIntegrity(s: Site, moves: seq<Move>)
    requires Consistent(s.db)
    ensures Consistent(PlayAll(s, moves).db)
  {
    if moves != [] {
      hide Consistent, Submit, Decide;
      var before := PlayAll(s, moves[..|moves| - 1]);
      InterleavingKeepsIntegrity(s, moves[..|moves| - 1]);
      match moves[|moves| - 1]
      case Check(_) =>
      case Arrive(k) => if k < |before.issued| { SubmitKeeps(before.db, before.issued[k]); }
      case Other(st) => SubmitKeeps(before.db, st);
    }
  }

  /**
   What interleaving can change is the answer: the second of two zones with one new code is turned down
   by the database and not by the service, when its lookup came before the first one's write.
   */
  lemma LateConflictIsDatabaseError(db: Tables, a: Id, b: Id, zone: Zone)
    requires Consistent(db) && a != b && a !in db.zones && b !in db.zones
    requires Decide(db, CreateZone(a, zone)) == Issue(InsertZone(a, zone))
    ensures Decide(db, CreateZone(b, zone)) == Issue(InsertZone(b, zone))
    ensures var (after, r) := Submit(db, InsertZone(a, zone));
            && (r == Done <==> !ZoneUnfit(WholeZone(zone)))
            && (r == Done ==> Decide(after, CreateZone(b, zone)) == Refuse(Conflict))
            && Submit(after, InsertZone(b, zone)) == (after, DatabaseError)
  {
    assert !CodeTaken(db, a, zone.code);
    var after := db.(zones := db.zones[a := zone]);
    assert a in after.zones && after.zones[a].code == zone.code;
  }

  // ---- What a delete removes ------------------------------------------------------------------

  /** Deleting a building removes exactly its floors and detaches their zones, and loses nothing else. */
  lemma DeleteBuildingRemovesOnlyFloors(db: Tables, id: Id)
    requires id in db.buildings
    ensures Handle(db, DeleteBuilding(id)).1 == Done
    ensures BuildingDeleted(db, Handle(db, DeleteBuilding(id)).0, id)
  {
  }

  /** Deleting a floor removes exactly that floor and detaches its zones. */
  lemma DeleteFloorRemovesOnlyIt(db: Tables, id: Id)
    requires id in db.floors
    ensures Handle(db, DeleteFloor(id)).1 == Done
    ensures FloorDeleted(db, Handle(db, DeleteFloor(id)).0, id)
  {
  }

  /** Deleting a zone removes exactly its tasks and detaches their scans; every scan stays. */
  lemma DeleteZoneRemovesOnlyTasks(db: Tables, id: Id)
    requires id in db.zones
    ensures Handle(db, DeleteZone(id)).1 == Done
    ensures ZoneDeleted(db, Handle(db, DeleteZone(id)).0, id)
  {
  }

  lemma RunAllTwo(db: Tables, a: Statement, b: Statement)
    requires Execute(db, a).Some?
    ensures RunAll(db, [b]) == (if Execute(db, b).Some? then Execute(db, b).value else db)
    ensures var first := Execute(db, a).value;
            RunAll(db, [a, b]) == if Execute(first, b).Some? then Execute(first, b).value else first
  {
    hide Execute;
    assert [a][..0] == [] && [b][..0] == [] && [a, b][..1] == [a];
    assert RunAll(db, [a]) == Execute(db, a).value;
  }

  lemma DropFloorThenBuilding(db: Tables, building: Id, floor: Id)
    requires floor in db.floors && db.floors[floor].buildingId == Some(building)
    ensures DropBuildings(DropFloors(db, {floor}), {building}) == DropBuildings(db, {building})
  {
    var a, b := DropBuildings(DropFloors(db, {floor}), {building}), DropBuildings(db, {building});
    assert a.floors == b.floors;
    assert a.zones == b.zones;
  }

  /** The cascade is the same as deleting a floor of the building by hand first. */
  lemma CascadeIsStepwise(db: Tables, building: Id, floor: Id)
    requires building in db.buildings && floor in db.floors && db.floors[floor].buildingId == Some(building)
    ensures RunAll(db, [DeleteFloorRow(floor), DeleteBuildingRow(building)])
            == RunAll(db, [DeleteBuildingRow(building)])
  {
    var f, b := DeleteFloorRow(floor), DeleteBuildingRow(building);
    var first := DropFloors(db, {floor});
    assert Execute(db, f) == Some(first) && Execute(first, b) == Some(DropBuildings(first, {building}));
    assert Execute(db, b) == Some(DropBuildings(db, {building}));
    DropFloorThenBuilding(db, building, floor);
    hide *;
    RunAllTwo(db, f, b);
  }

  /** No scan is lost, and any other row only by a delete that names it or its kind of parent. */
  ghost predicate Loses(before: Tables, after: Tables, deletes: set<Statement>)
  {
    && before.scans.Keys <= after.scans.Keys
    && (forall z | z in before.zones :: z in after.zones || DeleteZoneRow(z) in deletes)
    && (forall b | b in before.buildings :: b in after.buildings || DeleteBuildingRow(b) in deletes)
    && (forall f | f in before.floors ::
          f in after.floors || DeleteFloorRow(f) in deletes || exists b :: DeleteBuildingRow(b) in deletes)
    && (forall t | t in before.tasks ::
          t in after.tasks || DeleteTaskRow(t) in deletes || exists z :: DeleteZoneRow(z) in deletes)
  }

  lemma ExecuteLoses(db: Tables, statement: Statement)
    requires Execute(db, statement).Some?
    ensures Loses(db, Execute(db, statement).value, {statement})
  {
  }

  /** Over any run: in particular, deleting buildings and floors never loses a zone, a task or a scan. */
  lemma {:induction false} OnlyDeletesRemove(db: Tables, statements: seq<Statement>)
    ensures Loses(db, RunAll(db, statements), set s | s in statements)
  {
    if statements != [] {
      var n := |statements| - 1;
      OnlyDeletesRemove(db, statements[..n]);
      var before := RunAll(db, statements[..n]);
      if Execute(before, statements[n]).Some? {
        ExecuteLoses(before, statements[n]);
      }
      hide Execute;
    }
  }

  // ---- Which answers a handler gives ----------------------------------------------------------

  predicate KeyIsNew(db: Tables, op: Op)
  {
    match op
    case CreateBuilding(id, _) => id !in db.buildings
    case CreateFloor(id, _, _, _) => id !in db.floors
    case CreateZone(id, _) => id !in db.zones
    case _ => true
  }

  /** A given, non-null parent that does not exist. */
  predicate Dangling<T>(parent: Option<Option<Id>>, rows: map<Id, T>)
  {
    parent.Some? && !Refers(parent.value, rows)
  }

  /** A value that its column cannot hold: null in a required one, NUL in text, or more than 32 bits. */
  predicate Unfit(op: Op)
  {
    match op
    case CreateBuilding(_, name) => BuildingUnfit(BuildingPatch(Some(Some(name))))
    case UpdateBuilding(_, dto) => BuildingUnfit(dto)
    case CreateFloor(_, buildingId, name, level) => FloorUnfit(WholeFloor(FloorOf(buildingId, name, level)))
    case UpdateFloor(_, dto) => FloorUnfit(dto)
    case CreateZone(_, zone) => ZoneUnfit(WholeZone(zone))
    case UpdateZone(_, dto) => ZoneUnfit(dto)
    case _ => false
  }

  /** The service's own lookups let the request through. */
  predicate Passes(db: Tables, op: Op)
  {
    match op
    case CreateBuilding(_, _) => true
    case UpdateBuilding(id, _) => id in db.buildings
    case DeleteBuilding(id) => id in db.buildings
    case CreateFloor(_, buildingId, _, _) => Refers(buildingId, db.buildings)
    case UpdateFloor(id, _) => id in db.floors
    case DeleteFloor(id) => id in db.floors
    case CreateZone(id, zone) => Refers(zone.floorId, db.floors) && !CodeTaken(db, id, zone.code)
    case UpdateZone(id, dto) =>
      id in db.zones && !(NamesCode(dto.code) && CodeTaken(db, id, dto.code.value.value))
    case DeleteZone(id) => id in db.zones
  }

  /** What an update can break past the service's lookups: a missing parent, or another zone's empty code. */
  predicate Breaks(db: Tables, op: Op)
  {
    match op
    case UpdateFloor(_, dto) => Dangling(dto.buildingId, db.buildings)
    case UpdateZone(id, dto) =>
      Dangling(dto.floorId, db.floors) || (dto.code == Some(Some("")) && CodeTaken(db, id, ""))
    case _ => false
  }

  /** Success exactly when the lookups pass, every value fits its column and no unchecked constraint breaks. */
  lemma DoneIff(db: Tables, op: Op)
    requires Consistent(db) && KeyIsNew(db, op)
    ensures Handle(db, op).1 == Done <==> Passes(db, op) && !Unfit(op) && !Breaks(db, op)
  {
    match op
    case UpdateZone(id, dto) => UpdateZoneDoneIff(db, id, dto);
    case UpdateFloor(id, dto) => UpdateFloorDoneIff(db, id, dto);
    case CreateZone(id, zone) => CreateZoneDoneIff(db, id, zone);
    case _ =>
  }

  /** In plain terms for the three creates. */
  lemma CreatesDoneIff(db: Tables, id: Id, name: string, buildingId: Option<Id>, level: Option<int>, zone: Zone)
    requires Consistent(db) && id !in db.buildings && id !in db.floors && id !in db.zones
    ensures Handle(db, CreateBuilding(id, name)).1 == Done <==> '\0' !in name
    ensures Handle(db, CreateFloor(id, buildingId, name, level)).1 == Done
            <==> && (buildingId.Some? ==> buildingId.value in db.buildings) && '\0' !in name
                 && (level.Some? ==> -2147483648 <= level.value <= 2147483647)
    ensures Handle(db, CreateZone(id, zone)).1 == Done
            <==> && (zone.floorId.Some? ==> zone.floorId.value in db.floors)
                 && (forall z | z in db.zones :: db.zones[z].code != zone.code)
                 && '\0' !in zone.code && '\0' !in zone.name
                 && (zone.minDurationSec.Some? ==> -2147483648 <= zone.minDurationSec.value <= 2147483647)
                 && (zone.maxDurationSec.Some? ==> -2147483648 <= zone.maxDurationSec.value <= 2147483647)
  {
    DoneIff(db, CreateBuilding(id, name));
    DoneIff(db, CreateFloor(id, buildingId, name, level));
    DoneIff(db, CreateZone(id, zone));
    hide Handle, KeysValid, CodesUnique;
  }

  /** And for the updates. */
  lemma UpdatesDoneIff(db: Tables, id: Id, building: BuildingPatch, floor: FloorPatch, zone: ZonePatch)
    requires Consistent(db)
    ensures Handle(db, UpdateBuilding(id, building)).1 == Done
            <==> id in db.buildings && TextFits(building.name)
    ensures Handle(db, UpdateFloor(id, floor)).1 == Done
            <==> && id in db.floors && TextFits(floor.name)
                 && (floor.level.Some? ==> floor.level.value.Some?) && NumberFits(floor.level)
                 && ParentExists(floor.buildingId, db.buildings.Keys)
    ensures Handle(db, UpdateZone(id, zone)).1 == Done
            <==> && id in db.zones && TextFits(zone.code) && TextFits(zone.name)
                 && NumberFits(zone.minDurationSec) && NumberFits(zone.maxDurationSec)
                 && ParentExists(zone.floorId, db.floors.Keys)
                 && (zone.code.Some? ==>
                       forall z | z in db.zones && z != id :: Some(db.zones[z].code) != zone.code.value)
  {
    DoneIff(db, UpdateBuilding(id, building));
    DoneIff(db, UpdateFloor(id, floor));
    DoneIff(db, UpdateZone(id, zone));
    hide Handle, KeysValid, CodesUnique;
  }

  /** Not given, or text without NUL. */
  predicate TextFits(value: Option<Option<string>>)
  {
    value.Some? ==> value.value.Some? && '\0' !in value.value.value
  }

  /** Not given, null or within 32 bits. */
  predicate NumberFits(value: Option<Option<int>>)
  {
    value.Some? && value.value.Some? ==> -2147483648 <= value.value.value <= 2147483647
  }

  predicate ParentExists(parent: Option<Option<Id>>, ids: set<Id>)
  {
    parent.Some? && parent.value.Some? ==> parent.value.value in ids
  }

  /** Not found is the answer for a missing row, or a missing parent of a new one. */
  lemma NotFoundIff(db: Tables, op: Op)
    ensures Handle(db, op).1 == NotFound
            <==> match op
                 case CreateBuilding(_, _) => false
                 case CreateFloor(_, buildingId, _, _) => buildingId.Some? && buildingId.value !in db.buildings
                 case CreateZone(_, zone) => zone.floorId.Some? && zone.floorId.value !in db.floors
                 case UpdateBuilding(id, _) => id !in db.buildings
                 case DeleteBuilding(id) => id !in db.buildings
                 case UpdateFloor(id, _) => id !in db.floors
                 case DeleteFloor(id) => id !in db.floors
                 case UpdateZone(id, _) => id !in db.zones
                 case DeleteZone(id) => id !in db.zones
  {
    hide Execute;
  }

  /** Conflict is the answer for a code that a zone has, or on an update another zone, and only if it is not empty. */
  lemma ConflictIff(db: Tables, op: Op)
    ensures Handle(db, op).1 == Conflict
            <==> match op
                 case CreateZone(_, zone) =>
                   && (zone.floorId.Some? ==> zone.floorId.value in db.floors)
                   && exists z | z in db.zones :: db.zones[z].code == zone.code
                 case UpdateZone(id, dto) =>
                   && id in db.zones && dto.code.Some? && dto.code.value.Some? && dto.code.value.value != ""
                   && exists z | z in db.zones :: z != id && db.zones[z].code == dto.code.value.value
                 case _ => false
  {
    hide Execute;
  }

  lemma CreateZoneDoneIff(db: Tables, id: Id, zone: Zone)
    requires id !in db.zones
    ensures var op := CreateZone(id, zone); Handle(db, op).1 == Done <==> Passes(db, op) && !Unfit(op)
  {
    hide Refers, ZoneUnfit;
  }

  lemma UpdateFloorDoneIff(db: Tables, id: Id, dto: FloorPatch)
    requires Consistent(db)
    ensures var op := UpdateFloor(id, dto);
            Handle(db, op).1 == Done <==> Passes(db, op) && !Unfit(op) && !Breaks(db, op)
  {
    hide FloorUnfit;
  }

  lemma UpdateZoneDoneIff(db: Tables, id: Id, dto: ZonePatch)
    requires Consistent(db)
    ensures var op := UpdateZone(id, dto);
            Handle(db, op).1 == Done <==> Passes(db, op) && !Unfit(op) && !Breaks(db, op)
  {
    if id in db.zones && dto.code.None? {
      assert !CodeTaken(db, id, db.zones[id].code);
    }
    assert ZoneUnfit(dto) || !(dto.code.Some? && dto.code.value.None?);
    hide ZoneUnfit;
  }

  /**
   So the database rejects a request exactly when the lookups pass and a value does not fit its column, a
   floor or zone is moved to a missing parent, or a zone gets the empty code that another one has.
   */
  lemma DatabaseErrorIff(db: Tables, op: Op)
    requires Consistent(db) && KeyIsNew(db, op)
    ensures Handle(db, op).1 == DatabaseError <==> Passes(db, op) && (Unfit(op) || Breaks(db, op))
  {
    DoneIff(db, op);
    PassesIff(db, op);
    hide *;
  }

  lemma PassesIff(db: Tables, op: Op)
    requires KeyIsNew(db, op)
    ensures Passes(db, op) <==> Handle(db, op).1 == Done || Handle(db, op).1 == DatabaseError
  {
    hide Execute;
    if op.CreateZone? {
      assert CodeTaken(db, op.id, op.zone.code) <==> exists z | z in db.zones :: db.zones[z].code == op.zone.code;
    }
  }

  /** Given columns have the given value, the others the old one. */
  predicate Takes<T(==)>(change: Option<Option<T>>, before: Option<T>, after: Option<T>)
  {
    after == if change == None then before else change.value
  }

  predicate FloorTakes(floor: Floor, floor': Floor, dto: FloorPatch)
  {
    && Takes(dto.buildingId, floor.buildingId, floor'.buildingId)
    && Takes(dto.name, Some(floor.name), Some(floor'.name))
    && Takes(dto.level, Some(floor.level), Some(floor'.level))
  }

  predicate ZoneTakes(zone: Zone, zone': Zone, dto: ZonePatch)
  {
    && Takes(dto.code, Some(zone.code), Some(zone'.code))
    && Takes(dto.name, Some(zone.name), Some(zone'.name))
    && Takes(dto.floorId, zone.floorId, zone'.floorId)
    && Takes(dto.minDurationSec, zone.minDurationSec, zone'.minDurationSec)
    && Takes(dto.maxDurationSec, zone.maxDurationSec, zone'.maxDurationSec)
  }

  lemma BuildingWritten(db: Tables, op: Op)
    requires Handle(db, op).1 == Done
    ensures var after := Handle(db, op).0;
            && (op.CreateBuilding? ==> after == db.(buildings := db.buildings[op.id := op.name]))
            && (op.UpdateBuilding? ==>
                  && op.id in db.buildings && after.(buildings := db.buildings) == db
                  && after.buildings.Keys == db.buildings.Keys && after.buildings - {op.id} == db.buildings - {op.id}
                  && op.buildingPatch.name in {None, Some(Some(after.buildings[op.id]))}
                  && (op.buildingPatch.name == None ==> after == db))
  {
    if op.UpdateBuilding? && op.buildingPatch.name == None {
      assert db.buildings[op.id := db.buildings[op.id]] == db.buildings;
    }
  }

  lemma FloorWritten(db: Tables, op: Op)
    requires Handle(db, op).1 == Done
    ensures var after := Handle(db, op).0;
            && (op.CreateFloor? ==>
                  && op.id !in db.floors && after.(floors := db.floors) == db
                  && after.floors.Keys == db.floors.Keys + {op.id} && after.floors - {op.id} == db.floors
                  && after.floors[op.id].buildingId == op.buildingId && after.floors[op.id].name == op.floorName
                  && after.floors[op.id].level == (if op.level == None then 0 else op.level.value))
            && (op.UpdateFloor? ==>
                  && op.id in db.floors && after.(floors := db.floors) == db
                  && after.floors.Keys == db.floors.Keys && after.floors - {op.id} == db.floors - {op.id}
                  && FloorTakes(db.floors[op.id], after.floors[op.id], op.floorPatch))
  {
  }

  lemma ZoneWritten(db: Tables, op: Op)
    requires Handle(db, op).1 == Done
    ensures var after := Handle(db, op).0;
            && (op.CreateZone? ==> op.id !in db.zones && after == db.(zones := db.zones[op.id := op.zone]))
            && (op.UpdateZone? ==>
                  && op.id in db.zones && after.(zones := db.zones) == db
                  && after.zones.Keys == db.zones.Keys && after.zones - {op.id} == db.zones - {op.id}
                  && ZoneTakes(db.zones[op.id], after.zones[op.id], op.zonePatch))
  {
    hide ZoneFits;
  }

  /** A successful create or update writes the one row it names, with the given columns and the kept ones. */
  lemma WritesOneRow(db: Tables, op: Op)
    requires Handle(db, op).1 == Done
    ensures var after := Handle(db, op).0;
            && (op.CreateBuilding? ==> after == db.(buildings := db.buildings[op.id := op.name]))
            && (op.UpdateBuilding? ==>
                  && op.id in db.buildings && after.(buildings := db.buildings) == db
                  && after.buildings.Keys == db.buildings.Keys && after.buildings - {op.id} == db.buildings - {op.id}
                  && op.buildingPatch.name in {None, Some(Some(after.buildings[op.id]))}
                  && (op.buildingPatch.name == None ==> after == db))
            && (op.CreateFloor? ==>
                  && op.id !in db.floors && after.(floors := db.floors) == db
                  && after.floors.Keys == db.floors.Keys + {op.id} && after.floors - {op.id} == db.floors
                  && after.floors[op.id].buildingId == op.buildingId && after.floors[op.id].name == op.floorName
                  && after.floors[op.id].level == (if op.level == None then 0 else op.level.value))
            && (op.UpdateFloor? ==>
                  && op.id in db.floors && after.(floors := db.floors) == db
                  && after.floors.Keys == db.floors.Keys && after.floors - {op.id} == db.floors - {op.id}
                  && FloorTakes(db.floors[op.id], after.floors[op.id], op.floorPatch))
            && (op.CreateZone? ==> op.id !in db.zones && after == db.(zones := db.zones[op.id := op.zone]))
            && (op.UpdateZone? ==>
                  && op.id in db.zones && after.(zones := db.zones) == db
                  && after.zones.Keys == db.zones.Keys && after.zones - {op.id} == db.zones - {op.id}
                  && ZoneTakes(db.zones[op.id], after.zones[op.id], op.zonePatch))
  {
    hide *;
    BuildingWritten(db, op);
    FloorWritten(db, op);
    ZoneWritten(db, op);
  }
}

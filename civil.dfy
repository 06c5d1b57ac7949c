/** The Civil 3D objects the plugin reads and writes, and the host's transactions. */
module Civil {
  import opened Failures

  type ObjectId = nat

  datatype Point3 = Point3(x: real, y: real, z: real)

  datatype HoldOnResize = Invert | Centerline | Crown

  datatype SumpControl = ByDepth | ByElevation

  /** A pipe: its handle, end points, sizes and the structures at either end
      (None is `ObjectId.Null`). */
  datatype Pipe = Pipe(
    handle: int,
    start: Point3,
    end: Point3,
    length2D: real,
    innerDiameter: real,
    outerDiameter: real,
    wallThickness: real,
    startStructure: Option<ObjectId>,
    endStructure: Option<ObjectId>,
    holdOnResize: HoldOnResize)

  datatype Structure = Structure(name: string, sumpControl: SumpControl, sumpDepth: real)

  /** What `GetObject` finds under an id; OtherEntity is anything that is neither. */
  datatype Entity = PipeEntity(pipe: Pipe) | StructureEntity(structure: Structure) | OtherEntity

  /** A pipe network, seen through `GetPipeIds()`. */
  datatype Network = Network(pipeIds: seq<ObjectId>)

  /** `ts.GetObject(id, ...) as Pipe`: None when the id holds no pipe. */
  function PipeAt(entities: map<ObjectId, Entity>, id: ObjectId): Option<Pipe>
  {
    if id in entities && entities[id].PipeEntity? then Some(entities[id].pipe) else None
  }

  /** `ts.GetObject(id, ...) as Structure`: None when the id holds no structure. */
  function StructureAt(entities: map<ObjectId, Entity>, id: ObjectId): Option<Structure>
  {
    if id in entities && entities[id].StructureEntity? then Some(entities[id].structure) else None
  }

  /** The drawing database: every object by id, and how many transactions were committed. */
  class Database {
    var entities: map<ObjectId, Entity>
    var commits: nat

    constructor (entities: map<ObjectId, Entity>)
      ensures this.entities == entities && commits == 0
    {
      this.entities := entities;
      commits := 0;
    }
  }

  datatype TransactionState = Active | Committed | Aborted

  /** A host transaction: objects opened for write are changed in the database
      at once; aborting puts back the state seen when the transaction started. */
  class Transaction {
    const db: Database
    const snapshot: map<ObjectId, Entity>
    var state: TransactionState

    constructor (db: Database)
      ensures this.db == db && snapshot == db.entities && state == Active
    {
      this.db := db;
      snapshot := db.entities;
      state := Active;
    }

    /** Change one object through the transaction. */
    method Write(id: ObjectId, e: Entity)
      requires state == Active
      modifies db`entities
      ensures db.entities == old(db.entities)[id := e]
    {
      db.entities := db.entities[id := e];
    }

    method Abort()
      requires state == Active
      modifies this`state, db`entities
      ensures state == Aborted && db.entities == snapshot
    {
      db.entities := snapshot;
      state := Aborted;
    }

    method Commit()
      requires state == Active
      modifies this`state, db`commits
      ensures state == Committed && db.commits == old(db.commits) + 1
    {
      db.commits := db.commits + 1;
      state := Committed;
    }

    /** Leaving the `using` block: a transaction still active is aborted. */
    method Dispose()
      modifies this`state, db`entities
      ensures old(state) == Active ==> state == Aborted && db.entities == snapshot
      ensures old(state) != Active ==> state == old(state) && db.entities == old(db.entities)
    {
      if state == Active {
        Abort();
      }
    }
  }
}

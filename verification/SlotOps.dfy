/** Logical instances and individually issued connections. */
module SlotOps {
  import opened Base
  import opened Tables
  import ScopeOps
  import PeopleOps
  import Meter

  datatype SlotOp =
    | CreateInstance(name: string, id: Id, now: int)
    | Issue(instance: Id, owner: Id, digest: string, id: Id, now: int)
    | Revoke(connection: Id)

  ghost function InstanceCreated(cfg: Config, db: Database, a: Id, op: SlotOp): Result<Database>
    requires a in db.principals && op.CreateInstance?
  {
    var org := db.principals[a].org;
    :- Need(db.principals[a].admin, Denied);
    var admitted :- Meter.Admitted(cfg, db, org, |Meter.ActiveInstances(db, org)|,
                                   Meter.LimitsFor(cfg, db.accounts, org).maxInstances);
    :- Need(!exists i :: i in db.instances && db.instances[i].org == org && db.instances[i].name == op.name, Conflict);
    :- ScopeOps.NewId(db, op.id);
    Ok(admitted.(used := db.used + {op.id}, instances := db.instances[op.id := Instance(org, op.name, true, op.now)]))
  }

  ghost function Issued(cfg: Config, db: Database, a: Id, op: SlotOp): Result<Database>
    requires a in db.principals && op.Issue?
  {
    var org := db.principals[a].org;
    :- Need(op.owner == a || db.principals[a].admin, Denied);
    :- Need(PeopleOps.Member(db, org, op.owner), NotFound);
    :- Need(op.instance in db.instances && db.instances[op.instance].org == org && db.instances[op.instance].active, NotFound);
    var admitted :- Meter.Admitted(cfg, db, org, |Meter.ActiveConnections(db, org)|,
                                   Meter.LimitsFor(cfg, db.accounts, org).maxConnections);
    :- ScopeOps.NewId(db, op.id);
    :- Need(!exists c :: c in db.connections && db.connections[c].digest == op.digest, Conflict);
    Ok(admitted.(used := db.used + {op.id},
                 connections := db.connections[op.id := Connection(org, op.owner, op.instance, op.digest, true, op.now)]))
  }

  function Revoked(db: Database, a: Id, op: SlotOp): Result<Database>
    requires a in db.principals && op.Revoke?
  {
    var org := db.principals[a].org;
    :- Need(op.connection in db.connections && db.connections[op.connection].org == org, NotFound);
    var row := db.connections[op.connection];
    :- Need(row.owner == a || db.principals[a].admin, Denied);
    :- Need(row.active, InvalidState);
    Ok(db.(connections := db.connections[op.connection := row.(active := false)]))
  }

  ghost function Performed(cfg: Config, db: Database, a: Id, op: SlotOp): Result<Database>
    requires a in db.principals
  {
    match op
    case CreateInstance(_, _, _) => InstanceCreated(cfg, db, a, op)
    case Issue(_, _, _, _, _) => Issued(cfg, db, a, op)
    case Revoke(_) => Revoked(db, a, op)
  }
}

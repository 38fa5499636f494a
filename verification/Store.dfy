/** The store: one entry point that re-authenticates, performs, and commits or rolls back
    (distributedai/persistence/workspace.py). */
module Stores {
  import opened Base
  import opened Tables
  import opened Sessions
  import opened Workspace
  import ScopeOps
  import PeopleOps
  import MemoryOps
  import JobOps
  import SlotOps
  import BillingEngines
  import ScopeStore
  import PeopleStore
  import MemoryStore
  import JobStore
  import RunProofs

  class Store {
    const cfg: Config
    const sess: Session

    /** Between two calls every invariant of the workspace holds. */
    ghost predicate Valid()
      reads sess
    {
      RunProofs.Sound(cfg, sess.Tables())
    }

    constructor (cfg: Config)
      ensures this.cfg == cfg && fresh(sess) && sess.Tables() == EMPTY && Valid()
    {
      this.cfg := cfg;
      sess := new Session();
      new;
      RunProofs.EmptySound(cfg);
    }

    method PerformSlots(a: Id, op: SlotOps.SlotOp) returns (r: Result<()>)
      requires a in sess.principals
      modifies sess
      ensures Answers(r, SlotOps.Performed(cfg, old(sess.Tables()), a, op), sess.Tables())
    {
      hide SlotOps.InstanceCreated, SlotOps.Issued, SlotOps.Revoked;
      match op
      case CreateInstance(_, _, _) => r := BillingEngines.InstanceCreate(cfg, sess, a, op);
      case Issue(_, _, _, _, _) => r := BillingEngines.ConnectionIssue(cfg, sess, a, op);
      case Revoke(_) => r := BillingEngines.ConnectionRevoke(sess, a, op);
    }

    method Handle(a: Id, op: Op) returns (r: Result<()>)
      requires a in sess.principals
      modifies sess
      ensures Answers(r, Performed(cfg, old(sess.Tables()), a, op), sess.Tables())
    {
      hide ScopeOps.Performed, PeopleOps.Performed, MemoryOps.Performed, JobOps.Performed, SlotOps.Performed;
      match op
      case OnScopes(o) => r := ScopeStore.Perform(cfg, sess, a, o);
      case OnPeople(o) => r := PeopleStore.Perform(cfg, sess, a, o);
      case OnMemory(o) => r := MemoryStore.Perform(cfg, sess, a, o);
      case OnJobs(o) => r := JobStore.Perform(cfg, sess, a, o);
      case OnSlots(o) => r := PerformSlots(a, o);
    }

    /** The sole entry point of tenants: the database row behind the caller decides, and an
        error of any kind undoes everything the operation changed. */
    method Dispatch(who: Identity, op: Op) returns (r: Result<()>)
      modifies sess
      ensures sess.Tables() == Step(cfg, old(sess.Tables()), Call.Dispatch(who, op))
      ensures r.Ok? <==> Dispatched(cfg, old(sess.Tables()), who, op).Ok?
      ensures r.Err? ==> Dispatched(cfg, old(sess.Tables()), who, op) == Err(r.code) && sess.Tables() == old(sess.Tables())
      ensures old(Valid()) ==> Valid()
    {
      hide Performed, RunProofs.Sound;
      var snapshot := sess.Tables();
      if Valid() { RunProofs.StepSound(cfg, snapshot, Call.Dispatch(who, op)); }
      if who.id !in sess.principals || !sess.principals[who.id].active
         || sess.principals[who.id].org != who.org || sess.principals[who.id].name != who.name {
        return Err(Denied);
      }
      r := Handle(who.id, op);
      if r.Err? { sess.Rollback(snapshot); }
    }

    method NewOrganisation(t: PeopleOps.Tenant) returns (r: Result<()>)
      modifies sess
      ensures sess.Tables() == Step(cfg, old(sess.Tables()), Call.NewOrganisation(t))
      ensures r.Err? ==> PeopleOps.OrganisationCreated(old(sess.Tables()), t) == Err(r.code)
      ensures old(Valid()) ==> Valid()
    {
      hide PeopleOps.OrganisationCreated, RunProofs.Sound;
      var snapshot := sess.Tables();
      if Valid() { RunProofs.StepSound(cfg, snapshot, Call.NewOrganisation(t)); }
      r := PeopleStore.CreateOrganisation(sess, t);
      if r.Err? { sess.Rollback(snapshot); }
    }

    method Recalculate(org: Id)
      modifies sess
      ensures sess.Tables() == Step(cfg, old(sess.Tables()), Call.Recalculate(org))
      ensures old(Valid()) ==> Valid()
    {
      hide Recount, RunProofs.Sound;
      ghost var before := sess.Tables();
      if Valid() { RunProofs.StepSound(cfg, before, Call.Recalculate(org)); }
      BillingEngines.RecomputeUsage(sess, org);
    }
  }
}

/** The rows of the shared database and the configuration of one deployment.
    A table that has a uniqueness constraint over several columns is a map keyed by those columns;
    every other table is a map keyed by row identifier. */
module Tables {
  import opened Base
  import PayloadScan

  type Id = string
  type Findings = set<PayloadScan.Finding>

  // ---------------------------------------------------------------- rows

  datatype Kind = Organisation | Department | Project | Personal

  datatype Scope = Scope(org: Id, parent: Option<Id>, name: string, kind: Kind)

  datatype Owner = Owner(org: Id, principal: Id)

  datatype Policy = Policy(org: Id, canExport: bool, canDelete: bool)

  datatype Principal = Principal(org: Id, name: string, digest: string, admin: bool, active: bool, created: int)

  datatype Role = Reader | Writer | Reviewer | Admin {
    function Rank(): (n: nat)
      ensures 1 <= n <= 4
    {
      match this case Reader => 1 case Writer => 2 case Reviewer => 3 case Admin => 4
    }
  }

  datatype Grant = Grant(org: Id, role: Role)

  /** The canonical value of one (scope, key). */
  datatype Record = Record(org: Id, content: string, version: nat, epistemic: string, source: string, author: Id)

  /** One immutable entry of the history of a (scope, key). */
  datatype Version = Version(org: Id, content: string, epistemic: string, source: string, proposal: Id, author: Id)

  datatype ProposalStatus = Pending | Accepted | Rejected | Conflicted

  datatype Proposal = Proposal(org: Id, scope: Id, key: string, content: string, expected: nat, epistemic: string,
                               source: string, proposer: Id, status: ProposalStatus, findings: Findings,
                               quarantined: bool, reviewer: Option<Id>)

  datatype Message = Message(org: Id, scope: Id, sender: Id, recipient: Id, body: string, findings: Findings, quarantined: bool)

  datatype JobStatus = Queued | Claimed | AwaitingReview | Held | Completed | Failed | Cancelled

  /** `Held` is the source's status "quarantined". */
  datatype Job = Job(org: Id, scope: Id, creator: Id, assignee: Id, objective: string, idempotency: string,
                     status: JobStatus, quarantined: bool, findings: Findings, token: Option<string>,
                     lease: Option<int>, attempts: nat, result: Option<string>)

  datatype Instance = Instance(org: Id, name: string, active: bool, created: int)

  datatype Connection = Connection(org: Id, owner: Id, instance: Id, digest: string, active: bool, created: int)

  datatype AccountStatus = Registered | Active | Delinquent

  datatype Account = Account(plan: string, status: AccountStatus, provider: string, customer: Option<string>,
                             subscription: string, lastAt: Option<int>, lastEvent: Option<string>, reconcile: bool)

  /** One state of the shared database. `used` holds every identifier ever generated: a fresh
      uuid4 never repeats one. */
  datatype Database = Database(
    used: set<Id>,
    orgs: map<Id, string>,
    principals: map<Id, Principal>,
    scopes: map<Id, Scope>,
    owners: map<Id, Owner>,                       // by scope
    policies: map<(Id, Id), Policy>,              // by (scope, principal)
    grants: map<(Id, Id), Grant>,                 // by (principal, scope)
    locks: set<(Id, string)>,                     // (scope, key)
    records: map<(Id, string), Record>,           // by (scope, key)
    versions: map<(Id, string, nat), Version>,    // by (scope, key, version)
    proposals: map<Id, Proposal>,
    messages: map<Id, Message>,
    jobs: map<Id, Job>,
    instances: map<Id, Instance>,
    connections: map<Id, Connection>,
    usage: map<Id, int>,                          // storage bytes by organisation
    accounts: map<Id, Account>)                   // by organisation

  const EMPTY := Database({}, map[], map[], map[], map[], map[], map[], {}, map[], map[], map[], map[], map[],
                          map[], map[], map[], map[])

  // ---------------------------------------------------------------- configuration

  /** Ceilings of a plan; `None` is unlimited. */
  datatype PlanLimits = PlanLimits(maxUsers: Option<nat>, maxInstances: Option<nat>, maxConnections: Option<nat>,
                                   maxBytes: Option<nat>)

  datatype Deployment = Deployment(
    scan: PayloadScan.Scanner,
    dumps: PayloadScan.Value -> Option<string>,
    metered: bool,
    plans: map<string, PlanLimits>,
    defaultPlan: string)

  /** A deployment whose default plan is not configured is refused at start-up. */
  type Config = d: Deployment | d.defaultPlan in d.plans
    witness Deployment((s: string) => {}, (v: PayloadScan.Value) => None, false,
                       map["free_personal" := PlanLimits(None, None, None, None)], "free_personal")

  // ---------------------------------------------------------------- payload bytes

  /** The length of a finding's code. */
  function CodeLength(f: PayloadScan.Finding): nat {
    match f
    case EncodedPayload => 15
    case InstructionOverride => 20
    case MalformedInput => 15
    case OversizeInput => 14
    case RoleSpoofing => 13
    case SecretExfiltration => 19
    case SuspiciousExecution => 20
  }

  /** One listed code: its quotes and the separator after it. */
  function ListedBytes(findings: Findings, f: PayloadScan.Finding): nat {
    if f in findings then CodeLength(f) + 4 else 0
  }

  /** The bytes of `json.dumps(findings)`: brackets, quoted codes, and a separator between two codes. */
  function FindingsBytes(findings: Findings): (n: nat)
    ensures n >= 2
    ensures findings == {} ==> n == 2
  {
    var listed := ListedBytes(findings, PayloadScan.EncodedPayload) + ListedBytes(findings, PayloadScan.InstructionOverride)
                + ListedBytes(findings, PayloadScan.MalformedInput) + ListedBytes(findings, PayloadScan.OversizeInput)
                + ListedBytes(findings, PayloadScan.RoleSpoofing) + ListedBytes(findings, PayloadScan.SecretExfiltration)
                + ListedBytes(findings, PayloadScan.SuspiciousExecution);
    if listed == 0 then 2 else listed
  }

  function ProposalBytes(p: Proposal): nat { Bytes(p.content) + Bytes(p.source) + FindingsBytes(p.findings) }

  function VersionBytes(v: Version): nat { Bytes(v.content) + Bytes(v.source) }

  function MessageBytes(m: Message): nat { Bytes(m.body) + FindingsBytes(m.findings) }

  function JobBytes(j: Job): nat {
    Bytes(j.objective) + (if j.result.Some? then Bytes(j.result.value) else 0) + FindingsBytes(j.findings)
  }

  function ProposalWeight(org: Id): Proposal -> nat {
    (p: Proposal) => if p.org == org then ProposalBytes(p) else 0
  }

  function VersionWeight(org: Id): Version -> nat {
    (v: Version) => if v.org == org then VersionBytes(v) else 0
  }

  function MessageWeight(org: Id): Message -> nat {
    (m: Message) => if m.org == org then MessageBytes(m) else 0
  }

  function JobWeight(org: Id): Job -> nat {
    (j: Job) => if j.org == org then JobBytes(j) else 0
  }

  /** The bytes that the storage counter of an organisation stands for. */
  ghost function Recount(db: Database, org: Id): nat {
    Total(db.proposals, ProposalWeight(org)) + Total(db.versions, VersionWeight(org)) +
    Total(db.messages, MessageWeight(org)) + Total(db.jobs, JobWeight(org))
  }
}

/** Exactly when a memory or message operation succeeds, and what it leaves behind
    (distributedai/persistence/workspace.py). */
module MemoryLaws {
  import opened Base
  import opened Tables
  import opened ScopeTree
  import opened PlacementProofs
  import opened DenialProofs
  import opened AccountingProofs
  import opened RunProofs
  import opened AuthorityProofs
  import opened Encodings
  import PayloadScan
  import ScopeOps
  import MemoryOps
  import Meter
  import opened Workspace

  // ---------------------------------------------------------------- room for bytes

  /** The organisation's stored bytes and `n` more fit the cap of the plan in force; nothing always fits. */
  ghost predicate Room(cfg: Config, db: Database, org: Id, n: nat) {
    cfg.metered && n > 0 ==>
      var cap := cfg.plans[Meter.PlanFor(cfg, db.accounts, org)].maxBytes;
      cap.Some? ==> Recount(db, org) + n <= cap.value
  }

  /** The counters after `n` bytes were added for an organisation. */
  ghost function Counted(cfg: Config, db: Database, org: Id, n: nat): map<Id, int> {
    if cfg.metered && n > 0 then db.usage[org := Recount(db, org) + n] else db.usage
  }

  lemma ChargesSome(cfg: Config, db: Database, org: Id, n: nat)
    requires cfg.metered && Balanced(db) && n > 0
    ensures Meter.Charged(cfg, db, org, n) ==
      if Room(cfg, db, org, n) then Ok(db.(usage := db.usage[org := Recount(db, org) + n])) else Err(QuotaExceeded)
  {
    hide Recount, Meter.PlanFor, Meter.UsageLocked, Balanced;
    LockedUsage(db, org);
    Twice(db.usage, org, Recount(db, org), Recount(db, org) + n);
  }

  lemma Twice(usage: map<Id, int>, org: Id, m: int, n: int)
    ensures usage[org := m][org := n] == usage[org := n]
  {
  }

  lemma LockedUsage(db: Database, org: Id)
    requires Balanced(db)
    ensures Meter.UsageLocked(db, org) == db.(usage := db.usage[org := Recount(db, org)])
  {
    hide Recount;
    if org in db.usage { assert db.usage[org := Recount(db, org)] == db.usage; }
  }

  /** A charge is refused exactly when there is no room, and otherwise counted on top of what is stored. */
  lemma ChargesExactly(cfg: Config, db: Database, org: Id, n: nat)
    requires cfg.metered ==> Balanced(db)
    ensures Meter.Charged(cfg, db, org, n) ==
      if Room(cfg, db, org, n) then Ok(db.(usage := Counted(cfg, db, org, n))) else Err(QuotaExceeded)
  {
    hide Recount, Meter.PlanFor, Meter.UsageLocked;
    if cfg.metered && n > 0 { ChargesSome(cfg, db, org, n); }
  }

  // ---------------------------------------------------------------- what is scanned

  /** The texts of a proposal and the names they are scanned under are clean. */
  predicate CleanTexts(cfg: Config, op: MemoryOps.MemoryOp)
    requires op.Propose?
  {
    && cfg.scan(op.key) == {} && cfg.scan(op.content) == {} && cfg.scan(op.source) == {}
    && cfg.scan("key") == {} && cfg.scan("content") == {} && cfg.scan("source") == {}
  }

  function Names(keys: seq<string>): seq<PayloadScan.Key> {
    seq(|keys|, i requires 0 <= i < |keys| => PayloadScan.Text(keys[i]))
  }

  function Texts(texts: seq<string>): seq<PayloadScan.Value> {
    seq(|texts|, i requires 0 <= i < |texts| => PayloadScan.Str(texts[i]))
  }

  /** A flat object of texts is clean exactly when its names and its texts are. */
  lemma FlatClean(scan: PayloadScan.Scanner, keys: seq<string>, texts: seq<string>)
    requires |texts| < 2000
    ensures PayloadScan.Clean(scan, PayloadScan.Object(Names(keys), Texts(texts))) <==>
      (forall i :: 0 <= i < |keys| ==> scan(keys[i]) == {}) && (forall i :: 0 <= i < |texts| ==> scan(texts[i]) == {})
  {
    var names, items := Names(keys), Texts(texts);
    FlatNodes(items);
    assert forall v :: v in items ==> PayloadScan.Within(v, 31);
    NamesClean(scan, keys);
    TextsClean(scan, texts);
    var v := PayloadScan.Object(names, items);
    assert PayloadScan.Nodes(v) <= 2000 && PayloadScan.Within(v, 32);
  }

  lemma NamesClean(scan: PayloadScan.Scanner, keys: seq<string>)
    ensures (forall k :: k in Names(keys) && k.Text? ==> scan(k.text) == {}) <==> (forall i :: 0 <= i < |keys| ==> scan(keys[i]) == {})
  {
    forall i | 0 <= i < |keys| ensures Names(keys)[i] in Names(keys) && Names(keys)[i] == PayloadScan.Text(keys[i]) {}
  }

  lemma TextsClean(scan: PayloadScan.Scanner, texts: seq<string>)
    ensures (forall v :: v in Texts(texts) ==> PayloadScan.AllClean(scan, v)) <==> (forall i :: 0 <= i < |texts| ==> scan(texts[i]) == {})
  {
    forall i | 0 <= i < |texts| ensures Texts(texts)[i] in Texts(texts) && Texts(texts)[i] == PayloadScan.Str(texts[i]) {}
  }

  lemma {:induction false} FlatNodes(items: seq<PayloadScan.Value>)
    requires forall v :: v in items ==> v.Str?
    ensures PayloadScan.NodesAll(items) == |items|
  {
    if items != [] {
      assert items[0] in items;
      assert forall v :: v in items[1..] ==> v in items;
      FlatNodes(items[1..]);
    }
  }

  /** Key, content and source of a proposal are all scanned. */
  lemma ProposalScan(cfg: Config, op: MemoryOps.MemoryOp)
    requires op.Propose?
    ensures MemoryOps.MemoryFindings(cfg, op.key, op.content, op.source) == {} <==> CleanTexts(cfg, op)
  {
    hide PayloadScan.Clean, PayloadScan.Findings;
    PayloadScan.NoFindingsExactlyWhenClean(cfg.scan, MemoryOps.MemoryPayload(op.key, op.content, op.source));
    var keys, texts := ["key", "content", "source"], [op.key, op.content, op.source];
    FlatClean(cfg.scan, keys, texts);
    assert Names(keys) == [PayloadScan.Text("key"), PayloadScan.Text("content"), PayloadScan.Text("source")];
    assert Texts(texts) == [PayloadScan.Str(op.key), PayloadScan.Str(op.content), PayloadScan.Str(op.source)];
    assert (forall i :: 0 <= i < 3 ==> cfg.scan(keys[i]) == {}) <==>
      cfg.scan(keys[0]) == {} && cfg.scan(keys[1]) == {} && cfg.scan(keys[2]) == {};
    assert (forall i :: 0 <= i < 3 ==> cfg.scan(texts[i]) == {}) <==>
      cfg.scan(texts[0]) == {} && cfg.scan(texts[1]) == {} && cfg.scan(texts[2]) == {};
  }

  // ---------------------------------------------------------------- proposals

  /** The bytes of content, source and findings. */
  ghost function ProposalSize(cfg: Config, op: MemoryOps.MemoryOp): nat
    requires op.Propose?
  {
    |Utf8(op.content)| + |Utf8(op.source)| + |Utf8(JsonList(MemoryOps.MemoryFindings(cfg, op.key, op.content, op.source)))|
  }

  /** Exactly a writer of the scope proposes, while the bytes fit; the proposal is pending with what was
      given, quarantined exactly when a text is not clean, and its bytes are counted. */
  lemma ProposesExactly(cfg: Config, db: Database, a: Id, op: MemoryOps.MemoryOp)
    requires Forest(db.scopes) && Placed(db) && (cfg.metered ==> Balanced(db)) && a in db.principals && op.Propose?
    ensures MemoryOps.Proposed(cfg, db, a, op).Ok? <==>
      Holds(db, a, op.scope, Writer) && Room(cfg, db, db.principals[a].org, ProposalSize(cfg, op)) && op.id !in db.used
    ensures MemoryOps.Proposed(cfg, db, a, op).Ok? ==>
      var findings := MemoryOps.MemoryFindings(cfg, op.key, op.content, op.source);
      var quarantined := !CleanTexts(cfg, op);
      MemoryOps.Proposed(cfg, db, a, op).value == db.(
        used := db.used + {op.id},
        usage := Counted(cfg, db, db.principals[a].org, ProposalSize(cfg, op)),
        proposals := db.proposals[op.id := Proposal(db.principals[a].org, op.scope, op.key, op.content, op.expected, op.epistemic,
                                                    op.source, a, Pending, findings, quarantined, None)])
  {
    hide Forest, Placed, Balanced, Recount, RequireRole, Holds, Meter.Charged, Room, Counted, MemoryOps.MemoryFindings, CleanTexts,
         Utf8, JsonList, Bytes, FindingsBytes;
    var findings := MemoryOps.MemoryFindings(cfg, op.key, op.content, op.source);
    HoldsScope(db, a, op.scope, Writer);
    BytesAreUtf8(op.content);
    BytesAreUtf8(op.source);
    FindingsAreJson(findings);
    ProposalScan(cfg, op);
    ChargesExactly(cfg, db, db.principals[a].org, ProposalSize(cfg, op));
  }

  /** The two scope checks of an operation, in terms of the rows. */
  lemma HoldsScope(db: Database, p: Id, s: Id, minimum: Role)
    requires Forest(db.scopes) && Placed(db) && p in db.principals
    ensures Holds(db, p, s, minimum) <==>
      GetScope(db, db.principals[p].org, s).Ok? && RequireRole(db, p, s, minimum).Pass?
    ensures Holds(db, p, s, minimum) ==> s in db.scopes && db.scopes[s].org == db.principals[p].org
  {
    hide Forest, Placed, RequireRole;
    if s in db.scopes { RequireExactly(db, p, s, minimum); }
  }

  // ---------------------------------------------------------------- reviews

  /** `b` may decide the proposal: a reviewer of its scope, not its proposer unless the scope is personal, while
      it is open. */
  ghost predicate MayDecide(db: Database, b: Id, pid: Id)
    requires b in db.principals
  {
    && pid in db.proposals && db.proposals[pid].org == db.principals[b].org && db.proposals[pid].status == Pending
    && Holds(db, b, db.proposals[pid].scope, Reviewer)
    && (db.proposals[pid].proposer == b ==> db.scopes[db.proposals[pid].scope].kind == Personal)
  }

  lemma DecidesExactly(db: Database, b: Id, pid: Id)
    requires Forest(db.scopes) && Placed(db) && b in db.principals
    ensures MemoryOps.MayReview(db, b, pid).Pass? <==> MayDecide(db, b, pid)
  {
    hide Forest, Placed, RequireRole, Holds;
    if pid in db.proposals { HoldsScope(db, b, db.proposals[pid].scope, Reviewer); }
  }

  /** The proposal is decided and nothing else about it changed. */
  function Marked(db: Database, pid: Id, status: ProposalStatus, b: Id): map<Id, Proposal>
    requires pid in db.proposals
  {
    db.proposals[pid := db.proposals[pid].(status := status, reviewer := Some(b))]
  }

  /** A rejection: exactly those who may decide, and nothing but the mark changes. */
  lemma RejectsExactly(cfg: Config, db: Database, b: Id, pid: Id)
    requires Forest(db.scopes) && Placed(db) && b in db.principals
    ensures MemoryOps.Reviewed(cfg, db, b, MemoryOps.Review(pid, false)).Ok? <==> MayDecide(db, b, pid)
    ensures MayDecide(db, b, pid) ==>
      MemoryOps.Reviewed(cfg, db, b, MemoryOps.Review(pid, false)).value == db.(proposals := Marked(db, pid, Rejected, b))
  {
    hide Forest, Placed, MemoryOps.MayReview, Holds;
    DecidesExactly(db, b, pid);
  }

  ghost function Canonical(db: Database, s: Id, key: string): nat {
    if (s, key) in db.records then db.records[(s, key)].version else 0
  }

  /** An acceptance: exactly those who may decide, of a proposal that is not quarantined, and when its expected
      version is current there must be room. A stale one is marked as a conflict and changes no memory; a
      current one becomes the canonical value and the next version, with its content, kind, source and author. */
  lemma AcceptsExactly(cfg: Config, db: Database, b: Id, pid: Id)
    requires Forest(db.scopes) && Placed(db) && (cfg.metered ==> Balanced(db)) && b in db.principals
    requires pid in db.proposals
    ensures var p := db.proposals[pid];
      var stale := p.expected != Canonical(db, p.scope, p.key);
      var size := |Utf8(p.content)| + |Utf8(p.source)|;
      var r := MemoryOps.Reviewed(cfg, db, b, MemoryOps.Review(pid, true));
      && (r.Ok? <==> MayDecide(db, b, pid) && !p.quarantined && (stale || Room(cfg, db, p.org, size)))
      && (r.Ok? && stale ==>
            r.value == db.(locks := db.locks + {(p.scope, p.key)}, proposals := Marked(db, pid, Conflicted, b)))
      && (r.Ok? && !stale ==>
            r.value == db.(locks := db.locks + {(p.scope, p.key)},
                           usage := Counted(cfg, db, p.org, size),
                           proposals := Marked(db, pid, Accepted, b),
                           records := db.records[(p.scope, p.key) :=
                             Record(p.org, p.content, p.expected + 1, p.epistemic, p.source, p.proposer)],
                           versions := db.versions[(p.scope, p.key, p.expected + 1) :=
                             Version(p.org, p.content, p.epistemic, p.source, pid, p.proposer)]))
  {
    hide Forest, Placed, Balanced, Recount, MemoryOps.MayReview, MayDecide, Meter.Charged, Room, Counted, Utf8, Bytes, Canonical;
    var p := db.proposals[pid];
    var size := |Utf8(p.content)| + |Utf8(p.source)|;
    var held := db.(locks := db.locks + {(p.scope, p.key)});
    DecidesExactly(db, b, pid);
    BytesAreUtf8(p.content);
    BytesAreUtf8(p.source);
    HeldCharge(cfg, db, held, p.org, size);
    SameVersion(db, held, p.scope, p.key);
  }

  lemma SameVersion(db: Database, held: Database, s: Id, key: string)
    requires held.records == db.records
    ensures MemoryOps.CurrentVersion(held, s, key) == Canonical(db, s, key) == MemoryOps.CurrentVersion(db, s, key)
  {
  }

  lemma HeldCharge(cfg: Config, db: Database, held: Database, org: Id, n: nat)
    requires held == db.(locks := held.locks) && (cfg.metered ==> Balanced(db))
    ensures Meter.Charged(cfg, held, org, n) ==
      if Room(cfg, db, org, n) then Ok(held.(usage := Counted(cfg, db, org, n))) else Err(QuotaExceeded)
  {
    hide Balanced, Recount, Meter.Charged, Meter.PlanFor;
    SamePayload(db, held);
    if cfg.metered { HeldBalanced(cfg, db, held); }
    ChargesExactly(cfg, held, org, n);
  }

  // ---------------------------------------------------------------- deletion of a key

  /** Exactly those who have the right to delete on the scope delete a key of it that has some record, version
      or proposal; then nothing of the key is left, and everything else is. */
  lemma DeletesExactly(cfg: Config, db: Database, a: Id, op: MemoryOps.MemoryOp)
    requires Forest(db.scopes) && Placed(db) && a in db.principals && op.DeleteKey?
    ensures MemoryOps.KeyDeleted(cfg, db, a, op).Ok? <==>
      && HasRight(db, a, op.scope, Delete)
      && (|| (op.scope, op.key) in db.records
          || (exists n :: (op.scope, op.key, n) in db.versions)
          || (exists i :: i in db.proposals && db.proposals[i].scope == op.scope && db.proposals[i].key == op.key))
  {
    hide Forest, RequireRole, Permitted, Holds, Withheld, MemoryOps.KeyPurged, Meter.Recounted, Known, LocksPlaced, MessagesPlaced,
         JobsPlaced, HasAccessPlaced;
    HoldsScope(db, a, op.scope, Admin);
    if op.scope in db.scopes {
      RightExactly(db, a, op.scope, Delete);
      KeyExistsExactly(db, op.scope, op.key);
    }
  }

  lemma KeyExistsExactly(db: Database, s: Id, key: string)
    requires PayloadPlaced(db, db.scopes) && s in db.scopes
    ensures MemoryOps.KeyExists(db, db.scopes[s].org, s, key) <==>
      || (s, key) in db.records
      || (exists n :: (s, key, n) in db.versions)
      || (exists i :: i in db.proposals && db.proposals[i].scope == s && db.proposals[i].key == key)
  {
    if (s, key) in db.records { assert Lives(db.scopes, (s, key).0, db.records[(s, key)].org); }
    forall n | (s, key, n) in db.versions ensures db.versions[(s, key, n)].org == db.scopes[s].org {
      assert Lives(db.scopes, (s, key, n).0, db.versions[(s, key, n)].org);
    }
    forall k | k in db.versions && k.0 == s && k.1 == key ensures k == (s, key, k.2) {}
    forall i | i in db.proposals && db.proposals[i].scope == s ensures db.proposals[i].org == db.scopes[s].org {
      assert Lives(db.scopes, db.proposals[i].scope, db.proposals[i].org);
    }
  }

  /** What a deletion leaves: no record, version, proposal or lock of the key, and all the others. */
  lemma DeletionLeaves(cfg: Config, db: Database, a: Id, op: MemoryOps.MemoryOp)
    requires Placed(db) && a in db.principals && op.DeleteKey? && MemoryOps.KeyDeleted(cfg, db, a, op).Ok?
    ensures var d := MemoryOps.KeyDeleted(cfg, db, a, op).value;
      && d == db.(locks := d.locks, records := d.records, versions := d.versions, proposals := d.proposals, usage := d.usage)
      && d.records == db.records - {(op.scope, op.key)}
      && (forall k :: k in d.versions <==> k in db.versions && !(k.0 == op.scope && k.1 == op.key))
      && (forall k :: k in d.versions ==> d.versions[k] == db.versions[k])
      && (forall i :: i in d.proposals <==> i in db.proposals && !(db.proposals[i].scope == op.scope && db.proposals[i].key == op.key))
      && (forall i :: i in d.proposals ==> d.proposals[i] == db.proposals[i])
      && d.locks == db.locks - {(op.scope, op.key)}
  {
    hide RequireRole, Permitted, MemoryOps.KeyExists, Meter.Recounted, HasAccessPlaced, Known, LocksPlaced, MessagesPlaced, JobsPlaced,
         MemoryOps.KeyPurged;
    PurgedLeaves(db, db.principals[a].org, op.scope, op.key);
  }

  lemma PurgedLeaves(db: Database, org: Id, s: Id, key: string)
    requires RecordsPlaced(db.scopes, db.records) && VersionsPlaced(db.scopes, db.versions) && ProposalsPlaced(db.scopes, db.proposals)
    requires s in db.scopes && db.scopes[s].org == org
    ensures var d := MemoryOps.KeyPurged(db, org, s, key);
      && d == db.(locks := d.locks, records := d.records, versions := d.versions, proposals := d.proposals)
      && d.records == db.records - {(s, key)}
      && (forall k :: k in d.versions <==> k in db.versions && !(k.0 == s && k.1 == key))
      && (forall k :: k in d.versions ==> d.versions[k] == db.versions[k])
      && (forall i :: i in d.proposals <==> i in db.proposals && !(db.proposals[i].scope == s && db.proposals[i].key == key))
      && (forall i :: i in d.proposals ==> d.proposals[i] == db.proposals[i])
      && d.locks == db.locks - {(s, key)}
  {
    hide Lives, RecordsPlaced, VersionsPlaced, ProposalsPlaced;
    OfOneOrg(db, s);
    assert forall k :: k == (s, key) ==> k.0 == s;
  }

  lemma OfOneOrg(db: Database, s: Id)
    requires RecordsPlaced(db.scopes, db.records) && VersionsPlaced(db.scopes, db.versions) && ProposalsPlaced(db.scopes, db.proposals)
    requires s in db.scopes
    ensures forall k :: k in db.records && k.0 == s ==> db.records[k].org == db.scopes[s].org
    ensures forall k :: k in db.versions && k.0 == s ==> db.versions[k].org == db.scopes[s].org
    ensures forall i :: i in db.proposals && db.proposals[i].scope == s ==> db.proposals[i].org == db.scopes[s].org
  {
    assert forall k :: k in db.records ==> Lives(db.scopes, k.0, db.records[k].org);
    assert forall k :: k in db.versions ==> Lives(db.scopes, k.0, db.versions[k].org);
    assert forall i :: i in db.proposals ==> Lives(db.scopes, db.proposals[i].scope, db.proposals[i].org);
  }

  // ---------------------------------------------------------------- messages

  /** Exactly a writer of the scope sends a message to an active member with a role on it, while the bytes fit;
      the message is what was given, quarantined exactly when the body is not clean. */
  lemma SendsExactly(cfg: Config, db: Database, a: Id, op: MemoryOps.MemoryOp)
    requires Forest(db.scopes) && Placed(db) && (cfg.metered ==> Balanced(db)) && a in db.principals && op.Send?
    ensures var size := |Utf8(op.body)| + |Utf8(JsonList(cfg.scan(op.body)))|;
      MemoryOps.Sent(cfg, db, a, op).Ok? <==>
        && Holds(db, a, op.scope, Writer)
        && op.recipient in db.principals && db.principals[op.recipient].active && Holds(db, op.recipient, op.scope, Reader)
        && Room(cfg, db, db.principals[a].org, size) && op.id !in db.used
    ensures MemoryOps.Sent(cfg, db, a, op).Ok? ==>
      MemoryOps.Sent(cfg, db, a, op).value == db.(
        used := db.used + {op.id},
        usage := Counted(cfg, db, db.principals[a].org, |Utf8(op.body)| + |Utf8(JsonList(cfg.scan(op.body)))|),
        messages := db.messages[op.id := Message(db.principals[a].org, op.scope, a, op.recipient, op.body, cfg.scan(op.body),
                                                 cfg.scan(op.body) != {})])
  {
    hide Forest, Placed, Balanced, Recount, RequireRole, Holds, Meter.Charged, Room, Counted, Utf8, JsonList, Bytes, FindingsBytes,
         RoleFor;
    HoldsScope(db, a, op.scope, Writer);
    if op.scope in db.scopes && op.recipient in db.principals {
      HoldsScope(db, op.recipient, op.scope, Reader);
      AnyRole(db, op.recipient, op.scope);
    }
    BytesAreUtf8(op.body);
    FindingsAreJson(cfg.scan(op.body));
    ChargesExactly(cfg, db, db.principals[a].org, |Utf8(op.body)| + |Utf8(JsonList(cfg.scan(op.body)))|);
  }

  lemma AnyRole(db: Database, p: Id, s: Id)
    requires p in db.principals && s in db.scopes
    ensures RequireRole(db, p, s, Reader).Pass? <==> RoleFor(db, p, s).Ok? && RoleFor(db, p, s).value.Some?
    ensures RoleFor(db, p, s).Ok? && RoleFor(db, p, s).value.Some? ==> db.scopes[s].org == db.principals[p].org
  {
    hide Chain, GrantedRole;
  }

  // ---------------------------------------------------------------- denials over runs

  /** Whoever is denied the deletion of a scope's contents deletes none of them after any run without a policy
      change: no key, no scope and no merge, in the scope where the run took them. */
  lemma DeniedNeverDeletes(cfg: Config, db: Database, calls: seq<Call>, s: Id, p: Id, who: Identity, key: string, contents: bool, t: Id)
    requires Reachable(cfg, db) && s in db.scopes && Withheld(db, p, s, Delete) && who.id == p
    requires forall c :: c in calls ==> !SetsPolicy(c)
    ensures var d := Run(cfg, db, calls); var h := RunHome(cfg, db, calls, s);
      && Dispatched(cfg, d, who, OnMemory(MemoryOps.DeleteKey(h, key))).Err?
      && Dispatched(cfg, d, who, OnScopes(ScopeOps.DeleteScope(h, contents))).Err?
      && Dispatched(cfg, d, who, OnScopes(ScopeOps.Merge(h, t))).Err?
  {
    hide Reachable, Sound, Run, RunHome, Denies, Withheld, Permitted, SetsPolicy, MemoryOps.KeyDeleted, ScopeOps.Deleted, ScopeOps.Merged;
    DeniesWithheld(db, p, s, Delete);
    DenialsSurvive(cfg, db, calls, s, p, Delete);
    var d, h := Run(cfg, db, calls), RunHome(cfg, db, calls, s);
    if p in d.principals { RefusedDeletion(cfg, d, p, h, key, contents, t); }
  }

  lemma RefusedDeletion(cfg: Config, db: Database, p: Id, s: Id, key: string, contents: bool, t: Id)
    requires p in db.principals && (s in db.scopes ==> Permitted(db, p, s, Delete) != Ok(true))
    ensures MemoryOps.KeyDeleted(cfg, db, p, MemoryOps.DeleteKey(s, key)).Err?
    ensures ScopeOps.Deleted(cfg, db, p, ScopeOps.DeleteScope(s, contents)).Err?
    ensures ScopeOps.Merged(db, p, ScopeOps.Merge(s, t)).Err?
  {
    hide RequireRole, Permitted, Chain, MemoryOps.KeyExists, MemoryOps.KeyPurged, Meter.Recounted, ScopeOps.HasChild, ScopeOps.HasData,
         ScopeOps.Purged, ScopeOps.Dropped, ScopeOps.Rehomed, ScopeOps.Retained, ScopeOps.ChildNamesCollide, ScopeOps.JobsCollide,
         ScopeOps.MemoryKeys, ScopeOps.Adopted;
  }
}

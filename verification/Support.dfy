/** The support queue: its quotas over whole runs, and its two layers of authorisation
    (distributedai/persistence/support.py, distributedai/application/support.py). */
module Support {
  import opened Base

  type Id = string

  const GLOBAL_SCOPE := "solution-support"
  const MAX_OPEN := 100
  const MAX_TICKETS := 1000
  const MAX_REPLIES := 100
  const MAX_BYTES := 10 * 1024 * 1024
  const MAX_IDENTITIES := 100

  datatype Person = Person(org: Id, active: bool, admin: bool)

  datatype Queue = Solution | Organisation

  datatype Status = Open | Closed

  /** What identifies a request behind an idempotency key. */
  datatype Request = Request(queue: Queue, subject: string, body: string, page: string)

  datatype Ticket = Ticket(org: Id, reporter: Id, request: Request, key: string, status: Status, assignee: Option<Id>, bytes: nat)

  datatype Reply = Reply(ticket: Id, org: Id, author: Id, bytes: nat)

  datatype Setting = Setting(url: string, ids: set<Id>, version: nat)

  type People = map<Id, Person>
  type Settings = map<Id, Setting>
  type Tickets = map<Id, Ticket>
  type Replies = map<Id, Reply>

  datatype Desk = Desk(orgs: set<Id>, people: People, settings: Settings, tickets: Tickets, replies: Replies)

  // ---------------------------------------------------------------- authorisation in the repository

  predicate IsActive(people: People, p: Id) { p in people && people[p].active }

  /** The identities that the repository reads for a ticket's queue. */
  function HandlerIds(settings: Settings, defaults: set<Id>, t: Ticket): set<Id> {
    var scope := if t.request.queue == Solution then GLOBAL_SCOPE else t.org;
    if scope in settings then settings[scope].ids else if scope == GLOBAL_SCOPE then defaults else {}
  }

  /** `_handler`. */
  predicate Handler(d: Desk, actor: Id, t: Ticket, defaults: set<Id>)
    requires actor in d.people
  {
    var ids := HandlerIds(d.settings, defaults, t);
    if t.request.queue == Solution || t.org == GLOBAL_SCOPE then actor in ids
    else d.people[actor].org == t.org && (d.people[actor].admin || actor in ids)
  }

  /** `_authorized`: the reporter, unless only handlers are asked for, or a handler. */
  function Authorized(d: Desk, ticket: Id, actor: Id, defaults: set<Id>, handler: bool): Result<Ticket> {
    if !IsActive(d.people, actor) then Err(Denied)
    else if ticket !in d.tickets then Err(Denied)
    else
      var t := d.tickets[ticket];
      if (!handler && t.reporter == actor) || Handler(d, actor, t, defaults) then Ok(t) else Err(Denied)
  }

  // ---------------------------------------------------------------- quotas

  function TicketsOf(tickets: Tickets, org: Id): set<Id> { set i | i in tickets && tickets[i].org == org }

  function OpenOf(tickets: Tickets, org: Id): set<Id> { set i | i in tickets && tickets[i].org == org && tickets[i].status == Open }

  function RepliesTo(replies: Replies, ticket: Id): set<Id> { set i | i in replies && replies[i].ticket == ticket }

  function TicketWeight(org: Id): Ticket -> nat { (t: Ticket) => if t.org == org then t.bytes else 0 }

  function ReplyWeight(org: Id): Reply -> nat { (r: Reply) => if r.org == org then r.bytes else 0 }

  ghost function StoredBytes(tickets: Tickets, replies: Replies, org: Id): nat {
    Total(tickets, TicketWeight(org)) + Total(replies, ReplyWeight(org))
  }

  function RequestBytes(r: Request): nat { Bytes(r.subject) + Bytes(r.body) + Bytes(r.page) }

  // ---------------------------------------------------------------- operations

  datatype Op =
    | Create(org: Id, reporter: Id, request: Request, key: string, id: Id)
    | Respond(ticket: Id, actor: Id, body: string, status: Option<Status>, id: Id)
    | Assign(ticket: Id, principal: Id, actor: Id)
    | Configure(scope: Id, url: string, ids: set<Id>, actor: Id)

  predicate SameKey(t: Ticket, org: Id, reporter: Id, key: string) {
    t.org == org && t.reporter == reporter && t.key == key
  }

  /** A repeated key answers with the earlier ticket, or conflicts when the request differs. */
  ghost function Created(d: Desk, op: Op): Result<Desk>
    requires op.Create?
  {
    if op.org !in d.orgs then Err(NotFound)
    else if !IsActive(d.people, op.reporter) then Err(Denied)
    else if d.people[op.reporter].org != op.org
         || op.request.queue != (if d.people[op.reporter].admin then Solution else Organisation) then Err(Denied)
    else if exists i :: i in d.tickets && SameKey(d.tickets[i], op.org, op.reporter, op.key) then
      if exists i :: i in d.tickets && SameKey(d.tickets[i], op.org, op.reporter, op.key) && d.tickets[i].request == op.request
      then Ok(d) else Err(Conflict)
    else if |TicketsOf(d.tickets, op.org)| >= MAX_TICKETS || |OpenOf(d.tickets, op.org)| >= MAX_OPEN then Err(QuotaExceeded)
    else if StoredBytes(d.tickets, d.replies, op.org) + RequestBytes(op.request) > MAX_BYTES then Err(QuotaExceeded)
    else if op.id in d.tickets then Err(Conflict)
    else Ok(d.(tickets := d.tickets[op.id := Ticket(op.org, op.reporter, op.request, op.key, Open, None, RequestBytes(op.request))]))
  }

  function WithStatus(tickets: Tickets, ticket: Id, status: Option<Status>): Tickets
    requires ticket in tickets
  {
    if status.None? then tickets else tickets[ticket := tickets[ticket].(status := status.value)]
  }

  ghost function Responded(d: Desk, op: Op, defaults: set<Id>): Result<Desk>
    requires op.Respond?
  {
    if op.ticket !in d.tickets then Err(Denied)
    else if d.tickets[op.ticket].org !in d.orgs then Err(NotFound)
    else
      var t :- Authorized(d, op.ticket, op.actor, defaults, false);
      if |RepliesTo(d.replies, op.ticket)| >= MAX_REPLIES then Err(QuotaExceeded)
      else if op.status == Some(Open) && t.status == Closed && |OpenOf(d.tickets, t.org)| >= MAX_OPEN then Err(QuotaExceeded)
      else if StoredBytes(d.tickets, d.replies, t.org) + Bytes(op.body) > MAX_BYTES then Err(QuotaExceeded)
      else if op.id in d.replies then Err(Conflict)
      else Ok(d.(tickets := WithStatus(d.tickets, op.ticket, op.status),
                 replies := d.replies[op.id := Reply(op.ticket, t.org, op.actor, Bytes(op.body))]))
  }

  function Assigned(d: Desk, op: Op, defaults: set<Id>): Result<Desk>
    requires op.Assign?
  {
    if op.ticket !in d.tickets then Err(Denied)
    else if d.tickets[op.ticket].org !in d.orgs then Err(NotFound)
    else if !IsActive(d.people, op.actor) || !IsActive(d.people, op.principal) then Err(Denied)
    else
      var t :- Authorized(d, op.ticket, op.actor, defaults, true);
      if !Handler(d, op.principal, t, defaults) then Err(Denied)
      else Ok(d.(tickets := d.tickets[op.ticket := t.(assignee := Some(op.principal))]))
  }

  function Configured(d: Desk, op: Op): Result<Desk>
    requires op.Configure?
  {
    if op.scope != GLOBAL_SCOPE && op.scope !in d.orgs then Err(NotFound)
    else if op.scope != GLOBAL_SCOPE && !(IsActive(d.people, op.actor) && d.people[op.actor].org == op.scope && d.people[op.actor].admin)
    then Err(Denied)
    else if exists p :: p in op.ids && !(IsActive(d.people, p) && (op.scope != GLOBAL_SCOPE ==> d.people[p].org == op.scope))
    then Err(Denied)
    else
      var version := if op.scope in d.settings then d.settings[op.scope].version + 1 else 1;
      Ok(d.(settings := d.settings[op.scope := Setting(op.url, op.ids, version)]))
  }

  ghost function Performed(d: Desk, op: Op, defaults: set<Id>): Result<Desk> {
    match op
    case Create(_, _, _, _, _) => Created(d, op)
    case Respond(_, _, _, _, _) => Responded(d, op, defaults)
    case Assign(_, _, _) => Assigned(d, op, defaults)
    case Configure(_, _, _, _) => Configured(d, op)
  }

  // ---------------------------------------------------------------- the repository, step by step

  class SupportRepository {
    var orgs: set<Id>
    var people: People
    var settings: Settings
    var tickets: Tickets
    var replies: Replies

    function Current(): Desk
      reads this
    {
      Desk(orgs, people, settings, tickets, replies)
    }

    constructor (orgs: set<Id>, people: People)
      ensures Current() == Desk(orgs, people, map[], map[], map[])
    {
      this.orgs, this.people := orgs, people;
      settings, tickets, replies := map[], map[], map[];
    }

    /** `_quota`: would these bytes still fit? */
    method Quota(org: Id, added: nat) returns (fits: bool)
      ensures fits <==> StoredBytes(tickets, replies, org) + added <= MAX_BYTES
    {
      var t := Sum(tickets, TicketWeight(org));
      var r := Sum(replies, ReplyWeight(org));
      fits := t + r + added <= MAX_BYTES;
    }

    method CreateTicket(op: Op) returns (r: Result<()>)
      requires op.Create?
      modifies `tickets
      ensures r.Ok? ==> Created(old(Current()), op) == Ok(Current())
      ensures r.Err? ==> Created(old(Current()), op) == Err(r.code) && Current() == old(Current())
    {
      hide RequestBytes, StoredBytes;
      if op.org !in orgs { return Err(NotFound); }
      if !IsActive(people, op.reporter) { return Err(Denied); }
      var actor := people[op.reporter];
      if actor.org != op.org || op.request.queue != (if actor.admin then Solution else Organisation) { return Err(Denied); }
      var prior := set i | i in tickets && SameKey(tickets[i], op.org, op.reporter, op.key);
      if prior != {} {
        if exists i :: i in prior && tickets[i].request == op.request { return Ok(()); }
        assert exists i :: i in tickets && SameKey(tickets[i], op.org, op.reporter, op.key);
        return Err(Conflict);
      }
      assert forall i :: i in tickets && SameKey(tickets[i], op.org, op.reporter, op.key) ==> i in prior;
      if |TicketsOf(tickets, op.org)| >= MAX_TICKETS || |OpenOf(tickets, op.org)| >= MAX_OPEN { return Err(QuotaExceeded); }
      var fits := Quota(op.org, RequestBytes(op.request));
      if !fits { return Err(QuotaExceeded); }
      if op.id in tickets { return Err(Conflict); }
      tickets := tickets[op.id := Ticket(op.org, op.reporter, op.request, op.key, Open, None, RequestBytes(op.request))];
      return Ok(());
    }

    method ReplyToTicket(op: Op, defaults: set<Id>) returns (r: Result<()>)
      requires op.Respond?
      modifies `tickets, `replies
      ensures r.Ok? ==> Responded(old(Current()), op, defaults) == Ok(Current())
      ensures r.Err? ==> Responded(old(Current()), op, defaults) == Err(r.code) && Current() == old(Current())
    {
      hide Authorized, StoredBytes, Bytes;
      if op.ticket !in tickets { return Err(Denied); }
      var org := tickets[op.ticket].org;
      if org !in orgs { return Err(NotFound); }
      var row := Authorized(Current(), op.ticket, op.actor, defaults, false);
      if row.Err? { return Err(row.code); }
      AuthorizedTicket(Current(), op.ticket, op.actor, defaults, false);
      if |RepliesTo(replies, op.ticket)| >= MAX_REPLIES { return Err(QuotaExceeded); }
      if op.status == Some(Open) && row.value.status == Closed {
        if |OpenOf(tickets, org)| >= MAX_OPEN { return Err(QuotaExceeded); }
      }
      var fits := Quota(org, Bytes(op.body));
      if !fits { return Err(QuotaExceeded); }
      if op.id in replies { return Err(Conflict); }
      replies := replies[op.id := Reply(op.ticket, org, op.actor, Bytes(op.body))];
      if op.status.Some? { tickets := tickets[op.ticket := tickets[op.ticket].(status := op.status.value)]; }
      return Ok(());
    }

    method AssignTicket(op: Op, defaults: set<Id>) returns (r: Result<()>)
      requires op.Assign?
      modifies `tickets
      ensures r.Ok? ==> Assigned(old(Current()), op, defaults) == Ok(Current())
      ensures r.Err? ==> Assigned(old(Current()), op, defaults) == Err(r.code) && Current() == old(Current())
    {
      hide Handler;
      if op.ticket !in tickets { return Err(Denied); }
      if tickets[op.ticket].org !in orgs { return Err(NotFound); }
      if !IsActive(people, op.actor) || !IsActive(people, op.principal) { return Err(Denied); }
      var row := Authorized(Current(), op.ticket, op.actor, defaults, true);
      if row.Err? { return Err(row.code); }
      if !Handler(Current(), op.principal, row.value, defaults) { return Err(Denied); }
      tickets := tickets[op.ticket := row.value.(assignee := Some(op.principal))];
      return Ok(());
    }

    method ConfigureScope(op: Op) returns (r: Result<()>)
      requires op.Configure?
      modifies `settings
      ensures r.Ok? ==> Configured(old(Current()), op) == Ok(Current())
      ensures r.Err? ==> Configured(old(Current()), op) == Err(r.code) && Current() == old(Current())
    {
      var tenant := op.scope != GLOBAL_SCOPE;
      if tenant && op.scope !in orgs { return Err(NotFound); }
      if tenant && !(IsActive(people, op.actor) && people[op.actor].org == op.scope && people[op.actor].admin) { return Err(Denied); }
      var left := op.ids;
      while left != {}
        invariant left <= op.ids
        invariant forall p :: p in op.ids && p !in left ==> IsActive(people, p) && (tenant ==> people[p].org == op.scope)
        decreases |left|
      {
        var p :| p in left;
        if !IsActive(people, p) || (tenant && people[p].org != op.scope) { return Err(Denied); }
        left := left - {p};
      }
      if op.scope in settings {
        settings := settings[op.scope := Setting(op.url, op.ids, settings[op.scope].version + 1)];
      } else {
        settings := settings[op.scope := Setting(op.url, op.ids, 1)];
      }
      return Ok(());
    }

    method Perform(op: Op, defaults: set<Id>) returns (r: Result<()>)
      modifies this
      ensures r.Ok? ==> Performed(old(Current()), op, defaults) == Ok(Current())
      ensures r.Err? ==> Performed(old(Current()), op, defaults) == Err(r.code) && Current() == old(Current())
    {
      hide Created, Responded, Assigned, Configured;
      match op
      case Create(_, _, _, _, _) => r := CreateTicket(op);
      case Respond(_, _, _, _, _) => r := ReplyToTicket(op, defaults);
      case Assign(_, _, _) => r := AssignTicket(op, defaults);
      case Configure(_, _, _, _) => r := ConfigureScope(op);
    }
  }

  lemma AuthorizedTicket(d: Desk, ticket: Id, actor: Id, defaults: set<Id>, handler: bool)
    requires Authorized(d, ticket, actor, defaults, handler).Ok?
    ensures ticket in d.tickets && Authorized(d, ticket, actor, defaults, handler).value == d.tickets[ticket]
    ensures IsActive(d.people, actor)
  {
  }

  // ---------------------------------------------------------------- quotas over every run

  ghost predicate OrgWithin(tickets: Tickets, replies: Replies, org: Id) {
    && |TicketsOf(tickets, org)| <= MAX_TICKETS
    && |OpenOf(tickets, org)| <= MAX_OPEN
    && StoredBytes(tickets, replies, org) <= MAX_BYTES
  }

  ghost predicate KeysOnce(tickets: Tickets) {
    forall i, j :: i in tickets && j in tickets && SameKey(tickets[i], tickets[j].org, tickets[j].reporter, tickets[j].key) ==> i == j
  }

  ghost predicate Within(d: Desk) {
    && (forall o :: OrgWithin(d.tickets, d.replies, o))
    && (forall t :: |RepliesTo(d.replies, t)| <= MAX_REPLIES)
    && KeysOnce(d.tickets)
  }

  /** What a change of one ticket row does to the counts of an organisation. */
  lemma TicketCounts(tickets: Tickets, id: Id, row: Ticket, o: Id)
    requires id in tickets ==> tickets[id].org == row.org
    ensures var after := tickets[id := row];
      && |TicketsOf(after, o)| == |TicketsOf(tickets, o)| + (if o == row.org && id !in tickets then 1 else 0)
      && |OpenOf(after, o)| == |OpenOf(tickets, o)| - (if IsOpen(tickets, id, o) then 1 else 0)
                                                    + (if row.org == o && row.status == Open then 1 else 0)
  {
    assert TicketsOf(tickets[id := row], o) == TicketsOf(tickets, o) + (if row.org == o then {id} else {});
    OpenCounts(tickets, id, row, o);
  }

  predicate IsOpen(tickets: Tickets, id: Id, o: Id) {
    id in tickets && tickets[id].org == o && tickets[id].status == Open
  }

  lemma OpenSplit(tickets: Tickets, id: Id, o: Id)
    ensures |OpenOf(tickets, o)| == |OpenOf(tickets - {id}, o)| + (if IsOpen(tickets, id, o) then 1 else 0)
  {
    var others := OpenOf(tickets - {id}, o);
    assert OpenOf(tickets, o) == if IsOpen(tickets, id, o) then others + {id} else others;
  }

  lemma OpenCounts(tickets: Tickets, id: Id, row: Ticket, o: Id)
    ensures |OpenOf(tickets[id := row], o)| == |OpenOf(tickets, o)| - (if IsOpen(tickets, id, o) then 1 else 0)
                                              + (if row.org == o && row.status == Open then 1 else 0)
  {
    hide OpenOf;
    OpenSplit(tickets, id, o);
    OpenSplit(tickets[id := row], id, o);
    assert tickets[id := row] - {id} == tickets - {id};
  }

  lemma TicketBytes(tickets: Tickets, replies: Replies, id: Id, row: Ticket, o: Id)
    requires id in tickets ==> tickets[id].org == row.org
    ensures StoredBytes(tickets[id := row], replies, o)
         == StoredBytes(tickets, replies, o) + (if o == row.org then row.bytes - (if id in tickets then tickets[id].bytes else 0) else 0)
  {
    TotalWrite(tickets, TicketWeight(o), id, row);
  }

  lemma ReplyBytes(tickets: Tickets, replies: Replies, id: Id, row: Reply, o: Id)
    requires id !in replies
    ensures StoredBytes(tickets, replies[id := row], o) == StoredBytes(tickets, replies, o) + (if o == row.org then row.bytes else 0)
  {
    TotalWrite(replies, ReplyWeight(o), id, row);
  }

  lemma ReplyCounts(replies: Replies, id: Id, row: Reply, t: Id)
    requires id !in replies
    ensures |RepliesTo(replies[id := row], t)| == |RepliesTo(replies, t)| + (if t == row.ticket then 1 else 0)
  {
    assert RepliesTo(replies[id := row], t) == RepliesTo(replies, t) + (if t == row.ticket then {id} else {});
  }

  lemma CreatedWithin(d: Desk, op: Op)
    requires Within(d) && op.Create? && Created(d, op).Ok?
    ensures Within(Created(d, op).value)
  {
    hide TicketsOf, OpenOf, RepliesTo, StoredBytes, RequestBytes;
    var after := Created(d, op).value;
    if after != d {
      var row := Ticket(op.org, op.reporter, op.request, op.key, Open, None, RequestBytes(op.request));
      forall o ensures OrgWithin(after.tickets, after.replies, o) {
        assert OrgWithin(d.tickets, d.replies, o);
        TicketCounts(d.tickets, op.id, row, o);
        TicketBytes(d.tickets, d.replies, op.id, row, o);
      }
    }
  }

  lemma StatusWithin(tickets: Tickets, replies: Replies, ticket: Id, status: Option<Status>)
    requires ticket in tickets && forall o :: OrgWithin(tickets, replies, o)
    requires status == Some(Open) && tickets[ticket].status == Closed ==> |OpenOf(tickets, tickets[ticket].org)| < MAX_OPEN
    ensures forall o :: OrgWithin(WithStatus(tickets, ticket, status), replies, o)
  {
    hide TicketsOf, OpenOf, StoredBytes;
    if status.Some? {
      var row := tickets[ticket].(status := status.value);
      var after := tickets[ticket := row];
      forall o ensures OrgWithin(after, replies, o) {
        assert OrgWithin(tickets, replies, o);
        TicketCounts(tickets, ticket, row, o);
        TicketBytes(tickets, replies, ticket, row, o);
      }
    }
  }

  lemma RespondedWithin(d: Desk, op: Op, defaults: set<Id>)
    requires Within(d) && op.Respond? && Responded(d, op, defaults).Ok?
    ensures Within(Responded(d, op, defaults).value)
  {
    hide TicketsOf, OpenOf, RepliesTo, StoredBytes, Bytes, Authorized;
    AuthorizedTicket(d, op.ticket, op.actor, defaults, false);
    var t := d.tickets[op.ticket];
    var row := Reply(op.ticket, t.org, op.actor, Bytes(op.body));
    var replies := d.replies[op.id := row];
    forall o ensures OrgWithin(d.tickets, replies, o) {
      assert OrgWithin(d.tickets, d.replies, o);
      ReplyBytes(d.tickets, d.replies, op.id, row, o);
    }
    forall i ensures |RepliesTo(replies, i)| <= MAX_REPLIES {
      assert |RepliesTo(d.replies, i)| <= MAX_REPLIES;
      ReplyCounts(d.replies, op.id, row, i);
    }
    StatusWithin(d.tickets, replies, op.ticket, op.status);
  }

  lemma AssignedWithin(d: Desk, op: Op, defaults: set<Id>)
    requires Within(d) && op.Assign? && Assigned(d, op, defaults).Ok?
    ensures Within(Assigned(d, op, defaults).value)
  {
    hide TicketsOf, OpenOf, RepliesTo, StoredBytes, Authorized, Handler;
    AuthorizedTicket(d, op.ticket, op.actor, defaults, true);
    var row := d.tickets[op.ticket].(assignee := Some(op.principal));
    var after := d.tickets[op.ticket := row];
    forall o ensures OrgWithin(after, d.replies, o) {
      assert OrgWithin(d.tickets, d.replies, o);
      TicketCounts(d.tickets, op.ticket, row, o);
      TicketBytes(d.tickets, d.replies, op.ticket, row, o);
    }
  }

  datatype Event =
    | Call(op: Op, defaults: set<Id>)
    | Identities(people: People)            // principals come, go and change roles elsewhere

  ghost function Next(d: Desk, e: Event): Desk {
    match e
    case Call(op, defaults) =>
      var r := Performed(d, op, defaults);
      if r.Ok? then r.value else d
    case Identities(people) => d.(people := people)
  }

  ghost function Run(d: Desk, events: seq<Event>): Desk
    decreases |events|
  {
    if events == [] then d else Run(Next(d, events[0]), events[1..])
  }

  lemma StepWithin(d: Desk, e: Event)
    requires Within(d)
    ensures Within(Next(d, e))
  {
    hide OrgWithin, RepliesTo, KeysOnce, Created, Responded, Assigned;
    if e.Call? && Performed(d, e.op, e.defaults).Ok? {
      match e.op
      case Create(_, _, _, _, _) => CreatedWithin(d, e.op);
      case Respond(_, _, _, _, _) => RespondedWithin(d, e.op, e.defaults);
      case Assign(_, _, _) => AssignedWithin(d, e.op, e.defaults);
      case Configure(_, _, _, _) =>
    }
  }

  lemma {:induction false} RunWithin(d: Desk, events: seq<Event>)
    requires Within(d)
    ensures Within(Run(d, events))
    decreases |events|
  {
    hide Within, Next;
    if events != [] {
      StepWithin(d, events[0]);
      RunWithin(Next(d, events[0]), events[1..]);
    }
  }

  /** From an empty queue, every run stays within every quota, and no idempotency key makes two tickets. */
  lemma QueueStaysWithin(orgs: set<Id>, people: People, events: seq<Event>, o: Id, t: Id)
    ensures var d := Run(Desk(orgs, people, map[], map[], map[]), events);
      && |TicketsOf(d.tickets, o)| <= MAX_TICKETS
      && |OpenOf(d.tickets, o)| <= MAX_OPEN
      && |RepliesTo(d.replies, t)| <= MAX_REPLIES
      && StoredBytes(d.tickets, d.replies, o) <= MAX_BYTES
      && KeysOnce(d.tickets)
  {
    hide Run, KeysOnce;
    var start := Desk(orgs, people, map[], map[], map[]);
    EmptyWithin(orgs, people);
    RunWithin(start, events);
    assert OrgWithin(Run(start, events).tickets, Run(start, events).replies, o);
  }

  lemma EmptyWithin(orgs: set<Id>, people: People)
    ensures Within(Desk(orgs, people, map[], map[], map[]))
  {
    assert forall o :: TicketsOf(map[], o) == {} && OpenOf(map[], o) == {};
    assert forall t :: RepliesTo(map[], t) == {};
  }

  /** Creating again with the same key and the same request changes nothing. */
  lemma RepeatedCreate(d: Desk, op: Op, again: Id)
    requires op.Create? && Created(d, op).Ok?
    ensures var after := Created(d, op).value; Created(after, Create(op.org, op.reporter, op.request, op.key, again)) == Ok(after)
  {
    hide TicketsOf, OpenOf, StoredBytes, RequestBytes;
    var after := Created(d, op).value;
    if after != d { assert SameKey(after.tickets[op.id], op.org, op.reporter, op.key); }
  }

  /** Whoever a ticket was assigned to may handle it: no reply and no further assignment of its own is denied,
      and the assignment changes no other ticket and no quota. */
  lemma AssigneeMayHandle(d: Desk, op: Op, defaults: set<Id>, reply: Op, next: Op)
    requires op.Assign? && Assigned(d, op, defaults).Ok?
    requires reply.Respond? && reply.ticket == op.ticket && reply.actor == op.principal
    requires next.Assign? && next.ticket == op.ticket && next.actor == op.principal && next.principal == op.principal
    ensures var after := Assigned(d, op, defaults).value;
      && op.ticket in after.tickets && after.tickets[op.ticket].assignee == Some(op.principal)
      && after.tickets - {op.ticket} == d.tickets - {op.ticket}
      && (forall o :: TicketsOf(after.tickets, o) == TicketsOf(d.tickets, o) && OpenOf(after.tickets, o) == OpenOf(d.tickets, o))
      && Responded(after, reply, defaults) != Err(Denied)
      && Assigned(after, next, defaults) == Ok(after)
  {
    hide StoredBytes;
    var after := Assigned(d, op, defaults).value;
    assert after.tickets[op.ticket := after.tickets[op.ticket]] == after.tickets;
  }

  // ---------------------------------------------------------------- authorisation in the application

  /** `candidates`: some 100 of the matching principals, and all of them when there are no more. */
  ghost predicate Candidates(found: set<Id>, matching: set<Id>) {
    found <= matching && (|matching| <= MAX_IDENTITIES ==> found == matching)
  }

  ghost predicate FoundIn(d: Desk, org: Id, ids: set<Id>, found: set<Id>) {
    Candidates(found, set p | p in ids && IsActive(d.people, p) && d.people[p].org == org)
  }

  ghost predicate AdminsOf(d: Desk, org: Id, found: set<Id>) {
    Candidates(found, set p | p in d.people && IsActive(d.people, p) && d.people[p].org == org && d.people[p].admin)
  }

  function StoredIds(settings: Settings, scope: Id): set<Id> {
    if scope in settings then settings[scope].ids else {}
  }

  /** `_org_support`: the configured identities that are active, or else the administrators. */
  ghost predicate OrgSupport(d: Desk, org: Id, support: set<Id>) {
    exists found ::
      && (if StoredIds(d.settings, org) == {} then found == {} else FoundIn(d, org, StoredIds(d.settings, org), found))
      && (if found != {} then support == found else AdminsOf(d, org, support))
  }

  /** `_solution_support`: the stored or default identities that are active. */
  function SolutionSupport(d: Desk, defaults: set<Id>): set<Id> {
    var ids := if GLOBAL_SCOPE in d.settings then d.settings[GLOBAL_SCOPE].ids else defaults;
    set p | p in ids && IsActive(d.people, p)
  }

  /** `_can_handle`, for whatever the limited queries returned. */
  predicate CanHandle(d: Desk, actor: Id, t: Ticket, defaults: set<Id>, support: set<Id>)
    requires actor in d.people
  {
    if t.request.queue == Solution then actor in SolutionSupport(d, defaults)
    else d.people[actor].org == t.org && (d.people[actor].admin || actor in support)
  }

  predicate Visible(d: Desk, actor: Id, t: Ticket, defaults: set<Id>, support: set<Id>)
    requires actor in d.people
  {
    actor == t.reporter || CanHandle(d, actor, t, defaults, support)
  }

  /** No tenant has the reserved scope as its identifier, and at most 100 identities are configured for one. */
  ghost predicate Sensible(d: Desk) {
    && GLOBAL_SCOPE !in d.orgs
    && (forall i :: i in d.tickets ==> d.tickets[i].org in d.orgs)
    && (forall s :: s in d.settings ==> |d.settings[s].ids| <= MAX_IDENTITIES)
  }

  /** The configured identities of a tenant that can support it: all of them that are active members. */
  lemma FoundAll(d: Desk, org: Id, found: set<Id>)
    requires Sensible(d) && FoundIn(d, org, StoredIds(d.settings, org), found)
    ensures forall p :: p in found <==> p in StoredIds(d.settings, org) && IsActive(d.people, p) && d.people[p].org == org
  {
    var ids := StoredIds(d.settings, org);
    var matching := set p | p in ids && IsActive(d.people, p) && d.people[p].org == org;
    assert matching <= ids;
    SubsetSize(matching, ids);
  }

  lemma {:induction false} SubsetSize(a: set<Id>, b: set<Id>)
    requires a <= b
    ensures |a| <= |b|
    decreases |a|
  {
    if a != {} {
      var x :| x in a;
      SubsetSize(a - {x}, b - {x});
    }
  }

  lemma OnlyAdmins(d: Desk, org: Id, found: set<Id>)
    requires AdminsOf(d, org, found)
    ensures forall p :: p in found ==> p in d.people && d.people[p].admin
  {
    var matching := set p | p in d.people && IsActive(d.people, p) && d.people[p].org == org && d.people[p].admin;
    assert found <= matching;
  }

  /** For an active actor the two layers decide alike: who may handle a ticket, with the fall-back to
      administrators, and who may see it. */
  lemma LayersAgree(d: Desk, ticket: Id, actor: Id, defaults: set<Id>, support: set<Id>)
    requires Sensible(d) && ticket in d.tickets && IsActive(d.people, actor)
    requires OrgSupport(d, d.people[actor].org, support)
    ensures var t := d.tickets[ticket];
      && (CanHandle(d, actor, t, defaults, support) <==> Handler(d, actor, t, defaults))
      && (CanHandle(d, actor, t, defaults, support) <==> Authorized(d, ticket, actor, defaults, true).Ok?)
      && (Visible(d, actor, t, defaults, support) <==> Authorized(d, ticket, actor, defaults, false).Ok?)
  {
    var t := d.tickets[ticket];
    if t.request.queue != Solution && d.people[actor].org == t.org && !d.people[actor].admin {
      var org := t.org;
      var found :|
        && (if StoredIds(d.settings, org) == {} then found == {} else FoundIn(d, org, StoredIds(d.settings, org), found))
        && (if found != {} then support == found else AdminsOf(d, org, support));
      if StoredIds(d.settings, org) != {} {
        FoundAll(d, org, found);
        assert actor in found <==> actor in StoredIds(d.settings, org);
      }
      if found == {} { OnlyAdmins(d, org, support); }
      assert HandlerIds(d.settings, defaults, t) == StoredIds(d.settings, org);
    }
  }

  /** The application passes on at most 100 identities. */
  predicate ThroughApplication(e: Event) {
    e.Call? && e.op.Configure? ==> |e.op.ids| <= MAX_IDENTITIES
  }

  lemma StepSensible(d: Desk, e: Event)
    requires Sensible(d) && ThroughApplication(e)
    ensures Sensible(Next(d, e))
  {
    hide TicketsOf, OpenOf, RepliesTo, StoredBytes, Authorized, Handler, Bytes, RequestBytes;
    if e.Call? && Performed(d, e.op, e.defaults).Ok? && !e.op.Configure? && !e.op.Create? {
      AuthorizedTicket(d, e.op.ticket, e.op.actor, e.defaults, e.op.Assign?);
    }
  }

  lemma {:induction false} RunSensible(d: Desk, events: seq<Event>)
    requires Sensible(d) && forall e :: e in events ==> ThroughApplication(e)
    ensures Sensible(Run(d, events))
    decreases |events|
  {
    hide Sensible, Next, ThroughApplication;
    if events != [] {
      assert events[0] in events;
      StepSensible(d, events[0]);
      RunSensible(Next(d, events[0]), events[1..]);
    }
  }

  /** So the layers agree in every state that the application reaches, whatever happens to identities. */
  lemma LayersAlwaysAgree(orgs: set<Id>, people: People, events: seq<Event>, ticket: Id, actor: Id, defaults: set<Id>, support: set<Id>)
    requires GLOBAL_SCOPE !in orgs && forall e :: e in events ==> ThroughApplication(e)
    requires var d := Run(Desk(orgs, people, map[], map[], map[]), events);
      ticket in d.tickets && IsActive(d.people, actor) && OrgSupport(d, d.people[actor].org, support)
    ensures var d := Run(Desk(orgs, people, map[], map[], map[]), events); var t := d.tickets[ticket];
      && (CanHandle(d, actor, t, defaults, support) <==> Authorized(d, ticket, actor, defaults, true).Ok?)
      && (Visible(d, actor, t, defaults, support) <==> Authorized(d, ticket, actor, defaults, false).Ok?)
  {
    hide Run, OrgSupport, CanHandle, Visible, Authorized, ThroughApplication;
    var start := Desk(orgs, people, map[], map[], map[]);
    RunSensible(start, events);
    LayersAgree(Run(start, events), ticket, actor, defaults, support);
  }

  // ---------------------------------------------------------------- routing

  datatype Route = External(url: string) | Internal(queue: Queue)

  function UrlOf(d: Desk, scope: Id, fallback: string): string {
    if scope in d.settings then d.settings[scope].url else fallback
  }

  /** `_route`: administrators ask the solution, members their organisation. */
  function RouteFor(d: Desk, actor: Person, solutionUrl: string, orgUrl: string): Route {
    var url := if actor.admin then UrlOf(d, GLOBAL_SCOPE, solutionUrl) else UrlOf(d, actor.org, orgUrl);
    if url != "" then External(url) else Internal(if actor.admin then Solution else Organisation)
  }

  /** An internally routed request is never refused for its queue: it ends in a ticket, a replay, a
      conflict with an earlier request, or a quota. */
  lemma RoutedQueueFits(d: Desk, op: Op, solutionUrl: string, orgUrl: string)
    requires op.Create? && IsActive(d.people, op.reporter) && d.people[op.reporter].org == op.org && op.org in d.orgs
    requires RouteFor(d, d.people[op.reporter], solutionUrl, orgUrl) == Internal(op.request.queue)
    ensures Created(d, op).Ok? || Created(d, op).code == Conflict || Created(d, op).code == QuotaExceeded
  {
    hide TicketsOf, OpenOf, StoredBytes, RequestBytes;
  }
}

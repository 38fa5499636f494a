/** Exactly who may do what with a support ticket, and what it leaves behind (distributedai/persistence/support.py). */
module SupportLaws {
  import opened Base
  import opened Support
  import Encodings

  // ---------------------------------------------------------------- who

  /** The identities configured for a scope, or the built-in ones for the solution as long as none are. */
  function Identities(d: Desk, scope: Id, defaults: set<Id>): set<Id> {
    if scope in d.settings then d.settings[scope].ids else if scope == "solution-support" then defaults else {}
  }

  /** An active identity that handles the ticket: for the solution a configured one, for an organisation one of
      its administrators or configured members. */
  predicate Handles(d: Desk, p: Id, t: Ticket, defaults: set<Id>) {
    && p in d.people && d.people[p].active
    && if t.request.queue == Solution then p in Identities(d, "solution-support", defaults)
       else if t.org == "solution-support" then p in Identities(d, t.org, defaults)
       else d.people[p].org == t.org && (d.people[p].admin || p in Identities(d, t.org, defaults))
  }

  lemma HandlersExactly(d: Desk, p: Id, ticket: Id, defaults: set<Id>)
    requires ticket in d.tickets
    ensures p in d.people && d.people[p].active ==> (Handler(d, p, d.tickets[ticket], defaults) <==> Handles(d, p, d.tickets[ticket], defaults))
    ensures Authorized(d, ticket, p, defaults, true).Ok? <==> Handles(d, p, d.tickets[ticket], defaults)
    ensures Authorized(d, ticket, p, defaults, false).Ok? <==>
      Handles(d, p, d.tickets[ticket], defaults) || (p in d.people && d.people[p].active && d.tickets[ticket].reporter == p)
  {
  }

  // ---------------------------------------------------------------- sizes

  /** Subject, body and page in UTF-8. */
  lemma RequestSize(r: Request)
    ensures RequestBytes(r) == |Encodings.Utf8(r.subject)| + |Encodings.Utf8(r.body)| + |Encodings.Utf8(r.page)|
  {
    Encodings.BytesAreUtf8(r.subject);
    Encodings.BytesAreUtf8(r.body);
    Encodings.BytesAreUtf8(r.page);
  }

  lemma TicketAdds(tickets: Tickets, replies: Replies, id: Id, t: Ticket, o: Id)
    requires id !in tickets
    ensures StoredBytes(tickets[id := t], replies, o) == StoredBytes(tickets, replies, o) + if t.org == o then t.bytes else 0
  {
    hide Total;
    TotalWrite(tickets, TicketWeight(o), id, t);
  }

  lemma ReplyAdds(tickets: Tickets, replies: Replies, id: Id, r: Reply, o: Id)
    requires id !in replies
    ensures StoredBytes(tickets, replies[id := r], o) == StoredBytes(tickets, replies, o) + if r.org == o then r.bytes else 0
  {
    hide Total;
    TotalWrite(replies, ReplyWeight(o), id, r);
  }

  lemma StatusAdds(tickets: Tickets, replies: Replies, id: Id, t: Ticket, o: Id)
    requires id in tickets && t.org == tickets[id].org && t.bytes == tickets[id].bytes
    ensures StoredBytes(tickets[id := t], replies, o) == StoredBytes(tickets, replies, o)
  {
    hide Total;
    TotalWrite(tickets, TicketWeight(o), id, t);
  }

  // ---------------------------------------------------------------- tickets

  /** The reporter already has a ticket under the key. */
  ghost predicate KeyUsed(d: Desk, op: Op)
    requires op.Create?
  {
    exists i :: i in d.tickets && d.tickets[i].org == op.org && d.tickets[i].reporter == op.reporter && d.tickets[i].key == op.key
  }

  ghost predicate SameAsked(d: Desk, op: Op)
    requires op.Create?
  {
    exists i :: i in d.tickets && d.tickets[i].org == op.org && d.tickets[i].reporter == op.reporter && d.tickets[i].key == op.key
      && d.tickets[i].request == op.request
  }

  lemma KeysAgree(d: Desk, op: Op)
    requires op.Create?
    ensures (exists i :: i in d.tickets && SameKey(d.tickets[i], op.org, op.reporter, op.key)) <==> KeyUsed(d, op)
    ensures (exists i :: i in d.tickets && SameKey(d.tickets[i], op.org, op.reporter, op.key) && d.tickets[i].request == op.request)
      <==> SameAsked(d, op)
  {
  }

  /** Exactly an active member opens a ticket, an administrator with the solution and everybody else with the own
      organisation, under a key that stands for the same request, or that is unused while there are fewer than
      1000 tickets, 100 open ones, and room for the bytes; the ticket is open, and its bytes are counted. */
  lemma CreatesTicketExactly(d: Desk, op: Op)
    requires op.Create?
    ensures Created(d, op).Ok? <==>
      && op.org in d.orgs && op.reporter in d.people && d.people[op.reporter].active && d.people[op.reporter].org == op.org
      && (op.request.queue == Solution <==> d.people[op.reporter].admin)
      && if KeyUsed(d, op) then SameAsked(d, op)
         else
           && |TicketsOf(d.tickets, op.org)| < 1000 && |OpenOf(d.tickets, op.org)| < 100
           && StoredBytes(d.tickets, d.replies, op.org) + RequestBytes(op.request) <= 10 * 1024 * 1024
           && op.id !in d.tickets
    ensures Created(d, op).Ok? ==>
      var t := Ticket(op.org, op.reporter, op.request, op.key, Open, None, RequestBytes(op.request));
      Created(d, op).value == if KeyUsed(d, op) then d else d.(tickets := d.tickets[op.id := t])
    ensures Created(d, op).Ok? && !KeyUsed(d, op) ==>
      var after := Created(d, op).value;
      StoredBytes(after.tickets, after.replies, op.org) == StoredBytes(d.tickets, d.replies, op.org) + RequestBytes(op.request)
  {
    hide StoredBytes, RequestBytes, TicketsOf, OpenOf, SameKey, KeyUsed, SameAsked;
    KeysAgree(d, op);
    if op.id !in d.tickets {
      TicketAdds(d.tickets, d.replies, op.id, Ticket(op.org, op.reporter, op.request, op.key, Open, None, RequestBytes(op.request)), op.org);
    }
  }

  // ---------------------------------------------------------------- replies

  /** Exactly the reporter and those who handle the ticket reply to it, while active, up to 100 times and while the
      bytes fit, and reopen it only while fewer than 100 are open; the reply is stored with its bytes, and the
      ticket has the status that was asked for. */
  lemma RepliesExactly(d: Desk, op: Op, defaults: set<Id>)
    requires op.Respond?
    ensures Responded(d, op, defaults).Ok? <==>
      && op.ticket in d.tickets && d.tickets[op.ticket].org in d.orgs
      && var t := d.tickets[op.ticket];
         && (Handles(d, op.actor, t, defaults) || (op.actor in d.people && d.people[op.actor].active && t.reporter == op.actor))
         && |RepliesTo(d.replies, op.ticket)| < 100
         && (op.status == Some(Open) && t.status == Closed ==> |OpenOf(d.tickets, t.org)| < 100)
         && StoredBytes(d.tickets, d.replies, t.org) + |Encodings.Utf8(op.body)| <= 10 * 1024 * 1024
         && op.id !in d.replies
    ensures Responded(d, op, defaults).Ok? ==>
      var t := d.tickets[op.ticket]; var after := Responded(d, op, defaults).value;
      && after == d.(tickets := after.tickets, replies := after.replies)
      && after.replies == d.replies[op.id := Reply(op.ticket, t.org, op.actor, |Encodings.Utf8(op.body)|)]
      && after.tickets == d.tickets[op.ticket := t.(status := if op.status.Some? then op.status.value else t.status)]
      && StoredBytes(after.tickets, after.replies, t.org) == StoredBytes(d.tickets, d.replies, t.org) + |Encodings.Utf8(op.body)|
  {
    hide StoredBytes, TicketsOf, OpenOf, RepliesTo, Handles, Authorized, Encodings.Utf8, Bytes;
    Encodings.BytesAreUtf8(op.body);
    if op.ticket in d.tickets {
      var t := d.tickets[op.ticket];
      HandlersExactly(d, op.actor, op.ticket, defaults);
      if Authorized(d, op.ticket, op.actor, defaults, false).Ok? { AuthorizedTicket(d, op.ticket, op.actor, defaults, false); }
      var row := t.(status := if op.status.Some? then op.status.value else t.status);
      assert op.status.None? ==> d.tickets[op.ticket := row] == d.tickets;
      StatusAdds(d.tickets, d.replies, op.ticket, row, t.org);
      if op.id !in d.replies {
        ReplyAdds(d.tickets[op.ticket := row], d.replies, op.id, Reply(op.ticket, t.org, op.actor, Bytes(op.body)), t.org);
      }
    }
  }

  // ---------------------------------------------------------------- assignment and configuration

  /** Exactly those who handle the ticket assign it, to somebody who handles it. */
  lemma AssignsExactly(d: Desk, op: Op, defaults: set<Id>)
    requires op.Assign?
    ensures Assigned(d, op, defaults).Ok? <==>
      && op.ticket in d.tickets && d.tickets[op.ticket].org in d.orgs
      && Handles(d, op.actor, d.tickets[op.ticket], defaults) && Handles(d, op.principal, d.tickets[op.ticket], defaults)
    ensures Assigned(d, op, defaults).Ok? ==>
      Assigned(d, op, defaults).value == d.(tickets := d.tickets[op.ticket := d.tickets[op.ticket].(assignee := Some(op.principal))])
  {
    hide Handles, Handler, Authorized;
    if op.ticket in d.tickets {
      HandlersExactly(d, op.actor, op.ticket, defaults);
      HandlersExactly(d, op.principal, op.ticket, defaults);
      HandlesActive(d, op.actor, d.tickets[op.ticket], defaults);
      HandlesActive(d, op.principal, d.tickets[op.ticket], defaults);
      if Authorized(d, op.ticket, op.actor, defaults, true).Ok? { AuthorizedTicket(d, op.ticket, op.actor, defaults, true); }
    }
  }

  lemma HandlesActive(d: Desk, p: Id, t: Ticket, defaults: set<Id>)
    ensures Handles(d, p, t, defaults) ==> p in d.people && d.people[p].active
  {
  }

  /** Exactly an active administrator configures its organisation, and anybody offline the solution, with active
      identities, of the organisation where it is one; the version counts the changes. */
  lemma ConfiguresExactly(d: Desk, op: Op)
    requires op.Configure?
    ensures Configured(d, op).Ok? <==>
      if op.scope == "solution-support" then forall p :: p in op.ids ==> p in d.people && d.people[p].active
      else
        && op.scope in d.orgs && op.actor in d.people
        && d.people[op.actor].active && d.people[op.actor].org == op.scope && d.people[op.actor].admin
        && forall p :: p in op.ids ==> p in d.people && d.people[p].active && d.people[p].org == op.scope
    ensures Configured(d, op).Ok? ==>
      Configured(d, op).value == d.(settings := d.settings[op.scope := Setting(op.url, op.ids,
        if op.scope in d.settings then d.settings[op.scope].version + 1 else 1)])
  {
  }
}

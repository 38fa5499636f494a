/** Subscription events: delivered in any order and any number of times, they settle on one effective plan
    (distributedai/persistence/billing.py). */
module Subscriptions {
  import opened Base
  import opened Tables
  import opened Meter

  /** A verified provider event. */
  datatype Event = Event(id: string, time: int, provider: string, subscription: string, customer: Option<string>,
                         status: string, price: Option<string>)

  /** What the idempotency ledger records of an event. */
  datatype Note = UnregisteredSubscription | OutOfOrder | SameTimestamp | UnknownPrice | Applied

  type Accounts = map<Id, Account>
  type Events = map<(string, string), Note>        // by (provider, event identifier)
  type Prices = map<string, string>                // provider price to plan

  datatype Books = Books(accounts: Accounts, events: Events)

  // ---------------------------------------------------------------- one event on one account

  function LowerChar(c: char): char {
    if 'A' <= c <= 'Z' then (c as int + 32) as char else c
  }

  function Lower(s: string): string
    ensures |Lower(s)| == |s|
  {
    if s == "" then "" else [LowerChar(s[0])] + Lower(s[1..])
  }

  predicate Entitled(e: Event) {
    Lower(e.status) == "active" || Lower(e.status) == "trialing"
  }

  /** The plan that the configured price map gives an event. */
  function PricedPlan(cfg: Config, prices: Prices, e: Event): Option<string> {
    var key := e.provider + ":" + if e.price.Some? then e.price.value else "";
    if key in prices && prices[key] in cfg.plans then Some(prices[key]) else None
  }

  /** Registration gives a non-empty provider and subscription; unregistered accounts match no event. */
  predicate Bound(account: Account, e: Event) {
    account.subscription != "" && account.provider == e.provider && account.subscription == e.subscription
  }

  predicate CustomerMatches(account: Account, e: Event) {
    e.customer.None? || e.customer == account.customer
  }

  /** The account after an event that is newer than any before it. */
  function Advanced(cfg: Config, prices: Prices, account: Account, e: Event): (Account, Note) {
    var seen := account.(lastAt := Some(e.time), lastEvent := Some(e.id));
    if Entitled(e) then
      var plan := PricedPlan(cfg, prices, e);
      if plan.None? then (seen.(reconcile := true), UnknownPrice)
      else (seen.(plan := plan.value, status := Active, reconcile := false), Applied)
    else (seen.(plan := cfg.defaultPlan, status := Delinquent, reconcile := false), Applied)
  }

  /** The account after an event, and the note recorded; a foreign customer's newest event is an error. */
  function Reacted(cfg: Config, prices: Prices, account: Account, e: Event): Result<(Account, Note)> {
    if account.lastAt.Some? && e.time < account.lastAt.value then Ok((account, OutOfOrder))
    else if account.lastAt == Some(e.time) then Ok((account.(reconcile := true), SameTimestamp))
    else if !CustomerMatches(account, e) then Err(InvalidWebhook)
    else Ok(Advanced(cfg, prices, account, e))
  }

  // ---------------------------------------------------------------- one event on the books

  predicate Duplicate(events: Events, e: Event) { (e.provider, e.id) in events }

  predicate SameBinding(a: Account, b: Account) {
    a.subscription != "" && a.provider == b.provider && a.subscription == b.subscription
  }

  /** No two organisations are bound to one provider subscription. */
  ghost predicate OneBinding(accounts: Accounts) {
    forall o, p :: o in accounts && p in accounts && SameBinding(accounts[o], accounts[p]) ==> o == p
  }

  ghost predicate BoundTo(accounts: Accounts, o: Id, e: Event) {
    o in accounts && Bound(accounts[o], e)
  }

  /** The books after an event; an error leaves them as they were. */
  ghost function Processed(cfg: Config, prices: Prices, b: Books, e: Event): Result<Books> {
    if Duplicate(b.events, e) then Ok(b)
    else if !exists o :: BoundTo(b.accounts, o, e) then
      Ok(b.(events := b.events[(e.provider, e.id) := UnregisteredSubscription]))
    else
      var o :| BoundTo(b.accounts, o, e);
      var reaction :- Reacted(cfg, prices, b.accounts[o], e);
      Ok(Books(b.accounts[o := reaction.0], b.events[(e.provider, e.id) := reaction.1]))
  }

  class Billing {
    const cfg: Config
    const prices: Prices
    var orgs: set<Id>
    var accounts: Accounts
    var events: Events

    function Current(): Books
      reads this
    {
      Books(accounts, events)
    }

    ghost predicate Valid()
      reads this
    {
      OneBinding(accounts)
    }

    constructor (cfg: Config, prices: Prices, orgs: set<Id>)
      ensures Valid() && this.cfg == cfg && this.prices == prices && this.orgs == orgs && accounts == map[] && events == map[]
    {
      this.cfg, this.prices, this.orgs := cfg, prices, orgs;
      accounts, events := map[], map[];
    }

    method Record(e: Event, note: Note)
      modifies `events
      ensures events == old(events)[(e.provider, e.id) := note]
    {
      events := events[(e.provider, e.id) := note];
    }

    /** Assign the columns of a new newest event, in place. */
    method Advance(o: Id, e: Event) returns (note: Note)
      requires o in accounts
      modifies `accounts
      ensures var (row, n) := Advanced(cfg, prices, old(accounts)[o], e); note == n && accounts == old(accounts)[o := row]
    {
      var account := accounts[o];
      if Entitled(e) {
        var plan := PricedPlan(cfg, prices, e);
        if plan.None? {
          accounts := accounts[o := account.(reconcile := true, lastAt := Some(e.time), lastEvent := Some(e.id))];
          return UnknownPrice;
        }
        account := account.(plan := plan.value, status := Active);
      } else {
        account := account.(plan := cfg.defaultPlan, status := Delinquent);
      }
      accounts := accounts[o := account.(reconcile := false, lastEvent := Some(e.id), lastAt := Some(e.time))];
      return Applied;
    }

    /** `process_event`. */
    method ProcessEvent(e: Event) returns (r: Result<()>)
      requires Valid()
      modifies `accounts, `events
      ensures Valid()
      ensures r.Ok? ==> Processed(cfg, prices, old(Current()), e) == Ok(Current())
      ensures r.Err? ==> Processed(cfg, prices, old(Current()), e) == Err(r.code) && Current() == old(Current())
    {
      hide Advanced, Entitled, PricedPlan;
      var owners := set o | o in accounts && Bound(accounts[o], e);
      if (e.provider, e.id) in events { return Ok(()); }
      if owners == {} {
        assert forall o :: BoundTo(accounts, o, e) ==> o in owners;
        Record(e, UnregisteredSubscription);
        return Ok(());
      }
      var o :| o in owners;
      assert BoundTo(accounts, o, e);
      assert forall p :: BoundTo(accounts, p, e) ==> p == o;
      var account := accounts[o];
      if account.lastAt.Some? && e.time < account.lastAt.value {
        assert accounts[o := account] == accounts;
        Record(e, OutOfOrder);
        return Ok(());
      }
      if account.lastAt == Some(e.time) {
        accounts := accounts[o := account.(reconcile := true)];
        Record(e, SameTimestamp);
        return Ok(());
      }
      if e.customer.Some? && e.customer != account.customer { return Err(InvalidWebhook); }
      BindingKept(cfg, prices, accounts, o, e);
      var note := Advance(o, e);
      Record(e, note);
      return Ok(());
    }

    /** The account of an organisation, created with the default plan when there is none. */
    method GetOrCreate(org: Id) returns (r: Result<()>)
      modifies `accounts
      ensures r.Ok? <==> org in orgs
      ensures r.Err? ==> r.code == NotFound && accounts == old(accounts)
      ensures r.Ok? ==> accounts == if org in old(accounts) then old(accounts) else old(accounts)[org := NewAccount(cfg)]
    {
      if org !in orgs { return Err(NotFound); }
      if org !in accounts { accounts := accounts[org := NewAccount(cfg)]; }
      return Ok(());
    }

    /** `assign_plan`: the operator sets a plan directly. */
    method AssignPlan(org: Id, plan: string) returns (r: Result<()>)
      requires Valid()
      modifies `accounts
      ensures Valid()
      ensures r.Err? ==> accounts == old(accounts)
      ensures r.Ok? <==> plan in cfg.plans && org in orgs
      ensures r.Ok? ==> PlanFor(cfg, accounts, org) == plan
      ensures r.Ok? ==> forall o :: o in old(accounts) && o != org ==> o in accounts && accounts[o] == old(accounts)[o]
    {
      if plan !in cfg.plans { return Err(InvalidArgument); }
      var _ :- GetOrCreate(org);
      accounts := accounts[org := accounts[org].(plan := plan, reconcile := false, status := Active)];
      return Ok(());
    }

    /** Write the binding into the row; another binding than before starts from a clean slate. */
    method Bind(org: Id, provider: string, customer: string, subscription: string, plan: Option<string>)
      requires org in accounts
      modifies `accounts
      ensures accounts == old(accounts)[org := RegisteredRow(old(accounts)[org], provider, customer, subscription, plan)]
    {
      var account := accounts[org];
      if account.provider != provider || account.subscription != subscription {
        account := account.(status := AccountStatus.Registered, lastAt := None, lastEvent := None, reconcile := false);
      }
      account := account.(provider := provider, customer := Some(customer), subscription := subscription);
      if plan.Some? { account := account.(plan := plan.value); }
      accounts := accounts[org := account];
    }

    /** `register_subscription`: the only way events reach an organisation. */
    method RegisterSubscription(org: Id, provider: string, customer: string, subscription: string, plan: Option<string>)
      returns (r: Result<()>)
      requires Valid()
      modifies `accounts
      ensures Valid()
      ensures r.Err? ==> accounts == old(accounts)
      ensures r.Ok? <==>
        && provider != "" && customer != "" && subscription != "" && (plan.Some? ==> plan.value in cfg.plans)
        && !TakenBy(old(accounts), org, provider, subscription) && org in orgs
      ensures r.Ok? ==>
        var before := if org in old(accounts) then old(accounts)[org] else NewAccount(cfg);
        accounts == old(accounts)[org := RegisteredRow(before, provider, customer, subscription, plan)]
    {
      hide OneBinding, TakenBy;
      if provider == "" || customer == "" || subscription == "" { return Err(InvalidArgument); }
      if plan.Some? && plan.value !in cfg.plans { return Err(InvalidArgument); }
      if TakenBy(accounts, org, provider, subscription) { return Err(Conflict); }
      var before := if org in accounts then accounts[org] else NewAccount(cfg);
      var row := RegisteredRow(before, provider, customer, subscription, plan);
      RegisteredBinding(accounts, org, row);
      var _ :- GetOrCreate(org);
      Bind(org, provider, customer, subscription, plan);
      assert accounts == old(accounts)[org := row];
      return Ok(());
    }
  }

  /** Another organisation has this binding. */
  predicate TakenBy(accounts: Accounts, org: Id, provider: string, subscription: string) {
    exists o :: o in accounts && o != org && accounts[o].provider == provider && accounts[o].subscription == subscription
  }

  function NewAccount(cfg: Config): Account {
    Account(cfg.defaultPlan, AccountStatus.Registered, "", None, "", None, None, false)
  }

  /** A new binding starts from a clean slate; registering the same one again keeps its history. */
  function RegisteredRow(account: Account, provider: string, customer: string, subscription: string, plan: Option<string>): Account {
    var same := account.provider == provider && account.subscription == subscription;
    var row := if same then account
               else account.(status := AccountStatus.Registered, lastAt := None, lastEvent := None, reconcile := false);
    row.(provider := provider, customer := Some(customer), subscription := subscription,
         plan := if plan.Some? then plan.value else row.plan)
  }

  /** A binding that no other organisation has can be given to an organisation. */
  lemma RegisteredBinding(accounts: Accounts, org: Id, row: Account)
    requires OneBinding(accounts) && !TakenBy(accounts, org, row.provider, row.subscription)
    ensures OneBinding(accounts[org := row])
  {
  }

  /** No event changes what an account is bound to. */
  lemma BindingKept(cfg: Config, prices: Prices, accounts: Accounts, o: Id, e: Event)
    requires OneBinding(accounts) && o in accounts
    ensures OneBinding(accounts[o := Advanced(cfg, prices, accounts[o], e).0])
  {
  }

  /** An event that arrives before registration uses up its identifier: delivering it again changes nothing. */
  lemma EarlyEventIsSpent(cfg: Config, prices: Prices, b: Books, e: Event, accounts: Accounts)
    requires !Duplicate(b.events, e) && forall o :: !BoundTo(b.accounts, o, e)
    ensures var early := Processed(cfg, prices, b, e);
      early.Ok? && early.value.accounts == b.accounts
      && Processed(cfg, prices, early.value.(accounts := accounts), e) == Ok(early.value.(accounts := accounts))
  {
  }
}

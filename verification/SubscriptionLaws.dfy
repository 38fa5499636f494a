/** What events and registrations mean in plain terms (distributedai/persistence/billing.py). */
module SubscriptionLaws {
  import opened Base
  import opened Tables
  import opened Meter
  import opened Subscriptions
  import opened Convergence

  // ---------------------------------------------------------------- statuses and prices

  /** The same letters, in whatever case; `t` has lower-case letters only. */
  predicate SameLetters(s: string, t: string) {
    |s| == |t| && forall i :: 0 <= i < |s| ==> s[i] == t[i] || (s[i] as int + 32 == t[i] as int && 'A' <= s[i] <= 'Z')
  }

  predicate LowerCase(t: string) { forall i :: 0 <= i < |t| ==> 'a' <= t[i] <= 'z' }

  lemma {:induction false} LowerIsSameLetters(s: string, t: string)
    requires LowerCase(t)
    ensures Lower(s) == t <==> SameLetters(s, t)
  {
    if s != "" && t != "" {
      LowerIsSameLetters(s[1..], t[1..]);
      assert t == [t[0]] + t[1..] && s == [s[0]] + s[1..];
      assert Lower(s) == [LowerChar(s[0])] + Lower(s[1..]);
      HeadAndTail(Lower(s), t);
      TailLetters(s, t);
    }
  }

  lemma HeadAndTail(a: string, t: string)
    requires a != "" && t != ""
    ensures a == t <==> a[0] == t[0] && a[1..] == t[1..]
  {
    assert a == [a[0]] + a[1..] && t == [t[0]] + t[1..];
  }

  lemma TailLetters(s: string, t: string)
    requires s != "" && t != "" && LowerCase(t)
    ensures SameLetters(s, t) <==> LowerChar(s[0]) == t[0] && SameLetters(s[1..], t[1..])
  {
    if SameLetters(s[1..], t[1..]) {
      forall i | 1 <= i < |s| ensures s[i] == s[1..][i - 1] && t[i] == t[1..][i - 1] {}
    }
  }

  /** Exactly the statuses "active" and "trialing" entitle, in whatever case. */
  lemma EntitlesExactly(e: Event)
    ensures Entitled(e) <==> SameLetters(e.status, "active") || SameLetters(e.status, "trialing")
  {
    LowerIsSameLetters(e.status, "active");
    LowerIsSameLetters(e.status, "trialing");
  }

  /** A price gives exactly the configured plan that the price map lists under its provider. */
  lemma PricesExactly(cfg: Config, prices: Prices, e: Event, plan: string)
    ensures PricedPlan(cfg, prices, e) == Some(plan) <==>
      var key := e.provider + ":" + (if e.price.Some? then e.price.value else "");
      key in prices && prices[key] == plan && plan in cfg.plans
  {
  }

  // ---------------------------------------------------------------- the effective plan

  /** The effective plan is the account's own only while the account is active, not flagged, and the plan is
      configured; otherwise it is the default. */
  lemma PlansExactly(cfg: Config, accounts: Accounts, org: Id, plan: string)
    requires plan != cfg.defaultPlan
    ensures PlanFor(cfg, accounts, org) == plan <==>
      && org in accounts && accounts[org].status == Active && !accounts[org].reconcile
      && accounts[org].plan == plan && plan in cfg.plans
  {
  }

  // ---------------------------------------------------------------- registration

  /** A registration with a new binding is a fresh start: no plan is in force before an event, whatever plan is
      stored, and its events converge as those of any new account. */
  lemma RegistrationStarts(cfg: Config, b: Books, org: Id, before: Account, provider: string, customer: string, subscription: string,
                           plan: Option<string>)
    requires OneBinding(b.accounts) && provider != "" && subscription != "" && !TakenBy(b.accounts, org, provider, subscription)
    requires before.provider != provider || before.subscription != subscription
    ensures var row := RegisteredRow(before, provider, customer, subscription, plan);
      var after := b.(accounts := b.accounts[org := row]);
      && JustRegistered(after, org) && PlanFor(cfg, after.accounts, org) == cfg.defaultPlan
      && row.provider == provider && row.subscription == subscription && row.customer == Some(customer)
      && row.plan == (if plan.Some? then plan.value else before.plan)
  {
    RegisteredBinding(b.accounts, org, RegisteredRow(before, provider, customer, subscription, plan));
  }

  /** Registering the same binding again keeps what its events made of the account, but for customer and plan. */
  lemma ReregistrationKeeps(before: Account, customer: string, plan: Option<string>)
    ensures RegisteredRow(before, before.provider, customer, before.subscription, plan)
         == before.(customer := Some(customer), plan := if plan.Some? then plan.value else before.plan)
  {
  }

  // ---------------------------------------------------------------- what is recorded

  /** An event that is processed for an organisation leaves the note of what became of it; one of an unknown
      subscription leaves a note too; a repeated one and one of a foreign customer leave none. No other account
      changes, and only a newest event moves the chronological guard. */
  lemma NotesExactly(cfg: Config, prices: Prices, b: Books, o: Id, e: Event)
    requires OneBinding(b.accounts) && o in b.accounts && Bound(b.accounts[o], e) && (e.provider, e.id) !in b.events
    ensures var a := b.accounts[o]; var r := Processed(cfg, prices, b, e);
      var older := a.lastAt.Some? && e.time < a.lastAt.value;
      var tied := a.lastAt == Some(e.time);
      var foreign := e.customer.Some? && e.customer != a.customer;
      if !older && !tied && foreign then r == Err(InvalidWebhook)
      else
        r.Ok? && r.value.events == b.events[(e.provider, e.id) :=
          if older then OutOfOrder else if tied then SameTimestamp
          else if Entitled(e) && PricedPlan(cfg, prices, e).None? then UnknownPrice else Applied]
        && o in r.value.accounts && r.value.accounts - {o} == b.accounts - {o}
        && (!older && !tied ==> r.value.accounts[o].lastAt == Some(e.time) && r.value.accounts[o].lastEvent == Some(e.id))
        && (older ==> r.value.accounts[o] == a) && (tied ==> r.value.accounts[o] == a.(reconcile := true))
  {
    hide Entitled, PricedPlan;
    assert BoundTo(b.accounts, o, e);
    OnlyBound(b.accounts, o, e);
  }
}

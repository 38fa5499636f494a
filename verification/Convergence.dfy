/** What deliveries of subscription events settle on, for every order and repetition of a set of events:
    exactly which effective plans and which stored plans can come out, and so exactly when one does
    (distributedai/persistence/billing.py). */
module Convergence {
  import opened Base
  import opened Tables
  import opened Meter
  import opened Subscriptions

  // ---------------------------------------------------------------- what a set of events means

  /** `e` is newer than every other event of the set. */
  ghost predicate UniqueLatest(s: set<Event>, e: Event) {
    e in s && forall d :: d in s && d != e ==> d.time < e.time
  }

  ghost predicate Latest(s: set<Event>, e: Event) {
    e in s && forall d :: d in s ==> d.time <= e.time
  }

  /** The event gives a plan: its status lapsed, or its price is mapped. */
  predicate Settling(cfg: Config, prices: Prices, e: Event) {
    Entitled(e) ==> PricedPlan(cfg, prices, e).Some?
  }

  /** The plan an event entitles to. */
  function PlanOf(cfg: Config, prices: Prices, e: Event): string {
    if Entitled(e) && PricedPlan(cfg, prices, e).Some? then PricedPlan(cfg, prices, e).value else cfg.defaultPlan
  }

  /** The effective plan of a set of events: the unique latest decides; a tie decides for the default. */
  ghost function Decided(cfg: Config, prices: Prices, s: set<Event>): string {
    if exists e :: UniqueLatest(s, e) then
      var e :| UniqueLatest(s, e);
      PlanOf(cfg, prices, e)
    else cfg.defaultPlan
  }

  /** The events of the account's own customer. */
  ghost function Matching(account: Account, s: set<Event>): set<Event> {
    set e | e in s && CustomerMatches(account, e)
  }

  /** An event of a foreign customer has the time of `e`. */
  ghost predicate Shadowed(account: Account, s: set<Event>, e: Event) {
    exists f :: f in s && !CustomerMatches(account, f) && f.time == e.time
  }

  /** The deciding event shares its time with an event of a foreign customer. */
  ghost predicate Contested(account: Account, s: set<Event>) {
    exists e :: UniqueLatest(Matching(account, s), e) && Shadowed(account, s, e)
  }

  /** The stored plans that a set of events of the account's customer can leave behind: a settling latest
      event's; when a latest event cannot be mapped, also the first plan or one of an older settling event. */
  ghost predicate CanStore(cfg: Config, prices: Prices, first: string, s: set<Event>, plan: string) {
    || (s == {} && plan == first)
    || (exists e :: Latest(s, e) && Settling(cfg, prices, e) && plan == PlanOf(cfg, prices, e))
    || ((exists e :: Latest(s, e) && !Settling(cfg, prices, e)) && OldPlan(cfg, prices, first, s, plan))
  }

  /** The first plan, or the plan of a settling event that is not among the latest. */
  ghost predicate OldPlan(cfg: Config, prices: Prices, first: string, s: set<Event>, plan: string) {
    plan == first || exists e :: e in s && !Latest(s, e) && Settling(cfg, prices, e) && plan == PlanOf(cfg, prices, e)
  }

  // ---------------------------------------------------------------- deliveries

  /** The books after one delivery; an event that errors changes nothing. */
  ghost function Next(cfg: Config, prices: Prices, b: Books, e: Event): Books {
    var r := Processed(cfg, prices, b, e);
    if r.Ok? then r.value else b
  }

  /** Deliveries one after the other. */
  ghost function Delivered(cfg: Config, prices: Prices, b: Books, events: seq<Event>): Books
    decreases |events|
  {
    if events == [] then b
    else Next(cfg, prices, Delivered(cfg, prices, b, events[..|events| - 1]), events[|events| - 1])
  }

  /** The events of a set that are addressed to the organisation's subscription and whose identifiers are
      not used up yet. */
  ghost function Pending(b: Books, o: Id, s: set<Event>): set<Event>
    requires o in b.accounts
  {
    set e | e in s && Bound(b.accounts[o], e) && !Duplicate(b.events, e)
  }

  /** Those of them that belong to the organisation's customer. */
  ghost function Own(b: Books, o: Id, s: set<Event>): set<Event>
    requires o in b.accounts
  {
    Matching(b.accounts[o], Pending(b, o, s))
  }

  /** Every event of the set, in some order, each at least once, and no other event. */
  ghost predicate Covers(events: seq<Event>, s: set<Event>) {
    forall e :: e in events <==> e in s
  }

  /** Within one provider an identifier names one event. */
  ghost predicate IdsDetermine(s: set<Event>) {
    forall d, e :: d in s && e in s && d.provider == e.provider && d.id == e.id ==> d == e
  }

  /** An organisation right after a new registration, before any of its events was recorded. */
  ghost predicate JustRegistered(b: Books, o: Id) {
    && OneBinding(b.accounts) && o in b.accounts
    && b.accounts[o].subscription != "" && b.accounts[o].status == AccountStatus.Registered
    && b.accounts[o].lastAt == None && !b.accounts[o].reconcile
  }

  // ---------------------------------------------------------------- one delivery

  ghost predicate SameParty(a: Account, row: Account) {
    row.provider == a.provider && row.subscription == a.subscription && row.customer == a.customer
  }

  lemma ReactedKeepsBinding(cfg: Config, prices: Prices, accounts: Accounts, o: Id, e: Event)
    requires OneBinding(accounts) && o in accounts && Reacted(cfg, prices, accounts[o], e).Ok?
    ensures var row := Reacted(cfg, prices, accounts[o], e).value.0;
      SameParty(accounts[o], row) && OneBinding(accounts[o := row])
  {
    hide Entitled, PricedPlan;
  }

  lemma OnlyBound(accounts: Accounts, o: Id, e: Event)
    requires OneBinding(accounts) && BoundTo(accounts, o, e)
    ensures forall p :: BoundTo(accounts, p, e) ==> p == o
  {
  }

  /** The row after an event, where an error leaves it. */
  function After(cfg: Config, prices: Prices, row: Account, e: Event): Account {
    var r := Reacted(cfg, prices, row, e);
    if r.Ok? then r.value.0 else row
  }

  /** The organisation's row after a delivery. */
  ghost function RowAfter(cfg: Config, prices: Prices, b: Books, o: Id, e: Event): Account
    requires o in b.accounts
  {
    if Bound(b.accounts[o], e) && !Duplicate(b.events, e) then After(cfg, prices, b.accounts[o], e) else b.accounts[o]
  }

  /** One delivery seen from one organisation. */
  lemma NextRow(cfg: Config, prices: Prices, b: Books, o: Id, e: Event)
    requires OneBinding(b.accounts) && o in b.accounts
    ensures var n := Next(cfg, prices, b, e);
      && OneBinding(n.accounts) && o in n.accounts && n.accounts[o] == RowAfter(cfg, prices, b, o, e)
      && SameParty(b.accounts[o], n.accounts[o])
      && (forall k :: k in b.events ==> k in n.events)
      && (forall k :: k in n.events ==> k in b.events || k == (e.provider, e.id))
      && (Bound(b.accounts[o], e) && Reacted(cfg, prices, b.accounts[o], e).Ok? ==> Duplicate(n.events, e))
  {
    hide Reacted, OneBinding;
    if !Duplicate(b.events, e) && exists p :: BoundTo(b.accounts, p, e) {
      var p :| BoundTo(b.accounts, p, e) && Processed(cfg, prices, b, e) ==
        (var r := Reacted(cfg, prices, b.accounts[p], e);
         if r.Err? then Err(r.code)
         else Ok(Books(b.accounts[p := r.value.0], b.events[(e.provider, e.id) := r.value.1])));
      if Bound(b.accounts[o], e) { OnlyBound(b.accounts, p, e); assert BoundTo(b.accounts, o, e); }
      if Reacted(cfg, prices, b.accounts[p], e).Ok? { ReactedKeepsBinding(cfg, prices, b.accounts, p, e); }
    } else {
      assert Bound(b.accounts[o], e) ==> BoundTo(b.accounts, o, e);
    }
  }

  lemma SameReaction(a: Account, row: Account, e: Event)
    requires SameParty(a, row)
    ensures Bound(row, e) <==> Bound(a, e)
    ensures CustomerMatches(row, e) <==> CustomerMatches(a, e)
  {
  }

  // ---------------------------------------------------------------- what a row says about the events it has seen

  /** The row is what a newest event `e` makes of it. */
  ghost predicate Tells(cfg: Config, prices: Prices, row: Account, e: Event) {
    if !Entitled(e) then row.status == Delinquent && !row.reconcile
    else if PricedPlan(cfg, prices, e).None? then row.reconcile
    else row.status == Active && !row.reconcile && row.plan == PricedPlan(cfg, prices, e).value
  }

  /** The row's time is that of the latest events. */
  ghost predicate Dated(row: Account, m: set<Event>) {
    && (m == {} <==> row.lastAt == None)
    && (forall e :: e in m ==> row.lastAt.Some? && e.time <= row.lastAt.value)
    && (row.lastAt.Some? ==> exists e :: e in m && e.time == row.lastAt.value)
  }

  /** `row` is what became of `account` by the events of `s`, in some order. */
  ghost predicate Reflects(cfg: Config, prices: Prices, account: Account, row: Account, s: set<Event>) {
    var m := Matching(account, s);
    && Dated(row, m)
    && (m == {} ==> row.status == AccountStatus.Registered && !row.reconcile)
    && (forall e :: UniqueLatest(m, e) ==> Tells(cfg, prices, row, e) || (row.reconcile && Shadowed(account, s, e)))
    && (m != {} && !(exists e :: UniqueLatest(m, e)) ==> row.reconcile)
    && CanStore(cfg, prices, account.plan, m, row.plan)
  }

  lemma ReflectsDecides(cfg: Config, prices: Prices, account: Account, accounts: Accounts, o: Id, s: set<Event>)
    requires o in accounts && Reflects(cfg, prices, account, accounts[o], s)
    ensures var plan := PlanFor(cfg, accounts, o);
      plan == Decided(cfg, prices, Matching(account, s)) || (Contested(account, s) && plan == cfg.defaultPlan)
  {
    hide Entitled, PricedPlan, Shadowed, CanStore;
    var m := Matching(account, s);
    if exists e :: UniqueLatest(m, e) {
      var e :| UniqueLatest(m, e);
      assert forall d :: UniqueLatest(m, d) ==> d == e;
      PricedIsPlan(cfg, prices, e);
    }
  }

  lemma PricedIsPlan(cfg: Config, prices: Prices, e: Event)
    ensures PricedPlan(cfg, prices, e).Some? ==> PricedPlan(cfg, prices, e).value in cfg.plans
  {
  }

  // ---------------------------------------------------------------- one more event

  /** An event that is not newer than the latest leaves the storable plans storable. */
  lemma CanStoreMore(cfg: Config, prices: Prices, first: string, m: set<Event>, e: Event, plan: string)
    requires CanStore(cfg, prices, first, m, plan) && exists d :: d in m && e.time <= d.time
    ensures CanStore(cfg, prices, first, m + {e}, plan)
  {
    hide Settling, PlanOf;
    var t := m + {e};
    forall d | Latest(m, d) ensures Latest(t, d) {}
    forall d | d in m && !Latest(m, d) ensures !Latest(t, d) {
      var c :| c in m && d.time < c.time;
      assert c in t;
    }
    if x :| Latest(m, x) && Settling(cfg, prices, x) && plan == PlanOf(cfg, prices, x) { assert Latest(t, x); }
    else {
      var x :| Latest(m, x) && !Settling(cfg, prices, x);
      assert Latest(t, x);
      if plan != first {
        var y :| y in m && !Latest(m, y) && Settling(cfg, prices, y) && plan == PlanOf(cfg, prices, y);
        assert y in t && !Latest(t, y);
      }
    }
  }

  /** A newer event stores its plan or, when it cannot be mapped, leaves the plan of an older one. */
  lemma CanStoreNewer(cfg: Config, prices: Prices, first: string, m: set<Event>, e: Event, plan: string)
    requires CanStore(cfg, prices, first, m, plan) && forall d :: d in m ==> d.time < e.time
    ensures CanStore(cfg, prices, first, m + {e}, if Settling(cfg, prices, e) then PlanOf(cfg, prices, e) else plan)
  {
    hide Settling, PlanOf;
    var t := m + {e};
    assert Latest(t, e) && e in t;
    if !Settling(cfg, prices, e) && plan != first {
      var x :| x in m && Settling(cfg, prices, x) && plan == PlanOf(cfg, prices, x);
      assert x in t && !Latest(t, x);
    }
  }

  /** An older event of the customer changes neither the row nor the outcome. */
  lemma OlderReflects(cfg: Config, prices: Prices, a: Account, row: Account, s: set<Event>, e: Event)
    requires Reflects(cfg, prices, a, row, s) && CustomerMatches(a, e) && row.lastAt.Some? && e.time < row.lastAt.value
    ensures Reflects(cfg, prices, a, row, s + {e})
  {
    hide Tells, CanStore, CustomerMatches;
    var m, t := Matching(a, s), Matching(a, s + {e});
    assert t == m + {e};
    var top :| top in m && top.time == row.lastAt.value;
    assert top in t && top != e;
    forall d ensures UniqueLatest(t, d) <==> UniqueLatest(m, d) {}
    forall d | Shadowed(a, s, d) ensures Shadowed(a, s + {e}, d) {}
    CanStoreMore(cfg, prices, a.plan, m, e, row.plan);
  }

  /** An equally new event of the customer makes a tie. */
  lemma TiedReflects(cfg: Config, prices: Prices, a: Account, row: Account, s: set<Event>, e: Event)
    requires Reflects(cfg, prices, a, row, s) && CustomerMatches(a, e) && row.lastAt == Some(e.time) && e !in s
    ensures Reflects(cfg, prices, a, row.(reconcile := true), s + {e})
  {
    hide Tells, CanStore, CustomerMatches;
    var m, t := Matching(a, s), Matching(a, s + {e});
    assert t == m + {e};
    var top :| top in m && top.time == row.lastAt.value;
    assert top in t && e in t && top != e;
    forall d ensures !UniqueLatest(t, d) {}
    CanStoreMore(cfg, prices, a.plan, m, e, row.plan);
  }

  /** A newer event of the customer alone decides. */
  lemma NewerReflects(cfg: Config, prices: Prices, a: Account, row: Account, s: set<Event>, e: Event)
    requires Reflects(cfg, prices, a, row, s) && CustomerMatches(a, e) && (row.lastAt.Some? ==> row.lastAt.value < e.time)
    ensures Reflects(cfg, prices, a, Advanced(cfg, prices, row, e).0, s + {e})
  {
    hide Entitled, PricedPlan, CanStore, CustomerMatches, Shadowed;
    var m, t := Matching(a, s), Matching(a, s + {e});
    assert t == m + {e};
    assert UniqueLatest(t, e) && e in t;
    CanStoreNewer(cfg, prices, a.plan, m, e, row.plan);
  }

  /** An event of a foreign customer can only raise the flag, and only at the time of a latest event. */
  lemma ForeignReflects(cfg: Config, prices: Prices, a: Account, row: Account, s: set<Event>, e: Event)
    requires Reflects(cfg, prices, a, row, s) && !CustomerMatches(a, e) && SameParty(a, row)
    ensures Reflects(cfg, prices, a, After(cfg, prices, row, e), s + {e})
  {
    hide Tells, CanStore, CustomerMatches, Advanced;
    SameReaction(a, row, e);
    assert Matching(a, s + {e}) == Matching(a, s);
    forall d | Shadowed(a, s, d) ensures Shadowed(a, s + {e}, d) {}
    if row.lastAt == Some(e.time) {
      forall d | UniqueLatest(Matching(a, s), d) ensures Shadowed(a, s + {e}, d) {
        assert d.time == e.time && e in s + {e};
      }
    }
  }

  /** One more event, wherever its time falls among those already seen. */
  lemma ReactedReflects(cfg: Config, prices: Prices, a: Account, row: Account, s: set<Event>, e: Event)
    requires Reflects(cfg, prices, a, row, s) && SameParty(a, row) && (CustomerMatches(a, e) ==> e !in s)
    ensures CustomerMatches(a, e) ==> Reacted(cfg, prices, row, e).Ok?
    ensures Reflects(cfg, prices, a, After(cfg, prices, row, e), s + {e})
  {
    hide Reflects, Advanced, CustomerMatches;
    SameReaction(a, row, e);
    if !CustomerMatches(a, e) { ForeignReflects(cfg, prices, a, row, s, e); }
    else if row.lastAt.Some? && e.time < row.lastAt.value { OlderReflects(cfg, prices, a, row, s, e); }
    else if row.lastAt == Some(e.time) { TiedReflects(cfg, prices, a, row, s, e); }
    else { NewerReflects(cfg, prices, a, row, s, e); }
  }

  // ---------------------------------------------------------------- whole deliveries

  /** The ledger of identifiers kept what it had and gained delivered events only, among them every event
      of the organisation's customer. */
  ghost predicate Recorded(b: Books, o: Id, after: Events, s: set<Event>)
    requires o in b.accounts
  {
    && (forall k :: k in b.events ==> k in after)
    && (forall e :: e in Own(b, o, s) ==> Duplicate(after, e))
    && (forall k :: k in after && k !in b.events ==> exists e :: e in s && k == (e.provider, e.id))
  }

  /** What the deliveries so far did to the organisation's row and to the ledger of identifiers. */
  ghost predicate Settled(cfg: Config, prices: Prices, b: Books, d: Books, o: Id, s: set<Event>) {
    && OneBinding(d.accounts) && o in d.accounts && o in b.accounts && SameParty(b.accounts[o], d.accounts[o])
    && Recorded(b, o, d.events, s)
    && Reflects(cfg, prices, b.accounts[o], d.accounts[o], Pending(b, o, s))
  }

  lemma RecordedMore(b: Books, o: Id, events: Events, later: Events, s: set<Event>, e: Event)
    requires o in b.accounts && Recorded(b, o, events, s)
    requires forall k :: k in events ==> k in later
    requires forall k :: k in later ==> k in events || k == (e.provider, e.id)
    requires e in Own(b, o, s + {e}) ==> Duplicate(later, e)
    ensures Recorded(b, o, later, s + {e})
  {
    var t := s + {e};
    forall d | d in Own(b, o, t) ensures Duplicate(later, d) {
      if d != e { assert d in Own(b, o, s); }
    }
    forall k | k in later && k !in b.events ensures exists d :: d in t && k == (d.provider, d.id) {
      if k == (e.provider, e.id) { assert e in t; }
      else { var d :| d in s && k == (d.provider, d.id); assert d in t; }
    }
  }

  /** A recorded identifier that was not used up before can only come from delivering that very event. */
  lemma RepeatedEvent(b: Books, o: Id, events: Events, s: set<Event>, e: Event)
    requires o in b.accounts && Recorded(b, o, events, s) && IdsDetermine(s + {e}) && Duplicate(events, e)
    ensures Pending(b, o, s + {e}) == Pending(b, o, s)
  {
    if !Duplicate(b.events, e) {
      var same :| same in s && (e.provider, e.id) == (same.provider, same.id);
      assert same in s + {e} && e in s + {e} && same == e;
      assert s + {e} == s;
    }
  }

  lemma SettledStep(cfg: Config, prices: Prices, b: Books, d: Books, o: Id, s: set<Event>, e: Event)
    requires Settled(cfg, prices, b, d, o, s) && IdsDetermine(s + {e})
    ensures Settled(cfg, prices, b, Next(cfg, prices, d, e), o, s + {e})
  {
    hide Reflects, Reacted, OneBinding, Recorded, IdsDetermine, Next, CustomerMatches;
    var a, row := b.accounts[o], d.accounts[o];
    NextRow(cfg, prices, d, o, e);
    SameReaction(a, row, e);
    var n := Next(cfg, prices, d, e);
    if !Bound(a, e) {
      assert Pending(b, o, s + {e}) == Pending(b, o, s);
    } else if Duplicate(d.events, e) {
      RepeatedEvent(b, o, d.events, s, e);
    } else {
      NotUsed(b, o, d.events, s, e);
      assert Pending(b, o, s + {e}) == Pending(b, o, s) + {e};
      ReactedReflects(cfg, prices, a, row, Pending(b, o, s), e);
    }
    RecordedMore(b, o, d.events, n.events, s, e);
  }

  lemma NotUsed(b: Books, o: Id, events: Events, s: set<Event>, e: Event)
    requires o in b.accounts && Recorded(b, o, events, s) && !Duplicate(events, e)
    ensures !Duplicate(b.events, e) && e !in Own(b, o, s)
  {
  }

  lemma {:induction false} DeliveriesSettle(cfg: Config, prices: Prices, b: Books, o: Id, events: seq<Event>)
    requires JustRegistered(b, o) && IdsDetermine(set e | e in events)
    ensures Settled(cfg, prices, b, Delivered(cfg, prices, b, events), o, (set e | e in events))
    decreases |events|
  {
    var all := set e | e in events;
    if events == [] {
      assert Pending(b, o, all) == {} && Own(b, o, all) == {};
    } else {
      hide Settled, Next;
      var n := |events| - 1;
      var earlier := set e | e in events[..n];
      assert events == events[..n] + [events[n]];
      assert all == earlier + {events[n]};
      DeliveriesSettle(cfg, prices, b, o, events[..n]);
      SettledStep(cfg, prices, b, Delivered(cfg, prices, b, events[..n]), o, earlier, events[n]);
    }
  }

  lemma CoveredSettle(cfg: Config, prices: Prices, b: Books, o: Id, events: seq<Event>, s: set<Event>)
    requires JustRegistered(b, o) && IdsDetermine(s) && Covers(events, s)
    ensures Settled(cfg, prices, b, Delivered(cfg, prices, b, events), o, s)
  {
    hide Settled, Delivered, IdsDetermine;
    assert (set e | e in events) == s;
    DeliveriesSettle(cfg, prices, b, o, events);
  }

  // ---------------------------------------------------------------- the effective plan

  /** After any deliveries the effective plan is decided by the set of delivered events: the unique latest
      of the customer's events gives its plan, a tie or an unmappable price the default. Only when the
      latest shares its time with an event of a foreign customer can the default come instead. */
  lemma SetDecidesPlan(cfg: Config, prices: Prices, b: Books, o: Id, events: seq<Event>, s: set<Event>)
    requires JustRegistered(b, o) && IdsDetermine(s) && Covers(events, s)
    ensures var plan := PlanFor(cfg, Delivered(cfg, prices, b, events).accounts, o);
      plan == Decided(cfg, prices, Own(b, o, s)) || (Contested(b.accounts[o], Pending(b, o, s)) && plan == cfg.defaultPlan)
  {
    hide Reflects, Decided, PlanFor, Delivered, OneBinding, Contested;
    CoveredSettle(cfg, prices, b, o, events, s);
    ReflectsDecides(cfg, prices, b.accounts[o], Delivered(cfg, prices, b, events).accounts, o, Pending(b, o, s));
  }

  /** Convergence: any order, any repetition and any traffic of other subscriptions give one plan, unless a
      foreign customer's event shares the time of the deciding one. */
  lemma OrderDoesNotMatter(cfg: Config, prices: Prices, b: Books, o: Id, first: seq<Event>, second: seq<Event>)
    requires JustRegistered(b, o) && IdsDetermine(set e | e in first) && IdsDetermine(set e | e in second)
    requires Pending(b, o, (set e | e in first)) == Pending(b, o, (set e | e in second))
    requires !Contested(b.accounts[o], Pending(b, o, (set e | e in first)))
    ensures PlanFor(cfg, Delivered(cfg, prices, b, first).accounts, o) == PlanFor(cfg, Delivered(cfg, prices, b, second).accounts, o)
  {
    hide Delivered, Decided, PlanFor, Contested, Matching;
    SetDecidesPlan(cfg, prices, b, o, first, (set e | e in first));
    SetDecidesPlan(cfg, prices, b, o, second, (set e | e in second));
  }

  // ---------------------------------------------------------------- every possible outcome comes about

  lemma {:induction false} SomeOrder(s: set<Event>) returns (events: seq<Event>)
    ensures Covers(events, s)
  {
    if s == {} { return []; }
    var e :| e in s;
    events := SomeOrder(s - {e});
    events := events + [e];
  }

  lemma {:induction false} DeliveredAppend(cfg: Config, prices: Prices, b: Books, x: seq<Event>, y: seq<Event>)
    ensures Delivered(cfg, prices, b, x + y) == Delivered(cfg, prices, Delivered(cfg, prices, b, x), y)
    decreases |y|
  {
    hide Next;
    if y == [] {
      assert x + y == x;
    } else {
      var n := |y| - 1;
      DeliveredAppend(cfg, prices, b, x, y[..n]);
      assert (x + y)[..|x + y| - 1] == x + y[..n];
    }
  }

  lemma DeliveredOne(cfg: Config, prices: Prices, b: Books, e: Event)
    ensures Delivered(cfg, prices, b, [e]) == Next(cfg, prices, b, e)
  {
    assert [e][..0] == [];
    assert Delivered(cfg, prices, b, []) == b;
  }

  /** An identifier not used up before is still free after deliveries of other events. */
  lemma StillFree(b: Books, o: Id, events: Events, s: set<Event>, e: Event)
    requires o in b.accounts && Recorded(b, o, events, s) && IdsDetermine(s + {e}) && e !in s && !Duplicate(b.events, e)
    ensures !Duplicate(events, e)
  {
    forall d | d in s ensures (e.provider, e.id) != (d.provider, d.id) {
      assert d in s + {e} && e in s + {e};
    }
  }

  lemma FewerIds(s: set<Event>, t: set<Event>)
    requires IdsDetermine(s) && t <= s
    ensures IdsDetermine(t)
  {
  }

  /** Deliveries of other events leave the account as just registered. */
  lemma OthersLeaveFresh(cfg: Config, prices: Prices, b: Books, o: Id, events: seq<Event>, s: set<Event>, own: set<Event>)
    requires JustRegistered(b, o) && IdsDetermine(s) && own == Own(b, o, s) && Covers(events, s - own)
    ensures var d := Delivered(cfg, prices, b, events);
      JustRegistered(d, o) && Own(d, o, own) == own && Pending(d, o, own) == own && !Contested(d.accounts[o], own)
  {
    hide IdsDetermine, Covers, Delivered, CustomerMatches, CanStore, Recorded;
    var d := Delivered(cfg, prices, b, events);
    FewerIds(s, s - own);
    CoveredSettle(cfg, prices, b, o, events, s - own);
    assert Own(b, o, s - own) == {};
    forall e | e in own ensures Bound(d.accounts[o], e) && CustomerMatches(d.accounts[o], e) && !Duplicate(d.events, e) {
      SameReaction(b.accounts[o], d.accounts[o], e);
      FewerIds(s, s - own + {e});
      StillFree(b, o, d.events, s - own, e);
    }
    assert Pending(d, o, own) == own;
    assert Own(d, o, own) == own;
  }

  /** Some order and repetition of the set leaves the organisation with this effective plan. */
  ghost predicate CanEndIn(cfg: Config, prices: Prices, b: Books, o: Id, s: set<Event>, plan: string) {
    exists events :: Covers(events, s) && PlanFor(cfg, Delivered(cfg, prices, b, events).accounts, o) == plan
  }

  /** Everything else before the customer's events: the set decides, whatever foreign events it has. */
  lemma DecidedComesAbout(cfg: Config, prices: Prices, b: Books, o: Id, s: set<Event>)
    requires JustRegistered(b, o) && IdsDetermine(s)
    ensures CanEndIn(cfg, prices, b, o, s, Decided(cfg, prices, Own(b, o, s)))
  {
    hide JustRegistered, IdsDetermine, Delivered, Own, Pending, Decided, PlanFor, Contested;
    OwnAmong(b, o, s);
    var own := Own(b, o, s);
    var others := SomeOrder(s - own);
    var customers := SomeOrder(own);
    OthersLeaveFresh(cfg, prices, b, o, others, s, own);
    FewerIds(s, own);
    SetDecidesPlan(cfg, prices, Delivered(cfg, prices, b, others), o, customers, own);
    DeliveredAppend(cfg, prices, b, others, customers);
    assert Covers(others + customers, s);
  }

  lemma OwnAmong(b: Books, o: Id, s: set<Event>)
    requires JustRegistered(b, o)
    ensures o in b.accounts && Own(b, o, s) <= Pending(b, o, s) <= s
  {
  }

  /** A foreign event of the deciding time delivered last flags the account. */
  lemma ForeignLast(cfg: Config, prices: Prices, b: Books, o: Id, events: seq<Event>, s: set<Event>, m: Event, f: Event)
    requires JustRegistered(b, o) && IdsDetermine(s) && Covers(events, s - {f})
    requires UniqueLatest(Own(b, o, s), m) && f in Pending(b, o, s) && !CustomerMatches(b.accounts[o], f) && f.time == m.time
    ensures PlanFor(cfg, Next(cfg, prices, Delivered(cfg, prices, b, events), f).accounts, o) == cfg.defaultPlan
  {
    hide IdsDetermine, Covers, Delivered, Next, CustomerMatches, CanStore, Recorded, Tells;
    var d := Delivered(cfg, prices, b, events);
    FewerIds(s, s - {f});
    CoveredSettle(cfg, prices, b, o, events, s - {f});
    assert Own(b, o, s - {f}) == Own(b, o, s);
    assert s - {f} + {f} == s;
    StillFree(b, o, d.events, s - {f}, f);
    NextRow(cfg, prices, d, o, f);
    assert m in Own(b, o, s);
    assert d.accounts[o].lastAt == Some(m.time);
  }

  lemma DefaultComesAbout(cfg: Config, prices: Prices, b: Books, o: Id, s: set<Event>)
    requires JustRegistered(b, o) && IdsDetermine(s) && Contested(b.accounts[o], Pending(b, o, s))
    ensures CanEndIn(cfg, prices, b, o, s, cfg.defaultPlan)
  {
    hide JustRegistered, IdsDetermine, Delivered, PlanFor, UniqueLatest, CustomerMatches, Next;
    OwnAmong(b, o, s);
    var a, p := b.accounts[o], Pending(b, o, s);
    var m :| UniqueLatest(Matching(a, p), m) && Shadowed(a, p, m);
    var f :| f in p && !CustomerMatches(a, f) && f.time == m.time;
    var others := SomeOrder(s - {f});
    ForeignLast(cfg, prices, b, o, others, s, m, f);
    DeliveredAppend(cfg, prices, b, others, [f]);
    DeliveredOne(cfg, prices, Delivered(cfg, prices, b, others), f);
    assert Covers(others + [f], s);
  }

  /** Exactly which effective plans the deliveries of a set of events can end in. */
  lemma EffectivePlans(cfg: Config, prices: Prices, b: Books, o: Id, s: set<Event>, plan: string)
    requires JustRegistered(b, o) && IdsDetermine(s)
    ensures CanEndIn(cfg, prices, b, o, s, plan)
      <==> plan == Decided(cfg, prices, Own(b, o, s)) || (Contested(b.accounts[o], Pending(b, o, s)) && plan == cfg.defaultPlan)
  {
    hide JustRegistered, IdsDetermine, Delivered, PlanFor, Contested, Decided, Own, Pending, Covers;
    OwnAmong(b, o, s);
    DecidedComesAbout(cfg, prices, b, o, s);
    if Contested(b.accounts[o], Pending(b, o, s)) { DefaultComesAbout(cfg, prices, b, o, s); }
    forall events | Covers(events, s)
      ensures var p := PlanFor(cfg, Delivered(cfg, prices, b, events).accounts, o);
        p == Decided(cfg, prices, Own(b, o, s)) || (Contested(b.accounts[o], Pending(b, o, s)) && p == cfg.defaultPlan)
    {
      SetDecidesPlan(cfg, prices, b, o, events, s);
    }
  }

  /** The deliveries of the set all end in one effective plan, whatever their order and repetition. */
  ghost predicate Converges(cfg: Config, prices: Prices, b: Books, o: Id, s: set<Event>) {
    forall p, q | CanEndIn(cfg, prices, b, o, s, p) && CanEndIn(cfg, prices, b, o, s, q) :: p == q
  }

  /** The unique latest of the customer's events gives another plan than the default, and an event of a
      foreign customer has its time. */
  ghost predicate Disputed(cfg: Config, prices: Prices, b: Books, o: Id, s: set<Event>)
    requires o in b.accounts
  {
    exists m, f ::
      && UniqueLatest(Own(b, o, s), m) && PlanOf(cfg, prices, m) != cfg.defaultPlan
      && f in Pending(b, o, s) && !CustomerMatches(b.accounts[o], f) && f.time == m.time
  }

  /** The effective plan is independent of order and repetition exactly when the set is not disputed. */
  lemma ConvergesExactly(cfg: Config, prices: Prices, b: Books, o: Id, s: set<Event>)
    requires JustRegistered(b, o) && IdsDetermine(s)
    ensures Converges(cfg, prices, b, o, s) <==> !Disputed(cfg, prices, b, o, s)
  {
    hide JustRegistered, IdsDetermine, CanEndIn, Own, Pending, Decided, Contested, Disputed;
    OwnAmong(b, o, s);
    DisputedExactly(cfg, prices, b, o, s);
    forall p { EffectivePlans(cfg, prices, b, o, s, p); }
    assert CanEndIn(cfg, prices, b, o, s, Decided(cfg, prices, Own(b, o, s)));
    assert Contested(b.accounts[o], Pending(b, o, s)) ==> CanEndIn(cfg, prices, b, o, s, cfg.defaultPlan);
  }

  lemma DisputedExactly(cfg: Config, prices: Prices, b: Books, o: Id, s: set<Event>)
    requires o in b.accounts
    ensures Disputed(cfg, prices, b, o, s)
      <==> Contested(b.accounts[o], Pending(b, o, s)) && Decided(cfg, prices, Own(b, o, s)) != cfg.defaultPlan
  {
    hide Pending, PlanOf, CustomerMatches;
    if Disputed(cfg, prices, b, o, s) {
      var m, f :|
        && UniqueLatest(Own(b, o, s), m) && PlanOf(cfg, prices, m) != cfg.defaultPlan
        && f in Pending(b, o, s) && !CustomerMatches(b.accounts[o], f) && f.time == m.time;
      assert Shadowed(b.accounts[o], Pending(b, o, s), m);
    }
  }

  // ---------------------------------------------------------------- the stored plan

  /** The organisation's row kept its plan and its time; identifiers were only added. */
  ghost predicate SettledRow(b: Books, d: Books, o: Id) {
    && OneBinding(d.accounts) && o in b.accounts && o in d.accounts && SameParty(b.accounts[o], d.accounts[o])
    && d.accounts[o].plan == b.accounts[o].plan && d.accounts[o].lastAt == b.accounts[o].lastAt
    && forall k :: k in b.events ==> k in d.events
  }

  /** As long as no event of the customer is newer than the row, deliveries leave the stored plan. */
  lemma {:induction false} StoredStays(cfg: Config, prices: Prices, b: Books, o: Id, events: seq<Event>)
    requires OneBinding(b.accounts) && o in b.accounts
    requires forall e | e in events && Bound(b.accounts[o], e) && CustomerMatches(b.accounts[o], e) && !Duplicate(b.events, e) ::
      b.accounts[o].lastAt.Some? && e.time <= b.accounts[o].lastAt.value
    ensures SettledRow(b, Delivered(cfg, prices, b, events), o)
    decreases |events|
  {
    if events != [] {
      hide Next, OneBinding, CustomerMatches, Advanced;
      var n := |events| - 1;
      assert events == events[..n] + [events[n]];
      StoredStays(cfg, prices, b, o, events[..n]);
      var d := Delivered(cfg, prices, b, events[..n]);
      StoredStep(cfg, prices, d, o, events[n]);
      SameReaction(b.accounts[o], d.accounts[o], events[n]);
    }
  }

  lemma StoredStep(cfg: Config, prices: Prices, b: Books, o: Id, e: Event)
    requires OneBinding(b.accounts) && o in b.accounts
    requires Bound(b.accounts[o], e) && CustomerMatches(b.accounts[o], e) && !Duplicate(b.events, e)
      ==> b.accounts[o].lastAt.Some? && e.time <= b.accounts[o].lastAt.value
    ensures SettledRow(b, Next(cfg, prices, b, e), o)
  {
    hide Next, OneBinding, CustomerMatches, Advanced;
    NextRow(cfg, prices, b, o, e);
  }

  /** The latest of the customer's events delivered first fixes the stored plan. */
  lemma LatestFirst(cfg: Config, prices: Prices, b: Books, o: Id, s: set<Event>, e: Event, rest: seq<Event>)
    requires OneBinding(b.accounts) && o in b.accounts && Latest(Own(b, o, s), e) && Covers(rest, s)
    requires b.accounts[o].lastAt.Some? ==> b.accounts[o].lastAt.value < e.time
    ensures var d := Delivered(cfg, prices, Next(cfg, prices, b, e), rest);
      o in d.accounts && d.accounts[o].plan == if Settling(cfg, prices, e) then PlanOf(cfg, prices, e) else b.accounts[o].plan
  {
    hide Next, OneBinding, CustomerMatches, Delivered, Entitled, PricedPlan;
    NextRow(cfg, prices, b, o, e);
    var n := Next(cfg, prices, b, e);
    forall d | d in rest && Bound(n.accounts[o], d) && CustomerMatches(n.accounts[o], d) && !Duplicate(n.events, d)
      ensures d.time <= e.time
    {
      SameReaction(b.accounts[o], n.accounts[o], d);
      assert d in Own(b, o, s);
    }
    StoredStays(cfg, prices, n, o, rest);
  }

  ghost predicate Stores(cfg: Config, prices: Prices, b: Books, o: Id, events: seq<Event>, plan: string) {
    var d := Delivered(cfg, prices, b, events);
    o in d.accounts && d.accounts[o].plan == plan
  }

  /** Some order and repetition of the set leaves this plan stored. */
  ghost predicate CanLeave(cfg: Config, prices: Prices, b: Books, o: Id, s: set<Event>, plan: string) {
    exists events :: Covers(events, s) && Stores(cfg, prices, b, o, events, plan)
  }

  /** What the latest event, delivered first, leaves stored. */
  function LatestPlan(cfg: Config, prices: Prices, e: Event, first: string): string {
    if Settling(cfg, prices, e) then PlanOf(cfg, prices, e) else first
  }

  /** A settling latest event's plan, or with an unmappable one the first plan, can stay behind. */
  lemma LatestStores(cfg: Config, prices: Prices, b: Books, o: Id, s: set<Event>, e: Event)
    requires JustRegistered(b, o) && IdsDetermine(s) && Latest(Own(b, o, s), e)
    ensures CanLeave(cfg, prices, b, o, s, LatestPlan(cfg, prices, e, b.accounts[o].plan))
  {
    hide Next, Delivered, Settling, PlanOf, Pending, CustomerMatches;
    OwnAmong(b, o, s);
    var rest := SomeOrder(s);
    LatestFirst(cfg, prices, b, o, s, e, rest);
    DeliveredAppend(cfg, prices, b, [e], rest);
    DeliveredOne(cfg, prices, b, e);
    assert Covers([e] + rest, s);
  }

  /** With an unmappable latest event, the plan of an older one can stay behind. */
  lemma OlderStores(cfg: Config, prices: Prices, b: Books, o: Id, s: set<Event>, x: Event, e: Event)
    requires JustRegistered(b, o) && IdsDetermine(s) && Latest(Own(b, o, s), e) && !Settling(cfg, prices, e)
    requires x in Own(b, o, s) && !Latest(Own(b, o, s), x) && Settling(cfg, prices, x)
    ensures CanLeave(cfg, prices, b, o, s, PlanOf(cfg, prices, x))
  {
    hide Next, Delivered, Entitled, PricedPlan, CustomerMatches;
    assert x.time < e.time;
    var n := Next(cfg, prices, b, x);
    NextRow(cfg, prices, b, o, x);
    assert !Duplicate(n.events, e);
    forall d | d in Own(n, o, s) ensures d in Own(b, o, s) { SameReaction(b.accounts[o], n.accounts[o], d); }
    SameReaction(b.accounts[o], n.accounts[o], e);
    assert Latest(Own(n, o, s), e);
    var rest := SomeOrder(s);
    LatestFirst(cfg, prices, n, o, s, e, rest);
    DeliveredAppend(cfg, prices, b, [x, e], rest);
    DeliveredAppend(cfg, prices, b, [x], [e]);
    DeliveredOne(cfg, prices, b, x);
    DeliveredOne(cfg, prices, n, e);
    assert [x] + [e] == [x, e];
    assert Covers([x, e] + rest, s);
  }

  /** Exactly which stored plans the deliveries of a set of events can leave behind. */
  lemma StoredPlans(cfg: Config, prices: Prices, b: Books, o: Id, s: set<Event>, plan: string)
    requires JustRegistered(b, o) && IdsDetermine(s)
    ensures CanLeave(cfg, prices, b, o, s, plan)
      <==> CanStore(cfg, prices, b.accounts[o].plan, Own(b, o, s), plan)
  {
    hide IdsDetermine, Latest, Settling, PlanOf, Delivered, Covers, Pending, Matching, OneBinding;
    var own, first := Own(b, o, s), b.accounts[o].plan;
    forall events | Covers(events, s) ensures Stores(cfg, prices, b, o, events, plan) ==> CanStore(cfg, prices, first, own, plan) {
      CoveredSettle(cfg, prices, b, o, events, s);
    }
    if CanStore(cfg, prices, first, own, plan) {
      if own == {} && plan == first {
        var events := SomeOrder(s);
        CoveredSettle(cfg, prices, b, o, events, s);
        EmptyStores(cfg, prices, first, own, Delivered(cfg, prices, b, events).accounts[o].plan);
      } else if e :| Latest(own, e) && Settling(cfg, prices, e) && plan == PlanOf(cfg, prices, e) {
        LatestStores(cfg, prices, b, o, s, e);
      } else {
        var e :| Latest(own, e) && !Settling(cfg, prices, e);
        if plan == first { LatestStores(cfg, prices, b, o, s, e); }
        else {
          var x :| x in own && !Latest(own, x) && Settling(cfg, prices, x) && plan == PlanOf(cfg, prices, x);
          OlderStores(cfg, prices, b, o, s, x, e);
        }
      }
    }
  }

  lemma EmptyStores(cfg: Config, prices: Prices, first: string, m: set<Event>, plan: string)
    requires m == {} && CanStore(cfg, prices, first, m, plan)
    ensures plan == first
  {
  }

  /** The deliveries of the set all leave one stored plan. */
  ghost predicate StoredConverges(cfg: Config, prices: Prices, b: Books, o: Id, s: set<Event>) {
    forall p, q | CanLeave(cfg, prices, b, o, s, p) && CanLeave(cfg, prices, b, o, s, q) :: p == q
  }

  /** The set of events can leave only one plan behind. */
  ghost predicate OneOutcome(cfg: Config, prices: Prices, first: string, m: set<Event>) {
    forall p, q | CanStore(cfg, prices, first, m, p) && CanStore(cfg, prices, first, m, q) :: p == q
  }

  /** The stored plan is independent of order and repetition exactly when there is one possible outcome. */
  lemma StoredConvergesExactly(cfg: Config, prices: Prices, b: Books, o: Id, s: set<Event>)
    requires JustRegistered(b, o) && IdsDetermine(s)
    ensures StoredConverges(cfg, prices, b, o, s) <==> OneOutcome(cfg, prices, b.accounts[o].plan, Own(b, o, s))
  {
    hide JustRegistered, IdsDetermine, CanLeave, CanStore, Own;
    OwnAmong(b, o, s);
    forall p { StoredPlans(cfg, prices, b, o, s, p); }
  }

  // ---------------------------------------------------------------- the smallest sets that do not converge

  const PAID := PlanLimits(None, None, None, None)

  ghost function Example(): (cfg: Config) {
    Deployment((s: string) => {}, (v) => None, true, map["free" := PAID, "a" := PAID, "b" := PAID], "free")
  }

  const EXAMPLE_PRICES := map["stripe:pa" := "a", "stripe:pb" := "b"]
  const EXAMPLE_BOOKS := Books(map["org" := Account("free", AccountStatus.Registered, "stripe", Some("cus"), "sub", None, None, false)], map[])
  const GOOD := Event("e1", 5, "stripe", "sub", Some("cus"), "active", Some("pa"))
  const RIVAL := Event("e2", 5, "stripe", "sub", Some("cus"), "active", Some("pb"))
  const STRANGER := Event("e3", 5, "stripe", "sub", Some("other"), "active", Some("pb"))

  lemma ActiveIsActive()
    ensures Lower("active") == "active"
  {
    assert Lower("") == "";
    assert Lower("e") == "e";
    assert Lower("ve") == "ve";
    assert Lower("ive") == "ive";
    assert Lower("tive") == "tive";
    assert Lower("ctive") == "ctive";
  }

  lemma ExamplePlans()
    ensures PricedPlan(Example(), EXAMPLE_PRICES, GOOD) == Some("a") && PricedPlan(Example(), EXAMPLE_PRICES, RIVAL) == Some("b")
    ensures Entitled(GOOD) && Entitled(RIVAL)
  {
    ActiveIsActive();
    assert "stripe" + ":" + "pa" == "stripe:pa";
    assert "stripe" + ":" + "pb" == "stripe:pb";
  }

  lemma TwoDeliveries(cfg: Config, prices: Prices, b: Books, o: Id, x: Event, y: Event)
    requires OneBinding(b.accounts) && o in b.accounts && Bound(b.accounts[o], x) && Bound(b.accounts[o], y)
    requires !Duplicate(b.events, x) && !Duplicate(b.events, y) && (x.provider, x.id) != (y.provider, y.id)
    ensures var d := Delivered(cfg, prices, b, [x, y]);
      o in d.accounts && d.accounts[o] == After(cfg, prices, After(cfg, prices, b.accounts[o], x), y)
  {
    hide Next, Reacted, OneBinding;
    assert [x, y][..1] == [x];
    DeliveredOne(cfg, prices, b, x);
    NextRow(cfg, prices, b, o, x);
    NextRow(cfg, prices, Next(cfg, prices, b, x), o, y);
  }

  /** With an event of a foreign customer at the same time, the order decides the plan. */
  lemma ForeignCustomerBreaksConvergence()
    ensures PlanFor(Example(), Delivered(Example(), EXAMPLE_PRICES, EXAMPLE_BOOKS, [STRANGER, GOOD]).accounts, "org") == "a"
    ensures PlanFor(Example(), Delivered(Example(), EXAMPLE_PRICES, EXAMPLE_BOOKS, [GOOD, STRANGER]).accounts, "org") == "free"
  {
    hide Delivered, Entitled, PricedPlan;
    ExamplePlans();
    TwoDeliveries(Example(), EXAMPLE_PRICES, EXAMPLE_BOOKS, "org", STRANGER, GOOD);
    TwoDeliveries(Example(), EXAMPLE_PRICES, EXAMPLE_BOOKS, "org", GOOD, STRANGER);
  }

  /** The stored plan of a tie depends on the order; its effective plan does not. */
  lemma StoredPlanDependsOnOrder()
    ensures var d := Delivered(Example(), EXAMPLE_PRICES, EXAMPLE_BOOKS, [GOOD, RIVAL]).accounts;
      "org" in d && d["org"].plan == "a" && PlanFor(Example(), d, "org") == "free"
    ensures var d := Delivered(Example(), EXAMPLE_PRICES, EXAMPLE_BOOKS, [RIVAL, GOOD]).accounts;
      "org" in d && d["org"].plan == "b" && PlanFor(Example(), d, "org") == "free"
  {
    hide Delivered, Entitled, PricedPlan;
    ExamplePlans();
    TwoDeliveries(Example(), EXAMPLE_PRICES, EXAMPLE_BOOKS, "org", GOOD, RIVAL);
    TwoDeliveries(Example(), EXAMPLE_PRICES, EXAMPLE_BOOKS, "org", RIVAL, GOOD);
  }
}

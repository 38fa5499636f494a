/** Which key is used, and when a rotation takes effect (distributedai/persistence/encryption.py). */
module KeyUse {
  import opened Base
  import opened Keyring

  /** The event neither begins nor ends the operation. */
  predicate Within(c: Context, e: Event) { e != Begin(c) && e != End(c) }

  /** The event seals something for the organisation in the operation. */
  predicate SealsIn(c: Context, org: Org, e: Event) { e.Encrypt? && e.c == c && e.org == org }

  /** What an encryption answers in a state. */
  function Answer(suite: Suite, s: State, e: Event): Attempt<string>
    requires e.Encrypt?
  {
    Encrypted(suite, s.vault, CacheIn(s, e.c), e.org, e.record, e.field, e.text, e.nonce).0
  }

  /** The version that the answer names. */
  function VersionOf(suite: Suite, a: Attempt<string>): Option<int> {
    if a.Done? && Parsed(suite, a.value).Some? then Some(Parsed(suite, a.value).value.0) else None
  }

  // ---------------------------------------------------------------- what an operation has cached as active

  /** A lookup changes no entry for an active key, and adds at most the one that was asked for. */
  lemma FetchKeepsActive(suite: Suite, v: Vault, cache: Cache, org: Org, version: Option<int>, o: Org)
    ensures var after := Fetched(suite, v, Some(cache), org, version).1;
      && after.Some?
      && ((o, None) in cache ==> (o, None) in after.value && after.value[(o, None)] == cache[(o, None)])
      && ((o, None) in after.value ==> (o, None) in cache || (o == org && version == None))
  {
    hide LookedUp;
  }

  lemma StepKeepsActive(suite: Suite, s: State, c: Context, org: Org, e: Event)
    requires c in s.caches && Within(c, e)
    ensures var next := Next(suite, s, e);
      && c in next.caches
      && ((org, None) in s.caches[c] ==> (org, None) in next.caches[c] && next.caches[c][(org, None)] == s.caches[c][(org, None)])
      && ((org, None) !in s.caches[c] && !SealsIn(c, org, e) ==> (org, None) !in next.caches[c])
  {
    hide Fetched, Provisioned, Rotated, Envelope, Parsed;
    match e
    case Encrypt(x, o, _, _, _, _) => if x == c { FetchKeepsActive(suite, s.vault, s.caches[c], o, None, org); }
    case Decrypt(x, o, _, _, t) =>
      if x == c && Parsed(suite, t).Some? { FetchKeepsActive(suite, s.vault, s.caches[c], o, Some(Parsed(suite, t).value.0), org); }
    case Provision(_, _, _) =>
    case Rotate(_, _, _, _) =>
    case Begin(_) =>
    case End(_) =>
  }

  lemma {:induction false} RunKeepsActive(suite: Suite, s: State, events: seq<Event>, c: Context, org: Org)
    requires c in s.caches && forall e :: e in events ==> Within(c, e)
    ensures var d := Run(suite, s, events);
      && c in d.caches
      && ((org, None) in s.caches[c] ==> (org, None) in d.caches[c] && d.caches[c][(org, None)] == s.caches[c][(org, None)])
      && ((org, None) !in s.caches[c] && (forall e :: e in events ==> !SealsIn(c, org, e)) ==> (org, None) !in d.caches[c])
    decreases |events|
  {
    hide Next, SealsIn, Within;
    if events != [] {
      assert events[0] in events && forall e :: e in events[1..] ==> e in events;
      StepKeepsActive(suite, s, c, org, events[0]);
      RunKeepsActive(suite, Next(suite, s, events[0]), events[1..], c, org);
    }
  }

  /** The first seal of an operation caches the version that was active then. */
  lemma FirstSeal(suite: Suite, s: State, e: Event)
    requires suite.Lawful() && Versioned(suite, s.vault) && e.Encrypt? && e.c in s.caches && e.org in s.vault.active
    requires (e.org, None) !in s.caches[e.c]
    ensures var next := Next(suite, s, e);
      e.c in next.caches && (e.org, None) in next.caches[e.c] && next.caches[e.c][(e.org, None)].1 == s.vault.active[e.org]
  {
    hide Envelope, StoredKey, Suite.Lawful;
    assert (e.org, s.vault.active[e.org]) in s.vault.rows;
  }

  // ---------------------------------------------------------------- which version an envelope names

  /** Inside one operation every envelope of an organisation names the version that was active at the first of
      them, whatever is rotated in the meantime. */
  lemma OneVersionPerOperation(suite: Suite, s: State, c: Context, before: seq<Event>, e: Event, between: seq<Event>, f: Event)
    requires suite.Lawful() && Inv(suite, s)
    requires e.Encrypt? && f.Encrypt? && e.c == f.c == c && e.org == f.org
    requires forall x :: x in before ==> Within(c, x) && !SealsIn(c, e.org, x)
    requires forall x :: x in between ==> Within(c, x)
    requires e.org in Run(suite, Next(suite, s, Begin(c)), before).vault.active
    ensures var first := Run(suite, Next(suite, s, Begin(c)), before);
      var later := Run(suite, Next(suite, first, e), between);
      VersionOf(suite, Answer(suite, first, e)) == VersionOf(suite, Answer(suite, later, f)) == Some(first.vault.active[e.org])
  {
    hide Inv, Run, Within, SealsIn, Encrypted, Parsed, Suite.Lawful;
    var begun := Next(suite, s, Begin(c));
    Keep(suite, s, Begin(c));
    RunKeeps(suite, begun, before);
    RunKeepsActive(suite, begun, before, c, e.org);
    var first := Run(suite, begun, before);
    Unfold(suite, first);
    SealsActive(suite, first.vault, CacheIn(first, c), e.org, e.record, e.field, e.text, e.nonce);
    FirstSeal(suite, first, e);
    Keep(suite, first, e);
    var sealed := Next(suite, first, e);
    RunKeeps(suite, sealed, between);
    RunKeepsActive(suite, sealed, between, c, e.org);
    var later := Run(suite, sealed, between);
    Unfold(suite, later);
    SealsCached(suite, later.vault, later.caches[c], f.org, f.record, f.field, f.text, f.nonce);
  }

  lemma Unfold(suite: Suite, s: State)
    requires Inv(suite, s)
    ensures Versioned(suite, s.vault) && forall c :: c in s.caches ==> Agrees(suite, s.vault.rows, s.caches[c])
  {
  }

  /** After a rotation the next operation, and whatever runs outside an operation, seals with the new key under
      the next version. */
  lemma RotationTakesEffect(suite: Suite, s: State, org: Org, provider: string, key: Key, nonce: Blob, e: Event)
    requires suite.Lawful() && Inv(suite, s) && Rotated(suite, s.vault, org, provider, key, nonce).Done?
    requires e.Encrypt? && e.org == org
    ensures org in s.vault.active
    ensures var rotated := Next(suite, s, Rotate(org, provider, key, nonce));
      var begun := if e.c in s.caches then Next(suite, rotated, Begin(e.c)) else rotated;
      var a := Answer(suite, begun, e); var n := s.vault.active[org] + 1;
      a.Done? && Parsed(suite, a.value) == Some((n, suite.seal(key, e.nonce, e.text, Aad(org, e.record, e.field, n))))
  {
    hide Parsed, Encrypted, Inserted, StoredKey, Suite.Lawful, Agrees;
    var rotated := Next(suite, s, Rotate(org, provider, key, nonce));
    Keep(suite, s, Rotate(org, provider, key, nonce));
    var begun := if e.c in s.caches then Next(suite, rotated, Begin(e.c)) else rotated;
    InsertedKey(suite, s.vault.rows, org, s.vault.active[org] + 1, provider, key, nonce);
    SealsActive(suite, begun.vault, CacheIn(begun, e.c), org, e.record, e.field, e.text, e.nonce);
  }

  /** Only keys of 32 bytes are ever stored, and an organisation has its first one before it can rotate. */
  lemma OnlyLongKeys(suite: Suite, v: Vault, org: Org, provider: string, key: Key, nonce: Blob)
    ensures org !in v.active && Provisioned(suite, v, org, key, nonce).Done? ==> |key| == 32
    ensures Rotated(suite, v, org, provider, key, nonce).Done? ==> |key| == 32 && org in v.active
  {
  }

  /** A tenant that was never provisioned seals nothing. */
  lemma NothingWithoutKey(suite: Suite, s: State, e: Event)
    requires Inv(suite, s) && e.Encrypt? && e.org !in s.vault.active
    ensures Answer(suite, s, e).Failed?
  {
    hide Envelope, StoredKey, Made;
    FetchedKey(suite, s.vault, CacheIn(s, e.c), e.org, None);
    var found := Fetched(suite, s.vault, CacheIn(s, e.c), e.org, None).0;
    if found.Some? { Unstored(suite, s.vault, e.org, found.value.1); }
  }

  lemma Unstored(suite: Suite, v: Vault, org: Org, n: int)
    requires Versioned(suite, v) && org !in v.active
    ensures StoredKey(suite, v.rows, org, n) == None
  {
  }
}

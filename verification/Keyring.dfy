/** The tenant keyring: versioned keys, the per-operation cache, and the envelopes made with them
    (distributedai/persistence/encryption.py). Wrapping, authenticated encryption and base64 are
    abstract inverse pairs; nothing is claimed about their strength. */
module Keyring {
  import opened Base

  type Org = string
  type Blob = seq<bv8>
  type Key = Blob
  type Context = nat

  const PREFIX := "enc:v1:"
  const KEY_BYTES := 32

  datatype Error = EncryptionError

  datatype Attempt<+T> = Done(value: T) | Failed(error: Error)

  /** What a wrapped key is bound to. */
  datatype Binding = Binding(org: Org, version: int)

  /** What a sealed field is bound to. */
  datatype Aad = Aad(org: Org, record: string, field: string, version: int)

  /** A key wrapper; a remote one may refuse. The nonce makes its randomness explicit. */
  datatype Wrapper = Wrapper(wrap: (Blob, Key, Binding) -> Option<Blob>, unwrap: (Blob, Binding) -> Option<Key>) {
    ghost predicate Lawful() {
      forall nonce, key, b :: wrap(nonce, key, b).Some? ==> unwrap(wrap(nonce, key, b).value, b) == Some(key)
    }
  }

  /** The configured wrappers and the primitives in use. `otherInt` reads the integer literals that are
      not plain ASCII digits. */
  datatype Suite = Suite(
    providers: map<string, Wrapper>,
    defaultProvider: string,
    seal: (Key, Blob, string, Aad) -> Blob,
    unseal: (Key, Blob, Aad) -> Option<string>,
    encode: Blob -> string,
    decode: string -> Option<Blob>,
    otherInt: string -> Option<int>)
  {
    ghost predicate Lawful() {
      && (forall p :: p in providers ==> providers[p].Lawful())
      && defaultProvider in providers
      && (forall k, n, t, a :: unseal(k, seal(k, n, t, a), a) == Some(t))
      && (forall b :: decode(encode(b)) == Some(b))
    }
  }

  // ---------------------------------------------------------------- stored keys

  datatype KeyRow = KeyRow(provider: string, wrapped: Blob)

  type Active = map<Org, int>
  type Rows = map<(Org, int), KeyRow>

  datatype Vault = Vault(active: Active, rows: Rows)

  function StoredKey(suite: Suite, rows: Rows, org: Org, version: int): Option<Key> {
    if (org, version) !in rows then None
    else
      var row := rows[(org, version)];
      if row.provider !in suite.providers then None
      else
        var key := suite.providers[row.provider].unwrap(row.wrapped, Binding(org, version));
        if key.Some? && |key.value| == KEY_BYTES then key else None
  }

  /** The versions of an organisation are exactly 1..active, and every one of them can be unwrapped. */
  ghost predicate Versioned(suite: Suite, v: Vault) {
    && (forall o :: o in v.active ==> v.active[o] >= 1)
    && (forall o, n :: (o, n) in v.rows <==> o in v.active && 1 <= n <= v.active[o])
    && (forall o, n :: (o, n) in v.rows ==> StoredKey(suite, v.rows, o, n).Some?)
  }

  /** Insert one wrapped key, or fail. */
  function Inserted(suite: Suite, rows: Rows, org: Org, version: int, provider: string, key: Key, nonce: Blob): Attempt<Rows> {
    if |key| != KEY_BYTES || provider !in suite.providers then Failed(EncryptionError)
    else
      var wrapped := suite.providers[provider].wrap(nonce, key, Binding(org, version));
      if wrapped.None? then Failed(EncryptionError)
      else Done(rows[(org, version) := KeyRow(provider, wrapped.value)])
  }

  function Provisioned(suite: Suite, v: Vault, org: Org, key: Key, nonce: Blob): Attempt<Vault> {
    if org in v.active then Done(v)
    else
      var rows := Inserted(suite, v.rows, org, 1, suite.defaultProvider, key, nonce);
      if rows.Failed? then Failed(rows.error) else Done(Vault(v.active[org := 1], rows.value))
  }

  function Rotated(suite: Suite, v: Vault, org: Org, provider: string, key: Key, nonce: Blob): Attempt<Vault> {
    if provider !in suite.providers || org !in v.active then Failed(EncryptionError)
    else
      var next := v.active[org] + 1;
      var rows := Inserted(suite, v.rows, org, next, provider, key, nonce);
      if rows.Failed? then Failed(rows.error) else Done(Vault(v.active[org := next], rows.value))
  }

  /** Keys are only added. */
  ghost predicate Extends(before: Vault, after: Vault) {
    && (forall k :: k in before.rows ==> k in after.rows && after.rows[k] == before.rows[k])
    && (forall o :: o in before.active ==> o in after.active && before.active[o] <= after.active[o])
  }

  lemma InsertedKey(suite: Suite, rows: Rows, org: Org, version: int, provider: string, key: Key, nonce: Blob)
    requires suite.Lawful() && Inserted(suite, rows, org, version, provider, key, nonce).Done?
    ensures StoredKey(suite, Inserted(suite, rows, org, version, provider, key, nonce).value, org, version) == Some(key)
  {
    assert suite.providers[provider].Lawful();
  }

  lemma AddedVersion(suite: Suite, v: Vault, org: Org, version: int, provider: string, key: Key, nonce: Blob)
    requires suite.Lawful() && Versioned(suite, v)
    requires version == (if org in v.active then v.active[org] else 0) + 1
    requires Inserted(suite, v.rows, org, version, provider, key, nonce).Done?
    ensures var after := Vault(v.active[org := version], Inserted(suite, v.rows, org, version, provider, key, nonce).value);
      Versioned(suite, after) && Extends(v, after)
  {
    InsertedKey(suite, v.rows, org, version, provider, key, nonce);
    var after := Vault(v.active[org := version], Inserted(suite, v.rows, org, version, provider, key, nonce).value);
    forall o, n | (o, n) in after.rows ensures StoredKey(suite, after.rows, o, n).Some? {
      if (o, n) != (org, version) { assert StoredKey(suite, v.rows, o, n).Some?; }
    }
  }

  lemma ProvisionKeeps(suite: Suite, v: Vault, org: Org, key: Key, nonce: Blob)
    requires suite.Lawful() && Versioned(suite, v) && Provisioned(suite, v, org, key, nonce).Done?
    ensures var after := Provisioned(suite, v, org, key, nonce).value;
      Versioned(suite, after) && Extends(v, after) && org in after.active
  {
    hide Versioned, Inserted;
    if org !in v.active { AddedVersion(suite, v, org, 1, suite.defaultProvider, key, nonce); }
  }

  lemma RotateKeeps(suite: Suite, v: Vault, org: Org, provider: string, key: Key, nonce: Blob)
    requires suite.Lawful() && Versioned(suite, v) && Rotated(suite, v, org, provider, key, nonce).Done?
    ensures var after := Rotated(suite, v, org, provider, key, nonce).value;
      Versioned(suite, after) && Extends(v, after) && after.active[org] == v.active[org] + 1
  {
    hide Versioned, Inserted;
    AddedVersion(suite, v, org, v.active[org] + 1, provider, key, nonce);
  }

  // ---------------------------------------------------------------- the per-operation cache

  type Cache = map<(Org, Option<int>), (Key, int)>

  function LookedUp(suite: Suite, v: Vault, org: Org, version: Option<int>): Option<(Key, int)> {
    var n := if version.Some? then version else if org in v.active then Some(v.active[org]) else None;
    if n.None? then None
    else
      var key := StoredKey(suite, v.rows, org, n.value);
      if key.None? then None else Some((key.value, n.value))
  }

  /** `_key`: a cached entry wins; a key that was looked up is cached under what was asked and under
      its version. */
  function Fetched(suite: Suite, v: Vault, cache: Option<Cache>, org: Org, version: Option<int>): (Option<(Key, int)>, Option<Cache>) {
    if cache.Some? && (org, version) in cache.value then (Some(cache.value[(org, version)]), cache)
    else
      var found := LookedUp(suite, v, org, version);
      if found.None? || cache.None? then (found, cache)
      else (found, Some(cache.value[(org, version) := found.value][(org, Some(found.value.1)) := found.value]))
  }

  /** Every cached entry is a stored key of the version it names, even when the version asked for was
      "the active one" and another has become active since. */
  ghost predicate Agrees(suite: Suite, rows: Rows, cache: Cache) {
    forall k :: k in cache ==>
      && StoredKey(suite, rows, k.0, cache[k].1) == Some(cache[k].0)
      && (k.1.Some? ==> k.1.value == cache[k].1)
  }

  lemma KeysStay(suite: Suite, before: Vault, after: Vault, org: Org, version: int)
    requires Extends(before, after) && (org, version) in before.rows
    ensures StoredKey(suite, after.rows, org, version) == StoredKey(suite, before.rows, org, version)
  {
  }

  /** A rotation in the middle of an operation does not disturb what the operation has cached. */
  lemma CacheSurvives(suite: Suite, before: Vault, after: Vault, cache: Cache)
    requires Extends(before, after) && Agrees(suite, before.rows, cache)
    ensures Agrees(suite, after.rows, cache)
  {
    forall k | k in cache ensures StoredKey(suite, after.rows, k.0, cache[k].1) == Some(cache[k].0) {
      KeysStay(suite, before, after, k.0, cache[k].1);
    }
  }

  /** Whatever the cache holds, a fetched key is the stored key of the version it comes with. */
  lemma FetchedKey(suite: Suite, v: Vault, cache: Option<Cache>, org: Org, version: Option<int>)
    requires cache.Some? ==> Agrees(suite, v.rows, cache.value)
    ensures var (found, after) := Fetched(suite, v, cache, org, version);
      && (after.Some? <==> cache.Some?)
      && (after.Some? ==> Agrees(suite, v.rows, after.value))
      && (found.Some? ==> StoredKey(suite, v.rows, org, found.value.1) == Some(found.value.0))
      && (found.Some? && version.Some? ==> found.value.1 == version.value)
  {
  }

  /** A stored version is always found, cached or not. */
  lemma StoredIsFetched(suite: Suite, v: Vault, cache: Option<Cache>, org: Org, version: int, key: Key)
    requires cache.Some? ==> Agrees(suite, v.rows, cache.value)
    requires StoredKey(suite, v.rows, org, version) == Some(key)
    ensures Fetched(suite, v, cache, org, Some(version)).0 == Some((key, version))
  {
  }

  // ---------------------------------------------------------------- decimal numerals

  function Digit(d: nat): char
    requires d < 10
  {
    '0' + d as char
  }

  predicate IsDigit(c: char) { '0' <= c <= '9' }

  /** `str(n)`. */
  function Decimal(n: nat): (s: string)
    ensures s != "" && forall c :: c in s ==> IsDigit(c)
  {
    if n < 10 then [Digit(n)] else Decimal(n / 10) + [Digit(n % 10)]
  }

  predicate AllDigits(s: string) { forall c :: c in s ==> IsDigit(c) }

  function DigitsValue(s: string): nat
    requires AllDigits(s)
  {
    if s == "" then 0
    else
      assert s[|s| - 1] in s;
      10 * DigitsValue(s[..|s| - 1]) + (s[|s| - 1] as int - '0' as int)
  }

  /** `int(s)`. */
  function ToInt(suite: Suite, s: string): Option<int> {
    if s != "" && AllDigits(s) then Some(DigitsValue(s)) else suite.otherInt(s)
  }

  lemma {:induction false} DecimalRoundTrip(n: nat)
    ensures DigitsValue(Decimal(n)) == n
  {
    var s := Decimal(n);
    if n < 10 {
      assert s[..0] == "";
      assert DigitsValue("") == 0;
    } else {
      DecimalRoundTrip(n / 10);
      assert s[..|s| - 1] == Decimal(n / 10);
    }
  }

  // ---------------------------------------------------------------- envelopes

  /** `s.split(":", 1)`, when there is a colon. */
  function Split(s: string): Option<(string, string)> {
    if s == "" then None
    else if s[0] == ':' then Some(("", s[1..]))
    else
      var rest := Split(s[1..]);
      if rest.None? then None else Some(([s[0]] + rest.value.0, rest.value.1))
  }

  lemma {:induction false} SplitAtFirst(head: string, tail: string)
    requires ':' !in head
    ensures Split(head + ":" + tail) == Some((head, tail))
  {
    if head == "" {
      assert (head + ":" + tail)[1..] == tail;
    } else {
      SplitAtFirst(head[1..], tail);
      assert (head + ":" + tail)[1..] == head[1..] + ":" + tail;
      assert [head[0]] + head[1..] == head;
    }
  }

  predicate IsEnvelope(s: string) { PREFIX <= s }

  function Envelope(suite: Suite, version: nat, payload: Blob): string {
    PREFIX + Decimal(version) + ":" + suite.encode(payload)
  }

  /** The version and the payload of an envelope. */
  function Parsed(suite: Suite, s: string): Option<(int, Blob)> {
    if !IsEnvelope(s) then None
    else
      var parts := Split(s[|PREFIX|..]);
      if parts.None? then None
      else
        var version := ToInt(suite, parts.value.0);
        var payload := suite.decode(parts.value.1);
        if version.None? || payload.None? then None else Some((version.value, payload.value))
  }

  /** Every envelope parses back to its own version and payload. */
  lemma EnvelopeParses(suite: Suite, version: nat, payload: Blob)
    requires suite.Lawful()
    ensures IsEnvelope(Envelope(suite, version, payload))
    ensures Parsed(suite, Envelope(suite, version, payload)) == Some((version, payload))
  {
    var digits, encoded := Decimal(version), suite.encode(payload);
    var s := Envelope(suite, version, payload);
    assert s == PREFIX + (digits + ":" + encoded);
    assert s[|PREFIX|..] == digits + ":" + encoded;
    SplitAtFirst(digits, encoded);
    DecimalRoundTrip(version);
  }

  function Encrypted(suite: Suite, v: Vault, cache: Option<Cache>, org: Org, record: string, field: string, text: string, nonce: Blob)
    : (Attempt<string>, Option<Cache>)
  {
    var (found, after) := Fetched(suite, v, cache, org, None);
    if found.None? || found.value.1 < 0 then (Failed(EncryptionError), after)
    else (Done(Envelope(suite, found.value.1, suite.seal(found.value.0, nonce, text, Aad(org, record, field, found.value.1)))), after)
  }

  function Decrypted(suite: Suite, v: Vault, cache: Option<Cache>, org: Org, record: string, field: string, s: string)
    : (Attempt<string>, Option<Cache>)
  {
    var parsed := Parsed(suite, s);
    if parsed.None? then (Failed(EncryptionError), cache)
    else
      var (found, after) := Fetched(suite, v, cache, org, Some(parsed.value.0));
      if found.None? then (Failed(EncryptionError), after)
      else
        var text := suite.unseal(found.value.0, parsed.value.1, Aad(org, record, field, parsed.value.0));
        (if text.None? then Failed(EncryptionError) else Done(text.value), after)
  }

  /** A field that was sealed: where, what, and the envelope it became. */
  datatype Sealed = Sealed(org: Org, record: string, field: string, text: string, envelope: string)

  /** The envelope was made with a key that is still stored. */
  ghost predicate Made(suite: Suite, rows: Rows, e: Sealed) {
    exists version: nat, key, nonce ::
      && StoredKey(suite, rows, e.org, version) == Some(key)
      && e.envelope == Envelope(suite, version, suite.seal(key, nonce, e.text, Aad(e.org, e.record, e.field, version)))
  }

  lemma MadeStays(suite: Suite, before: Vault, after: Vault, e: Sealed)
    requires Extends(before, after) && Made(suite, before.rows, e)
    ensures Made(suite, after.rows, e)
  {
    var version: nat, key, nonce :|
      && StoredKey(suite, before.rows, e.org, version) == Some(key)
      && e.envelope == Envelope(suite, version, suite.seal(key, nonce, e.text, Aad(e.org, e.record, e.field, version)));
    KeysStay(suite, before, after, e.org, version);
  }

  lemma EncryptMakes(suite: Suite, v: Vault, cache: Option<Cache>, org: Org, record: string, field: string, text: string, nonce: Blob)
    requires cache.Some? ==> Agrees(suite, v.rows, cache.value)
    ensures var (r, after) := Encrypted(suite, v, cache, org, record, field, text, nonce);
      && (after.Some? ==> Agrees(suite, v.rows, after.value))
      && (r.Done? ==> Made(suite, v.rows, Sealed(org, record, field, text, r.value)))
  {
    hide Fetched, Agrees, Envelope, StoredKey;
    FetchedKey(suite, v, cache, org, None);
    var (r, after) := Encrypted(suite, v, cache, org, record, field, text, nonce);
    if r.Done? {
      var (key, n) := Fetched(suite, v, cache, org, None).0.value;
      var version: nat := n;
      assert r.value == Envelope(suite, version, suite.seal(key, nonce, text, Aad(org, record, field, version)));
    }
  }

  /** Once a tenant is provisioned, encryption always succeeds. */
  lemma EncryptSucceeds(suite: Suite, v: Vault, cache: Option<Cache>, org: Org, record: string, field: string, text: string, nonce: Blob)
    requires Versioned(suite, v) && org in v.active && (cache.Some? ==> Agrees(suite, v.rows, cache.value))
    ensures Encrypted(suite, v, cache, org, record, field, text, nonce).0.Done?
  {
    hide Envelope;
    assert (org, v.active[org]) in v.rows;
    FetchedKey(suite, v, cache, org, None);
    var found := Fetched(suite, v, cache, org, None).0;
    assert found.Some?;
    assert (org, found.value.1) in v.rows;
  }

  /** The cache has no entry for "the active key of the organisation" yet. */
  predicate FirstUse(cache: Option<Cache>, org: Org) {
    cache.Some? ==> (org, None) !in cache.value
  }

  /** Without a cache, or at the first use in an operation, an envelope is sealed with the active key, for its
      record and field, and names the active version. */
  lemma SealsActive(suite: Suite, v: Vault, cache: Option<Cache>, org: Org, record: string, field: string, text: string, nonce: Blob)
    requires suite.Lawful() && Versioned(suite, v) && org in v.active && FirstUse(cache, org)
    ensures var r := Encrypted(suite, v, cache, org, record, field, text, nonce).0;
      && r.Done? && (org, v.active[org]) in v.rows && StoredKey(suite, v.rows, org, v.active[org]).Some?
      && Parsed(suite, r.value) ==
           Some((v.active[org], suite.seal(StoredKey(suite, v.rows, org, v.active[org]).value, nonce, text,
                                           Aad(org, record, field, v.active[org]))))
  {
    hide Envelope, Parsed, StoredKey, Suite.Lawful;
    assert (org, v.active[org]) in v.rows;
    var key := StoredKey(suite, v.rows, org, v.active[org]).value;
    EnvelopeParses(suite, v.active[org], suite.seal(key, nonce, text, Aad(org, record, field, v.active[org])));
  }

  /** At a later use in the operation, an envelope names the version of the first use. */
  lemma SealsCached(suite: Suite, v: Vault, cache: Cache, org: Org, record: string, field: string, text: string, nonce: Blob)
    requires suite.Lawful() && Versioned(suite, v) && org in v.active && Agrees(suite, v.rows, cache) && (org, None) in cache
    ensures var r := Encrypted(suite, v, Some(cache), org, record, field, text, nonce).0;
      && r.Done? && Parsed(suite, r.value).Some? && Parsed(suite, r.value).value.0 == cache[(org, None)].1
  {
    hide Envelope, Parsed, Suite.Lawful;
    var (key, n) := cache[(org, None)];
    assert (org, n) in v.rows;
    EnvelopeParses(suite, n, suite.seal(key, nonce, text, Aad(org, record, field, n)));
  }

  /** An envelope made with a stored key decrypts to its text, through any cache. */
  lemma MadeDecrypts(suite: Suite, v: Vault, cache: Option<Cache>, e: Sealed)
    requires suite.Lawful() && Made(suite, v.rows, e)
    requires cache.Some? ==> Agrees(suite, v.rows, cache.value)
    ensures IsEnvelope(e.envelope) && Decrypted(suite, v, cache, e.org, e.record, e.field, e.envelope).0 == Done(e.text)
  {
    hide Fetched, Agrees, Envelope, StoredKey, Parsed, IsEnvelope;
    var version: nat, key, nonce :|
      && StoredKey(suite, v.rows, e.org, version) == Some(key)
      && e.envelope == Envelope(suite, version, suite.seal(key, nonce, e.text, Aad(e.org, e.record, e.field, version)));
    EnvelopeParses(suite, version, suite.seal(key, nonce, e.text, Aad(e.org, e.record, e.field, version)));
    StoredIsFetched(suite, v, cache, e.org, version, key);
  }

  // ---------------------------------------------------------------- the box

  class CryptoBox {
    const suite: Suite
    var active: Active
    var rows: Rows
    var caches: map<Context, Cache>      // one per running operation

    function Stored(): Vault
      reads this
    {
      Vault(active, rows)
    }

    function CacheOf(c: Context): Option<Cache>
      reads this
    {
      if c in caches then Some(caches[c]) else None
    }

    ghost predicate Valid()
      reads this
    {
      && suite.Lawful()
      && Versioned(suite, Stored())
      && forall c :: c in caches ==> Agrees(suite, rows, caches[c])
    }

    constructor (suite: Suite)
      requires suite.Lawful()
      ensures Valid() && this.suite == suite && active == map[] && rows == map[] && caches == map[]
    {
      this.suite := suite;
      active, rows, caches := map[], map[], map[];
    }

    method BeginOperation(c: Context)
      requires Valid()
      modifies `caches
      ensures Valid() && caches == old(caches)[c := map[]]
    {
      caches := caches[c := map[]];
    }

    method EndOperation(c: Context)
      requires Valid()
      modifies `caches
      ensures Valid() && caches == old(caches) - {c}
    {
      caches := caches - {c};
    }

    /** `_insert_key`. */
    method InsertKey(org: Org, version: int, provider: string, key: Key, nonce: Blob) returns (r: Attempt<()>)
      modifies `rows
      ensures r.Done? <==> Inserted(suite, old(rows), org, version, provider, key, nonce).Done?
      ensures r.Done? ==> rows == Inserted(suite, old(rows), org, version, provider, key, nonce).value
      ensures r.Failed? ==> rows == old(rows)
    {
      if |key| != KEY_BYTES || provider !in suite.providers { return Failed(EncryptionError); }
      var wrapped := suite.providers[provider].wrap(nonce, key, Binding(org, version));
      if wrapped.None? { return Failed(EncryptionError); }
      rows := rows[(org, version) := KeyRow(provider, wrapped.value)];
      return Done(());
    }

    /** `provision`: the first key of an organisation, once. */
    method Provision(org: Org, key: Key, nonce: Blob) returns (r: Attempt<()>)
      requires Valid()
      modifies `active, `rows
      ensures Valid()
      ensures r.Done? <==> Provisioned(suite, old(Stored()), org, key, nonce).Done?
      ensures Stored() == if r.Done? then Provisioned(suite, old(Stored()), org, key, nonce).value else old(Stored())
      ensures Extends(old(Stored()), Stored())
    {
      hide Versioned, Agrees, Inserted;
      ghost var before := Stored();
      if org in active { return Done(()); }
      r := InsertKey(org, 1, suite.defaultProvider, key, nonce);
      if r.Done? {
        active := active[org := 1];
        ProvisionKeeps(suite, before, org, key, nonce);
        forall c | c in caches ensures Agrees(suite, rows, caches[c]) { CacheSurvives(suite, before, Stored(), caches[c]); }
      }
    }

    /** `rotate`: the next version becomes active; older versions stay as they are. */
    method Rotate(org: Org, provider: string, key: Key, nonce: Blob) returns (r: Attempt<()>)
      requires Valid()
      modifies `active, `rows
      ensures Valid()
      ensures r.Done? <==> Rotated(suite, old(Stored()), org, provider, key, nonce).Done?
      ensures Stored() == if r.Done? then Rotated(suite, old(Stored()), org, provider, key, nonce).value else old(Stored())
      ensures Extends(old(Stored()), Stored())
    {
      hide Versioned, Agrees, Inserted;
      ghost var before := Stored();
      if provider !in suite.providers || org !in active { return Failed(EncryptionError); }
      var version := active[org] + 1;
      r := InsertKey(org, version, provider, key, nonce);
      if r.Done? {
        active := active[org := version];
        RotateKeeps(suite, before, org, provider, key, nonce);
        forall c | c in caches ensures Agrees(suite, rows, caches[c]) { CacheSurvives(suite, before, Stored(), caches[c]); }
      }
    }

    /** `_key`. */
    method FetchKey(c: Context, org: Org, version: Option<int>) returns (found: Option<(Key, int)>)
      requires Valid()
      modifies `caches
      ensures Valid()
      ensures found == Fetched(suite, Stored(), old(CacheOf(c)), org, version).0
      ensures CacheOf(c) == Fetched(suite, Stored(), old(CacheOf(c)), org, version).1
      ensures forall o :: o != c ==> CacheOf(o) == old(CacheOf(o))
      ensures c !in old(caches) ==> caches == old(caches)
      ensures found.Some? ==> StoredKey(suite, rows, org, found.value.1) == Some(found.value.0)
      ensures found.Some? && version.None? && FirstUse(old(CacheOf(c)), org) ==> org in active && found.value.1 == active[org]
      ensures found.Some? && version.None? && !FirstUse(old(CacheOf(c)), org) ==> found.value == old(caches)[c][(org, version)]
      ensures found.Some? && version.Some? ==> found.value.1 == version.value
    {
      hide Versioned, StoredKey, Agrees;
      FetchedKey(suite, Stored(), CacheOf(c), org, version);
      if c in caches && (org, version) in caches[c] { return Some(caches[c][(org, version)]); }
      var wanted := version;
      if wanted.None? && org in active { wanted := Some(active[org]); }
      if wanted.None? { return None; }
      var key := StoredKey(suite, rows, org, wanted.value);
      if key.None? { return None; }
      found := Some((key.value, wanted.value));
      if c in caches { caches := caches[c := caches[c][(org, version) := found.value][(org, wanted) := found.value]]; }
    }

    method Encrypt(c: Context, org: Org, record: string, field: string, text: string, nonce: Blob) returns (r: Attempt<string>)
      requires Valid()
      modifies `caches
      ensures Valid()
      ensures r == Encrypted(suite, Stored(), old(CacheOf(c)), org, record, field, text, nonce).0
      ensures c !in old(caches) ==> caches == old(caches)
      ensures r.Done? ==> Made(suite, rows, Sealed(org, record, field, text, r.value))
      ensures org in active ==> r.Done?
      ensures org in active && FirstUse(old(CacheOf(c)), org) ==> Parsed(suite, r.value).Some? && Parsed(suite, r.value).value.0 == active[org]
      ensures org in active && !FirstUse(old(CacheOf(c)), org) ==>
        Parsed(suite, r.value).Some? && Parsed(suite, r.value).value.0 == old(caches)[c][(org, None)].1
    {
      hide Versioned, StoredKey, Agrees, Envelope, Made, Fetched, Parsed, Suite.Lawful;
      if org in active {
        if FirstUse(CacheOf(c), org) { SealsActive(suite, Stored(), CacheOf(c), org, record, field, text, nonce); }
        else { SealsCached(suite, Stored(), caches[c], org, record, field, text, nonce); }
      }
      EncryptMakes(suite, Stored(), CacheOf(c), org, record, field, text, nonce);
      if org in active { EncryptSucceeds(suite, Stored(), CacheOf(c), org, record, field, text, nonce); }
      var found := FetchKey(c, org, None);
      if found.None? || found.value.1 < 0 { return Failed(EncryptionError); }
      var (key, version) := found.value;
      return Done(Envelope(suite, version, suite.seal(key, nonce, text, Aad(org, record, field, version))));
    }

    method Decrypt(c: Context, org: Org, record: string, field: string, s: string) returns (r: Attempt<string>)
      requires Valid()
      modifies `caches
      ensures Valid()
      ensures r == Decrypted(suite, Stored(), old(CacheOf(c)), org, record, field, s).0
      ensures c !in old(caches) ==> caches == old(caches)
      ensures forall text :: Made(suite, rows, Sealed(org, record, field, text, s)) ==> r == Done(text)
    {
      hide Versioned, StoredKey, Agrees, Made, Fetched, Parsed;
      forall text | Made(suite, rows, Sealed(org, record, field, text, s))
        ensures Decrypted(suite, Stored(), CacheOf(c), org, record, field, s).0 == Done(text)
      {
        MadeDecrypts(suite, Stored(), CacheOf(c), Sealed(org, record, field, text, s));
      }
      var parsed := Parsed(suite, s);
      if parsed.None? { return Failed(EncryptionError); }
      var (version, payload) := parsed.value;
      var found := FetchKey(c, org, Some(version));
      if found.None? { return Failed(EncryptionError); }
      var text := suite.unseal(found.value.0, payload, Aad(org, record, field, version));
      return if text.None? then Failed(EncryptionError) else Done(text.value);
    }
  }

  // ---------------------------------------------------------------- every run

  datatype State = State(vault: Vault, caches: map<Context, Cache>, made: set<Sealed>)

  datatype Event =
    | Provision(org: Org, key: Key, nonce: Blob)
    | Rotate(org: Org, provider: string, key: Key, nonce: Blob)
    | Begin(c: Context)
    | End(c: Context)
    | Encrypt(c: Context, org: Org, record: string, field: string, text: string, nonce: Blob)
    | Decrypt(c: Context, org: Org, record: string, field: string, s: string)

  function CacheIn(s: State, c: Context): Option<Cache> { if c in s.caches then Some(s.caches[c]) else None }

  function WithCache(s: State, c: Context, cache: Option<Cache>): State {
    if cache.Some? then s.(caches := s.caches[c := cache.value]) else s
  }

  function Next(suite: Suite, s: State, e: Event): State {
    match e
    case Provision(org, key, nonce) =>
      var r := Provisioned(suite, s.vault, org, key, nonce);
      if r.Done? then s.(vault := r.value) else s
    case Rotate(org, provider, key, nonce) =>
      var r := Rotated(suite, s.vault, org, provider, key, nonce);
      if r.Done? then s.(vault := r.value) else s
    case Begin(c) => s.(caches := s.caches[c := map[]])
    case End(c) => s.(caches := s.caches - {c})
    case Encrypt(c, org, record, field, text, nonce) =>
      var (r, cache) := Encrypted(suite, s.vault, CacheIn(s, c), org, record, field, text, nonce);
      var next := WithCache(s, c, cache);
      if r.Done? then next.(made := next.made + {Sealed(org, record, field, text, r.value)}) else next
    case Decrypt(c, org, record, field, t) =>
      WithCache(s, c, Decrypted(suite, s.vault, CacheIn(s, c), org, record, field, t).1)
  }

  function Run(suite: Suite, s: State, events: seq<Event>): State
    decreases |events|
  {
    if events == [] then s else Run(suite, Next(suite, s, events[0]), events[1..])
  }

  ghost predicate Inv(suite: Suite, s: State) {
    && Versioned(suite, s.vault)
    && (forall c :: c in s.caches ==> Agrees(suite, s.vault.rows, s.caches[c]))
    && (forall e :: e in s.made ==> Made(suite, s.vault.rows, e))
  }

  lemma GrownVault(suite: Suite, s: State, vault: Vault)
    requires Inv(suite, s) && Versioned(suite, vault) && Extends(s.vault, vault)
    ensures Inv(suite, s.(vault := vault))
  {
    hide Versioned, Agrees, Made, Extends;
    forall c | c in s.caches ensures Agrees(suite, vault.rows, s.caches[c]) { CacheSurvives(suite, s.vault, vault, s.caches[c]); }
    forall e | e in s.made ensures Made(suite, vault.rows, e) { MadeStays(suite, s.vault, vault, e); }
  }

  lemma DecryptCaches(suite: Suite, v: Vault, cache: Option<Cache>, org: Org, record: string, field: string, s: string)
    requires cache.Some? ==> Agrees(suite, v.rows, cache.value)
    ensures var after := Decrypted(suite, v, cache, org, record, field, s).1; after.Some? ==> Agrees(suite, v.rows, after.value)
  {
    hide Fetched, Agrees, Parsed, StoredKey;
    if Parsed(suite, s).Some? { FetchedKey(suite, v, cache, org, Some(Parsed(suite, s).value.0)); }
  }

  lemma Keep(suite: Suite, s: State, e: Event)
    requires suite.Lawful() && Inv(suite, s)
    ensures Inv(suite, Next(suite, s, e)) && Extends(s.vault, Next(suite, s, e).vault) && s.made <= Next(suite, s, e).made
  {
    hide Versioned, Made, Provisioned, Rotated, Encrypted, Decrypted;
    match e
    case Provision(org, key, nonce) =>
      if Provisioned(suite, s.vault, org, key, nonce).Done? {
        ProvisionKeeps(suite, s.vault, org, key, nonce);
        GrownVault(suite, s, Provisioned(suite, s.vault, org, key, nonce).value);
      }
    case Rotate(org, provider, key, nonce) =>
      if Rotated(suite, s.vault, org, provider, key, nonce).Done? {
        RotateKeeps(suite, s.vault, org, provider, key, nonce);
        GrownVault(suite, s, Rotated(suite, s.vault, org, provider, key, nonce).value);
      }
    case Begin(_) =>
    case End(_) =>
    case Encrypt(c, org, record, field, text, nonce) => EncryptMakes(suite, s.vault, CacheIn(s, c), org, record, field, text, nonce);
    case Decrypt(c, org, record, field, t) => DecryptCaches(suite, s.vault, CacheIn(s, c), org, record, field, t);
  }

  lemma {:induction false} RunKeeps(suite: Suite, s: State, events: seq<Event>)
    requires suite.Lawful() && Inv(suite, s)
    ensures Inv(suite, Run(suite, s, events)) && Extends(s.vault, Run(suite, s, events).vault) && s.made <= Run(suite, s, events).made
    decreases |events|
  {
    hide Inv, Next, Suite.Lawful;
    if events != [] {
      Keep(suite, s, events[0]);
      RunKeeps(suite, Next(suite, s, events[0]), events[1..]);
    }
  }

  const EMPTY := State(Vault(map[], map[]), map[], {})

  /** After any run, versions are exactly 1..active and immutable, every cached entry agrees with its
      stored row, and every envelope ever made still decrypts to its text, in any context. */
  lemma EnvelopesForEver(suite: Suite, events: seq<Event>, more: seq<Event>, e: Sealed, c: Context)
    requires suite.Lawful() && e in Run(suite, EMPTY, events).made
    ensures var s := Run(suite, EMPTY, events); var later := Run(suite, s, more);
      && Versioned(suite, later.vault) && Extends(s.vault, later.vault)
      && (forall d :: d in later.caches ==> Agrees(suite, later.vault.rows, later.caches[d]))
      && Decrypted(suite, later.vault, CacheIn(later, c), e.org, e.record, e.field, e.envelope).0 == Done(e.text)
  {
    hide Versioned, Agrees, Made, Decrypted, Run, Extends;
    assert Inv(suite, EMPTY) by { EmptyInv(suite); }
    RunKeeps(suite, EMPTY, events);
    var s := Run(suite, EMPTY, events);
    RunKeeps(suite, s, more);
    var later := Run(suite, s, more);
    MadeDecrypts(suite, later.vault, CacheIn(later, c), e);
  }

  lemma EmptyInv(suite: Suite)
    ensures Inv(suite, EMPTY)
  {
  }
}

/** The offline conversion of plaintext payloads to envelopes: all or nothing, and idempotent
    (distributedai/persistence/storage_encryption.py). */
module Migration {
  import opened Base
  import opened Keyring

  /** A row and the stored values of its encrypted columns. */
  datatype Row = Row(org: Org, values: map<string, Option<string>>)

  type Tables = map<(string, string), Row>        // by (table, row identifier)

  const TABLE_NAMES := ["memory_records", "memory_versions", "memory_proposals", "messages", "jobs"]

  function Fields(table: string): seq<string> {
    if table == "memory_records" || table == "memory_versions" then ["content", "source"]
    else if table == "memory_proposals" then ["content", "source", "findings"]
    else if table == "messages" then ["body", "findings"]
    else ["objective", "result", "findings"]
  }

  function Column(table: string, field: string): string { table + "." + field }

  /** What a stored value decrypts to, outside any operation. */
  function Opens(suite: Suite, v: Vault, k: (string, string), org: Org, field: string, s: string): Attempt<string> {
    Decrypted(suite, v, None, org, k.1, Column(k.0, field), s).0
  }

  // ---------------------------------------------------------------- what a conversion is

  /** An envelope stays and opens; a plaintext becomes an envelope that opens to it; nothing stays nothing. */
  ghost predicate ValueConverted(suite: Suite, v: Vault, k: (string, string), org: Org, field: string,
                                 before: Option<string>, after: Option<string>) {
    match before
    case None => after == None
    case Some(s) =>
      if IsEnvelope(s) then after == before && Opens(suite, v, k, org, field, s).Done?
      else after.Some? && IsEnvelope(after.value) && Opens(suite, v, k, org, field, after.value) == Done(s)
  }

  ghost predicate RowConverted(suite: Suite, v: Vault, k: (string, string), before: Row, after: Row) {
    && after.org == before.org && after.values.Keys == before.values.Keys
    && forall f :: f in before.values ==> ValueConverted(suite, v, k, before.org, f, before.values[f], after.values[f])
  }

  ghost predicate AllConverted(suite: Suite, v: Vault, before: Tables, after: Tables) {
    after.Keys == before.Keys && forall k :: k in before ==> RowConverted(suite, v, k, before[k], after[k])
  }

  /** A value that looks like an envelope but does not open. */
  ghost predicate Broken(suite: Suite, v: Vault, k: (string, string), row: Row, f: string)
    requires f in row.values
  {
    row.values[f].Some? && IsEnvelope(row.values[f].value) && Opens(suite, v, k, row.org, f, row.values[f].value).Failed?
  }

  ghost predicate BrokenRow(suite: Suite, v: Vault, k: (string, string), row: Row) {
    exists f :: f in row.values && Broken(suite, v, k, row, f)
  }

  ghost predicate AnyBroken(suite: Suite, v: Vault, tables: Tables) {
    exists k :: k in tables && BrokenRow(suite, v, k, tables[k])
  }

  /** Every value is an envelope that opens. */
  ghost predicate AllSealed(suite: Suite, v: Vault, tables: Tables) {
    forall k, f :: k in tables && f in tables[k].values && tables[k].values[f].Some? ==>
      var s := tables[k].values[f].value; IsEnvelope(s) && Opens(suite, v, k, tables[k].org, f, s).Done?
  }

  /** Rows have exactly the columns of their table, and belong to a known organisation. */
  ghost predicate Stored(tables: Tables, active: Active) {
    forall k :: k in tables ==>
      k.0 in TABLE_NAMES && tables[k].org in active && forall f :: f in tables[k].values <==> f in Fields(k.0)
  }

  // ---------------------------------------------------------------- one row

  /** The changes of one row: every plaintext column with its envelope. */
  ghost predicate Changes(suite: Suite, v: Vault, k: (string, string), row: Row, done: seq<string>, changes: map<string, string>) {
    && (forall f :: f in changes ==> f in done && f in row.values)
    && (forall f :: f in done && f in row.values ==>
          match row.values[f]
          case None => f !in changes
          case Some(s) =>
            if IsEnvelope(s) then f !in changes && Opens(suite, v, k, row.org, f, s).Done?
            else f in changes && IsEnvelope(changes[f]) && Opens(suite, v, k, row.org, f, changes[f]) == Done(s))
  }

  function Updated(row: Row, changes: map<string, string>): Row {
    row.(values := map f | f in row.values :: if f in changes then Some(changes[f]) else row.values[f])
  }

  lemma ChangesConvert(suite: Suite, v: Vault, k: (string, string), row: Row, fields: seq<string>, changes: map<string, string>)
    requires Changes(suite, v, k, row, fields, changes) && forall f :: f in row.values ==> f in fields
    ensures RowConverted(suite, v, k, row, Updated(row, changes)) && !BrokenRow(suite, v, k, row)
    ensures (changes == map[]) <==> Updated(row, changes) == row
  {
    hide Opens, IsEnvelope;
    var after := Updated(row, changes);
    if changes != map[] {
      var f :| f in changes;
      assert after.values[f] == Some(changes[f]);
    } else {
      assert after.values == row.values;
    }
  }

  lemma Reopens(box: CryptoBox, k: (string, string), org: Org, field: string, text: string, envelope: string)
    requires box.Valid() && Made(box.suite, box.rows, Sealed(org, k.1, Column(k.0, field), text, envelope))
    ensures IsEnvelope(envelope) && Opens(box.suite, box.Stored(), k, org, field, envelope) == Done(text)
  {
    hide Versioned, Agrees, Made, Decrypted;
    MadeDecrypts(box.suite, box.Stored(), None, Sealed(org, k.1, Column(k.0, field), text, envelope));
  }

  /** One column: an envelope is verified and stays, a plaintext is sealed. */
  method ConvertValue(box: CryptoBox, c: Context, k: (string, string), org: Org, field: string, s: string, nonce: Blob)
    returns (r: Attempt<Option<string>>)
    requires box.Valid() && c !in box.caches && org in box.active
    modifies box`caches
    ensures box.Valid() && box.caches == old(box.caches)
    ensures r.Failed? <==> IsEnvelope(s) && Opens(box.suite, box.Stored(), k, org, field, s).Failed?
    ensures r.Done? ==> (r.value.None? <==> IsEnvelope(s))
    ensures r.Done? && r.value.Some? ==>
      IsEnvelope(r.value.value) && Opens(box.suite, box.Stored(), k, org, field, r.value.value) == Done(s)
  {
    hide IsEnvelope, Encrypted, Decrypted, Made, Column, CryptoBox.Valid;
    if IsEnvelope(s) {
      var text := box.Decrypt(c, org, k.1, Column(k.0, field), s);
      return if text.Failed? then Failed(EncryptionError) else Done(None);
    }
    var sealed := box.Encrypt(c, org, k.1, Column(k.0, field), s, nonce);
    Reopens(box, k, org, field, s, sealed.value);
    return Done(Some(sealed.value));
  }

  method ConvertRow(box: CryptoBox, c: Context, k: (string, string), row: Row, nonce: string -> Blob)
    returns (r: Attempt<map<string, string>>)
    requires box.Valid() && c !in box.caches && row.org in box.active
    requires forall f :: f in row.values <==> f in Fields(k.0)
    modifies box`caches
    ensures box.Valid() && box.caches == old(box.caches)
    ensures r.Failed? <==> BrokenRow(box.suite, box.Stored(), k, row)
    ensures r.Done? ==> Changes(box.suite, box.Stored(), k, row, Fields(k.0), r.value)
  {
    hide IsEnvelope, Opens, CryptoBox.Valid, Fields;
    var fields := Fields(k.0);
    var changes := map[];
    for i := 0 to |fields|
      invariant box.Valid() && box.caches == old(box.caches)
      invariant Changes(box.suite, box.Stored(), k, row, fields[..i], changes)
    {
      var field := fields[i];
      assert fields[..i + 1] == fields[..i] + [field];
      var value := row.values[field];
      if value.Some? {
        var converted := ConvertValue(box, c, k, row.org, field, value.value, nonce(field));
        if converted.Failed? {
          assert Broken(box.suite, box.Stored(), k, row, field);
          return Failed(EncryptionError);
        }
        if converted.value.Some? { changes := changes[field := converted.value.value]; }
      }
    }
    assert fields[..|fields|] == fields;
    ChangesConvert(box.suite, box.Stored(), k, row, fields, changes);
    return Done(changes);
  }

  // ---------------------------------------------------------------- all rows

  class Payload {
    var tables: Tables

    constructor (tables: Tables)
      ensures this.tables == tables
    {
      this.tables := tables;
    }
  }

  /** The rows that a conversion rewrote. */
  ghost function Rewritten(before: Tables, after: Tables): set<(string, string)> {
    set k | k in before && k in after && before[k] != after[k]
  }

  /** The rows in `done` are converted, all others are as they were. */
  ghost predicate Partly(suite: Suite, v: Vault, before: Tables, now: Tables, done: set<(string, string)>) {
    && now.Keys == before.Keys && done <= before.Keys
    && (forall k :: k in done ==> RowConverted(suite, v, k, before[k], now[k]) && !BrokenRow(suite, v, k, before[k]))
    && (forall k :: k in before && k !in done ==> now[k] == before[k])
  }

  lemma OneMoreRow(suite: Suite, v: Vault, before: Tables, now: Tables, done: set<(string, string)>, k: (string, string), after: Row)
    requires Partly(suite, v, before, now, done) && k in before && k !in done
    requires RowConverted(suite, v, k, before[k], after) && !BrokenRow(suite, v, k, before[k])
    ensures Partly(suite, v, before, now[k := after], done + {k})
    ensures Rewritten(before, now[k := after]) == Rewritten(before, now) + (if after == before[k] then {} else {k})
    ensures k !in Rewritten(before, now)
  {
    hide RowConverted, BrokenRow;
  }

  /** One row: rewritten exactly when it had a plaintext value. */
  method ConvertOne(box: CryptoBox, c: Context, data: Payload, k: (string, string), nonce: string -> Blob,
                    ghost before: Tables, ghost done: set<(string, string)>) returns (r: Attempt<nat>)
    requires box.Valid() && c !in box.caches && Stored(before, box.active)
    requires Partly(box.suite, box.Stored(), before, data.tables, done) && k in before && k !in done
    modifies box`caches, data
    ensures box.Valid() && box.caches == old(box.caches)
    ensures r.Failed? ==> AnyBroken(box.suite, box.Stored(), before)
    ensures r.Done? ==>
      && Partly(box.suite, box.Stored(), before, data.tables, done + {k})
      && |Rewritten(before, data.tables)| == |Rewritten(before, old(data.tables))| + r.value
  {
    hide Partly, RowConverted, BrokenRow, Changes, CryptoBox.Valid, Stored, Rewritten;
    StillStored(box, before, data.tables, done, k);
    var row := data.tables[k];
    var changes := ConvertRow(box, c, k, row, nonce);
    if changes.Failed? { return Failed(EncryptionError); }
    var after := Updated(row, changes.value);
    ChangesConvert(box.suite, box.Stored(), k, row, Fields(k.0), changes.value);
    OneMoreRow(box.suite, box.Stored(), before, data.tables, done, k, after);
    if changes.value == map[] {
      assert data.tables[k := after] == data.tables;
      return Done(0);
    }
    data.tables := data.tables[k := after];
    return Done(1);
  }

  /** The rows of one table. */
  method ConvertTable(box: CryptoBox, c: Context, data: Payload, table: string, nonce: ((string, string), string) -> Blob,
                      ghost before: Tables, ghost done: set<(string, string)>) returns (r: Attempt<nat>)
    requires box.Valid() && c !in box.caches && Stored(before, box.active)
    requires Partly(box.suite, box.Stored(), before, data.tables, done) && forall k :: k in done ==> k.0 != table
    modifies box`caches, data
    ensures box.Valid() && box.caches == old(box.caches)
    ensures r.Failed? ==> AnyBroken(box.suite, box.Stored(), before)
    ensures r.Done? ==>
      && Partly(box.suite, box.Stored(), before, data.tables, done + RowsOf(before, table))
      && |Rewritten(before, data.tables)| == |Rewritten(before, old(data.tables))| + r.value
  {
    hide Partly, AnyBroken, CryptoBox.Valid, Stored, Rewritten, RowsOf, BrokenRow, RowConverted;
    var left := set k | k in data.tables && k.0 == table;
    ghost var all, seen := done + left, done;
    TableRows(box.suite, box.Stored(), before, data.tables, done, table);
    var count := 0;
    while left != {}
      invariant box.Valid() && box.caches == old(box.caches)
      invariant left <= before.Keys && seen !! left && seen + left == all
      invariant Partly(box.suite, box.Stored(), before, data.tables, seen)
      invariant |Rewritten(before, data.tables)| == |Rewritten(before, old(data.tables))| + count
      decreases |left|
    {
      var k :| k in left;
      var more := ConvertOne(box, c, data, k, (f: string) => nonce(k, f), before, seen);
      if more.Failed? { return Failed(EncryptionError); }
      TakeOne(seen, left, all, k);
      left, seen := left - {k}, seen + {k};
      count := count + more.value;
    }
    assert seen == all;
    return Done(count);
  }

  lemma TakeOne(seen: set<(string, string)>, left: set<(string, string)>, all: set<(string, string)>, k: (string, string))
    requires seen !! left && seen + left == all && k in left
    ensures seen + {k} !! left - {k} && (seen + {k}) + (left - {k}) == all && |left - {k}| < |left|
  {
  }

  ghost function RowsOf(tables: Tables, table: string): set<(string, string)> {
    set k | k in tables && k.0 == table
  }

  lemma TableRows(suite: Suite, v: Vault, before: Tables, now: Tables, done: set<(string, string)>, table: string)
    requires Partly(suite, v, before, now, done) && forall k :: k in done ==> k.0 != table
    ensures (set k | k in now && k.0 == table) == RowsOf(before, table) <= before.Keys && done !! RowsOf(before, table)
  {
    hide RowConverted, BrokenRow;
  }

  lemma StillStored(box: CryptoBox, before: Tables, now: Tables, done: set<(string, string)>, k: (string, string))
    requires Stored(before, box.active) && Partly(box.suite, box.Stored(), before, now, done) && k in before && k !in done
    ensures k in now && now[k] == before[k] && now[k].org in box.active
    ensures forall f :: f in now[k].values <==> f in Fields(k.0)
  {
    hide Fields, RowConverted, BrokenRow;
  }

  // ---------------------------------------------------------------- the whole conversion

  ghost function RowsUpTo(tables: Tables, n: nat): set<(string, string)>
    requires n <= |TABLE_NAMES|
  {
    set k | k in tables && k.0 in TABLE_NAMES[..n]
  }

  lemma NextTable(tables: Tables, n: nat)
    requires n < |TABLE_NAMES|
    ensures RowsUpTo(tables, n + 1) == RowsUpTo(tables, n) + RowsOf(tables, TABLE_NAMES[n])
    ensures forall k :: k in RowsUpTo(tables, n) ==> k.0 != TABLE_NAMES[n]
  {
    assert TABLE_NAMES[..n + 1] == TABLE_NAMES[..n] + [TABLE_NAMES[n]];
    assert forall i :: 0 <= i < n ==> TABLE_NAMES[i] != TABLE_NAMES[n];
  }

  lemma AllRows(suite: Suite, v: Vault, before: Tables, now: Tables, active: Active)
    requires Stored(before, active) && Partly(suite, v, before, now, RowsUpTo(before, |TABLE_NAMES|))
    ensures AllConverted(suite, v, before, now) && !AnyBroken(suite, v, before)
  {
    hide RowConverted, BrokenRow, Fields;
    assert TABLE_NAMES[..|TABLE_NAMES|] == TABLE_NAMES;
    assert forall k :: k in before ==> k in RowsUpTo(before, |TABLE_NAMES|);
  }

  lemma NoRows(suite: Suite, v: Vault, tables: Tables)
    ensures Partly(suite, v, tables, tables, RowsUpTo(tables, 0)) && Rewritten(tables, tables) == {}
  {
    assert RowsUpTo(tables, 0) == {};
  }

  /** One transaction over all tables: a value that looks like an envelope but is none undoes everything. */
  method ConvertAll(box: CryptoBox, c: Context, data: Payload, nonce: ((string, string), string) -> Blob) returns (r: Attempt<nat>)
    requires box.Valid() && c !in box.caches && Stored(data.tables, box.active)
    modifies box`caches, data
    ensures box.Valid() && box.caches == old(box.caches)
    ensures r.Failed? <==> AnyBroken(box.suite, box.Stored(), old(data.tables))
    ensures r.Failed? ==> data.tables == old(data.tables)
    ensures r.Done? ==> AllConverted(box.suite, box.Stored(), old(data.tables), data.tables)
    ensures r.Done? ==> r.value == |Rewritten(old(data.tables), data.tables)|
  {
    hide Partly, AnyBroken, AllConverted, CryptoBox.Valid, Stored, Rewritten, RowsUpTo;
    var snapshot := data.tables;
    var count := 0;
    NoRows(box.suite, box.Stored(), snapshot);
    for i := 0 to |TABLE_NAMES|
      invariant box.Valid() && box.caches == old(box.caches)
      invariant Partly(box.suite, box.Stored(), snapshot, data.tables, RowsUpTo(snapshot, i))
      invariant |Rewritten(snapshot, data.tables)| == count
    {
      NextTable(snapshot, i);
      var more := ConvertTable(box, c, data, TABLE_NAMES[i], nonce, snapshot, RowsUpTo(snapshot, i));
      if more.Failed? {
        data.tables := snapshot;
        return Failed(EncryptionError);
      }
      count := count + more.value;
    }
    AllRows(box.suite, box.Stored(), snapshot, data.tables, box.active);
    return Done(count);
  }

  /** Provision every organisation before any payload is touched. */
  method ProvisionAll(box: CryptoBox, orgs: set<Org>, keys: Org -> (Key, Blob)) returns (r: Attempt<()>)
    requires box.Valid()
    modifies box`active, box`rows
    ensures box.Valid() && Extends(old(box.Stored()), box.Stored())
    ensures r.Done? ==> forall o :: o in orgs ==> o in box.active
    ensures (forall o :: o in orgs ==> o in old(box.active)) ==> r.Done? && box.Stored() == old(box.Stored())
  {
    hide CryptoBox.Valid, Inserted;
    var left := orgs;
    while left != {}
      invariant left <= orgs && box.Valid() && Extends(old(box.Stored()), box.Stored())
      invariant forall o :: o in orgs && o !in left ==> o in box.active
      invariant (forall o :: o in orgs ==> o in old(box.active)) ==> box.Stored() == old(box.Stored())
      decreases |left|
    {
      var o :| o in left;
      var r1 := box.Provision(o, keys(o).0, keys(o).1);
      if r1.Failed? { return Failed(EncryptionError); }
      left := left - {o};
    }
    return Done(());
  }

  /** `migrate_existing`. */
  method MigrateExisting(box: CryptoBox, c: Context, data: Payload, orgs: set<Org>, keys: Org -> (Key, Blob),
                         nonce: ((string, string), string) -> Blob) returns (r: Attempt<nat>)
    requires box.Valid() && c !in box.caches
    requires forall k :: k in data.tables ==> data.tables[k].org in orgs
    requires forall k :: k in data.tables ==> k.0 in TABLE_NAMES && forall f :: f in data.tables[k].values <==> f in Fields(k.0)
    modifies box, data
    ensures box.Valid() && box.caches == old(box.caches) && Extends(old(box.Stored()), box.Stored())
    ensures r.Failed? ==> data.tables == old(data.tables)
    ensures r.Failed? ==> (exists o :: o in orgs && o !in old(box.active)) || AnyBroken(box.suite, box.Stored(), data.tables)
    ensures AnyBroken(box.suite, box.Stored(), old(data.tables)) ==> r.Failed?
    ensures r.Done? ==> AllConverted(box.suite, box.Stored(), old(data.tables), data.tables)
    ensures r.Done? ==> r.value == |Rewritten(old(data.tables), data.tables)|
    ensures r.Done? ==> forall o :: o in orgs ==> o in box.active
    ensures (forall o :: o in orgs ==> o in old(box.active)) ==> box.Stored() == old(box.Stored())
  {
    hide AnyBroken, AllConverted, CryptoBox.Valid, Rewritten, Fields, Extends;
    var ready := ProvisionAll(box, orgs, keys);
    if ready.Failed? { return Failed(EncryptionError); }
    r := ConvertAll(box, c, data, nonce);
  }

  // ---------------------------------------------------------------- meaning and idempotence

  /** What a reader gets from a stored value: nothing, the text of an envelope, or the plaintext itself. */
  function Logical(suite: Suite, v: Vault, k: (string, string), org: Org, field: string, value: Option<string>): Attempt<Option<string>> {
    if value.None? then Done(None)
    else if !IsEnvelope(value.value) then Done(value)
    else
      var text := Opens(suite, v, k, org, field, value.value);
      if text.Failed? then Failed(text.error) else Done(Some(text.value))
  }

  /** A conversion changes no logical value and leaves no plaintext. */
  lemma ConversionKeepsMeaning(suite: Suite, v: Vault, before: Tables, after: Tables, k: (string, string), f: string)
    requires AllConverted(suite, v, before, after) && k in before && f in before[k].values
    ensures k in after && f in after[k].values
    ensures Logical(suite, v, k, after[k].org, f, after[k].values[f]) == Logical(suite, v, k, before[k].org, f, before[k].values[f])
    ensures after[k].values[f].Some? ==> IsEnvelope(after[k].values[f].value)
    ensures Logical(suite, v, k, after[k].org, f, after[k].values[f]).Done?
  {
    hide Opens, IsEnvelope;
    assert RowConverted(suite, v, k, before[k], after[k]);
    assert ValueConverted(suite, v, k, before[k].org, f, before[k].values[f], after[k].values[f]);
  }

  lemma ConvertedIsSealed(suite: Suite, v: Vault, before: Tables, after: Tables)
    requires AllConverted(suite, v, before, after)
    ensures AllSealed(suite, v, after)
  {
    hide Opens, IsEnvelope;
    forall k, f | k in after && f in after[k].values && after[k].values[f].Some?
      ensures IsEnvelope(after[k].values[f].value) && Opens(suite, v, k, after[k].org, f, after[k].values[f].value).Done?
    {
      assert RowConverted(suite, v, k, before[k], after[k]);
      assert ValueConverted(suite, v, k, before[k].org, f, before[k].values[f], after[k].values[f]);
    }
  }

  /** Converting sealed tables rewrites nothing and cannot fail. */
  lemma SealedStays(suite: Suite, v: Vault, before: Tables)
    requires AllSealed(suite, v, before)
    ensures !AnyBroken(suite, v, before)
    ensures forall after :: AllConverted(suite, v, before, after) ==> after == before
  {
    hide Opens, IsEnvelope;
    forall after | AllConverted(suite, v, before, after) ensures after == before {
      forall k | k in before ensures after[k] == before[k] { SealedRowStays(suite, v, before, after, k); }
    }
  }

  lemma SealedRowStays(suite: Suite, v: Vault, before: Tables, after: Tables, k: (string, string))
    requires AllSealed(suite, v, before) && AllConverted(suite, v, before, after) && k in before
    ensures after[k] == before[k]
  {
    hide Opens, IsEnvelope;
    assert RowConverted(suite, v, k, before[k], after[k]);
    forall f | f in before[k].values ensures after[k].values[f] == before[k].values[f] {
      assert ValueConverted(suite, v, k, before[k].org, f, before[k].values[f], after[k].values[f]);
    }
    assert after[k].values == before[k].values;
  }

  /** An immediate second run succeeds and rewrites no row. */
  method MigrateTwice(box: CryptoBox, c: Context, data: Payload, orgs: set<Org>, keys: Org -> (Key, Blob),
                      nonce: ((string, string), string) -> Blob) returns (first: Attempt<nat>, second: Attempt<nat>)
    requires box.Valid() && c !in box.caches
    requires forall k :: k in data.tables ==> data.tables[k].org in orgs
    requires forall k :: k in data.tables ==> k.0 in TABLE_NAMES && forall f :: f in data.tables[k].values <==> f in Fields(k.0)
    modifies box, data
    ensures first.Done? ==> second == Done(0) && AllConverted(box.suite, box.Stored(), old(data.tables), data.tables)
  {
    hide AnyBroken, CryptoBox.Valid, Fields, Extends, ValueConverted;
    ghost var before := data.tables;
    first := MigrateExisting(box, c, data, orgs, keys, nonce);
    second := Failed(EncryptionError);
    if first.Done? {
      ghost var after := data.tables;
      ConvertedIsSealed(box.suite, box.Stored(), before, after);
      SealedStays(box.suite, box.Stored(), after);
      second := MigrateExisting(box, c, data, orgs, keys, nonce);
      assert Rewritten(after, after) == {};
    }
  }

  // ---------------------------------------------------------------- which columns, and that they are told apart

  /** The text columns of the payload tables. */
  const PAYLOAD_COLUMNS := {
    ("memory_records", "content"), ("memory_records", "source"), ("memory_versions", "content"), ("memory_versions", "source"),
    ("memory_proposals", "content"), ("memory_proposals", "source"), ("memory_proposals", "findings"),
    ("messages", "body"), ("messages", "findings"), ("jobs", "objective"), ("jobs", "result"), ("jobs", "findings") }

  /** Exactly the text columns of the payload tables are converted. */
  lemma EveryColumnIsConverted(table: string, field: string)
    ensures table in TABLE_NAMES && field in Fields(table) <==> (table, field) in PAYLOAD_COLUMNS
  {
  }

  /** No two columns bind their envelopes to one name. */
  lemma ColumnsApart(table: string, field: string, table2: string, field2: string)
    requires '.' !in table && '.' !in table2 && Column(table, field) == Column(table2, field2)
    ensures table == table2 && field == field2
  {
    var c := Column(table, field);
    assert c == table + ("." + field) && c == table2 + ("." + field2);
    assert c[|table|] == '.' && c[|table2|] == '.';
    assert forall i :: 0 <= i < |table| ==> c[i] == table[i] && table[i] in table;
    assert forall i :: 0 <= i < |table2| ==> c[i] == table2[i] && table2[i] in table2;
    assert |table| == |table2|;
    assert table == c[..|table|] && table2 == c[..|table2|];
    assert field == c[|table| + 1..] && field2 == c[|table2| + 1..];
  }
}

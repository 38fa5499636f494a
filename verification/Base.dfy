/** Shared vocabulary: optional values, service results, byte lengths and sums over tables. */
module Base {

  datatype Option<+T> = None | Some(value: T)

  /** The error codes of `ServiceError` that the modelled operations raise. */
  datatype Code =
    | Denied | NotFound | InvalidArgument | InvalidState | Conflict | SelfReview | Quarantined
    | IdempotencyConflict | AttemptsExhausted | LeaseExpired | QuotaExceeded | InvalidWebhook

  datatype Result<+T> = Ok(value: T) | Err(code: Code) {
    predicate IsFailure() { Err? }

    function PropagateFailure<U>(): Result<U>
      requires Err?
    {
      Err(code)
    }

    function Extract(): T
      requires Ok?
    {
      value
    }
  }

  /** The outcome of a check that returns nothing. */
  datatype Outcome = Pass | Fail(code: Code) {
    predicate IsFailure() { Fail? }

    function PropagateFailure<U>(): Result<U>
      requires Fail?
    {
      Err(code)
    }
  }

  function Need(condition: bool, code: Code): Outcome {
    if condition then Pass else Fail(code)
  }

  /** Bytes of one character in UTF-8. */
  function CharBytes(c: char): (n: nat)
    ensures 1 <= n <= 4
  {
    var code := c as int;
    if code < 0x80 then 1 else if code < 0x800 then 2 else if code < 0x10000 then 3 else 4
  }

  /** `len(s.encode("utf-8"))`. */
  function Bytes(s: string): (n: nat)
    ensures |s| <= n <= 4 * |s|
  {
    if s == [] then 0 else CharBytes(s[0]) + Bytes(s[1..])
  }

  lemma {:induction false} BytesConcat(s: string, t: string)
    ensures Bytes(s + t) == Bytes(s) + Bytes(t)
  {
    if s == [] {
      assert s + t == t;
    } else {
      BytesConcat(s[1..], t);
      assert (s + t)[1..] == s[1..] + t;
    }
  }

  /** The sum of a weight over the rows of a table. */
  ghost function Total<K, T>(table: map<K, T>, weight: T -> nat): nat
    decreases |table.Keys|
  {
    if table.Keys == {} then 0
    else
      var k :| k in table.Keys;
      weight(table[k]) + Total(table - {k}, weight)
  }

  /** Any row may be taken out first. */
  lemma {:induction false} TotalPick<K, T>(table: map<K, T>, weight: T -> nat, k: K)
    requires k in table
    ensures Total(table, weight) == weight(table[k]) + Total(table - {k}, weight)
    decreases |table.Keys|
  {
    var first :| first in table.Keys &&
      Total(table, weight) == weight(table[first]) + Total(table - {first}, weight);
    if first != k {
      TotalPick(table - {first}, weight, k);
      TotalPick(table - {k}, weight, first);
      assert table - {first} - {k} == table - {k} - {first};
    }
  }

  /** The sum row by row, in any order. */
  method Sum<K(==), T>(table: map<K, T>, weight: T -> nat) returns (total: nat)
    ensures total == Total(table, weight)
  {
    total := 0;
    var left := table;
    while left.Keys != {}
      invariant total + Total(left, weight) == Total(table, weight)
      decreases |left.Keys|
    {
      var k :| k in left.Keys;
      TotalPick(left, weight, k);
      total := total + weight(left[k]);
      left := left - {k};
    }
  }

  /** Writing a row replaces its old weight, if it had one, by the new one. */
  lemma TotalWrite<K, T>(table: map<K, T>, weight: T -> nat, k: K, row: T)
    ensures Total(table[k := row], weight)
         == Total(table, weight) - (if k in table then weight(table[k]) else 0) + weight(row)
  {
    TotalPick(table[k := row], weight, k);
    if k in table {
      TotalPick(table, weight, k);
      assert table[k := row] - {k} == table - {k};
    } else {
      assert table[k := row] - {k} == table;
    }
  }

  /** Taking rows out never raises the sum, and keeps it when they weigh nothing. */
  lemma {:induction false} TotalCut<K, T>(before: map<K, T>, after: map<K, T>, weight: T -> nat)
    requires forall k :: k in after ==> k in before && after[k] == before[k]
    ensures Total(after, weight) <= Total(before, weight)
    ensures (forall k :: k in before && k !in after ==> weight(before[k]) == 0) ==> Total(after, weight) == Total(before, weight)
    decreases |before.Keys|
  {
    if before.Keys == {} {
      assert after == map[];
      assert before == map[];
    } else {
      var k :| k in before.Keys;
      TotalPick(before, weight, k);
      if k in after { TotalPick(after, weight, k); } else { assert after - {k} == after; }
      TotalCut(before - {k}, after - {k}, weight);
    }
  }

  /** Rewriting rows without changing a weight keeps the sum. */
  lemma {:induction false} TotalRewritten<K, T>(before: map<K, T>, after: map<K, T>, weight: T -> nat)
    requires before.Keys == after.Keys
    requires forall k :: k in before ==> weight(after[k]) == weight(before[k])
    ensures Total(before, weight) == Total(after, weight)
    decreases |before.Keys|
  {
    if before.Keys == {} {
      assert before == map[] && after == map[];
    } else {
      var k :| k in before.Keys;
      TotalPick(before, weight, k);
      TotalPick(after, weight, k);
      TotalRewritten(before - {k}, after - {k}, weight);
    }
  }

  /** A renaming of keys that loses no row and changes no weight keeps the sum. */
  lemma {:induction false} TotalRenamed<K, L, T>(before: map<K, T>, after: map<L, T>, rename: map<K, L>, weight: T -> nat)
    requires rename.Keys == before.Keys && rename.Values == after.Keys
    requires forall j, k :: j in rename && k in rename && rename[j] == rename[k] ==> j == k
    requires forall k :: k in before ==> weight(after[rename[k]]) == weight(before[k])
    ensures Total(before, weight) == Total(after, weight)
    decreases |before.Keys|
  {
    if before.Keys == {} {
      assert rename == map[];
      assert after == map[];
    } else {
      var k :| k in before.Keys;
      var b, a, r := before - {k}, after - {rename[k]}, rename - {k};
      forall l ensures l in r.Values <==> l in a.Keys {
        if l in a.Keys {
          assert l in rename.Values;
          var j :| j in rename && rename[j] == l;
          assert j in r && r[j] == l;
        }
        if l in r.Values {
          var j :| j in r && r[j] == l;
          assert rename[j] == l && j != k;
        }
      }
      TotalRenamed(b, a, r, weight);
      TotalPick(before, weight, k);
      TotalPick(after, weight, rename[k]);
    }
  }
}

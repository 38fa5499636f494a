/** The content-safety walk over a JSON-like payload (distributedai/security.py). */
module PayloadScan {

  const MAX_ITEMS := 2000
  const MAX_DEPTH := 32

  datatype Finding =
    | EncodedPayload | InstructionOverride | MalformedInput | OversizeInput
    | RoleSpoofing | SecretExfiltration | SuspiciousExecution

  datatype Key = Text(text: string) | OtherKey

  /** A payload. `Object` holds its keys and its items in iteration order; `Foreign` is any
      value that is not a JSON value. */
  datatype Value =
    | Str(text: string)
    | Scalar
    | Array(items: seq<Value>)
    | Object(keys: seq<Key>, items: seq<Value>)
    | Foreign

  /** The text classifier is a fixed function from strings to findings. */
  type Scanner = string -> set<Finding>

  datatype Entry = Entry(value: Value, depth: nat)

  // ---------------------------------------------------------------- what a payload contains

  /** The number of values in a payload, itself included; keys are not values. */
  ghost function Nodes(v: Value): nat
  {
    1 + if v.Array? || v.Object? then NodesAll(v.items) else 0
  }

  ghost function NodesAll(vs: seq<Value>): nat
  {
    if vs == [] then 0 else Nodes(vs[0]) + NodesAll(vs[1..])
  }

  /** No value lies more than `limit` levels below the payload. */
  ghost predicate Within(v: Value, limit: int)
  {
    0 <= limit && (v.Array? || v.Object? ==> forall item :: item in v.items ==> Within(item, limit - 1))
  }

  /** What one value contributes by itself: its text, its keys, or its foreign type. */
  function Own(scan: Scanner, v: Value): set<Finding> {
    match v
    case Str(text) => scan(text)
    case Scalar | Array(_) => {}
    case Object(keys, _) => KeyFindings(scan, keys)
    case Foreign => {MalformedInput}
  }

  function KeyFindings(scan: Scanner, keys: seq<Key>): set<Finding> {
    if keys == [] then {}
    else (if keys[0].Text? then scan(keys[0].text) else {}) + KeyFindings(scan, keys[1..])
  }

  /** Every text and every string key is clean and every leaf is a JSON value. */
  ghost predicate AllClean(scan: Scanner, v: Value)
  {
    match v
    case Str(text) => scan(text) == {}
    case Scalar => true
    case Array(items) => forall item :: item in items ==> AllClean(scan, item)
    case Object(keys, items) =>
      && (forall k :: k in keys && k.Text? ==> scan(k.text) == {})
      && (forall item :: item in items ==> AllClean(scan, item))
    case Foreign => false
  }

  /** At most 2000 values, none deeper than 32, and all clean: what the walk is meant to decide. */
  ghost predicate Clean(scan: Scanner, v: Value)
  {
    Nodes(v) <= 2000 && Within(v, 32) && AllClean(scan, v)
  }

  // ---------------------------------------------------------------- the walk

  function Pushed(items: seq<Value>, depth: nat): seq<Entry> {
    seq(|items|, i requires 0 <= i < |items| => Entry(items[i], depth))
  }

  function Children(e: Entry): seq<Entry> {
    if e.value.Array? || e.value.Object? then Pushed(e.value.items, e.depth + 1) else []
  }

  /** The stack after its top entry gave way to its children. */
  function Popped(stack: seq<Entry>): (next: seq<Entry>)
    requires stack != []
  {
    stack[..|stack| - 1] + Children(stack[|stack| - 1])
  }

  /** The findings that the walk still adds, given its stack and its counter. */
  function Walk(scan: Scanner, stack: seq<Entry>, seen: nat): set<Finding>
    requires seen <= MAX_ITEMS
    decreases MAX_ITEMS - seen
  {
    if stack == [] then {}
    else
      var top := stack[|stack| - 1];
      if seen + 1 > MAX_ITEMS || top.depth > MAX_DEPTH then {EncodedPayload}
      else Own(scan, top.value) + Walk(scan, Popped(stack), seen + 1)
  }

  /** The findings of a whole payload. */
  function Findings(scan: Scanner, v: Value): set<Finding> {
    Walk(scan, [Entry(v, 0)], 0)
  }

  /** The iterative traversal: a stack, a counter, and a break at the first bound it passes. */
  method ScanPayload(scan: Scanner, value: Value) returns (found: set<Finding>)
    ensures found == Findings(scan, value)
    ensures found == {} <==> Clean(scan, value)
  {
    found := {};
    var stack := [Entry(value, 0)];
    var seen := 0;
    while stack != []
      invariant seen <= MAX_ITEMS
      invariant Findings(scan, value) == found + Walk(scan, stack, seen)
      decreases MAX_ITEMS - seen
    {
      ghost var before := found + Walk(scan, stack, seen);
      ghost var next := Popped(stack);
      var top := stack[|stack| - 1];
      stack := stack[..|stack| - 1];
      if seen + 1 > MAX_ITEMS || top.depth > MAX_DEPTH {
        found := found + {EncodedPayload};
        assert found == before;
        break;
      }
      found := found + Own(scan, top.value);
      stack := stack + Children(top);
      seen := seen + 1;
      assert stack == next;
      assert found + Walk(scan, next, seen) == before;
    }
    NoFindingsExactlyWhenClean(scan, value);
  }

  // ---------------------------------------------------------------- the walk meets the definition

  ghost function StackNodes(stack: seq<Entry>): nat {
    if stack == [] then 0 else Nodes(stack[0].value) + StackNodes(stack[1..])
  }

  ghost predicate StackWithin(stack: seq<Entry>) {
    forall e :: e in stack ==> Within(e.value, MAX_DEPTH - e.depth)
  }

  ghost predicate StackClean(scan: Scanner, stack: seq<Entry>) {
    forall e :: e in stack ==> AllClean(scan, e.value)
  }

  lemma {:induction false} StackNodesAppend(a: seq<Entry>, b: seq<Entry>)
    ensures StackNodes(a + b) == StackNodes(a) + StackNodes(b)
  {
    if a == [] {
      assert a + b == b;
    } else {
      StackNodesAppend(a[1..], b);
      assert (a + b)[1..] == a[1..] + b;
    }
  }

  lemma {:induction false} PushedNodes(items: seq<Value>, depth: nat)
    ensures StackNodes(Pushed(items, depth)) == NodesAll(items)
  {
    if items != [] {
      PushedNodes(items[1..], depth);
      assert Pushed(items, depth)[1..] == Pushed(items[1..], depth);
    }
  }

  lemma {:induction false} KeysClean(scan: Scanner, keys: seq<Key>)
    ensures KeyFindings(scan, keys) == {} <==> forall k :: k in keys && k.Text? ==> scan(k.text) == {}
  {
    if keys != [] {
      KeysClean(scan, keys[1..]);
      assert keys == [keys[0]] + keys[1..];
    }
  }

  /** The children of an entry are its items, one level down. */
  lemma ChildrenAre(e: Entry, c: Entry)
    requires e.value.Array? || e.value.Object?
    ensures c in Children(e) <==> c.value in e.value.items && c.depth == e.depth + 1
  {
    var items := e.value.items;
    if c.value in items && c.depth == e.depth + 1 {
      var i :| 0 <= i < |items| && items[i] == c.value;
      assert Children(e)[i] == c;
    }
  }

  /** Popping one entry and pushing its children accounts for exactly one node. */
  lemma PopNodes(stack: seq<Entry>)
    requires stack != []
    ensures StackNodes(stack) == 1 + StackNodes(Popped(stack))
  {
    var top, rest := stack[|stack| - 1], stack[..|stack| - 1];
    assert stack == rest + [top];
    StackNodesAppend(rest, [top]);
    StackNodesAppend(rest, Children(top));
    if top.value.Array? || top.value.Object? {
      PushedNodes(top.value.items, top.depth + 1);
    }
  }

  lemma EntryWithin(e: Entry)
    ensures Within(e.value, MAX_DEPTH - e.depth) <==> e.depth <= MAX_DEPTH && StackWithin(Children(e))
  {
    if e.value.Array? || e.value.Object? {
      var limit := MAX_DEPTH - e.depth;
      forall item | item in e.value.items ensures Entry(item, e.depth + 1) in Children(e) {
        ChildrenAre(e, Entry(item, e.depth + 1));
      }
      if StackWithin(Children(e)) {
        forall item | item in e.value.items ensures Within(item, limit - 1) {
          assert Entry(item, e.depth + 1) in Children(e);
        }
      }
      if Within(e.value, limit) {
        forall c | c in Children(e) ensures Within(c.value, MAX_DEPTH - c.depth) {
          assert c.depth == e.depth + 1 && c.value in e.value.items;
        }
      }
    }
  }

  lemma PopWithin(stack: seq<Entry>)
    requires stack != []
    ensures StackWithin(stack) <==> stack[|stack| - 1].depth <= MAX_DEPTH && StackWithin(Popped(stack))
  {
    var top, rest := stack[|stack| - 1], stack[..|stack| - 1];
    assert stack == rest + [top];
    EntryWithin(top);
    assert StackWithin(stack) <==> StackWithin(rest) && Within(top.value, MAX_DEPTH - top.depth);
  }

  lemma EntryClean(scan: Scanner, e: Entry)
    ensures AllClean(scan, e.value) <==> Own(scan, e.value) == {} && StackClean(scan, Children(e))
  {
    if e.value.Array? || e.value.Object? {
      forall item | item in e.value.items ensures Entry(item, e.depth + 1) in Children(e) {
        ChildrenAre(e, Entry(item, e.depth + 1));
      }
      if e.value.Object? { KeysClean(scan, e.value.keys); }
    }
  }

  lemma PopClean(scan: Scanner, stack: seq<Entry>)
    requires stack != []
    ensures StackClean(scan, stack) <==> Own(scan, stack[|stack| - 1].value) == {} && StackClean(scan, Popped(stack))
  {
    var top, rest := stack[|stack| - 1], stack[..|stack| - 1];
    assert stack == rest + [top];
    EntryClean(scan, top);
    assert StackClean(scan, stack) <==> StackClean(scan, rest) && AllClean(scan, top.value);
  }

  lemma {:induction false} WalkMeets(scan: Scanner, stack: seq<Entry>, seen: nat)
    requires seen <= MAX_ITEMS
    ensures Walk(scan, stack, seen) == {}
       <==> seen + StackNodes(stack) <= MAX_ITEMS && StackWithin(stack) && StackClean(scan, stack)
    decreases MAX_ITEMS - seen
  {
    if stack != [] {
      PopNodes(stack);
      PopWithin(stack);
      PopClean(scan, stack);
      if seen + 1 <= MAX_ITEMS && stack[|stack| - 1].depth <= MAX_DEPTH {
        WalkMeets(scan, Popped(stack), seen + 1);
      } else {
        assert EncodedPayload in Walk(scan, stack, seen);
      }
    }
  }

  lemma Single(scan: Scanner, e: Entry)
    ensures StackNodes([e]) == Nodes(e.value)
    ensures StackWithin([e]) <==> Within(e.value, MAX_DEPTH - e.depth)
    ensures StackClean(scan, [e]) <==> AllClean(scan, e.value)
  {
    hide Nodes, Within, AllClean;
    assert [e][1..] == [] && StackNodes([e][1..]) == 0;
    assert [e][0] in [e];
  }

  /** The bounded walk finds nothing exactly when the whole payload fits the bounds and is clean. */
  lemma NoFindingsExactlyWhenClean(scan: Scanner, v: Value)
    ensures Findings(scan, v) == {} <==> Clean(scan, v)
  {
    hide Nodes, Within, AllClean, Walk, StackNodes, StackWithin, StackClean;
    Single(scan, Entry(v, 0));
    WalkMeets(scan, [Entry(v, 0)], 0);
  }

  /** Within the bounds the order of the walk does not matter: it reports every finding there is. */
  ghost predicate Reports(scan: Scanner, v: Value, f: Finding)
  {
    || f in Own(scan, v)
    || ((v.Array? || v.Object?) && exists item :: item in v.items && Reports(scan, item, f))
  }

  ghost predicate StackReports(scan: Scanner, stack: seq<Entry>, f: Finding) {
    exists e :: e in stack && Reports(scan, e.value, f)
  }

  lemma EntryReports(scan: Scanner, e: Entry, f: Finding)
    ensures Reports(scan, e.value, f) <==> f in Own(scan, e.value) || StackReports(scan, Children(e), f)
  {
    if e.value.Array? || e.value.Object? {
      forall item | item in e.value.items ensures Entry(item, e.depth + 1) in Children(e) {
        ChildrenAre(e, Entry(item, e.depth + 1));
      }
    }
  }

  lemma PopReports(scan: Scanner, stack: seq<Entry>, f: Finding)
    requires stack != []
    ensures StackReports(scan, stack, f)
       <==> f in Own(scan, stack[|stack| - 1].value) || StackReports(scan, Popped(stack), f)
  {
    var top, rest := stack[|stack| - 1], stack[..|stack| - 1];
    assert stack == rest + [top];
    EntryReports(scan, top, f);
    assert StackReports(scan, stack, f) <==> StackReports(scan, rest, f) || Reports(scan, top.value, f);
    assert StackReports(scan, Popped(stack), f) <==> StackReports(scan, rest, f) || StackReports(scan, Children(top), f);
  }

  lemma {:induction false} WalkReports(scan: Scanner, stack: seq<Entry>, seen: nat, f: Finding)
    requires seen + StackNodes(stack) <= MAX_ITEMS && StackWithin(stack)
    ensures f in Walk(scan, stack, seen) <==> StackReports(scan, stack, f)
    decreases MAX_ITEMS - seen
  {
    if stack != [] {
      PopNodes(stack);
      PopWithin(stack);
      PopReports(scan, stack, f);
      WalkReports(scan, Popped(stack), seen + 1, f);
    }
  }

  /** A payload inside the bounds gets exactly the findings of its parts; one outside is flagged. */
  lemma FindingsExact(scan: Scanner, v: Value, f: Finding)
    ensures Nodes(v) <= MAX_ITEMS && Within(v, MAX_DEPTH) ==> (f in Findings(scan, v) <==> Reports(scan, v, f))
    ensures !(Nodes(v) <= MAX_ITEMS && Within(v, MAX_DEPTH)) ==> Findings(scan, v) != {}
  {
    hide Nodes, Within, AllClean, Walk, StackNodes, StackWithin, Reports;
    if Nodes(v) <= MAX_ITEMS && Within(v, MAX_DEPTH) {
      Single(scan, Entry(v, 0));
      WalkReports(scan, [Entry(v, 0)], 0, f);
      var stack := [Entry(v, 0)];
      assert stack[0] in stack;
    }
    NoFindingsExactlyWhenClean(scan, v);
  }
}

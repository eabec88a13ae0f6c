/**
 Canonical JSON in the web console: `ordered` in apps/web/rule-console.js and `canonical` in
 apps/web/path-templates.js.

 Objects list their members in enumeration order. Sorting the keys and rebuilding the object places every key by
 one fixed total order, `Enumerated`; the lemmas hold for any such order.
 */
module CanonicalJson {
  import opened Outcomes
  import opened Decimals
  import opened Text

  // Numbers are kept as JSON.stringify writes them.
  datatype Json = Null | Bool(truth: bool) | Number(literal: string) | Str(text: string) | Array(items: Items) | Object(members: Members)

  datatype Items = NoItems | Item(head: Json, tail: Items)

  datatype Members = NoMembers | Member(key: string, value: Json, rest: Members)

  type Order = (string, string) -> bool

  ghost predicate IsOrder(before: Order) {
    && (forall a {:trigger before(a, a)} :: !before(a, a))
    && (forall a, b, c {:trigger before(a, b), before(b, c)} :: before(a, b) && before(b, c) ==> before(a, c))
    && forall a, b {:trigger before(a, b)} :: before(a, b) || before(b, a) || a == b
  }

  // Array-index keys.
  predicate IsIndex(key: string) {
    key != "" && AllDigits(key) && Natural(key) < 0xFFFF_FFFF && Decimal(Natural(key)) == key
  }

  // Where JavaScript enumerates a key of an object rebuilt from sorted entries: indices in numeric order, then
  // the rest as sorted, by code unit.
  predicate Enumerated(a: string, b: string) {
    if IsIndex(a) && IsIndex(b) then Natural(a) < Natural(b)
    else IsIndex(a) || (!IsIndex(b) && Less(a, b))
  }

  lemma EnumerationIsAnOrder()
    ensures IsOrder(Enumerated)
  {
    forall a {:trigger Enumerated(a, a)} ensures !Enumerated(a, a) {
      CompareEqual(a, a);
    }
    forall a, b, c {:trigger Enumerated(a, b), Enumerated(b, c)} | Enumerated(a, b) && Enumerated(b, c) ensures Enumerated(a, c) {
      if Less(a, b) && Less(b, c) {
        LessTransitive(a, b, c);
      }
    }
    forall a, b {:trigger Enumerated(a, b)} ensures Enumerated(a, b) || Enumerated(b, a) || a == b {
      CompareEqual(a, b);
    }
    assert IsOrder(Enumerated);
  }

  // ---- objects ----

  function Keys(m: Members): set<string> {
    if m.NoMembers? then {} else {m.key} + Keys(m.rest)
  }

  function Find(m: Members, key: string): (r: Option<Json>)
    ensures r.Some? <==> key in Keys(m)
  {
    if m.NoMembers? then None else if m.key == key then Some(m.value) else Find(m.rest, key)
  }

  predicate DistinctKeys(m: Members) {
    m.NoMembers? || (m.key !in Keys(m.rest) && DistinctKeys(m.rest))
  }

  // A JSON value as the engine holds it: no object repeats a key.
  predicate WellFormed(v: Json) {
    match v
    case Array(items) => WellFormedItems(items)
    case Object(members) => DistinctKeys(members) && WellFormedMembers(members)
    case _ => true
  }

  predicate WellFormedItems(items: Items) {
    items.NoItems? || (WellFormed(items.head) && WellFormedItems(items.tail))
  }

  predicate WellFormedMembers(m: Members) {
    m.NoMembers? || (WellFormed(m.value) && WellFormedMembers(m.rest))
  }

  // ---- sorting members ----

  function Insert(before: Order, key: string, value: Json, m: Members): Members {
    if m.NoMembers? || before(key, m.key) then Member(key, value, m) else Member(m.key, m.value, Insert(before, key, value, m.rest))
  }

  function Sort(before: Order, m: Members): Members {
    if m.NoMembers? then NoMembers else Insert(before, m.key, m.value, Sort(before, m.rest))
  }

  // Strictly ascending keys.
  predicate Sorted(before: Order, m: Members) {
    m.NoMembers? || ((m.rest.Member? ==> before(m.key, m.rest.key)) && Sorted(before, m.rest))
  }

  lemma {:induction false} SortedIsBelow(before: Order, m: Members, key: string)
    requires IsOrder(before) && Sorted(before, m) && m.Member? && key in Keys(m.rest)
    ensures before(m.key, key)
  {
    if key != m.rest.key {
      SortedIsBelow(before, m.rest, key);
      assert before(m.key, m.rest.key) && before(m.rest.key, key);
    }
  }

  lemma {:induction false} InsertKeeps(before: Order, key: string, value: Json, m: Members, other: string)
    requires key !in Keys(m)
    ensures Find(Insert(before, key, value, m), other) == if other == key then Some(value) else Find(m, other)
  {
    if m.Member? && !before(key, m.key) {
      InsertKeeps(before, key, value, m.rest, other);
    }
  }

  lemma {:induction false} InsertSorts(before: Order, key: string, value: Json, m: Members)
    requires IsOrder(before) && Sorted(before, m) && key !in Keys(m)
    ensures Sorted(before, Insert(before, key, value, m))
  {
    if m.Member? && !before(key, m.key) {
      InsertSorts(before, key, value, m.rest);
      assert before(m.key, key);
    }
  }

  lemma {:induction false} SortKeeps(before: Order, m: Members, key: string)
    requires DistinctKeys(m)
    ensures Find(Sort(before, m), key) == Find(m, key)
  {
    if m.Member? {
      SortKeeps(before, m.rest, key);
      SortKeeps(before, m.rest, m.key);
      InsertKeeps(before, m.key, m.value, Sort(before, m.rest), key);
    }
  }

  lemma {:induction false} SortSorts(before: Order, m: Members)
    requires IsOrder(before) && DistinctKeys(m)
    ensures Sorted(before, Sort(before, m))
  {
    if m.Member? {
      SortSorts(before, m.rest);
      SortKeeps(before, m.rest, m.key);
      InsertSorts(before, m.key, m.value, Sort(before, m.rest));
    }
  }

  // A sorted list is determined by what it maps each key to.
  lemma {:induction false} SortedIsUnique(before: Order, m: Members, n: Members)
    requires IsOrder(before) && Sorted(before, m) && Sorted(before, n)
    requires forall key :: Find(m, key) == Find(n, key)
    ensures m == n
  {
    if m.NoMembers? || n.NoMembers? {
      assert n.Member? ==> Find(m, n.key) == Find(n, n.key);
      assert m.Member? ==> Find(m, m.key) == Find(n, m.key);
    } else {
      SameFirst(before, m, n);
      assert Find(m, m.key) == Find(n, m.key);
      forall key ensures Find(m.rest, key) == Find(n.rest, key) {
        assert Find(m, key) == Find(n, key);
        if key == m.key && key in Keys(m.rest) {
          SortedIsBelow(before, m, key);
        }
        if key == n.key && key in Keys(n.rest) {
          SortedIsBelow(before, n, key);
        }
      }
      SortedIsUnique(before, m.rest, n.rest);
    }
  }

  lemma SameFirst(before: Order, m: Members, n: Members)
    requires IsOrder(before) && Sorted(before, m) && Sorted(before, n) && m.Member? && n.Member?
    requires Find(m, m.key) == Find(n, m.key) && Find(m, n.key) == Find(n, n.key)
    ensures m.key == n.key
  {
    if m.key != n.key {
      SortedIsBelow(before, m, n.key);
      SortedIsBelow(before, n, m.key);
    }
  }

  lemma {:induction false} SortedStays(before: Order, m: Members)
    requires IsOrder(before) && Sorted(before, m)
    ensures DistinctKeys(m) && Sort(before, m) == m
  {
    if m.Member? {
      SortedStays(before, m.rest);
      if m.key in Keys(m.rest) {
        SortedIsBelow(before, m, m.key);
      }
    }
  }

  // ---- canonical form ----

  function Ordered(before: Order, v: Json): Json {
    match v
    case Array(items) => Array(OrderedItems(before, items))
    case Object(members) => Object(Sort(before, OrderedMembers(before, members)))
    case _ => v
  }

  function OrderedItems(before: Order, items: Items): Items {
    if items.NoItems? then NoItems else Item(Ordered(before, items.head), OrderedItems(before, items.tail))
  }

  function OrderedMembers(before: Order, m: Members): (r: Members)
    ensures Keys(r) == Keys(m) && (DistinctKeys(m) ==> DistinctKeys(r))
  {
    if m.NoMembers? then NoMembers else Member(m.key, Ordered(before, m.value), OrderedMembers(before, m.rest))
  }

  lemma {:induction false} OrderedMembersFind(before: Order, m: Members, key: string)
    ensures Find(OrderedMembers(before, m), key) == if key in Keys(m) then Some(Ordered(before, Find(m, key).value)) else None
  {
    if m.Member? {
      OrderedMembersFind(before, m.rest, key);
    }
  }

  // Differing only in the order of keys, at any depth.
  predicate Same(a: Json, b: Json) {
    match a
    case Array(items) => b.Array? && SameItems(items, b.items)
    case Object(members) => b.Object? && Keys(members) == Keys(b.members) && SameMembers(members, b.members)
    case _ => a == b
  }

  predicate SameItems(a: Items, b: Items) {
    if a.NoItems? then b.NoItems? else b.Item? && Same(a.head, b.head) && SameItems(a.tail, b.tail)
  }

  predicate SameMembers(a: Members, b: Members) {
    a.NoMembers? || (Find(b, a.key).Some? && Same(a.value, Find(b, a.key).value) && SameMembers(a.rest, b))
  }

  // ---- canonical equality is equality up to key order ----

  lemma {:induction false} OrderedIsCanonical(before: Order, a: Json, b: Json)
    requires IsOrder(before) && WellFormed(a) && WellFormed(b)
    ensures Ordered(before, a) == Ordered(before, b) <==> Same(a, b)
    decreases a
  {
    match a
    case Array(items) =>
      if b.Array? {
        ItemsAreCanonical(before, items, b.items);
      }
    case Object(members) =>
      if b.Object? {
        ObjectsAreCanonical(before, members, b.members);
      }
    case _ =>
  }

  lemma {:induction false} ItemsAreCanonical(before: Order, a: Items, b: Items)
    requires IsOrder(before) && WellFormedItems(a) && WellFormedItems(b)
    ensures OrderedItems(before, a) == OrderedItems(before, b) <==> SameItems(a, b)
    decreases a
  {
    if a.Item? && b.Item? {
      OrderedIsCanonical(before, a.head, b.head);
      ItemsAreCanonical(before, a.tail, b.tail);
    }
  }

  // Members in a agree with those in b exactly if their canonical forms do.
  lemma {:induction false} MembersAreCanonical(before: Order, a: Members, b: Members)
    requires IsOrder(before) && WellFormedMembers(a) && WellFormedMembers(b) && DistinctKeys(a) && Keys(a) <= Keys(b)
    ensures SameMembers(a, b) <==> forall key :: key in Keys(a) ==> Find(OrderedMembers(before, a), key) == Find(OrderedMembers(before, b), key)
    decreases a, 0
  {
    if a.Member? {
      MembersAreCanonical(before, a.rest, b);
      FoundIsWellFormed(b, a.key);
      OrderedIsCanonical(before, a.value, Find(b, a.key).value);
      forall key ensures Find(OrderedMembers(before, a), key) ==
          if key == a.key then Some(Ordered(before, a.value)) else Find(OrderedMembers(before, a.rest), key) {
      }
      OrderedMembersFind(before, b, a.key);
      assert a.key in Keys(a) && a.key !in Keys(a.rest);
    }
  }

  lemma {:induction false} FoundIsWellFormed(m: Members, key: string)
    requires WellFormedMembers(m) && key in Keys(m)
    ensures WellFormed(Find(m, key).value)
  {
    if m.key != key {
      FoundIsWellFormed(m.rest, key);
    }
  }

  lemma {:induction false} ObjectsAreCanonical(before: Order, a: Members, b: Members)
    requires IsOrder(before) && WellFormedMembers(a) && WellFormedMembers(b) && DistinctKeys(a) && DistinctKeys(b)
    ensures Sort(before, OrderedMembers(before, a)) == Sort(before, OrderedMembers(before, b)) <==>
            Keys(a) == Keys(b) && SameMembers(a, b)
    decreases a, 1
  {
    var p, q := OrderedMembers(before, a), OrderedMembers(before, b);
    forall key ensures Find(Sort(before, p), key) == Find(p, key) && Find(Sort(before, q), key) == Find(q, key) {
      SortKeeps(before, p, key);
      SortKeeps(before, q, key);
    }
    SortSorts(before, p);
    SortSorts(before, q);
    if Keys(a) == Keys(b) {
      MembersAreCanonical(before, a, b);
      if SameMembers(a, b) {
        forall key ensures Find(p, key) == Find(q, key) {
        }
        SortedIsUnique(before, Sort(before, p), Sort(before, q));
      }
    }
    if Sort(before, p) == Sort(before, q) {
      assert forall key :: Find(p, key) == Find(q, key);
      forall key ensures key in Keys(a) <==> key in Keys(b) {
        assert Find(p, key) == Find(q, key);
      }
    }
  }

  // ---- idempotence ----

  lemma {:induction false} OrderedTwice(before: Order, v: Json)
    requires IsOrder(before) && WellFormed(v)
    ensures Ordered(before, Ordered(before, v)) == Ordered(before, v)
    decreases v
  {
    match v
    case Array(items) => OrderedItemsTwice(before, items);
    case Object(members) =>
      var sorted := Sort(before, OrderedMembers(before, members));
      SortSorts(before, OrderedMembers(before, members));
      OrderedMembersStay(before, members);
      SortFixed(before, OrderedMembers(before, members));
      SortedStays(before, sorted);
    case _ =>
  }

  lemma {:induction false} OrderedItemsTwice(before: Order, items: Items)
    requires IsOrder(before) && WellFormedItems(items)
    ensures OrderedItems(before, OrderedItems(before, items)) == OrderedItems(before, items)
    decreases items
  {
    if items.Item? {
      OrderedTwice(before, items.head);
      OrderedItemsTwice(before, items.tail);
    }
  }

  // Members whose values are canonical already.
  predicate Fixed(before: Order, m: Members) {
    m.NoMembers? || (Ordered(before, m.value) == m.value && Fixed(before, m.rest))
  }

  lemma {:induction false} OrderedMembersStay(before: Order, m: Members)
    requires IsOrder(before) && WellFormedMembers(m)
    ensures Fixed(before, OrderedMembers(before, m))
    decreases m
  {
    if m.Member? {
      OrderedTwice(before, m.value);
      OrderedMembersStay(before, m.rest);
    }
  }

  lemma {:induction false} InsertFixed(before: Order, key: string, value: Json, m: Members)
    requires Fixed(before, m) && Ordered(before, value) == value
    ensures Fixed(before, Insert(before, key, value, m))
  {
    if m.Member? && !before(key, m.key) {
      InsertFixed(before, key, value, m.rest);
    }
  }

  lemma {:induction false} SortFixed(before: Order, m: Members)
    requires Fixed(before, m)
    ensures Fixed(before, Sort(before, m)) && OrderedMembers(before, Sort(before, m)) == Sort(before, m)
  {
    if m.Member? {
      SortFixed(before, m.rest);
      InsertFixed(before, m.key, m.value, Sort(before, m.rest));
    }
    FixedIsOrdered(before, Sort(before, m));
  }

  lemma {:induction false} FixedIsOrdered(before: Order, m: Members)
    requires Fixed(before, m)
    ensures OrderedMembers(before, m) == m
  {
    if m.Member? {
      FixedIsOrdered(before, m.rest);
    }
  }
}

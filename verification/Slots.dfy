/**
 The seen-maps every snapshot validator keeps: identifiers must ascend, and no logical or physical slot may be taken
 twice. The maps are keyed by slash-joined text.
 */
module Slots {
  import opened Outcomes
  import opened Text

  // What an assignment occupies. Transit keys its logical slots without a role.
  datatype Place = Place(id: string, forwardId: string, protocol: string, role: Option<string>, physical: string, port: nat)

  predicate CleanPlace(p: Place) {
    SlashFree(p.forwardId) && (p.role.Some? ==> SlashFree(p.protocol)) && SlashFree(p.physical)
  }

  function LogicalKey(p: Place): string {
    Join(p.forwardId, if p.role.Some? then Join(p.protocol, p.role.value) else p.protocol)
  }

  function PhysicalKey(p: Place): string {
    Join(p.physical, Decimal(p.port))
  }

  predicate SameLogical(p: Place, q: Place) {
    p.forwardId == q.forwardId && p.protocol == q.protocol && p.role == q.role
  }

  predicate SamePhysical(p: Place, q: Place) {
    p.physical == q.physical && p.port == q.port
  }

  // Slash-joined keys identify exactly the slots they name.
  lemma PlaceKeys(p: Place, q: Place)
    requires CleanPlace(p) && CleanPlace(q) && p.role.Some? == q.role.Some?
    ensures LogicalKey(p) == LogicalKey(q) <==> SameLogical(p, q)
    ensures PhysicalKey(p) == PhysicalKey(q) <==> SamePhysical(p, q)
  {
    if LogicalKey(p) == LogicalKey(q) {
      if p.role.Some? {
        JoinInjective(p.forwardId, Join(p.protocol, p.role.value), q.forwardId, Join(q.protocol, q.role.value));
        JoinInjective(p.protocol, p.role.value, q.protocol, q.role.value);
      } else {
        JoinInjective(p.forwardId, p.protocol, q.forwardId, q.protocol);
      }
    }
    if PhysicalKey(p) == PhysicalKey(q) {
      JoinInjective(p.physical, Decimal(p.port), q.physical, Decimal(q.port));
      DecimalInjective(p.port, q.port);
    }
  }

  predicate Elsewhere(p: Place, q: Place) {
    Less(p.id, q.id) && !SameLogical(p, q) && !SamePhysical(p, q)
  }

  // Identifiers ascend strictly, and no two places share a logical or physical slot.
  ghost predicate Separate(places: seq<Place>) {
    forall i, j :: 0 <= i < j < |places| ==> Elsewhere(places[i], places[j])
  }

  // An identifier with the two keys it occupies.
  datatype Slot = Slot(id: string, logical: string, physical: string)

  predicate Disjoint(a: Slot, b: Slot) {
    Less(a.id, b.id) && a.logical != b.logical && a.physical != b.physical
  }

  ghost predicate Distinct(slots: seq<Slot>) {
    forall i, j :: 0 <= i < j < |slots| ==> Disjoint(slots[i], slots[j])
  }

  // Every place with its keys. Two keys are equal exactly if the slots they name are.
  method Keys(places: seq<Place>) returns (slots: seq<Slot>)
    requires forall i :: 0 <= i < |places| ==> CleanPlace(places[i])
    requires forall i, j :: 0 <= i < |places| && 0 <= j < |places| ==> places[i].role.Some? == places[j].role.Some?
    ensures |slots| == |places| && forall i :: 0 <= i < |slots| ==> slots[i].id == places[i].id
    ensures Distinct(slots) <==> Separate(places)
  {
    slots := seq(|places|, i requires 0 <= i < |places| => Slot(places[i].id, LogicalKey(places[i]), PhysicalKey(places[i])));
    forall i, j | 0 <= i < j < |places|
      ensures Disjoint(slots[i], slots[j]) <==> Elsewhere(places[i], places[j])
    {
      PlaceKeys(places[i], places[j]);
    }
  }

  function Logical(slots: seq<Slot>): set<string> {
    set k | 0 <= k < |slots| :: slots[k].logical
  }

  function Physical(slots: seq<Slot>): set<string> {
    set k | 0 <= k < |slots| :: slots[k].physical
  }

  function Previous(slots: seq<Slot>): string {
    if slots == [] then "" else slots[|slots| - 1].id
  }

  // The one test a validator makes before it books a slot.
  predicate Free(slots: seq<Slot>, s: Slot) {
    Less(Previous(slots), s.id) && s.logical !in Logical(slots) && s.physical !in Physical(slots)
  }

  lemma KeysGrow(slots: seq<Slot>, s: Slot)
    ensures Logical(slots + [s]) == Logical(slots) + {s.logical} && Physical(slots + [s]) == Physical(slots) + {s.physical}
  {
    var now := slots + [s];
    assert now[|slots|] == s && forall k :: 0 <= k < |slots| ==> now[k] == slots[k];
    forall key | key in Logical(slots) ensures key in Logical(now) {
      var k :| 0 <= k < |slots| && key == slots[k].logical;
      assert now[k] == slots[k];
    }
    forall key | key in Physical(slots) ensures key in Physical(now) {
      var k :| 0 <= k < |slots| && key == slots[k].physical;
      assert now[k] == slots[k];
    }
    assert now[|slots|].logical in Logical(now) && now[|slots|].physical in Physical(now);
  }

  // Comparing with the last identifier and the key sets is comparing with every earlier slot.
  lemma FreeMeansApart(slots: seq<Slot>, s: Slot)
    requires Distinct(slots)
    ensures Free(slots, s) <==> s.id != "" && Distinct(slots + [s])
  {
    CompareEqual(Previous(slots), s.id);
    CompareEqual("", s.id);
    if Free(slots, s) {
      forall k | 0 <= k < |slots| ensures Disjoint(slots[k], s) {
        assert slots[k].logical in Logical(slots) && slots[k].physical in Physical(slots);
        if k < |slots| - 1 {
          LessTransitive(slots[k].id, slots[|slots| - 1].id, s.id);
        }
      }
    }
    if Distinct(slots + [s]) {
      forall k | 0 <= k < |slots| ensures Disjoint(slots[k], s) {
        assert Disjoint((slots + [s])[k], (slots + [s])[|slots|]);
      }
    }
  }

  // One turn of the loop: the test is exact, and booking the slot brings the maps up to date.
  lemma Book(slots: seq<Slot>, i: nat)
    requires i < |slots| && Distinct(slots[..i])
    ensures Free(slots[..i], slots[i]) ==> slots[i].id != "" && Distinct(slots[..i + 1])
    ensures !Free(slots[..i], slots[i]) ==> slots[i].id == "" || !Distinct(slots)
    ensures Logical(slots[..i + 1]) == Logical(slots[..i]) + {slots[i].logical}
    ensures Physical(slots[..i + 1]) == Physical(slots[..i]) + {slots[i].physical}
    ensures Previous(slots[..i + 1]) == slots[i].id
  {
    assert slots[..i + 1] == slots[..i] + [slots[i]];
    KeysGrow(slots[..i], slots[i]);
    FreeMeansApart(slots[..i], slots[i]);
    if Distinct(slots) {
      assert forall j, k :: 0 <= j < k <= i ==> Disjoint(slots[j], slots[k]);
    }
  }

  // The maps after the first `i` slots, all of them apart.
  ghost predicate Booked(slots: seq<Slot>, i: nat, logical: set<string>, physical: set<string>, previous: string)
    requires i <= |slots|
  {
    logical == Logical(slots[..i]) && physical == Physical(slots[..i]) && previous == Previous(slots[..i]) && Distinct(slots[..i])
  }

  method TryBook(slots: seq<Slot>, i: nat, logical: set<string>, physical: set<string>, previous: string)
    returns (free: bool, l: set<string>, p: set<string>)
    requires i < |slots| && Booked(slots, i, logical, physical, previous)
    ensures free ==> slots[i].id != "" && Booked(slots, i + 1, l, p, slots[i].id)
    ensures !free ==> slots[i].id == "" || !Distinct(slots)
  {
    Book(slots, i);
    l, p := logical, physical;
    if !Less(previous, slots[i].id) || slots[i].logical in logical || slots[i].physical in physical {
      return false, l, p;
    }
    return true, logical + {slots[i].logical}, physical + {slots[i].physical};
  }
}

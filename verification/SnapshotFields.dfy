/** The slot and retirement rules of the three snapshot formats, written out over the fields of their own messages. */
module SnapshotFields {
  import opened Text
  import opened Slots
  import opened Retirements
  import opened Multihop
  import V2 = SnapshotV2
  import V3 = SnapshotV3
  import Transit

  // Protocol first, then port, generation and identifier.
  predicate Ascends(p: string, port: nat, generation: nat, id: string, q: string, port2: nat, generation2: nat, id2: string) {
    if p != q then Less(p, q)
    else if port != port2 then port < port2
    else if generation != generation2 then generation < generation2
    else Less(id, id2)
  }

  lemma AscendsIsBelow(a: Rank, b: Rank)
    ensures Below(a, b) <==> Ascends(a.protocol, a.port, a.generation, a.assignmentId, b.protocol, b.port, b.generation, b.assignmentId)
  {
    CompareEqual(a.protocol, b.protocol);
  }

  // ---- ADP/3 ----

  ghost predicate Sorted3(ts: seq<V3.Tombstone>) {
    forall i, j :: 0 <= i < j < |ts| ==>
      && Ascends(ts[i].physicalProtocol, ts[i].port, ts[i].retirementGeneration, ts[i].assignmentId,
                 ts[j].physicalProtocol, ts[j].port, ts[j].retirementGeneration, ts[j].assignmentId)
      && !(ts[i].physicalProtocol == ts[j].physicalProtocol && ts[i].port == ts[j].port && ts[i].bindingFence == ts[j].bindingFence)
  }

  lemma Sorted3IsInOrder(ts: seq<V3.Tombstone>)
    ensures Sorted3(ts) <==> InOrder(V3.Marks(ts))
  {
    var marks := V3.Marks(ts);
    forall i, j | 0 <= i < j < |ts| ensures Below(marks[i].rank, marks[j].rank) <==>
        Ascends(ts[i].physicalProtocol, ts[i].port, ts[i].retirementGeneration, ts[i].assignmentId,
                ts[j].physicalProtocol, ts[j].port, ts[j].retirementGeneration, ts[j].assignmentId) {
      AscendsIsBelow(marks[i].rank, marks[j].rank);
    }
  }

  // Retirements are accepted exactly if each names the protocol its role listens on, they ascend, none repeats a retired
  // fence or comes from the future, and every live assignment of a retired physical slot has a higher fence.
  lemma Retirements3(generation: nat, live: seq<Assignment>, ts: seq<V3.Tombstone>)
    ensures V3.TombstonesOk(generation, live, ts) <==>
      && (forall k :: 0 <= k < |ts| ==>
            ts[k].physicalProtocol == (if ts[k].role in {"relay-egress", "multihop-egress", "multihop-transit"} then "tcp" else ts[k].protocol))
      && Sorted3(ts)
      && (forall k :: 0 <= k < |ts| ==> ts[k].retirementGeneration <= generation)
      && forall i, k :: 0 <= i < |live| && 0 <= k < |ts| ==>
           live[i].resource.protocol == ts[k].physicalProtocol && live[i].resource.port == ts[k].port ==>
             live[i].bindingFence > ts[k].bindingFence
  {
    var (lives, marks) := (V3.Lives(live), V3.Marks(ts));
    Sorted3IsInOrder(ts);
    Protocols3(ts);
    assert forall k {:trigger ts[k]} :: 0 <= k < |ts| ==> marks[k] == V3.MarkOf(ts[k]);
    assert forall i {:trigger live[i]} :: 0 <= i < |live| ==> lives[i] == V3.LiveOf(live[i]);
    FencedByIndex(lives, marks);
  }

  lemma Protocols3(ts: seq<V3.Tombstone>)
    ensures (forall k :: 0 <= k < |ts| ==> V3.RightProtocol(ts, k)) <==>
      forall k :: 0 <= k < |ts| ==>
        ts[k].physicalProtocol == (if ts[k].role in {"relay-egress", "multihop-egress", "multihop-transit"} then "tcp" else ts[k].protocol)
  {
    forall k | 0 <= k < |ts| ensures V3.RightProtocol(ts, k) <==>
        (ts[k].physicalProtocol == (if ts[k].role in {"relay-egress", "multihop-egress", "multihop-transit"} then "tcp" else ts[k].protocol)) {
    }
  }

  // A retirement list is acceptable exactly if it is in order, in time, and no pair revives.
  lemma FencedByIndex(lives: seq<Live>, marks: seq<Mark>)
    ensures forall generation: nat :: Acceptable(generation, lives, marks) <==>
      && InOrder(marks) && (forall k :: 0 <= k < |marks| ==> marks[k].rank.generation <= generation)
      && forall i, k :: 0 <= i < |lives| && 0 <= k < |marks| ==> !Revives(lives[i], marks[k])
  {
    assert (forall k :: 0 <= k < |marks| ==> Fenced(lives, marks[k])) <==>
      forall i, k :: 0 <= i < |lives| && 0 <= k < |marks| ==> !Revives(lives[i], marks[k]);
  }

  // The retirement of an accepted direct or multi-hop assignment names the very protocol it listened on.
  lemma RetiresItsListener(env: V3.Env3, s: V3.Snapshot, i: nat, ts: seq<V3.Tombstone>, k: nat)
    requires i < |s.assignments| && k < |ts| && V3.Fits(env, s, i)
    requires s.assignments[i].role == "direct" || s.assignments[i].driverId == "native.multihop.v1"
    requires ts[k].role == s.assignments[i].role && ts[k].protocol == s.assignments[i].protocol
    ensures V3.RightProtocol(ts, k) <==> ts[k].physicalProtocol == s.assignments[i].resource.protocol
  {
    assert "relay-egress"[0] == 'r' && "direct"[0] == 'd' && "multihop-ingress"[0] == 'm';
    assert "multihop-ingress"[9] == 'i' && "multihop-transit"[9] == 't' && "multihop-egress"[9] == 'e';
  }

  // Assignments are apart exactly if their identifiers ascend and no two share forward, protocol and role or a listener.
  lemma Slots3(live: seq<Assignment>)
    ensures Separate(V3.Places(live)) <==> forall i, j :: 0 <= i < j < |live| ==>
      && Less(live[i].assignmentId, live[j].assignmentId)
      && !(live[i].forwardId == live[j].forwardId && live[i].protocol == live[j].protocol && live[i].role == live[j].role)
      && !(live[i].resource.protocol == live[j].resource.protocol && live[i].resource.port == live[j].resource.port)
  {
    var places := V3.Places(live);
    assert forall i, j :: 0 <= i < j < |live| ==> (Elsewhere(places[i], places[j]) <==>
      && Less(live[i].assignmentId, live[j].assignmentId)
      && !(live[i].forwardId == live[j].forwardId && live[i].protocol == live[j].protocol && live[i].role == live[j].role)
      && !(live[i].resource.protocol == live[j].resource.protocol && live[i].resource.port == live[j].resource.port));
  }

  // ---- ADP/2 ----

  ghost predicate Sorted2(ts: seq<V2.Tombstone>) {
    forall i, j :: 0 <= i < j < |ts| ==>
      && Ascends(ts[i].protocol, ts[i].port, ts[i].retirementGeneration, ts[i].assignmentId,
                 ts[j].protocol, ts[j].port, ts[j].retirementGeneration, ts[j].assignmentId)
      && !(ts[i].protocol == ts[j].protocol && ts[i].port == ts[j].port && ts[i].bindingFence == ts[j].bindingFence)
  }

  lemma Sorted2IsInOrder(ts: seq<V2.Tombstone>)
    ensures Sorted2(ts) <==> InOrder(V2.Marks(ts))
  {
    var marks := V2.Marks(ts);
    forall i, j | 0 <= i < j < |ts| ensures Below(marks[i].rank, marks[j].rank) <==>
        Ascends(ts[i].protocol, ts[i].port, ts[i].retirementGeneration, ts[i].assignmentId,
                ts[j].protocol, ts[j].port, ts[j].retirementGeneration, ts[j].assignmentId) {
      AscendsIsBelow(marks[i].rank, marks[j].rank);
    }
  }

  lemma Retirements2(generation: nat, live: seq<V2.Assignment>, ts: seq<V2.Tombstone>)
    ensures Acceptable(generation, V2.Lives(live), V2.Marks(ts)) <==>
      && Sorted2(ts) && (forall k :: 0 <= k < |ts| ==> ts[k].retirementGeneration <= generation)
      && forall i, k :: 0 <= i < |live| && 0 <= k < |ts| && live[i].protocol == ts[k].protocol && live[i].port == ts[k].port ==>
                        live[i].bindingFence > ts[k].bindingFence
  {
    var (lives, marks) := (V2.Lives(live), V2.Marks(ts));
    Sorted2IsInOrder(ts);
    assert forall k {:trigger ts[k]} :: 0 <= k < |ts| ==> marks[k] == Mark(V2.RankOf(ts[k]), ts[k].protocol, ts[k].bindingFence);
    assert forall i {:trigger live[i]} :: 0 <= i < |live| ==> lives[i] == Live(live[i].protocol, live[i].port, live[i].bindingFence);
    FencedByIndex(lives, marks);
  }

  lemma Slots2(live: seq<V2.Assignment>)
    ensures Separate(V2.Places(live)) <==> forall i, j :: 0 <= i < j < |live| ==>
      && Less(live[i].assignmentId, live[j].assignmentId)
      && !(live[i].forwardId == live[j].forwardId && live[i].protocol == live[j].protocol && live[i].role == live[j].role)
      && !(live[i].protocol == live[j].protocol && live[i].port == live[j].port)
  {
    var places := V2.Places(live);
    assert forall i, j :: 0 <= i < j < |live| ==> (Elsewhere(places[i], places[j]) <==>
      && Less(live[i].assignmentId, live[j].assignmentId)
      && !(live[i].forwardId == live[j].forwardId && live[i].protocol == live[j].protocol && live[i].role == live[j].role)
      && !(live[i].protocol == live[j].protocol && live[i].port == live[j].port));
  }

  // ---- Transit ----

  // The order looks at the named protocol, the retired fence only at port and fence.
  ghost predicate SortedTransit(ts: seq<Transit.Tombstone>) {
    forall i, j :: 0 <= i < j < |ts| ==>
      && Ascends(ts[i].physicalProtocol, ts[i].port, ts[i].retirementGeneration, ts[i].assignmentId,
                 ts[j].physicalProtocol, ts[j].port, ts[j].retirementGeneration, ts[j].assignmentId)
      && !(ts[i].port == ts[j].port && ts[i].bindingFence == ts[j].bindingFence)
  }

  lemma SortedTransitIsInOrder(ts: seq<Transit.Tombstone>)
    ensures SortedTransit(ts) <==> InOrder(Transit.Marks(ts))
  {
    var marks := Transit.Marks(ts);
    forall i, j | 0 <= i < j < |ts| ensures Below(marks[i].rank, marks[j].rank) <==>
        Ascends(ts[i].physicalProtocol, ts[i].port, ts[i].retirementGeneration, ts[i].assignmentId,
                ts[j].physicalProtocol, ts[j].port, ts[j].retirementGeneration, ts[j].assignmentId) {
      AscendsIsBelow(marks[i].rank, marks[j].rank);
    }
  }

  // In Transit a port is the physical slot, whatever protocol a retirement names.
  lemma RetirementsTransit(generation: nat, live: seq<Transit.Assignment>, ts: seq<Transit.Tombstone>)
    ensures Acceptable(generation, Transit.Lives(live), Transit.Marks(ts)) <==>
      && SortedTransit(ts) && (forall k :: 0 <= k < |ts| ==> ts[k].retirementGeneration <= generation)
      && forall i, k :: 0 <= i < |live| && 0 <= k < |ts| && live[i].port == ts[k].port ==> live[i].bindingFence > ts[k].bindingFence
  {
    var (lives, marks) := (Transit.Lives(live), Transit.Marks(ts));
    SortedTransitIsInOrder(ts);
    assert forall k {:trigger ts[k]} :: 0 <= k < |ts| ==> marks[k] == Mark(Transit.RankOf(ts[k]), "tcp", ts[k].bindingFence);
    assert forall i {:trigger live[i]} :: 0 <= i < |live| ==> lives[i] == Live("tcp", live[i].port, live[i].bindingFence);
    FencedByIndex(lives, marks);
  }

  lemma SlotsTransit(live: seq<Transit.Assignment>)
    ensures Separate(Transit.Places(live)) <==> forall i, j :: 0 <= i < j < |live| ==>
      && Less(live[i].assignmentId, live[j].assignmentId)
      && !(live[i].forwardId == live[j].forwardId && live[i].protocol == live[j].protocol) && live[i].port != live[j].port
  {
    var places := Transit.Places(live);
    assert forall i, j :: 0 <= i < j < |live| ==> (Elsewhere(places[i], places[j]) <==>
      && Less(live[i].assignmentId, live[j].assignmentId)
      && !(live[i].forwardId == live[j].forwardId && live[i].protocol == live[j].protocol) && live[i].port != live[j].port);
  }
}

/**
 The ADP/3 validator checks direct assignments one at a time, plus an empty snapshot for the time range. These
 lemmas show that the pieces add up to one ADP/2 snapshot, and that a snapshot holds a path at most once.
 */
module SnapshotComposition {
  import opened Outcomes
  import opened Text
  import opened Multihop
  import opened Retirements
  import opened Slots
  import opened SnapshotV3
  import V2 = SnapshotV2

  // ---- selecting from a sequence keeps its order ----

  function Keep<T>(xs: seq<T>, wanted: T -> bool): (r: seq<T>)
    ensures forall i :: 0 <= i < |r| ==> wanted(r[i])
  {
    if xs == [] then [] else (if wanted(xs[0]) then [xs[0]] else []) + Keep(xs[1..], wanted)
  }

  // Where the i-th kept element stood.
  function Origin<T>(xs: seq<T>, wanted: T -> bool, i: nat): (r: nat)
    requires i < |Keep(xs, wanted)|
    ensures r < |xs| && wanted(xs[r]) && xs[r] == Keep(xs, wanted)[i]
  {
    if !wanted(xs[0]) then 1 + Origin(xs[1..], wanted, i)
    else if i == 0 then 0
    else 1 + Origin(xs[1..], wanted, i - 1)
  }

  lemma {:induction false} OriginAscends<T>(xs: seq<T>, wanted: T -> bool, i: nat, j: nat)
    requires i < j < |Keep(xs, wanted)|
    ensures Origin(xs, wanted, i) < Origin(xs, wanted, j)
  {
    if !wanted(xs[0]) {
      OriginAscends(xs[1..], wanted, i, j);
    } else if i > 0 {
      OriginAscends(xs[1..], wanted, i - 1, j - 1);
    }
  }

  lemma {:induction false} KeepsAllWanted<T>(xs: seq<T>, wanted: T -> bool, k: nat)
    requires k < |xs| && wanted(xs[k])
    ensures xs[k] in Keep(xs, wanted)
  {
    if k > 0 {
      KeepsAllWanted(xs[1..], wanted, k - 1);
    }
  }

  // ---- the merged snapshot ----

  predicate IsDirectTombstone(t: SnapshotV3.Tombstone) {
    t.role == "direct"
  }

  function Directs(s: SnapshotV3.Snapshot): (r: seq<Assignment>)
    ensures forall i :: 0 <= i < |r| ==> IsDirect(r[i])
  {
    Keep(s.assignments, IsDirect)
  }

  function DownAll(assignments: seq<Assignment>): seq<V2.Assignment>
    requires forall i :: 0 <= i < |assignments| ==> assignments[i].config.Direct?
  {
    seq(|assignments|, i requires 0 <= i < |assignments| => Down(assignments[i]))
  }

  function DownTombstones(tombstones: seq<SnapshotV3.Tombstone>): seq<V2.Tombstone> {
    seq(|tombstones|, i requires 0 <= i < |tombstones| => DownTombstone(tombstones[i]))
  }

  // All direct assignments and direct retirements as one ADP/2 snapshot.
  function Merged(env: Env3, s: SnapshotV3.Snapshot): V2.Snapshot {
    Message(env, s, DownAll(Directs(s)), DownTombstones(Keep(s.tombstones, IsDirectTombstone)))
  }

  // ---- composition ----

  // Checked one at a time, the direct assignments still form one acceptable ADP/2 snapshot, and none is lost.
  lemma PiecewiseComposes(env: Env3, s: SnapshotV3.Snapshot)
    requires SnapshotV3.Acceptable(env, s)
    ensures V2.Acceptable(env.v2, Merged(env, s))
    ensures SnapshotV3.Clean(s) ==> V2.Clean(Merged(env, s))
    ensures forall k :: 0 <= k < |s.assignments| && s.assignments[k].role == "direct" ==>
              s.assignments[k].config.Direct? && Down(s.assignments[k]) in Merged(env, s).assignments
    ensures forall k :: 0 <= k < |s.tombstones| && s.tombstones[k].role == "direct" ==>
              DownTombstone(s.tombstones[k]) in Merged(env, s).tombstones
  {
    var m := Merged(env, s);
    Sealed(env, s, m.assignments, m.tombstones);
    AssignmentsCompose(env, s);
    TombstonesCompose(env, s);
    MergedIsClean(env, s);
    forall k | 0 <= k < |s.assignments| && s.assignments[k].role == "direct"
      ensures s.assignments[k].config.Direct? && Down(s.assignments[k]) in m.assignments
    {
      DirectIsKept(env, s, k);
    }
    forall k | 0 <= k < |s.tombstones| && s.tombstones[k].role == "direct"
      ensures DownTombstone(s.tombstones[k]) in m.tombstones
    {
      RetirementIsKept(s, k);
    }
  }

  lemma DirectIsKept(env: Env3, s: SnapshotV3.Snapshot, k: nat)
    requires RolesOk(env, s) && k < |s.assignments| && s.assignments[k].role == "direct"
    ensures s.assignments[k].config.Direct? && Down(s.assignments[k]) in DownAll(Directs(s))
  {
    assert Fits(env, s, k);
    KeepsAllWanted(s.assignments, IsDirect, k);
    var i :| 0 <= i < |Directs(s)| && Directs(s)[i] == s.assignments[k];
    assert DownAll(Directs(s))[i] == Down(s.assignments[k]);
  }

  lemma RetirementIsKept(s: SnapshotV3.Snapshot, k: nat)
    requires k < |s.tombstones| && s.tombstones[k].role == "direct"
    ensures DownTombstone(s.tombstones[k]) in DownTombstones(Keep(s.tombstones, IsDirectTombstone))
  {
    KeepsAllWanted(s.tombstones, IsDirectTombstone, k);
    var kept := Keep(s.tombstones, IsDirectTombstone);
    var i :| 0 <= i < |kept| && kept[i] == s.tombstones[k];
    assert DownTombstones(kept)[i] == DownTombstone(s.tombstones[k]);
  }

  lemma DirectPair(s: SnapshotV3.Snapshot, i: nat, j: nat) returns (p: nat, q: nat)
    requires i < j < |Directs(s)|
    ensures p < q < |s.assignments| && IsDirect(s.assignments[p]) && IsDirect(s.assignments[q])
    ensures DownAll(Directs(s))[i] == Down(s.assignments[p]) && DownAll(Directs(s))[j] == Down(s.assignments[q])
  {
    p, q := Origin(s.assignments, IsDirect, i), Origin(s.assignments, IsDirect, j);
    OriginAscends(s.assignments, IsDirect, i, j);
  }

  lemma DirectAt(s: SnapshotV3.Snapshot, i: nat) returns (p: nat)
    requires i < |Directs(s)|
    ensures p < |s.assignments| && IsDirect(s.assignments[p]) && DownAll(Directs(s))[i] == Down(s.assignments[p])
  {
    p := Origin(s.assignments, IsDirect, i);
  }

  lemma AssignmentsCompose(env: Env3, s: SnapshotV3.Snapshot)
    requires RolesOk(env, s) && Separate(SnapshotV3.Places(s.assignments))
    ensures V2.AssignmentsOk(env.v2, DownAll(Directs(s)))
  {
    var d := DownAll(Directs(s));
    forall i | 0 <= i < |d| ensures V2.Fits(env.v2, d, i) {
      var p := DirectAt(s, i);
      assert Fits(env, s, p);
    }
    forall i, j | 0 <= i < j < |d| ensures Elsewhere(V2.Places(d)[i], V2.Places(d)[j]) {
      DirectsStaySeparate(env, s, i, j);
    }
  }

  // A direct assignment occupies the same places, and fences the same slot, in either version.
  lemma DirectPlace(env: Env3, s: SnapshotV3.Snapshot, p: nat)
    requires RolesOk(env, s) && p < |s.assignments| && IsDirect(s.assignments[p])
    ensures var a := s.assignments[p];
            V2.PlaceOf(Down(a)) == SnapshotV3.PlaceOf(a) && Live(Down(a).protocol, Down(a).port, Down(a).bindingFence) == LiveOf(a)
  {
    assert Fits(env, s, p);
  }

  lemma DirectsStaySeparate(env: Env3, s: SnapshotV3.Snapshot, i: nat, j: nat)
    requires RolesOk(env, s) && Separate(SnapshotV3.Places(s.assignments)) && i < j < |Directs(s)|
    ensures var d := DownAll(Directs(s)); Elsewhere(V2.Places(d)[i], V2.Places(d)[j])
  {
    var p, q := DirectPair(s, i, j);
    DirectPlace(env, s, p);
    DirectPlace(env, s, q);
    assert Elsewhere(SnapshotV3.Places(s.assignments)[p], SnapshotV3.Places(s.assignments)[q]);
  }

  lemma TombstonesCompose(env: Env3, s: SnapshotV3.Snapshot)
    requires RolesOk(env, s) && SnapshotV3.TombstonesOk(s.snapshotGeneration, s.assignments, s.tombstones)
    ensures Retirements.Acceptable(s.snapshotGeneration, V2.Lives(DownAll(Directs(s))),
                                   V2.Marks(DownTombstones(Keep(s.tombstones, IsDirectTombstone))))
  {
    var marks := V2.Marks(DownTombstones(Keep(s.tombstones, IsDirectTombstone)));
    forall i, j | 0 <= i < j < |marks| ensures Below(marks[i].rank, marks[j].rank) && !SameFence(marks[i], marks[j]) {
      RetirementsStayOrdered(s, i, j);
    }
    forall i | 0 <= i < |marks|
      ensures marks[i].rank.generation <= s.snapshotGeneration && Fenced(V2.Lives(DownAll(Directs(s))), marks[i])
    {
      FencesStayAbove(env, s, i);
    }
  }

  // A direct retirement is the same mark in either version.
  lemma DirectMark(s: SnapshotV3.Snapshot, i: nat) returns (p: nat)
    requires SnapshotV3.TombstonesOk(s.snapshotGeneration, s.assignments, s.tombstones)
    requires i < |Keep(s.tombstones, IsDirectTombstone)|
    ensures p == Origin(s.tombstones, IsDirectTombstone, i) && s.tombstones[p].physicalProtocol == s.tombstones[p].protocol
    ensures V2.Marks(DownTombstones(Keep(s.tombstones, IsDirectTombstone)))[i] == SnapshotV3.Marks(s.tombstones)[p]
  {
    p := Origin(s.tombstones, IsDirectTombstone, i);
    assert RightProtocol(s.tombstones, p);
    assert |s.tombstones[p].role| == 6;
  }

  lemma RetirementsStayOrdered(s: SnapshotV3.Snapshot, i: nat, j: nat)
    requires SnapshotV3.TombstonesOk(s.snapshotGeneration, s.assignments, s.tombstones)
    requires i < j < |Keep(s.tombstones, IsDirectTombstone)|
    ensures var marks := V2.Marks(DownTombstones(Keep(s.tombstones, IsDirectTombstone)));
            Below(marks[i].rank, marks[j].rank) && !SameFence(marks[i], marks[j])
  {
    var p := DirectMark(s, i);
    var q := DirectMark(s, j);
    OriginAscends(s.tombstones, IsDirectTombstone, i, j);
    var all := SnapshotV3.Marks(s.tombstones);
    assert Below(all[p].rank, all[q].rank) && !SameFence(all[p], all[q]);
  }

  lemma FencesStayAbove(env: Env3, s: SnapshotV3.Snapshot, i: nat)
    requires RolesOk(env, s) && SnapshotV3.TombstonesOk(s.snapshotGeneration, s.assignments, s.tombstones)
    requires i < |Keep(s.tombstones, IsDirectTombstone)|
    ensures var mark := V2.Marks(DownTombstones(Keep(s.tombstones, IsDirectTombstone)))[i];
            mark.rank.generation <= s.snapshotGeneration && Fenced(V2.Lives(DownAll(Directs(s))), mark)
  {
    var p := DirectMark(s, i);
    var mark := SnapshotV3.Marks(s.tombstones)[p];
    assert Fenced(SnapshotV3.Lives(s.assignments), mark);
    var lives := V2.Lives(DownAll(Directs(s)));
    forall k | 0 <= k < |lives| ensures !Revives(lives[k], mark) {
      var q := DirectAt(s, k);
      DirectPlace(env, s, q);
      assert !Revives(SnapshotV3.Lives(s.assignments)[q], mark);
    }
  }

  lemma MergedIsClean(env: Env3, s: SnapshotV3.Snapshot)
    requires RolesOk(env, s) && SnapshotV3.TombstonesOk(s.snapshotGeneration, s.assignments, s.tombstones)
    ensures SnapshotV3.Clean(s) ==> V2.Clean(Merged(env, s))
  {
    var m := Merged(env, s);
    if SnapshotV3.Clean(s) {
      forall i | 0 <= i < |m.assignments| ensures CleanPlace(V2.PlaceOf(m.assignments[i])) {
        var p := DirectAt(s, i);
        DirectPlace(env, s, p);
        assert CleanPlace(SnapshotV3.PlaceOf(s.assignments[p]));
      }
      forall i | 0 <= i < |m.tombstones| ensures SlashFree(m.tombstones[i].protocol) {
        var p := DirectMark(s, i);
      }
    }
  }

  // ---- a path is held at most once ----

  predicate OnPath(a: Assignment, digest: string) {
    a.driverId == "native.multihop.v1" && a.config.Hop? && a.config.hop.pathDigest == digest
  }

  lemma OneAssignmentPerPath(env: Env3, s: SnapshotV3.Snapshot, digest: string, i: nat, j: nat)
    requires CollisionFree(env.hop.pathDigest) && SnapshotV3.Acceptable(env, s)
    requires i < |s.assignments| && j < |s.assignments| && OnPath(s.assignments[i], digest) && OnPath(s.assignments[j], digest)
    ensures i == j
  {
    assert Fits(env, s, i) && Fits(env, s, j);
    assert |"native.direct.v1"| != |"native.multihop.v1"|;
    var x := Local(s.assignments[i], s.nodeId, s.sessionEpoch, s.extension);
    var y := Local(s.assignments[j], s.nodeId, s.sessionEpoch, s.extension);
    HopIsANode(env.hop, x, y);
    IdsDiffer(s.assignments, i, j);
  }

  lemma IdsDiffer(assignments: seq<Assignment>, i: nat, j: nat)
    requires Separate(SnapshotV3.Places(assignments)) && i < |assignments| && j < |assignments|
    ensures assignments[i].assignmentId == assignments[j].assignmentId ==> i == j
  {
    var places := SnapshotV3.Places(assignments);
    CompareEqual(assignments[i].assignmentId, assignments[j].assignmentId);
    CompareEqual(assignments[j].assignmentId, assignments[i].assignmentId);
    assert (i < j ==> Elsewhere(places[i], places[j])) && (j < i ==> Elsewhere(places[j], places[i]));
  }
}

/** The ADP/3 snapshot rules: validateSnapshot and tombstoneOrder in agent/internal/adp3/validate.go. */
module SnapshotV3 {
  import opened Outcomes
  import opened Text
  import opened Hosts
  import opened Retirements
  import opened Slots
  import opened Multihop
  import V2 = SnapshotV2

  datatype Tombstone = Tombstone(
    assignmentId: string, forwardId: string, protocol: string, port: nat, bindingFence: nat, retirementGeneration: nat,
    physicalProtocol: string, role: string)

  datatype Snapshot = Snapshot(
    nodeId: string, sessionEpoch: nat, snapshotGeneration: nat, issuedAt: string, validUntil: string,
    snapshotDigest: string, assignments: seq<Assignment>, tombstones: seq<Tombstone>, extension: Option<nat>)

  // `relayOk` stands for the separate Relay contract.
  datatype Env3 = Env3(v2: V2.Env, hop: HopEnv, bodyDigest: Snapshot -> string, relayOk: (Assignment, string, nat) -> bool)

  datatype Error = DigestMismatch | Conflict | DirectDiffers | BadAddress | DirectRejected(cause: V2.Error)
    | HopRejected(reason: Multihop.Error) | UnsupportedDriver | RelayRejected | TimeRejected(why: V2.Error)
    | RetirementProtocol | BadRetirement | UnsortedRetirement | Resurrected

  // ---- down-conversion to ADP/2 ----

  predicate IsDirect(a: Assignment) {
    a.role == "direct" && a.config.Direct?
  }

  function Down(a: Assignment): V2.Assignment
    requires a.config.Direct?
  {
    V2.Assignment(a.assignmentId, a.forwardId, a.forwardRevision, a.deploymentGeneration, a.bindingFence, "direct", a.protocol, a.phase,
                  a.resource.address, a.resource.port, a.configDigest, a.config.direct, a.drainTimeoutSeconds)
  }

  function DownTombstone(t: Tombstone): V2.Tombstone {
    V2.Tombstone(t.assignmentId, t.forwardId, t.protocol, t.port, t.bindingFence, t.retirementGeneration)
  }

  // An ADP/2 message with this snapshot's header and a recomputed digest.
  function Message(env: Env3, s: Snapshot, assignments: seq<V2.Assignment>, tombstones: seq<V2.Tombstone>): V2.Snapshot {
    var body := V2.Snapshot(s.nodeId, s.sessionEpoch, s.snapshotGeneration, s.issuedAt, s.validUntil, "", assignments, tombstones);
    body.(snapshotDigest := env.v2.bodyDigest(body))
  }

  // ---- what acceptance means ----

  predicate TimesOk(s: Snapshot) {
    V2.TimesOk(s.issuedAt, s.validUntil)
  }

  predicate DirectOk(env: Env3, a: Assignment) {
    && a.driverId == "native.direct.v1" && a.resource.protocol == a.protocol
    && CanonicalAddress(env.v2.parse, a.resource.address)
    && a.config.Direct? && V2.ConfigOk(env.v2, Down(a))
  }

  ghost predicate RoleOk(env: Env3, s: Snapshot, a: Assignment) {
    if a.role == "direct" then DirectOk(env, a)
    else if a.driverId == "native.multihop.v1" then Accepted(env.hop, a, s.nodeId, s.sessionEpoch, s.extension)
    else a.driverId == "native.relay.v1" && env.relayOk(a, s.nodeId, s.sessionEpoch)
  }

  ghost predicate Fits(env: Env3, s: Snapshot, i: nat)
    requires i < |s.assignments|
  {
    s.assignments[i].assignmentId != "" && RoleOk(env, s, s.assignments[i])
  }

  ghost predicate RolesOk(env: Env3, s: Snapshot) {
    forall i :: 0 <= i < |s.assignments| ==> Fits(env, s, i)
  }

  // ---- slots and retirements ----

  function PlaceOf(a: Assignment): Place {
    Place(a.assignmentId, a.forwardId, a.protocol, Some(a.role), a.resource.protocol, a.resource.port)
  }

  function Places(assignments: seq<Assignment>): seq<Place> {
    seq(|assignments|, i requires 0 <= i < |assignments| => PlaceOf(assignments[i]))
  }

  function LiveOf(a: Assignment): Live {
    Live(a.resource.protocol, a.resource.port, a.bindingFence)
  }

  function Lives(assignments: seq<Assignment>): seq<Live> {
    seq(|assignments|, i requires 0 <= i < |assignments| => LiveOf(assignments[i]))
  }

  function RankOf(t: Tombstone): Rank {
    Rank(t.physicalProtocol, t.port, t.retirementGeneration, t.assignmentId)
  }

  function MarkOf(t: Tombstone): Mark {
    Mark(RankOf(t), t.physicalProtocol, t.bindingFence)
  }

  function Marks(tombstones: seq<Tombstone>): seq<Mark> {
    seq(|tombstones|, i requires 0 <= i < |tombstones| => MarkOf(tombstones[i]))
  }

  // The egress of a relayed path and every hop of a multi-hop path but its ingress listen on TCP; everything else
  // listens on its business protocol.
  function ExpectedPhysical(t: Tombstone): string {
    if t.role == "relay-egress" || t.role == "multihop-egress" || t.role == "multihop-transit" then "tcp" else t.protocol
  }

  predicate RightProtocol(tombstones: seq<Tombstone>, i: nat)
    requires i < |tombstones|
  {
    tombstones[i].physicalProtocol == ExpectedPhysical(tombstones[i])
  }

  ghost predicate TombstonesOk(generation: nat, assignments: seq<Assignment>, tombstones: seq<Tombstone>) {
    && (forall i :: 0 <= i < |tombstones| ==> RightProtocol(tombstones, i))
    && Retirements.Acceptable(generation, Lives(assignments), Marks(tombstones))
  }

  ghost predicate Acceptable(env: Env3, s: Snapshot) {
    && s.snapshotDigest == env.bodyDigest(s.(snapshotDigest := ""))
    && TimesOk(s)
    && RolesOk(env, s) && Separate(Places(s.assignments)) && TombstonesOk(s.snapshotGeneration, s.assignments, s.tombstones)
  }

  // Guaranteed by the JSON schema before these rules run.
  predicate Clean(s: Snapshot) {
    && (forall i :: 0 <= i < |s.assignments| ==> CleanPlace(PlaceOf(s.assignments[i])))
    && forall i :: 0 <= i < |s.tombstones| ==> SlashFree(s.tombstones[i].physicalProtocol)
  }

  // ---- order ----

  function TombstoneOrder(a: Tombstone, b: Tombstone): int {
    if a.physicalProtocol != b.physicalProtocol then Compare(a.physicalProtocol, b.physicalProtocol)
    else if a.port < b.port then -1
    else if a.port > b.port then 1
    else if a.retirementGeneration < b.retirementGeneration then -1
    else if a.retirementGeneration > b.retirementGeneration then 1
    else Compare(a.assignmentId, b.assignmentId)
  }

  lemma TombstoneOrderIsRank(a: Tombstone, b: Tombstone)
    ensures TombstoneOrder(a, b) < 0 <==> Below(RankOf(a), RankOf(b))
    ensures TombstoneOrder(a, b) == 0 <==> RankOf(a) == RankOf(b)
  {
    CompareEqual(a.physicalProtocol, b.physicalProtocol);
    CompareEqual(a.assignmentId, b.assignmentId);
  }

  // ---- the validator ----

  lemma Sealed(env: Env3, s: Snapshot, assignments: seq<V2.Assignment>, tombstones: seq<V2.Tombstone>)
    ensures var m := Message(env, s, assignments, tombstones); m.snapshotDigest == env.v2.bodyDigest(m.(snapshotDigest := ""))
  {
    var m := Message(env, s, assignments, tombstones);
    assert m.(snapshotDigest := "") == V2.Snapshot(s.nodeId, s.sessionEpoch, s.snapshotGeneration, s.issuedAt, s.validUntil, "", assignments, tombstones);
  }

  lemma OneAssignment(env: V2.Env, a: V2.Assignment)
    ensures V2.AssignmentsOk(env, [a]) <==> a.assignmentId != "" && V2.ConfigOk(env, a)
  {
    assert V2.Fits(env, [a], 0) <==> a.assignmentId != "" && V2.ConfigOk(env, a);
  }

  // One direct assignment, checked as an ADP/2 snapshot of its own.
  lemma SingleMeans(env: Env3, s: Snapshot, a: V2.Assignment)
    ensures V2.Acceptable(env.v2, Message(env, s, [a], [])) <==> TimesOk(s) && a.assignmentId != "" && V2.ConfigOk(env.v2, a)
  {
    Sealed(env, s, [a], []);
    OneAssignment(env.v2, a);
  }

  lemma EmptyMeans(env: Env3, s: Snapshot)
    ensures V2.Acceptable(env.v2, Message(env, s, [], [])) <==> TimesOk(s)
  {
    Sealed(env, s, [], []);
  }

  // A direct assignment is also refused for the snapshot's time range, which is checked again later.
  method ValidateRole(env: Env3, s: Snapshot, i: nat) returns (r: Result<(), Error>)
    requires i < |s.assignments| && CleanPlace(PlaceOf(s.assignments[i])) && s.assignments[i].assignmentId != ""
    ensures r.Ok? ==> Fits(env, s, i)
    ensures Fits(env, s, i) && TimesOk(s) ==> r.Ok?
  {
    var a := s.assignments[i];
    if a.role == "direct" {
      if a.driverId != "native.direct.v1" || a.resource.protocol != a.protocol || !a.config.Direct? {
        return Err(DirectDiffers);
      }
      if !CanonicalAddress(env.v2.parse, a.resource.address) {
        return Err(BadAddress);
      }
      var direct := Down(a);
      SingleMeans(env, s, direct);
      var parsed := V2.ValidateSnapshot(env.v2, Message(env, s, [direct], []));
      if parsed.Err? {
        return Err(DirectRejected(parsed.error));
      }
    } else if a.driverId == "native.multihop.v1" {
      var hop := ValidateMultihopAssignment(env.hop, a, s.nodeId, s.sessionEpoch, s.extension);
      if hop.Err? {
        return Err(HopRejected(hop.error));
      }
    } else {
      if a.driverId != "native.relay.v1" {
        return Err(UnsupportedDriver);
      }
      if !env.relayOk(a, s.nodeId, s.sessionEpoch) {
        return Err(RelayRejected);
      }
    }
    return Ok(());
  }

  method ValidateAssignments(env: Env3, s: Snapshot, slots: seq<Slot>) returns (r: Result<(), Error>)
    requires forall i :: 0 <= i < |s.assignments| ==> CleanPlace(PlaceOf(s.assignments[i]))
    requires |slots| == |s.assignments| && forall i :: 0 <= i < |slots| ==> slots[i].id == s.assignments[i].assignmentId
    ensures r.Ok? ==> Distinct(slots) && RolesOk(env, s)
    ensures Distinct(slots) && RolesOk(env, s) && TimesOk(s) ==> r.Ok?
  {
    var logical: set<string> := {};
    var physical: set<string> := {};
    var previous := "";
    for i := 0 to |s.assignments|
      invariant Booked(slots, i, logical, physical, previous)
      invariant forall k :: 0 <= k < i ==> Fits(env, s, k)
    {
      var free;
      free, logical, physical := TryBook(slots, i, logical, physical, previous);
      if !free {
        assert Fits(env, s, i) ==> s.assignments[i].assignmentId != "";
        return Err(Conflict);
      }
      previous := s.assignments[i].assignmentId;
      r := ValidateRole(env, s, i);
      if r.Err? {
        return;
      }
    }
    assert slots[..|slots|] == slots;
    return Ok(());
  }

  method ValidateTombstones(generation: nat, assignments: seq<Assignment>, tombstones: seq<Tombstone>) returns (r: Result<(), Error>)
    requires forall i :: 0 <= i < |tombstones| ==> SlashFree(tombstones[i].physicalProtocol)
    ensures r.Ok? <==> TombstonesOk(generation, assignments, tombstones)
    ensures r == Err(Resurrected) ==> exists i :: 0 <= i < |tombstones| && !Fenced(Lives(assignments), Marks(tombstones)[i])
  {
    var lives, marks := Lives(assignments), Marks(tombstones);
    var entries := Entries(marks);
    var retired: set<string> := {};
    for i := 0 to |tombstones|
      invariant Processed(generation, lives, marks, entries, i, retired)
      invariant forall k :: 0 <= k < i ==> RightProtocol(tombstones, k)
    {
      if !RightProtocol(tombstones, i) {
        return Err(RetirementProtocol);
      }
      if i > 0 {
        TombstoneOrderIsRank(tombstones[i - 1], tombstones[i]);
      }
      var verdict;
      verdict, retired := TryRetire(generation, lives, marks, entries, i, retired, i == 0 || TombstoneOrder(tombstones[i - 1], tombstones[i]) < 0);
      match verdict
      case HighWater => return Err(BadRetirement);
      case OutOfOrder => return Err(UnsortedRetirement);
      case Revived => return Err(Resurrected);
      case Admitted =>
    }
    AllProcessed(generation, lives, marks, entries, retired);
    return Ok(());
  }

  // Piece by piece, the validator accepts exactly the acceptable snapshots.
  method ValidateSnapshot(env: Env3, s: Snapshot) returns (r: Result<(), Error>)
    requires Clean(s)
    ensures r.Ok? <==> Acceptable(env, s)
  {
    if env.bodyDigest(s.(snapshotDigest := "")) != s.snapshotDigest {
      return Err(DigestMismatch);
    }
    var slots := Keys(Places(s.assignments));
    r := ValidateAssignments(env, s, slots);
    if r.Err? {
      return;
    }
    EmptyMeans(env, s);
    var clock := V2.ValidateSnapshot(env.v2, Message(env, s, [], []));
    if clock.Err? {
      return Err(TimeRejected(clock.error));
    }
    r := ValidateTombstones(s.snapshotGeneration, s.assignments, s.tombstones);
  }
}

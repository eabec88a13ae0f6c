/**
 The ADP/2 snapshot rules: validateSnapshot and compareTombstones in agent/internal/contracts/validate.go.

 Digests, CIDR syntax and address parsing are parameters; JSON structure has been checked before, so
 identifiers, protocols and roles contain no slash.
 */
module SnapshotV2 {
  import opened Outcomes
  import opened Text
  import Timestamps
  import opened Hosts
  import opened Retirements
  import opened Slots

  datatype DirectConfig = DirectConfig(host: string, port: nat, egressPolicyRevision: nat, allowMetadata: bool, cidrs: seq<string>)

  datatype Assignment = Assignment(
    assignmentId: string, forwardId: string, forwardRevision: nat, deploymentGeneration: nat, bindingFence: nat,
    role: string, protocol: string, phase: string, address: string, port: nat,
    configDigest: string, config: DirectConfig, drainTimeoutSeconds: nat)

  datatype Tombstone = Tombstone(
    assignmentId: string, forwardId: string, protocol: string, port: nat, bindingFence: nat, retirementGeneration: nat)

  datatype Snapshot = Snapshot(
    nodeId: string, sessionEpoch: nat, snapshotGeneration: nat, issuedAt: string, validUntil: string,
    snapshotDigest: string, assignments: seq<Assignment>, tombstones: seq<Tombstone>)

  // The foreign functions: netip, strings.ToLower, netip.ParsePrefix, and JCS with SHA-256.
  datatype Env = Env(
    parse: string -> Option<Addr>, lower: char -> char, validCidr: string -> bool,
    configDigest: DirectConfig -> string, bodyDigest: Snapshot -> string)

  datatype Error = BadTime | BadTimeRange | DigestMismatch
    | DuplicateLogical | Unsorted | DuplicatePhysical | NoncanonicalHost | BadCidr | ConfigMismatch
    | BadRetirement | UnsortedRetirement | Resurrected

  // ---- slots and retirements ----

  function PlaceOf(a: Assignment): Place {
    Place(a.assignmentId, a.forwardId, a.protocol, Some(a.role), a.protocol, a.port)
  }

  function Places(assignments: seq<Assignment>): seq<Place> {
    seq(|assignments|, i requires 0 <= i < |assignments| => PlaceOf(assignments[i]))
  }

  function Lives(assignments: seq<Assignment>): seq<Live> {
    seq(|assignments|, i requires 0 <= i < |assignments| => Live(assignments[i].protocol, assignments[i].port, assignments[i].bindingFence))
  }

  function RankOf(t: Tombstone): Rank {
    Rank(t.protocol, t.port, t.retirementGeneration, t.assignmentId)
  }

  function Marks(tombstones: seq<Tombstone>): seq<Mark> {
    seq(|tombstones|, i requires 0 <= i < |tombstones| => Mark(RankOf(tombstones[i]), tombstones[i].protocol, tombstones[i].bindingFence))
  }

  function CompareTombstones(a: Tombstone, b: Tombstone): int {
    if Less(a.protocol, b.protocol) then -1
    else if Less(b.protocol, a.protocol) then 1
    else if a.port < b.port then -1
    else if a.port > b.port then 1
    else if a.retirementGeneration < b.retirementGeneration then -1
    else if a.retirementGeneration > b.retirementGeneration then 1
    else Compare(a.assignmentId, b.assignmentId)
  }

  lemma CompareTombstonesIsRank(a: Tombstone, b: Tombstone)
    ensures CompareTombstones(a, b) < 0 <==> Below(RankOf(a), RankOf(b))
    ensures CompareTombstones(a, b) == 0 <==> RankOf(a) == RankOf(b)
  {
    CompareEqual(a.protocol, b.protocol);
    CompareEqual(b.protocol, a.protocol);
    CompareEqual(a.assignmentId, b.assignmentId);
  }

  // ---- what acceptance means ----

  predicate ConfigOk(env: Env, a: Assignment) {
    && CanonicalHost(a.config.host, env.parse, env.lower)
    && (forall i :: 0 <= i < |a.config.cidrs| ==> env.validCidr(a.config.cidrs[i]))
    && a.configDigest == env.configDigest(a.config)
  }

  predicate Fits(env: Env, assignments: seq<Assignment>, i: nat)
    requires i < |assignments|
  {
    assignments[i].assignmentId != "" && ConfigOk(env, assignments[i])
  }

  ghost predicate AssignmentsOk(env: Env, assignments: seq<Assignment>) {
    && (forall i :: 0 <= i < |assignments| ==> Fits(env, assignments, i))
    && Separate(Places(assignments))
  }

  predicate TimesOk(issued: string, until: string) {
    Timestamps.CompareTimes(issued, until).Ok? && Timestamps.CompareTimes(issued, until).value < 0
  }

  ghost predicate Acceptable(env: Env, s: Snapshot) {
    && TimesOk(s.issuedAt, s.validUntil)
    && s.snapshotDigest == env.bodyDigest(s.(snapshotDigest := ""))
    && AssignmentsOk(env, s.assignments) && Retirements.Acceptable(s.snapshotGeneration, Lives(s.assignments), Marks(s.tombstones))
  }

  predicate Clean(s: Snapshot) {
    && (forall i :: 0 <= i < |s.assignments| ==> CleanPlace(PlaceOf(s.assignments[i])))
    && forall i :: 0 <= i < |s.tombstones| ==> SlashFree(s.tombstones[i].protocol)
  }

  // ---- the validator ----

  method ValidateConfig(env: Env, a: Assignment) returns (r: Result<(), Error>)
    ensures r.Ok? <==> ConfigOk(env, a)
  {
    if !CanonicalHost(a.config.host, env.parse, env.lower) {
      return Err(NoncanonicalHost);
    }
    for i := 0 to |a.config.cidrs|
      invariant forall k :: 0 <= k < i ==> env.validCidr(a.config.cidrs[k])
    {
      if !env.validCidr(a.config.cidrs[i]) {
        return Err(BadCidr);
      }
    }
    if env.configDigest(a.config) != a.configDigest {
      return Err(ConfigMismatch);
    }
    return Ok(());
  }

  method ValidateAssignments(env: Env, assignments: seq<Assignment>, slots: seq<Slot>) returns (r: Result<(), Error>)
    requires |slots| == |assignments| && forall i :: 0 <= i < |slots| ==> slots[i].id == assignments[i].assignmentId
    ensures r.Ok? <==> Distinct(slots) && forall i :: 0 <= i < |assignments| ==> Fits(env, assignments, i)
  {
    var logical: set<string> := {};
    var physical: set<string> := {};
    var previous := "";
    for i := 0 to |assignments|
      invariant logical == Logical(slots[..i]) && physical == Physical(slots[..i]) && previous == Previous(slots[..i])
      invariant Distinct(slots[..i])
      invariant forall k :: 0 <= k < i ==> Fits(env, assignments, k)
    {
      var a := assignments[i];
      Book(slots, i);
      assert Fits(env, assignments, i) <==> a.assignmentId != "" && ConfigOk(env, a);
      if slots[i].logical in logical {
        return Err(DuplicateLogical);
      }
      logical := logical + {slots[i].logical};
      if !Less(previous, a.assignmentId) {
        return Err(Unsorted);
      }
      previous := a.assignmentId;
      if slots[i].physical in physical {
        return Err(DuplicatePhysical);
      }
      physical := physical + {slots[i].physical};
      r := ValidateConfig(env, a);
      if r.Err? {
        return;
      }
    }
    assert slots[..|slots|] == slots;
    return Ok(());
  }

  method ValidateTombstones(generation: nat, assignments: seq<Assignment>, tombstones: seq<Tombstone>) returns (r: Result<(), Error>)
    requires forall i :: 0 <= i < |tombstones| ==> SlashFree(tombstones[i].protocol)
    ensures r.Ok? <==> Retirements.Acceptable(generation, Lives(assignments), Marks(tombstones))
    ensures r == Err(Resurrected) ==> exists i :: 0 <= i < |tombstones| && !Fenced(Lives(assignments), Marks(tombstones)[i])
  {
    var lives, marks := Lives(assignments), Marks(tombstones);
    var entries := Entries(marks);
    var retired: set<string> := {};
    for i := 0 to |tombstones|
      invariant Processed(generation, lives, marks, entries, i, retired)
    {
      if i > 0 {
        CompareTombstonesIsRank(tombstones[i - 1], tombstones[i]);
      }
      var verdict;
      verdict, retired := TryRetire(generation, lives, marks, entries, i, retired, i == 0 || CompareTombstones(tombstones[i - 1], tombstones[i]) < 0);
      match verdict
      case HighWater => return Err(BadRetirement);
      case OutOfOrder => return Err(UnsortedRetirement);
      case Revived => return Err(Resurrected);
      case Admitted =>
    }
    AllProcessed(generation, lives, marks, entries, retired);
    return Ok(());
  }

  // The loops accept exactly the snapshots that mean something.
  method ValidateSnapshot(env: Env, s: Snapshot) returns (r: Result<(), Error>)
    requires Clean(s)
    ensures r.Ok? <==> Acceptable(env, s)
  {
    var order := Timestamps.CompareTimes(s.issuedAt, s.validUntil);
    if order.Err? {
      return Err(BadTime);
    }
    if order.value >= 0 {
      return Err(BadTimeRange);
    }
    if env.bodyDigest(s.(snapshotDigest := "")) != s.snapshotDigest {
      return Err(DigestMismatch);
    }
    var slots := Keys(Places(s.assignments));
    r := ValidateAssignments(env, s.assignments, slots);
    if r.Err? {
      return;
    }
    r := ValidateTombstones(s.snapshotGeneration, s.assignments, s.tombstones);
  }
}

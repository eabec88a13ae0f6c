/**
 The offline Transit envelope: ParseAssignment, order and ParseSnapshot in agent/internal/adp3transit/validate.go.
 The Intent contract, time parsing and digests are parameters.
 */
module Transit {
  import opened Outcomes
  import opened Text
  import opened Hosts
  import opened Retirements
  import opened Slots

  // What one Transit hop is authorised to do; `rest` holds the fields checked by the Intent contract alone.
  datatype Intent = Intent(
    nodeId: string, sessionEpoch: nat, assignmentId: string, forwardId: string, forwardRevision: nat,
    deploymentGeneration: nat, bindingFence: nat, protocol: string, listenAddress: string, listenPort: nat,
    issuedAt: string, authorizationUntil: string, rest: string)

  datatype Assignment = Assignment(
    nodeId: string, sessionEpoch: nat, assignmentId: string, forwardId: string, forwardRevision: nat,
    deploymentGeneration: nat, bindingFence: nat, protocol: string, address: string, port: nat, physical: string,
    configDigest: string, intent: Intent)

  datatype Tombstone = Tombstone(
    assignmentId: string, physicalProtocol: string, port: nat, bindingFence: nat, retirementGeneration: nat)

  datatype Snapshot = Snapshot(
    nodeId: string, sessionEpoch: nat, snapshotGeneration: nat, issuedAt: string, validUntil: string,
    snapshotDigest: string, assignments: seq<Assignment>, tombstones: seq<Tombstone>)

  // Instants are nanoseconds; netip, time.Parse, the Intent contract and the digests are foreign.
  datatype Env = Env(
    parse: string -> Option<Addr>, instant: string -> Option<int>, intentOk: Intent -> bool,
    configDigest: Intent -> string, bodyDigest: Snapshot -> string)

  datatype Error = DigestMismatch | BadTime | BadRange | BadIntent | ConfigMismatch | BindingDiffers | ListenerDiffers
    | LeaseDiffers | Conflict | BadRetirement | Resurrected

  // ---- what acceptance means ----

  predicate Bound(a: Assignment) {
    && a.nodeId == a.intent.nodeId && a.sessionEpoch == a.intent.sessionEpoch && a.assignmentId == a.intent.assignmentId
    && a.forwardId == a.intent.forwardId && a.forwardRevision == a.intent.forwardRevision
    && a.deploymentGeneration == a.intent.deploymentGeneration && a.bindingFence == a.intent.bindingFence
    && a.protocol == a.intent.protocol
  }

  predicate Listens(env: Env, a: Assignment) {
    && env.parse(a.address).Some? && env.parse(a.address).value.zone == "" && env.parse(a.address).value.text == a.address
    && a.physical == "tcp" && a.address == a.intent.listenAddress && a.port == a.intent.listenPort
  }

  predicate AssignmentOk(env: Env, a: Assignment) {
    env.intentOk(a.intent) && env.configDigest(a.intent) == a.configDigest && Bound(a) && Listens(env, a)
  }

  predicate Timed(env: Env, from: string, to: string) {
    env.instant(from).Some? && env.instant(to).Some?
  }

  // The intent's authority covers the whole snapshot window.
  predicate Covers(env: Env, s: Snapshot, intent: Intent)
    requires Timed(env, s.issuedAt, s.validUntil)
  {
    && Timed(env, intent.issuedAt, intent.authorizationUntil)
    && env.instant(intent.issuedAt).value <= env.instant(s.issuedAt).value
    && env.instant(s.validUntil).value <= env.instant(intent.authorizationUntil).value
  }

  predicate Fits(env: Env, s: Snapshot, i: nat)
    requires Timed(env, s.issuedAt, s.validUntil) && i < |s.assignments|
  {
    var a := s.assignments[i];
    && a.assignmentId != "" && AssignmentOk(env, a) && a.nodeId == s.nodeId && a.sessionEpoch == s.sessionEpoch
    && Covers(env, s, a.intent)
  }

  // Transit listens on TCP only, so a port is a physical slot; its logical slots have no role.
  function PlaceOf(a: Assignment): Place {
    Place(a.assignmentId, a.forwardId, a.protocol, None, "tcp", a.port)
  }

  function Places(assignments: seq<Assignment>): seq<Place> {
    seq(|assignments|, i requires 0 <= i < |assignments| => PlaceOf(assignments[i]))
  }

  function Lives(assignments: seq<Assignment>): seq<Live> {
    seq(|assignments|, i requires 0 <= i < |assignments| => Live("tcp", assignments[i].port, assignments[i].bindingFence))
  }

  function RankOf(t: Tombstone): Rank {
    Rank(t.physicalProtocol, t.port, t.retirementGeneration, t.assignmentId)
  }

  function Marks(tombstones: seq<Tombstone>): seq<Mark> {
    seq(|tombstones|, i requires 0 <= i < |tombstones| => Mark(RankOf(tombstones[i]), "tcp", tombstones[i].bindingFence))
  }

  ghost predicate Acceptable(env: Env, s: Snapshot) {
    && s.snapshotDigest == env.bodyDigest(s.(snapshotDigest := ""))
    && Timed(env, s.issuedAt, s.validUntil) && env.instant(s.issuedAt).value < env.instant(s.validUntil).value
    && (forall i :: 0 <= i < |s.assignments| ==> Fits(env, s, i))
    && Separate(Places(s.assignments)) && Retirements.Acceptable(s.snapshotGeneration, Lives(s.assignments), Marks(s.tombstones))
  }

  predicate Clean(s: Snapshot) {
    forall i :: 0 <= i < |s.assignments| ==> SlashFree(s.assignments[i].forwardId)
  }

  // ---- order ----

  function Order(a: Tombstone, b: Tombstone): int {
    var protocols := Compare(a.physicalProtocol, b.physicalProtocol);
    if protocols != 0 then protocols
    else if a.port < b.port then -1
    else if a.port > b.port then 1
    else if a.retirementGeneration < b.retirementGeneration then -1
    else if a.retirementGeneration > b.retirementGeneration then 1
    else Compare(a.assignmentId, b.assignmentId)
  }

  lemma OrderIsRank(a: Tombstone, b: Tombstone)
    ensures Order(a, b) < 0 <==> Below(RankOf(a), RankOf(b))
    ensures Order(a, b) == 0 <==> RankOf(a) == RankOf(b)
  {
    CompareEqual(a.physicalProtocol, b.physicalProtocol);
    CompareEqual(a.assignmentId, b.assignmentId);
  }

  // ---- the parser ----

  method ParseAssignment(env: Env, a: Assignment) returns (r: Result<(), Error>)
    ensures r.Ok? <==> AssignmentOk(env, a)
  {
    if !env.intentOk(a.intent) {
      return Err(BadIntent);
    }
    if env.configDigest(a.intent) != a.configDigest {
      return Err(ConfigMismatch);
    }
    var intent := a.intent;
    if || a.nodeId != intent.nodeId || a.sessionEpoch != intent.sessionEpoch || a.assignmentId != intent.assignmentId
       || a.forwardId != intent.forwardId || a.forwardRevision != intent.forwardRevision
       || a.deploymentGeneration != intent.deploymentGeneration || a.bindingFence != intent.bindingFence
       || a.protocol != intent.protocol
    {
      return Err(BindingDiffers);
    }
    var ip := env.parse(a.address);
    if || ip.None? || ip.value.zone != "" || ip.value.text != a.address || a.physical != "tcp"
       || a.address != intent.listenAddress || a.port != intent.listenPort
    {
      return Err(ListenerDiffers);
    }
    return Ok(());
  }

  method ParseAssignments(env: Env, s: Snapshot, start: int, end: int, slots: seq<Slot>) returns (r: Result<(), Error>)
    requires |slots| == |s.assignments| && forall i :: 0 <= i < |slots| ==> slots[i].id == s.assignments[i].assignmentId
    requires env.instant(s.issuedAt) == Some(start) && env.instant(s.validUntil) == Some(end)
    ensures r.Ok? <==> (forall i :: 0 <= i < |s.assignments| ==> Fits(env, s, i)) && Distinct(slots)
  {
    var logical: set<string> := {};
    var physical: set<string> := {};
    var previous := "";
    for i := 0 to |s.assignments|
      invariant Booked(slots, i, logical, physical, previous) && forall k :: 0 <= k < i ==> Fits(env, s, k)
    {
      var a := s.assignments[i];
      assert Fits(env, s, i) ==> AssignmentOk(env, a) && slots[i].id != "";
      r := ParseAssignment(env, a);
      if r.Err? {
        return;
      }
      var issued := env.instant(a.intent.issuedAt);
      var until := env.instant(a.intent.authorizationUntil);
      if issued.None? || until.None? {
        return Err(BadTime);
      }
      if a.nodeId != s.nodeId || a.sessionEpoch != s.sessionEpoch || start < issued.value || end > until.value {
        return Err(LeaseDiffers);
      }
      var free;
      free, logical, physical := TryBook(slots, i, logical, physical, previous);
      if !free {
        return Err(Conflict);
      }
      previous := a.assignmentId;
    }
    assert slots[..|slots|] == slots;
    return Ok(());
  }

  method ParseTombstones(generation: nat, assignments: seq<Assignment>, tombstones: seq<Tombstone>) returns (r: Result<(), Error>)
    ensures r.Ok? <==> Retirements.Acceptable(generation, Lives(assignments), Marks(tombstones))
  {
    assert "tcp"[0] != '/' && "tcp"[1] != '/' && "tcp"[2] != '/';
    var lives, marks := Lives(assignments), Marks(tombstones);
    var entries := Entries(marks);
    var retired: set<string> := {};
    for i := 0 to |tombstones|
      invariant Processed(generation, lives, marks, entries, i, retired)
    {
      if i > 0 {
        OrderIsRank(tombstones[i - 1], tombstones[i]);
      }
      var verdict;
      verdict, retired := TryRetire(generation, lives, marks, entries, i, retired, i == 0 || Order(tombstones[i - 1], tombstones[i]) < 0);
      match verdict
      case Revived => return Err(Resurrected);
      case Admitted =>
      case _ => return Err(BadRetirement);
    }
    AllProcessed(generation, lives, marks, entries, retired);
    return Ok(());
  }

  method ParseSnapshot(env: Env, s: Snapshot) returns (r: Result<(), Error>)
    requires Clean(s)
    ensures r.Ok? <==> Acceptable(env, s)
  {
    if env.bodyDigest(s.(snapshotDigest := "")) != s.snapshotDigest {
      return Err(DigestMismatch);
    }
    var start := env.instant(s.issuedAt);
    var end := env.instant(s.validUntil);
    if start.None? || end.None? {
      return Err(BadTime);
    }
    if start.value >= end.value {
      return Err(BadRange);
    }
    assert "tcp"[0] != '/' && "tcp"[1] != '/' && "tcp"[2] != '/';
    var slots := Keys(Places(s.assignments));
    r := ParseAssignments(env, s, start.value, end.value, slots);
    if r.Err? {
      return;
    }
    r := ParseTombstones(s.snapshotGeneration, s.assignments, s.tombstones);
  }

  // ---- consequences ----

  // At no instant of an accepted snapshot's window is any of its intents outside its own authority, and the
  // Agent's node, session, fence and listener are those the intent names.
  lemma NothingOutlivesItsIntent(env: Env, s: Snapshot, i: nat, at: int)
    requires Acceptable(env, s) && i < |s.assignments|
    requires env.instant(s.issuedAt).value <= at <= env.instant(s.validUntil).value
    ensures var intent := s.assignments[i].intent;
            && Timed(env, intent.issuedAt, intent.authorizationUntil)
            && env.instant(intent.issuedAt).value <= at <= env.instant(intent.authorizationUntil).value
            && intent.nodeId == s.nodeId && intent.sessionEpoch == s.sessionEpoch && intent.bindingFence == s.assignments[i].bindingFence
            && s.assignments[i].forwardId == intent.forwardId && s.assignments[i].protocol == intent.protocol
            && s.assignments[i].physical == "tcp" && s.assignments[i].address == intent.listenAddress && s.assignments[i].port == intent.listenPort
  {
    assert Fits(env, s, i);
  }
}

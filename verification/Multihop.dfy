/**
 Multi-hop assignments: agent/internal/adp3/multihop.go. Each node validates its own assignment alone; the
 lemmas say what any family of separately accepted assignments then agrees on.
 */
module Multihop {
  import opened Outcomes
  import opened Text
  import opened Hosts
  import V2 = SnapshotV2

  datatype HopNode = HopNode(
    nodeId: string, assignmentId: string, sessionEpoch: nat, bindingFence: nat,
    peerFingerprint: string, listenAddress: string, host: string, port: nat)

  datatype Target = Target(host: string, port: nat)

  // The wire Profile: its business protocols and everything else.
  datatype Profile = Profile(protocols: seq<string>, rest: string)

  datatype HopConfig = HopConfig(
    scopeId: string, forwardId: string, forwardRevision: nat, deploymentGeneration: nat,
    profileId: string, profileRevision: nat, profileDigest: string, pathDigest: string,
    protocol: string, hopIndex: nat, path: seq<HopNode>, profile: Profile, target: Target,
    egressPolicyRevision: nat, cidrs: seq<string>, allowMetadata: bool)

  // What HopPathDigest covers.
  datatype PathBody = PathBody(
    scopeId: string, forwardId: string, forwardRevision: nat, deploymentGeneration: nat,
    profileId: string, profileRevision: nat, profileDigest: string, protocol: string, path: seq<HopNode>, target: Target)

  datatype RuntimeConfig = Direct(direct: V2.DirectConfig) | Relay(relay: string) | Hop(hop: HopConfig)

  datatype Resource = Resource(address: string, port: nat, protocol: string)

  datatype Assignment = Assignment(
    assignmentId: string, forwardId: string, forwardRevision: nat, deploymentGeneration: nat, bindingFence: nat,
    role: string, protocol: string, phase: string, driverId: string, configDigest: string, config: RuntimeConfig,
    drainTimeoutSeconds: nat, resource: Resource)

  // Foreign functions: digests (JCS with SHA-256) and the Profile contract.
  datatype HopEnv = HopEnv(
    parse: string -> Option<Addr>, lower: char -> char, validCidr: string -> bool,
    pathDigest: PathBody -> string, profileDigest: Profile -> string, configDigest: RuntimeConfig -> string,
    profileOk: Profile -> bool)

  datatype Error = Unsupported | BadPath | BadHost | PathMismatch | ProfileMismatch | BadProfile | BadTarget | BadCidr | BindingDiffers

  function BodyOf(h: HopConfig): PathBody {
    PathBody(h.scopeId, h.forwardId, h.forwardRevision, h.deploymentGeneration, h.profileId, h.profileRevision, h.profileDigest,
             h.protocol, h.path, h.target)
  }

  predicate CanonicalAddress(parse: string -> Option<Addr>, address: string) {
    parse(address).Some? && parse(address).value.zone == "" && parse(address).value.text == address
  }

  predicate NodeOk(env: HopEnv, n: HopNode) {
    CanonicalAddress(env.parse, n.listenAddress) && CanonicalHost(n.host, env.parse, env.lower)
  }

  predicate Apart(a: HopNode, b: HopNode) {
    a.nodeId != b.nodeId && a.assignmentId != b.assignmentId && a.peerFingerprint != b.peerFingerprint
  }

  ghost predicate PathOk(env: HopEnv, path: seq<HopNode>) {
    && (forall i :: 0 <= i < |path| ==> NodeOk(env, path[i]))
    && forall i, j :: 0 <= i < j < |path| ==> Apart(path[i], path[j])
  }

  ghost predicate CidrsOk(env: HopEnv, cidrs: seq<string>) {
    && (forall i :: 0 <= i < |cidrs| ==> env.validCidr(cidrs[i]))
    && forall i :: 0 < i < |cidrs| ==> Less(cidrs[i - 1], cidrs[i])
  }

  function RoleOf(h: HopConfig): string {
    if h.hopIndex == 0 then "multihop-ingress" else if h.hopIndex == |h.path| - 1 then "multihop-egress" else "multihop-transit"
  }

  function PhysicalOf(h: HopConfig): string {
    if h.hopIndex == 0 then h.protocol else "tcp"
  }

  predicate Bound(env: HopEnv, a: Assignment, h: HopConfig, node: string, epoch: nat)
    requires h.hopIndex < |h.path|
  {
    var n := h.path[h.hopIndex];
    && env.configDigest(a.config) == a.configDigest && a.role == RoleOf(h)
    && n.nodeId == node && n.sessionEpoch == epoch && n.assignmentId == a.assignmentId && n.bindingFence == a.bindingFence
    && a.forwardId == h.forwardId && a.forwardRevision == h.forwardRevision && a.deploymentGeneration == h.deploymentGeneration
    && a.protocol == h.protocol && a.resource == Resource(n.listenAddress, n.port, PhysicalOf(h))
  }

  ghost predicate Accepted(env: HopEnv, a: Assignment, node: string, epoch: nat, extension: Option<nat>) {
    && extension == Some(1) && a.driverId == "native.multihop.v1" && a.config.Hop?
    && var h := a.config.hop;
    && 3 <= |h.path| <= 8 && h.hopIndex < |h.path|
    && PathOk(env, h.path)
    && env.pathDigest(BodyOf(h)) == h.pathDigest && env.profileDigest(h.profile) == h.profileDigest
    && env.profileOk(h.profile)
    && CanonicalHost(h.target.host, env.parse, env.lower) && h.protocol in h.profile.protocols
    && CidrsOk(env, h.cidrs)
    && Bound(env, a, h, node, epoch)
  }

  method ValidatePath(env: HopEnv, path: seq<HopNode>) returns (r: Result<(), Error>)
    ensures r.Ok? <==> PathOk(env, path)
  {
    var nodes: set<string> := {};
    var ids: set<string> := {};
    var pins: set<string> := {};
    for i := 0 to |path|
      invariant nodes == set k | 0 <= k < i :: path[k].nodeId
      invariant ids == set k | 0 <= k < i :: path[k].assignmentId
      invariant pins == set k | 0 <= k < i :: path[k].peerFingerprint
      invariant PathOk(env, path[..i])
    {
      var n := path[i];
      if !CanonicalAddress(env.parse, n.listenAddress) || n.nodeId in nodes || n.assignmentId in ids || n.peerFingerprint in pins {
        return Err(BadPath);
      }
      if !CanonicalHost(n.host, env.parse, env.lower) {
        return Err(BadHost);
      }
      nodes := nodes + {n.nodeId};
      ids := ids + {n.assignmentId};
      pins := pins + {n.peerFingerprint};
      PathGrows(env, path, i);
    }
    assert path[..|path|] == path;
    return Ok(());
  }

  lemma PathGrows(env: HopEnv, path: seq<HopNode>, i: nat)
    requires i < |path| && PathOk(env, path[..i]) && NodeOk(env, path[i]) && forall k :: 0 <= k < i ==> Apart(path[k], path[i])
    ensures PathOk(env, path[..i + 1])
  {
    var before := path[..i];
    assert forall k :: 0 <= k < i ==> path[..i + 1][k] == before[k];
  }

  method ValidateCidrs(env: HopEnv, cidrs: seq<string>) returns (ok: bool)
    ensures ok <==> CidrsOk(env, cidrs)
  {
    for i := 0 to |cidrs|
      invariant forall k :: 0 <= k < i ==> env.validCidr(cidrs[k])
      invariant forall k :: 0 < k < i ==> Less(cidrs[k - 1], cidrs[k])
    {
      if !env.validCidr(cidrs[i]) || (i > 0 && !Less(cidrs[i - 1], cidrs[i])) {
        return false;
      }
    }
    return true;
  }

  // The local check accepts exactly what `Accepted` describes.
  method ValidateMultihopAssignment(env: HopEnv, a: Assignment, node: string, epoch: nat, extension: Option<nat>)
    returns (r: Result<(), Error>)
    ensures r.Ok? <==> Accepted(env, a, node, epoch, extension)
  {
    if extension != Some(1) || a.driverId != "native.multihop.v1" || !a.config.Hop? {
      return Err(Unsupported);
    }
    var h := a.config.hop;
    if |h.path| < 3 || |h.path| > 8 || h.hopIndex >= |h.path| {
      return Err(Unsupported);
    }
    r := ValidatePath(env, h.path);
    if r.Err? {
      return;
    }
    if env.pathDigest(BodyOf(h)) != h.pathDigest {
      return Err(PathMismatch);
    }
    if env.profileDigest(h.profile) != h.profileDigest {
      return Err(ProfileMismatch);
    }
    if !env.profileOk(h.profile) {
      return Err(BadProfile);
    }
    if !CanonicalHost(h.target.host, env.parse, env.lower) || h.protocol !in h.profile.protocols {
      return Err(BadTarget);
    }
    var cidrs := ValidateCidrs(env, h.cidrs);
    if !cidrs {
      return Err(BadCidr);
    }
    var n := h.path[h.hopIndex];
    var role, physical := "multihop-transit", "tcp";
    if h.hopIndex == 0 {
      role := "multihop-ingress";
      physical := h.protocol;
    } else if h.hopIndex == |h.path| - 1 {
      role := "multihop-egress";
    }
    if || env.configDigest(a.config) != a.configDigest || a.role != role || n.nodeId != node || n.sessionEpoch != epoch
       || n.assignmentId != a.assignmentId || n.bindingFence != a.bindingFence || a.forwardId != h.forwardId
       || a.forwardRevision != h.forwardRevision || a.deploymentGeneration != h.deploymentGeneration
       || a.protocol != h.protocol || a.resource.protocol != physical || a.resource.port != n.port || a.resource.address != n.listenAddress
    {
      return Err(BindingDiffers);
    }
    return Ok(());
  }

  // ---- what separately accepted assignments agree on ----

  // An assignment a node accepted on its own.
  datatype Local = Local(assignment: Assignment, node: string, epoch: nat, extension: Option<nat>)

  ghost predicate Holds(env: HopEnv, l: Local) {
    Accepted(env, l.assignment, l.node, l.epoch, l.extension)
  }

  ghost predicate CollisionFree<T(!new)>(digest: T -> string) {
    forall x, y :: digest(x) == digest(y) ==> x == y
  }

  // The whole path follows from the digest alone.
  lemma PathsAgree(env: HopEnv, x: Local, y: Local)
    requires CollisionFree(env.pathDigest) && Holds(env, x) && Holds(env, y)
    requires x.assignment.config.hop.pathDigest == y.assignment.config.hop.pathDigest
    ensures var (h, g) := (x.assignment.config.hop, y.assignment.config.hop);
            && h.scopeId == g.scopeId && h.forwardId == g.forwardId && h.forwardRevision == g.forwardRevision
            && h.deploymentGeneration == g.deploymentGeneration && h.protocol == g.protocol && h.path == g.path && h.target == g.target
            && h.profileId == g.profileId && h.profileRevision == g.profileRevision && h.profileDigest == g.profileDigest
  {
    assert env.pathDigest(BodyOf(x.assignment.config.hop)) == env.pathDigest(BodyOf(y.assignment.config.hop));
  }

  // So does the whole Profile every hop runs.
  lemma ProfilesAgree(env: HopEnv, x: Local, y: Local)
    requires CollisionFree(env.pathDigest) && CollisionFree(env.profileDigest) && Holds(env, x) && Holds(env, y)
    requires x.assignment.config.hop.pathDigest == y.assignment.config.hop.pathDigest
    ensures x.assignment.config.hop.profile == y.assignment.config.hop.profile
    ensures x.assignment.protocol in y.assignment.config.hop.profile.protocols
  {
    PathsAgree(env, x, y);
    assert env.profileDigest(x.assignment.config.hop.profile) == env.profileDigest(y.assignment.config.hop.profile);
  }

  // An egress policy has one spelling: accepted lists that allow the same ranges are the same list.
  lemma CidrsAreCanonical(env: HopEnv, a: seq<string>, b: seq<string>)
    requires CidrsOk(env, a) && CidrsOk(env, b) && forall c :: c in a <==> c in b
    ensures a == b
  {
    if i :| 0 <= i < |a| && i < |b| && a[..i] == b[..i] && a[i] != b[i] {
      CompareEqual(a[i], b[i]);
      if Less(a[i], b[i]) {
        FirstDifference(env, a, b, i);
      } else {
        FirstDifference(env, b, a, i);
      }
    } else {
      SamePrefix(a, b, if |a| < |b| then |a| else |b|);
      assert a[..|a|] == a && b[..|b|] == b;
      if |a| < |b| {
        NotRepeated(env, b, a, |a|);
      } else if |b| < |a| {
        NotRepeated(env, a, b, |b|);
      }
    }
  }

  lemma {:induction false} SamePrefix(a: seq<string>, b: seq<string>, n: nat)
    requires n <= |a| && n <= |b| && forall i :: 0 <= i < |a| && i < |b| && a[..i] == b[..i] ==> a[i] == b[i]
    ensures a[..n] == b[..n]
  {
    if n > 0 {
      SamePrefix(a, b, n - 1);
      assert a[..n] == a[..n - 1] + [a[n - 1]] && b[..n] == b[..n - 1] + [b[n - 1]];
    }
  }

  lemma {:induction false} CidrsAscend(env: HopEnv, cidrs: seq<string>, i: nat, j: nat)
    requires CidrsOk(env, cidrs) && i < j < |cidrs|
    ensures Less(cidrs[i], cidrs[j]) && cidrs[i] != cidrs[j]
    decreases j
  {
    if i + 1 < j {
      CidrsAscend(env, cidrs, i, j - 1);
      LessTransitive(cidrs[i], cidrs[j - 1], cidrs[j]);
    }
    CompareEqual(cidrs[i], cidrs[j]);
  }

  // The entry after a common prefix occurs nowhere in it.
  lemma NotRepeated(env: HopEnv, longer: seq<string>, shorter: seq<string>, i: nat)
    requires CidrsOk(env, longer) && i < |longer| && i <= |shorter| && longer[..i] == shorter[..i]
    ensures longer[i] !in shorter[..i]
  {
    forall k | 0 <= k < i ensures shorter[k] != longer[i] {
      CidrsAscend(env, longer, k, i);
      assert longer[..i][k] == shorter[..i][k];
    }
  }

  // Where two lists first differ, the smaller entry is missing from the other.
  lemma FirstDifference(env: HopEnv, a: seq<string>, b: seq<string>, i: nat)
    requires CidrsOk(env, a) && CidrsOk(env, b) && i < |a| && i < |b| && a[..i] == b[..i] && Less(a[i], b[i])
    ensures a[i] !in b
  {
    NotRepeated(env, a, b, i);
    forall k | i <= k < |b| ensures b[k] != a[i] {
      CompareEqual(a[i], b[i]);
      if i < k {
        CidrsAscend(env, b, i, k);
        LessTransitive(a[i], b[i], b[k]);
        CompareEqual(a[i], b[k]);
      }
    }
    assert forall k :: 0 <= k < i ==> b[..i][k] == b[k];
  }

  // Two accepted assignments of one path sit on the same hop exactly if they sit on the same node, and then
  // they are the same execution: same assignment, fence, epoch, role and physical resource.
  lemma HopIsANode(env: HopEnv, x: Local, y: Local)
    requires CollisionFree(env.pathDigest) && Holds(env, x) && Holds(env, y)
    requires x.assignment.config.hop.pathDigest == y.assignment.config.hop.pathDigest
    ensures && x.assignment.forwardId == y.assignment.forwardId && x.assignment.forwardRevision == y.assignment.forwardRevision
            && x.assignment.deploymentGeneration == y.assignment.deploymentGeneration && x.assignment.protocol == y.assignment.protocol
    ensures x.node == y.node <==> x.assignment.config.hop.hopIndex == y.assignment.config.hop.hopIndex
    ensures x.node == y.node ==>
              && x.epoch == y.epoch && x.assignment.assignmentId == y.assignment.assignmentId && x.assignment.role == y.assignment.role
              && x.assignment.bindingFence == y.assignment.bindingFence && x.assignment.resource == y.assignment.resource
    ensures x.node != y.node ==> x.assignment.assignmentId != y.assignment.assignmentId
  {
    PathsAgree(env, x, y);
    var (i, j) := (x.assignment.config.hop.hopIndex, y.assignment.config.hop.hopIndex);
    var path := x.assignment.config.hop.path;
    assert path == y.assignment.config.hop.path;
    if i < j {
      assert Apart(path[i], path[j]);
    } else if j < i {
      assert Apart(path[j], path[i]);
    }
  }

  // What a node records as its next hop is what the next node actually accepted.
  lemma NextHopIsAccepted(env: HopEnv, x: Local, y: Local)
    requires CollisionFree(env.pathDigest) && Holds(env, x) && Holds(env, y)
    requires x.assignment.config.hop.pathDigest == y.assignment.config.hop.pathDigest
    requires y.assignment.config.hop.hopIndex == x.assignment.config.hop.hopIndex + 1
    ensures var h := x.assignment.config.hop;
            && h.hopIndex + 1 < |h.path|
            && var next := h.path[h.hopIndex + 1];
               && next.nodeId == y.node && next.sessionEpoch == y.epoch && next.assignmentId == y.assignment.assignmentId
               && next.bindingFence == y.assignment.bindingFence
               && y.assignment.resource == Resource(next.listenAddress, next.port, "tcp")
  {
    PathsAgree(env, x, y);
  }

  ghost predicate Family(env: HopEnv, family: seq<Local>, digest: string) {
    forall k :: 0 <= k < |family| ==> Holds(env, family[k]) && family[k].assignment.config.hop.pathDigest == digest
  }

  function HopOf(l: Local): int {
    if l.assignment.config.Hop? then l.assignment.config.hop.hopIndex else -1
  }

  ghost predicate Staffed(family: seq<Local>, hop: nat) {
    exists k :: 0 <= k < |family| && HopOf(family[k]) == hop
  }

  // Exactly the members on node `end` play `role`, and there is one.
  ghost predicate SoleEnd(family: seq<Local>, role: string, end: string) {
    && (forall k :: 0 <= k < |family| ==> (family[k].assignment.role == role <==> family[k].node == end))
    && exists k :: 0 <= k < |family| && family[k].node == end
  }

  // A family with a member on every hop has exactly one ingress node and exactly one egress node.
  lemma FullFamilyHasTwoEnds(env: HopEnv, family: seq<Local>, digest: string) returns (ingress: string, egress: string)
    requires CollisionFree(env.pathDigest) && family != [] && Family(env, family, digest)
    requires forall hop :: 0 <= hop < |family[0].assignment.config.hop.path| ==> Staffed(family, hop)
    ensures ingress != egress && SoleEnd(family, "multihop-ingress", ingress) && SoleEnd(family, "multihop-egress", egress)
  {
    assert Holds(env, family[0]);
    var n := |family[0].assignment.config.hop.path|;
    assert Staffed(family, 0) && Staffed(family, n - 1);
    var first :| 0 <= first < |family| && HopOf(family[first]) == 0;
    var last :| 0 <= last < |family| && HopOf(family[last]) == n - 1;
    ingress, egress := family[first].node, family[last].node;
    PathsAgree(env, family[0], family[last]);
    IngressIsSole(env, family, digest, first);
    EgressIsSole(env, family, digest, last);
    HopIsANode(env, family[first], family[last]);
  }

  lemma IngressIsSole(env: HopEnv, family: seq<Local>, digest: string, first: nat)
    requires CollisionFree(env.pathDigest) && Family(env, family, digest) && first < |family| && HopOf(family[first]) == 0
    ensures SoleEnd(family, "multihop-ingress", family[first].node)
  {
    forall k | 0 <= k < |family|
      ensures family[k].assignment.role == "multihop-ingress" <==> family[k].node == family[first].node
    {
      RoleIsHop(env, family[k], family[first]);
      HopIsANode(env, family[k], family[first]);
    }
  }

  lemma EgressIsSole(env: HopEnv, family: seq<Local>, digest: string, last: nat)
    requires CollisionFree(env.pathDigest) && Family(env, family, digest) && last < |family|
    requires Holds(env, family[last]) && HopOf(family[last]) == |family[last].assignment.config.hop.path| - 1
    ensures SoleEnd(family, "multihop-egress", family[last].node)
  {
    forall k | 0 <= k < |family|
      ensures family[k].assignment.role == "multihop-egress" <==> family[k].node == family[last].node
    {
      RoleIsHop(env, family[k], family[last]);
      HopIsANode(env, family[k], family[last]);
    }
  }

  lemma RoleIsHop(env: HopEnv, x: Local, y: Local)
    requires CollisionFree(env.pathDigest) && Holds(env, x) && Holds(env, y)
    requires x.assignment.config.hop.pathDigest == y.assignment.config.hop.pathDigest
    ensures x.assignment.role == "multihop-ingress" <==> HopOf(x) == 0
    ensures x.assignment.role == "multihop-egress" <==> HopOf(x) == |y.assignment.config.hop.path| - 1
  {
    PathsAgree(env, x, y);
    assert "multihop-ingress"[9] == 'i' && "multihop-transit"[9] == 't' && "multihop-egress"[9] == 'e';
  }
}

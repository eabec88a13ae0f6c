/**
 Upgrade assessment: the uniqueness loop of parseUpgradePlan and assessUpgrade in scripts/ops/upgrade.ts. The
 verdict of the MySQL version pattern and the identifier and digest patterns are inputs.
 */
module Upgrade {
  import opened Outcomes
  import opened Text
  import opened Decimals
  import Timestamps

  const MAX_COUNTER: int := 9007199254740991

  datatype Profile = Runtime | Multihop | ProbeRegistry | ProbePermits | ProbeWithdrawals | ProbeResults | PathTemplates | PathBindings

  datatype Release = Release(control: Profile, agent: Profile)

  datatype Operation = OpUpgrade | OpRollback | OpRecover

  datatype Journal = Journal(
    version: int, nodeId: string, protocolVersion: int, extension: int, generation: int, snapshotDigest: string,
    fileDigest: string, maxBindingFence: int, maxRetiredFence: int, importedTransit: bool)

  datatype Plan = Plan(
    operation: Operation, source: Release, target: Release, controlMultihop: bool, agentMultihop: bool, journals: seq<Journal>)

  datatype Node = Node(nodeId: string, generation: int, snapshotDigest: Option<string>)

  datatype Database = Database(
    binding: string, mysqlOk: bool, migrations: seq<string>, schemaIssues: seq<string>, nodes: seq<Node>,
    unsupportedSnapshots: nat, multihopDeployments: nat, enabledMultihopForwards: nat, latestLeaseUntil: Option<int>)

  datatype Authority = Authority(database: string, maintenance: bool, recovering: bool, latestValidUntil: Option<int>)

  datatype Inspection = Inspection(db: Database, authority: Authority, authorityStable: bool, trustMatches: bool, known: seq<string>)

  datatype Status = Pass | Block | Review

  datatype Code = MigrationHistory | MysqlBaseline | SchemaFootprints | AuthorityBinding | TrustBinding | AuthorityStable
    | AuthorizationBound | PersistedProtocol | SchemaReader | DdlMaintenance | ExecutorRequired | WithdrawalRequired
    | JournalNotInDatabase | ControlNotBehindAgent | SnapshotHistory | SourceProfileMismatch | DowngradeForbidden
    | JournalMigration | InventoryMissing | ExtensionUnsupported | RollbackReview | RecoveryMaintenance | RecoveryWorkflow
    | RecoveryReview | MaintenanceActive

  datatype Check = Check(code: Code, status: Status, subject: string)

  datatype Decision = Blocked | ReviewRequired | Compatible

  datatype Report = Report(decision: Decision, pending: seq<string>, checks: seq<Check>)

  // ---- the plan's journals ----

  datatype Patterns = Patterns(isId: string -> bool, isDigest: string -> bool)

  predicate Counter(x: int) {
    0 <= x <= MAX_COUNTER
  }

  predicate JournalOk(p: Patterns, j: Journal) {
    && j.version == 1 && p.isId(j.nodeId) && j.protocolVersion == 3 && (j.extension == 0 || j.extension == 1) && Counter(j.generation)
    && (if j.generation == 0 then j.snapshotDigest == "" else p.isDigest(j.snapshotDigest)) && p.isDigest(j.fileDigest)
    && Counter(j.maxBindingFence) && Counter(j.maxRetiredFence) && (j.importedTransit ==> j.extension == 1)
  }

  predicate DistinctIds(journals: seq<Journal>) {
    forall i, j :: 0 <= i < j < |journals| ==> journals[i].nodeId != journals[j].nodeId
  }

  function Ids(journals: seq<Journal>): set<string> {
    set i | 0 <= i < |journals| :: journals[i].nodeId
  }

  // A parsed plan names every node at most once.
  method ParseJournals(p: Patterns, journals: seq<Journal>) returns (ok: bool)
    ensures ok <==> |journals| <= 1000 && (forall i :: 0 <= i < |journals| ==> JournalOk(p, journals[i])) && DistinctIds(journals)
  {
    if |journals| > 1000 {
      return false;
    }
    var seen: set<string> := {};
    for i := 0 to |journals|
      invariant seen == Ids(journals[..i]) && DistinctIds(journals[..i])
      invariant forall k :: 0 <= k < i ==> JournalOk(p, journals[k])
    {
      var j := journals[i];
      assert forall id :: id in seen <==> exists k :: 0 <= k < i && journals[k].nodeId == id;
      if || j.version != 1 || !p.isId(j.nodeId) || j.nodeId in seen || j.protocolVersion != 3 || (j.extension != 0 && j.extension != 1)
         || !Counter(j.generation) || (if j.generation == 0 then j.snapshotDigest != "" else !p.isDigest(j.snapshotDigest))
         || !p.isDigest(j.fileDigest) || !Counter(j.maxBindingFence) || !Counter(j.maxRetiredFence)
         || (j.importedTransit && j.extension != 1)
      {
        return false;
      }
      seen := seen + {j.nodeId};
    }
    assert journals[..|journals|] == journals;
    return true;
  }

  // ---- migrations ----

  function Ceiling(p: Profile): string {
    match p
    case Runtime => "0012-"
    case Multihop => "0013-"
    case ProbeRegistry => "0014-"
    case ProbePermits => "0015-"
    case ProbeWithdrawals => "0016-"
    case ProbeResults => "0017-"
    case PathTemplates => "0018-"
    case PathBindings => "0019-"
  }

  function Take(s: string, n: nat): string {
    if |s| <= n then s else s[..n]
  }

  predicate Above(name: string, ceiling: string) {
    Less(ceiling, Take(name, 5))
  }

  lemma {:induction false} CompareWithTail(a: string, b: string, tail: string)
    requires |a| == |b|
    ensures Compare(a + tail, b + tail) == Compare(a, b)
  {
    if a == "" {
      CompareEqual(tail, tail);
      assert a + tail == tail && b + tail == tail;
    } else if a[0] == b[0] {
      CompareWithTail(a[1..], b[1..], tail);
      assert (a + tail)[1..] == a[1..] + tail && (b + tail)[1..] == b[1..] + tail;
    }
  }

  // Each Profile knows one migration more than the one before, from twelve on.
  function Rung(p: Profile): nat {
    match p
    case Runtime => 12
    case Multihop => 13
    case ProbeRegistry => 14
    case ProbePermits => 15
    case ProbeWithdrawals => 16
    case ProbeResults => 17
    case PathTemplates => 18
    case PathBindings => 19
  }

  lemma FourDigits(d: string)
    requires |d| == 4 && AllDigits(d)
    ensures Natural(d) == 1000 * Digit(d[0]) + 100 * Digit(d[1]) + 10 * Digit(d[2]) + Digit(d[3])
  {
    assert d[..3][..2] == d[..2] && d[..2][..1] == d[..1] && d[..1][..0] == "";
    assert Natural(d[..1]) == Digit(d[0]);
    assert Natural(d[..2]) == 10 * Natural(d[..1]) + Digit(d[1]);
    assert Natural(d[..3]) == 10 * Natural(d[..2]) + Digit(d[2]);
  }

  lemma CeilingIsRung(p: Profile)
    ensures Ceiling(p) == Ceiling(p)[..4] + "-" && AllDigits(Ceiling(p)[..4]) && Natural(Ceiling(p)[..4]) == Rung(p)
  {
    FourDigits(Ceiling(p)[..4]);
  }

  // A Profile reads exactly the migrations numbered up to its own, so a later Profile reads all an earlier one does.
  lemma AboveIsNumeric(p: Profile, name: string)
    requires |name| >= 5 && AllDigits(name[..4]) && name[4] == '-'
    ensures Above(name, Ceiling(p)) <==> Natural(name[..4]) > Rung(p)
  {
    CeilingIsRung(p);
    assert Take(name, 5) == name[..4] + "-";
    CompareWithTail(Ceiling(p)[..4], name[..4], "-");
    Timestamps.DigitOrder(Ceiling(p)[..4], name[..4]);
  }

  predicate IsPrefix(applied: seq<string>, known: seq<string>) {
    0 < |applied| <= |known| && forall i :: 0 <= i < |applied| ==> applied[i] == known[i]
  }

  predicate Readable(applied: seq<string>, ceiling: string) {
    forall i :: 0 <= i < |applied| ==> !Above(applied[i], ceiling)
  }

  function Filter(known: seq<string>, applied: seq<string>, ceiling: string): seq<string> {
    if known == [] then []
    else (if !Above(known[0], ceiling) && known[0] !in applied then [known[0]] else []) + Filter(known[1..], applied, ceiling)
  }

  function Pending(applied: seq<string>, known: seq<string>, ceiling: string): seq<string> {
    if IsPrefix(applied, known) then Filter(known, applied, ceiling) else []
  }

  predicate StrictlySorted(names: seq<string>) {
    forall i, j :: 0 <= i < j < |names| ==> Less(names[i], names[j])
  }

  lemma {:induction false} TakeKeepsOrder(a: string, b: string, n: nat)
    requires Compare(a, b) <= 0
    ensures Compare(Take(a, n), Take(b, n)) <= 0
  {
    if n > 0 && a != "" && b != "" && a[0] == b[0] {
      TakeKeepsOrder(a[1..], b[1..], n - 1);
      assert Take(a, n)[1..] == Take(a[1..], n - 1) && Take(b, n)[1..] == Take(b[1..], n - 1);
    }
  }

  lemma AboveIsUpward(a: string, b: string, ceiling: string)
    requires Less(a, b) && Above(a, ceiling)
    ensures Above(b, ceiling)
  {
    TakeKeepsOrder(a, b, 5);
    CompareEqual(Take(a, 5), Take(b, 5));
    if Less(Take(a, 5), Take(b, 5)) {
      LessTransitive(ceiling, Take(a, 5), Take(b, 5));
    }
  }

  // How many of the known migrations the ceiling admits.
  function Admitted(known: seq<string>, ceiling: string): (n: nat)
    ensures n <= |known|
  {
    if known == [] || Above(known[0], ceiling) then 0 else 1 + Admitted(known[1..], ceiling)
  }

  lemma {:induction false} AdmittedIsExact(known: seq<string>, ceiling: string, i: nat)
    requires StrictlySorted(known) && i < |known|
    ensures !Above(known[i], ceiling) <==> i < Admitted(known, ceiling)
  {
    if i > 0 {
      if Above(known[0], ceiling) {
        AboveIsUpward(known[0], known[i], ceiling);
      } else {
        TailSorted(known);
        AdmittedIsExact(known[1..], ceiling, i - 1);
      }
    }
  }

  lemma TailSorted(known: seq<string>)
    requires StrictlySorted(known) && known != []
    ensures StrictlySorted(known[1..])
  {
    forall i, j | 0 <= i < j < |known[1..]| ensures Less(known[1..][i], known[1..][j]) {
      assert Less(known[i + 1], known[j + 1]);
    }
  }

  // Filtering from position `from` on, when exactly the names before `done` were applied.
  lemma {:induction false} FilterIsSlice(known: seq<string>, applied: seq<string>, ceiling: string, from: nat)
    requires StrictlySorted(known) && from <= |known| && |applied| <= Admitted(known, ceiling)
    requires forall i :: 0 <= i < |applied| ==> applied[i] == known[i]
    ensures Filter(known[from..], applied, ceiling) ==
            if from < |applied| then known[|applied|..Admitted(known, ceiling)]
            else if from < Admitted(known, ceiling) then known[from..Admitted(known, ceiling)] else []
    decreases |known| - from
  {
    if from < |known| {
      FilterIsSlice(known, applied, ceiling, from + 1);
      AdmittedIsExact(known, ceiling, from);
      assert known[from..][1..] == known[from + 1..];
      AppliedIsBefore(known, applied, from);
      if |applied| <= from < Admitted(known, ceiling) {
        assert known[from..Admitted(known, ceiling)] == [known[from]] + known[from + 1..Admitted(known, ceiling)];
      }
    }
  }

  lemma AppliedIsBefore(known: seq<string>, applied: seq<string>, i: nat)
    requires StrictlySorted(known) && i < |known| && |applied| <= |known|
    requires forall k :: 0 <= k < |applied| ==> applied[k] == known[k]
    ensures known[i] in applied <==> i < |applied|
  {
    forall k | 0 <= k < |applied| && k != i ensures applied[k] != known[i] {
      SortedApart(known, k, i);
    }
    assert i < |applied| ==> applied[i] == known[i];
  }

  lemma SortedApart(known: seq<string>, i: nat, j: nat)
    requires StrictlySorted(known) && i < |known| && j < |known| && i != j
    ensures known[i] != known[j]
  {
    CompareEqual(known[i], known[j]);
    assert Less(known[i], known[j]) || Less(known[j], known[i]);
  }

  lemma AppliedIsAdmitted(applied: seq<string>, known: seq<string>, ceiling: string)
    requires StrictlySorted(known) && IsPrefix(applied, known) && Readable(applied, ceiling)
    ensures |applied| <= Admitted(known, ceiling)
  {
    var last := |applied| - 1;
    assert applied[last] == known[last];
    AdmittedIsExact(known, ceiling, last);
  }

  lemma PendingIsSlice(applied: seq<string>, known: seq<string>, ceiling: string)
    requires StrictlySorted(known) && IsPrefix(applied, known) && |applied| <= Admitted(known, ceiling)
    ensures Pending(applied, known, ceiling) == known[|applied|..Admitted(known, ceiling)]
  {
    FilterIsSlice(known, applied, ceiling, 0);
    assert known[0..] == known;
  }

  lemma Rejoin(known: seq<string>, m: nat, n: nat)
    requires m <= n <= |known|
    ensures known[..m] + known[m..n] == known[..n]
  {
  }

  // What was applied followed by what is pending is the known list up to the target's ceiling, no more and no less.
  lemma PlanIsExact(applied: seq<string>, known: seq<string>, ceiling: string)
    requires StrictlySorted(known) && IsPrefix(applied, known) && Readable(applied, ceiling)
    ensures applied + Pending(applied, known, ceiling) == known[..Admitted(known, ceiling)]
    ensures forall i :: 0 <= i < |known| ==> (!Above(known[i], ceiling) <==> i < Admitted(known, ceiling))
  {
    AppliedIsAdmitted(applied, known, ceiling);
    PendingIsSlice(applied, known, ceiling);
    Rejoin(known, |applied|, Admitted(known, ceiling));
    assert applied == known[..|applied|];
    forall i | 0 <= i < |known| ensures !Above(known[i], ceiling) <==> i < Admitted(known, ceiling) {
      AdmittedIsExact(known, ceiling, i);
    }
  }

  // ---- journals against nodes ----

  // A finding that is reported only if it applies.
  datatype Rule = Rule(applies: bool, check: Check)

  function Emit(rules: seq<Rule>): seq<Check> {
    if rules == [] then [] else (if rules[0].applies then [rules[0].check] else []) + Emit(rules[1..])
  }

  function Judge(ok: bool): Status {
    if ok then Pass else Block
  }

  // What one journal adds when its node is known.
  function JournalRules(plan: Plan, j: Journal, node: Node): seq<Rule> {
    [Rule(true, Check(ControlNotBehindAgent, Judge(j.generation <= node.generation), j.nodeId)),
     Rule(j.generation > 0 && j.generation == node.generation,
          Check(SnapshotHistory, Judge(Some(j.snapshotDigest) == node.snapshotDigest), j.nodeId)),
     Rule(j.extension == 1 && plan.source.agent == Runtime, Check(SourceProfileMismatch, Block, j.nodeId)),
     Rule(j.extension == 1 && (plan.target.agent != Multihop || !plan.agentMultihop), Check(DowngradeForbidden, Block, j.nodeId)),
     Rule(j.extension == 0 && plan.agentMultihop, Check(JournalMigration, Review, j.nodeId))]
  }

  // The journals in order, against a map that loses each node it reconciles.
  function Reconcile(plan: Plan, journals: seq<Journal>, nodes: map<string, Node>): (r: (seq<Check>, map<string, Node>))
    ensures r.1 == nodes - Ids(journals)
  {
    if journals == [] then
      assert nodes - {} == nodes;
      ([], nodes)
    else
      var last := journals[|journals| - 1];
      var (checks, left) := Reconcile(plan, journals[..|journals| - 1], nodes);
      IdsGrow(journals);
      if last.nodeId !in left then (checks + [Check(JournalNotInDatabase, Block, last.nodeId)], left)
      else (checks + Emit(JournalRules(plan, last, left[last.nodeId])), left - {last.nodeId})
  }

  lemma IdsGrow(journals: seq<Journal>)
    requires journals != []
    ensures Ids(journals) == Ids(journals[..|journals| - 1]) + {journals[|journals| - 1].nodeId}
  {
    var n := |journals| - 1;
    assert journals == journals[..n] + [journals[n]];
    forall id | id in Ids(journals[..n]) ensures id in Ids(journals) {
      var i :| 0 <= i < n && journals[..n][i].nodeId == id;
      assert journals[i].nodeId == id;
    }
    forall id | id in Ids(journals) ensures id in Ids(journals[..n]) + {journals[n].nodeId} {
      var i :| 0 <= i <= n && journals[i].nodeId == id;
      assert i < n ==> journals[..n][i] == journals[i];
    }
  }

  // Later rows for a repeated identifier win.
  function NodeMap(nodes: seq<Node>): map<string, Node> {
    if nodes == [] then map[] else NodeMap(nodes[..|nodes| - 1])[nodes[|nodes| - 1].nodeId := nodes[|nodes| - 1]]
  }

  lemma {:induction false} NodeMapKeys(nodes: seq<Node>, id: string)
    ensures id in NodeMap(nodes) <==> exists i :: 0 <= i < |nodes| && nodes[i].nodeId == id
  {
    if nodes != [] {
      var n := |nodes| - 1;
      NodeMapKeys(nodes[..n], id);
      if i :| 0 <= i < n && nodes[..n][i].nodeId == id {
        assert nodes[i].nodeId == id;
      }
      if i :| 0 <= i <= n && nodes[i].nodeId == id {
        assert i < n ==> nodes[..n][i].nodeId == id;
      }
    }
  }

  // The keys left over, in the order the database listed them.
  function Missing(nodes: seq<Node>, left: map<string, Node>): seq<Check> {
    if nodes == [] then []
    else if nodes[0].nodeId in left
      then [Check(InventoryMissing, Review, nodes[0].nodeId)] + Missing(nodes[1..], left - {nodes[0].nodeId})
      else Missing(nodes[1..], left)
  }

  predicate Free(checks: seq<Check>, status: Status) {
    forall i :: 0 <= i < |checks| ==> checks[i].status != status
  }

  lemma FreeOfBoth(a: seq<Check>, b: seq<Check>, status: Status)
    ensures Free(a + b, status) <==> Free(a, status) && Free(b, status)
  {
    if Free(a + b, status) {
      forall i | 0 <= i < |a| ensures a[i].status != status {
        assert (a + b)[i] == a[i];
      }
      forall i | 0 <= i < |b| ensures b[i].status != status {
        assert (a + b)[|a| + i] == b[i];
      }
    }
  }

  lemma AddBlock(checks: seq<Check>, check: Check)
    requires check.status == Block
    ensures !Free(checks + [check], Block)
  {
    assert (checks + [check])[|checks|] == check;
  }

  predicate Silent(rule: Rule, status: Status) {
    !(rule.applies && rule.check.status == status)
  }

  predicate Quiet(rules: seq<Rule>, status: Status) {
    forall i :: 0 <= i < |rules| ==> Silent(rules[i], status)
  }

  lemma {:induction false} EmitIsFree(rules: seq<Rule>, status: Status)
    ensures Free(Emit(rules), status) <==> Quiet(rules, status)
  {
    if rules != [] {
      var head := if rules[0].applies then [rules[0].check] else [];
      EmitIsFree(rules[1..], status);
      FreeOfBoth(head, Emit(rules[1..]), status);
      assert rules[0].applies ==> head[0] == rules[0].check;
      if Quiet(rules[1..], status) {
        assert forall i :: 0 < i < |rules| ==> rules[i] == rules[1..][i - 1];
      }
    }
  }

  predicate JournalClear(plan: Plan, j: Journal, node: Node) {
    && j.generation <= node.generation
    && (j.generation > 0 && j.generation == node.generation ==> Some(j.snapshotDigest) == node.snapshotDigest)
    && (j.extension == 1 ==> plan.source.agent != Runtime && plan.target.agent == Multihop && plan.agentMultihop)
  }

  lemma JournalVerdict(plan: Plan, j: Journal, node: Node)
    ensures Free(Emit(JournalRules(plan, j, node)), Block) <==> JournalClear(plan, j, node)
    ensures Free(Emit(JournalRules(plan, j, node)), Review) <==> !(j.extension == 0 && plan.agentMultihop)
  {
    var r := JournalRules(plan, j, node);
    EmitIsFree(r, Block);
    EmitIsFree(r, Review);
    assert Quiet(r, Block) <==> Silent(r[0], Block) && Silent(r[1], Block) && Silent(r[2], Block) && Silent(r[3], Block) && Silent(r[4], Block);
    assert Quiet(r, Review) <==> Silent(r[0], Review) && Silent(r[1], Review) && Silent(r[2], Review) && Silent(r[3], Review) && Silent(r[4], Review);
  }

  predicate JournalsClear(plan: Plan, journals: seq<Journal>, nodes: map<string, Node>) {
    forall i :: 0 <= i < |journals| ==> journals[i].nodeId in nodes && JournalClear(plan, journals[i], nodes[journals[i].nodeId])
  }

  // The shrinking map blocks a plan exactly for a repeated identifier, an unknown node, or a journal whose own
  // comparison with its node is not clear.
  lemma {:induction false} ReconcileBlocks(plan: Plan, journals: seq<Journal>, nodes: map<string, Node>)
    ensures Free(Reconcile(plan, journals, nodes).0, Block) <==> DistinctIds(journals) && JournalsClear(plan, journals, nodes)
  {
    if journals != [] {
      var n := |journals| - 1;
      var before := journals[..n];
      var last := journals[n];
      ReconcileBlocks(plan, before, nodes);
      var (checks, left) := Reconcile(plan, before, nodes);
      DistinctGrows(journals);
      ClearGrows(plan, journals, nodes);
      if last.nodeId in left {
        JournalVerdict(plan, last, left[last.nodeId]);
        FreeOfBoth(checks, Emit(JournalRules(plan, last, left[last.nodeId])), Block);
      } else {
        AddBlock(checks, Check(JournalNotInDatabase, Block, last.nodeId));
      }
    }
  }

  lemma ClearGrows(plan: Plan, journals: seq<Journal>, nodes: map<string, Node>)
    requires journals != []
    ensures var n := |journals| - 1;
            JournalsClear(plan, journals, nodes) <==>
              && JournalsClear(plan, journals[..n], nodes)
              && journals[n].nodeId in nodes && JournalClear(plan, journals[n], nodes[journals[n].nodeId])
  {
    var n := |journals| - 1;
    assert forall i :: 0 <= i < n ==> journals[..n][i] == journals[i];
    if JournalsClear(plan, journals[..n], nodes) {
      forall i | 0 <= i < n ensures journals[i].nodeId in nodes && JournalClear(plan, journals[i], nodes[journals[i].nodeId]) {
        assert journals[..n][i].nodeId in nodes;
      }
    }
  }

  lemma DistinctGrows(journals: seq<Journal>)
    requires journals != []
    ensures var n := |journals| - 1;
            DistinctIds(journals) <==> DistinctIds(journals[..n]) && journals[n].nodeId !in Ids(journals[..n])
  {
    var n := |journals| - 1;
    var before := journals[..n];
    assert forall i :: 0 <= i < n ==> before[i] == journals[i];
    if DistinctIds(before) && journals[n].nodeId !in Ids(before) {
      forall i, j | 0 <= i < j <= n ensures journals[i].nodeId != journals[j].nodeId {
        assert before[i].nodeId in Ids(before);
        assert j < n ==> before[i].nodeId != before[j].nodeId;
      }
    }
  }

  // The same checks looked up one by one in the full map.
  function Lookups(plan: Plan, journals: seq<Journal>, nodes: map<string, Node>): seq<Check> {
    if journals == [] then [] else
    var last := journals[|journals| - 1];
    Lookups(plan, journals[..|journals| - 1], nodes)
    + (if last.nodeId in nodes then Emit(JournalRules(plan, last, nodes[last.nodeId])) else [Check(JournalNotInDatabase, Block, last.nodeId)])
  }

  // With distinct identifiers, deleting as it goes changes nothing: each journal meets the node the database lists.
  lemma {:induction false} ReconcileIsLookup(plan: Plan, journals: seq<Journal>, nodes: map<string, Node>)
    requires DistinctIds(journals)
    ensures Reconcile(plan, journals, nodes).0 == Lookups(plan, journals, nodes)
  {
    if journals != [] {
      DistinctGrows(journals);
      ReconcileIsLookup(plan, journals[..|journals| - 1], nodes);
    }
  }

  lemma {:induction false} ReconcileReviews(plan: Plan, journals: seq<Journal>, nodes: map<string, Node>)
    requires Free(Reconcile(plan, journals, nodes).0, Block)
    ensures Free(Reconcile(plan, journals, nodes).0, Review) <==>
            forall i :: 0 <= i < |journals| ==> !(journals[i].extension == 0 && plan.agentMultihop)
  {
    if journals != [] {
      var n := |journals| - 1;
      var before := journals[..n];
      var last := journals[n];
      var (checks, left) := Reconcile(plan, before, nodes);
      assert journals == before + [last];
      if last.nodeId in left {
        var more := Emit(JournalRules(plan, last, left[last.nodeId]));
        FreeOfBoth(checks, more, Block);
        FreeOfBoth(checks, more, Review);
        JournalVerdict(plan, last, left[last.nodeId]);
        ReconcileReviews(plan, before, nodes);
      } else {
        AddBlock(checks, Check(JournalNotInDatabase, Block, last.nodeId));
      }
    }
  }

  // ---- nodes nobody accounted for ----

  lemma {:induction false} MissingReviews(nodes: seq<Node>, left: map<string, Node>)
    requires forall id :: id in left ==> exists i :: 0 <= i < |nodes| && nodes[i].nodeId == id
    ensures Free(Missing(nodes, left), Block)
    ensures Free(Missing(nodes, left), Review) <==> left == map[]
  {
    if nodes != [] {
      var id := nodes[0].nodeId;
      var rest := left - {id};
      forall other | other in rest ensures exists i :: 0 <= i < |nodes[1..]| && nodes[1..][i].nodeId == other {
        var i :| 0 <= i < |nodes| && nodes[i].nodeId == other;
        assert nodes[1..][i - 1].nodeId == other;
      }
      MissingReviews(nodes[1..], rest);
      if id in left {
        var check := Check(InventoryMissing, Review, id);
        assert Missing(nodes, left)[0] == check;
        FreeOfBoth([check], Missing(nodes[1..], rest), Block);
      } else {
        assert rest == left;
      }
    }
  }

  // ---- the whole assessment ----

  function OrZero(x: Option<int>): int {
    if x.Some? then x.value else 0
  }

  function HeaderRules(plan: Plan, s: Inspection): seq<Rule> {
    var (db, a) := (s.db, s.authority);
    [Rule(true, Check(MigrationHistory, Judge(IsPrefix(db.migrations, s.known)), "database")),
     Rule(true, Check(MysqlBaseline, Judge(db.mysqlOk), "database")),
     Rule(true, Check(SchemaFootprints, Judge(db.schemaIssues == []), "database")),
     Rule(true, Check(AuthorityBinding, Judge(a.database == db.binding), "authority")),
     Rule(true, Check(TrustBinding, Judge(s.trustMatches), "authority")),
     Rule(true, Check(AuthorityStable, if s.authorityStable then Pass else Review, "authority")),
     Rule(true, Check(AuthorizationBound, Judge(OrZero(db.latestLeaseUntil) <= OrZero(a.latestValidUntil)), "authority")),
     Rule(true, Check(PersistedProtocol, Judge(db.unsupportedSnapshots == 0), "database")),
     Rule(true, Check(SchemaReader, Judge(Readable(db.migrations, Ceiling(plan.source.control))), "source")),
     Rule(true, Check(SchemaReader, Judge(Readable(db.migrations, Ceiling(plan.target.control))), "target"))]
  }

  function PendingOf(plan: Plan, s: Inspection): seq<string> {
    Pending(s.db.migrations, s.known, Ceiling(plan.target.control))
  }

  predicate ExecutorMissing(plan: Plan) {
    plan.controlMultihop && (plan.target.control == Runtime || plan.target.agent != Multihop || !plan.agentMultihop)
  }

  predicate WithdrawalOpen(plan: Plan, db: Database) {
    !plan.controlMultihop && (db.multihopDeployments > 0 || db.enabledMultihopForwards > 0)
  }

  function MiddleRules(plan: Plan, s: Inspection): seq<Rule> {
    [Rule(PendingOf(plan, s) != [], Check(DdlMaintenance, Review, "database")),
     Rule(ExecutorMissing(plan), Check(ExecutorRequired, Block, "deployment")),
     Rule(WithdrawalOpen(plan, s.db), Check(WithdrawalRequired, Block, "deployment"))]
  }

  function TailRules(plan: Plan, a: Authority): seq<Rule> {
    [Rule(plan.agentMultihop && plan.target.agent != Multihop, Check(ExtensionUnsupported, Block, "deployment")),
     Rule(plan.operation == OpRollback, Check(RollbackReview, Review, "deployment")),
     Rule(plan.operation == OpRecover, Check(RecoveryMaintenance, Judge(a.maintenance), "authority")),
     Rule(plan.operation == OpRecover, Check(RecoveryWorkflow, Review, "authority")),
     Rule(plan.operation != OpRecover && a.maintenance, Check(if a.recovering then RecoveryReview else MaintenanceActive, Review, "authority"))]
  }

  function AllChecks(plan: Plan, s: Inspection): seq<Check> {
    var (journals, left) := Reconcile(plan, plan.journals, NodeMap(s.db.nodes));
    Emit(HeaderRules(plan, s)) + Emit(MiddleRules(plan, s)) + journals + Missing(s.db.nodes, left) + Emit(TailRules(plan, s.authority))
  }

  function Decide(checks: seq<Check>): Decision {
    if !Free(checks, Block) then Blocked else if !Free(checks, Review) then ReviewRequired else Compatible
  }

  // ---- what the decision means ----

  // Nothing stands in the way.
  predicate Clear(plan: Plan, s: Inspection) {
    && IsPrefix(s.db.migrations, s.known) && s.db.mysqlOk && s.db.schemaIssues == []
    && s.authority.database == s.db.binding && s.trustMatches
    && OrZero(s.db.latestLeaseUntil) <= OrZero(s.authority.latestValidUntil) && s.db.unsupportedSnapshots == 0
    && Readable(s.db.migrations, Ceiling(plan.source.control)) && Readable(s.db.migrations, Ceiling(plan.target.control))
    && !ExecutorMissing(plan) && !WithdrawalOpen(plan, s.db)
    && DistinctIds(plan.journals) && JournalsClear(plan, plan.journals, NodeMap(s.db.nodes))
    && (plan.agentMultihop ==> plan.target.agent == Multihop)
    && (plan.operation == OpRecover ==> s.authority.maintenance)
  }

  // Nothing is left for a person to look at.
  predicate Settled(plan: Plan, s: Inspection) {
    && s.authorityStable && PendingOf(plan, s) == [] && plan.operation == OpUpgrade && !s.authority.maintenance
    && (forall i :: 0 <= i < |plan.journals| ==> !(plan.journals[i].extension == 0 && plan.agentMultihop))
    && forall i :: 0 <= i < |s.db.nodes| ==> s.db.nodes[i].nodeId in Ids(plan.journals)
  }

  lemma HeaderVerdict(plan: Plan, s: Inspection)
    ensures Free(Emit(HeaderRules(plan, s)), Block) <==>
              && IsPrefix(s.db.migrations, s.known) && s.db.mysqlOk && s.db.schemaIssues == []
              && s.authority.database == s.db.binding && s.trustMatches
              && OrZero(s.db.latestLeaseUntil) <= OrZero(s.authority.latestValidUntil) && s.db.unsupportedSnapshots == 0
              && Readable(s.db.migrations, Ceiling(plan.source.control)) && Readable(s.db.migrations, Ceiling(plan.target.control))
    ensures Free(Emit(HeaderRules(plan, s)), Review) <==> s.authorityStable
  {
    var r := HeaderRules(plan, s);
    EmitIsFree(r, Block);
    EmitIsFree(r, Review);
    assert Quiet(r, Block) <==>
        && Silent(r[0], Block) && Silent(r[1], Block) && Silent(r[2], Block) && Silent(r[3], Block) && Silent(r[4], Block)
        && Silent(r[5], Block) && Silent(r[6], Block) && Silent(r[7], Block) && Silent(r[8], Block) && Silent(r[9], Block);
    assert Quiet(r, Review) <==> Silent(r[5], Review);
  }

  lemma MiddleVerdict(plan: Plan, s: Inspection)
    ensures Free(Emit(MiddleRules(plan, s)), Block) <==> !ExecutorMissing(plan) && !WithdrawalOpen(plan, s.db)
    ensures Free(Emit(MiddleRules(plan, s)), Review) <==> PendingOf(plan, s) == []
  {
    var r := MiddleRules(plan, s);
    EmitIsFree(r, Block);
    EmitIsFree(r, Review);
    assert Quiet(r, Block) <==> Silent(r[0], Block) && Silent(r[1], Block) && Silent(r[2], Block);
    assert Quiet(r, Review) <==> Silent(r[0], Review) && Silent(r[1], Review) && Silent(r[2], Review);
  }

  lemma TailVerdict(plan: Plan, a: Authority)
    ensures Free(Emit(TailRules(plan, a)), Block) <==>
              (plan.agentMultihop ==> plan.target.agent == Multihop) && (plan.operation == OpRecover ==> a.maintenance)
    ensures Free(Emit(TailRules(plan, a)), Review) <==> plan.operation == OpUpgrade && !a.maintenance
  {
    var r := TailRules(plan, a);
    EmitIsFree(r, Block);
    EmitIsFree(r, Review);
    assert Quiet(r, Block) <==> Silent(r[0], Block) && Silent(r[1], Block) && Silent(r[2], Block) && Silent(r[3], Block) && Silent(r[4], Block);
    assert Quiet(r, Review) <==> Silent(r[0], Review) && Silent(r[1], Review) && Silent(r[2], Review) && Silent(r[3], Review) && Silent(r[4], Review);
  }

  lemma PartsVerdict(a: seq<Check>, b: seq<Check>, c: seq<Check>, d: seq<Check>, e: seq<Check>, status: Status)
    ensures Free(a + b + c + d + e, status) <==>
            Free(a, status) && Free(b, status) && Free(c, status) && Free(d, status) && Free(e, status)
  {
    FreeOfBoth(a, b, status);
    FreeOfBoth(a + b, c, status);
    FreeOfBoth(a + b + c, d, status);
    FreeOfBoth(a + b + c + d, e, status);
  }

  lemma NodesVerdict(plan: Plan, s: Inspection)
    ensures var left := Reconcile(plan, plan.journals, NodeMap(s.db.nodes)).1;
            && Free(Missing(s.db.nodes, left), Block)
            && (Free(Missing(s.db.nodes, left), Review) <==> forall i :: 0 <= i < |s.db.nodes| ==> s.db.nodes[i].nodeId in Ids(plan.journals))
  {
    var nodes := NodeMap(s.db.nodes);
    var left := Reconcile(plan, plan.journals, nodes).1;
    forall id ensures id in nodes <==> exists i :: 0 <= i < |s.db.nodes| && s.db.nodes[i].nodeId == id {
      NodeMapKeys(s.db.nodes, id);
    }
    MissingReviews(s.db.nodes, left);
    if left == map[] {
      forall i | 0 <= i < |s.db.nodes| ensures s.db.nodes[i].nodeId in Ids(plan.journals) {
        assert s.db.nodes[i].nodeId in nodes;
        assert s.db.nodes[i].nodeId !in left;
      }
    } else {
      var id :| id in left;
      var i :| 0 <= i < |s.db.nodes| && s.db.nodes[i].nodeId == id;
      assert s.db.nodes[i].nodeId !in Ids(plan.journals);
    }
  }

  // The decision is exact: blocked precisely if something is in the way, compatible precisely if nothing is and
  // nothing is left to review.
  lemma DecisionIsExact(plan: Plan, s: Inspection)
    ensures Decide(AllChecks(plan, s)) == Blocked <==> !Clear(plan, s)
    ensures Decide(AllChecks(plan, s)) == Compatible <==> Clear(plan, s) && Settled(plan, s)
  {
    var (journals, left) := Reconcile(plan, plan.journals, NodeMap(s.db.nodes));
    var (header, middle, missing, tail) :=
      (Emit(HeaderRules(plan, s)), Emit(MiddleRules(plan, s)), Missing(s.db.nodes, left), Emit(TailRules(plan, s.authority)));
    PartsVerdict(header, middle, journals, missing, tail, Block);
    PartsVerdict(header, middle, journals, missing, tail, Review);
    HeaderVerdict(plan, s);
    MiddleVerdict(plan, s);
    TailVerdict(plan, s.authority);
    NodesVerdict(plan, s);
    ReconcileBlocks(plan, plan.journals, NodeMap(s.db.nodes));
    if Free(journals, Block) {
      ReconcileReviews(plan, plan.journals, NodeMap(s.db.nodes));
    }
  }

  // ---- the procedure ----

  method IndexNodes(nodes: seq<Node>) returns (index: map<string, Node>)
    ensures index == NodeMap(nodes)
  {
    index := map[];
    for i := 0 to |nodes|
      invariant index == NodeMap(nodes[..i])
    {
      assert nodes[..i + 1][..i] == nodes[..i];
      index := index[nodes[i].nodeId := nodes[i]];
    }
    assert nodes[..|nodes|] == nodes;
  }

  method ReconcileJournals(plan: Plan, index: map<string, Node>) returns (checks: seq<Check>, nodes: map<string, Node>)
    ensures (checks, nodes) == Reconcile(plan, plan.journals, index)
  {
    checks, nodes := [], index;
    for i := 0 to |plan.journals|
      invariant (checks, nodes) == Reconcile(plan, plan.journals[..i], index)
    {
      var j := plan.journals[i];
      assert plan.journals[..i + 1][..i] == plan.journals[..i];
      if j.nodeId !in nodes {
        checks := checks + [Check(JournalNotInDatabase, Block, j.nodeId)];
        continue;
      }
      var node := nodes[j.nodeId];
      nodes := nodes - {j.nodeId};
      checks := checks + Emit(JournalRules(plan, j, node));
    }
    assert plan.journals[..|plan.journals|] == plan.journals;
  }

  method ReportMissing(listed: seq<Node>, nodes: map<string, Node>) returns (checks: seq<Check>)
    ensures checks == Missing(listed, nodes)
  {
    checks := [];
    var left := nodes;
    for i := 0 to |listed|
      invariant Missing(listed, nodes) == checks + Missing(listed[i..], left)
    {
      assert listed[i..][1..] == listed[i + 1..];
      var id := listed[i].nodeId;
      if id in left {
        checks := checks + [Check(InventoryMissing, Review, id)];
        left := left - {id};
      }
    }
  }

  method AssessUpgrade(plan: Plan, s: Inspection) returns (report: Report)
    ensures report.checks == AllChecks(plan, s) && report.pending == PendingOf(plan, s)
    ensures report.decision == Blocked <==> !Clear(plan, s)
    ensures report.decision == Compatible <==> Clear(plan, s) && Settled(plan, s)
  {
    var checks := Emit(HeaderRules(plan, s));
    var pending := PendingOf(plan, s);
    checks := checks + Emit(MiddleRules(plan, s));
    var index := IndexNodes(s.db.nodes);
    var journals, left := ReconcileJournals(plan, index);
    checks := checks + journals;
    var missing := ReportMissing(s.db.nodes, left);
    checks := checks + missing + Emit(TailRules(plan, s.authority));
    DecisionIsExact(plan, s);
    report := Report(Decide(checks), pending, checks);
  }

  // A compatible plan covers every node with exactly one journal, leaves no Agent ahead of Control, downgrades no
  // extension and has no migration outstanding.
  lemma CompatibleIsComplete(plan: Plan, s: Inspection)
    requires Decide(AllChecks(plan, s)) == Compatible
    ensures forall id :: (id in Ids(plan.journals) <==> id in NodeMap(s.db.nodes))
    ensures DistinctIds(plan.journals)
    ensures forall i :: 0 <= i < |plan.journals| ==>
              && plan.journals[i].nodeId in NodeMap(s.db.nodes)
              && plan.journals[i].generation <= NodeMap(s.db.nodes)[plan.journals[i].nodeId].generation
              && (plan.journals[i].extension == 1 ==> plan.target.agent == Multihop && plan.agentMultihop)
    ensures StrictlySorted(s.known) ==> s.db.migrations == s.known[..Admitted(s.known, Ceiling(plan.target.control))]
  {
    DecisionIsExact(plan, s);
    forall id ensures id in Ids(plan.journals) <==> id in NodeMap(s.db.nodes) {
      NodeMapKeys(s.db.nodes, id);
      if id in Ids(plan.journals) {
        var i :| 0 <= i < |plan.journals| && plan.journals[i].nodeId == id;
        assert plan.journals[i].nodeId in NodeMap(s.db.nodes);
      }
    }
    if StrictlySorted(s.known) {
      PlanIsExact(s.db.migrations, s.known, Ceiling(plan.target.control));
      assert s.db.migrations + [] == s.db.migrations;
    }
  }

  // ---- the account of every node ----

  // How many checks of this kind there are about a subject.
  function Count(checks: seq<Check>, code: Code, subject: string): nat {
    if checks == [] then 0
    else (if checks[0].code == code && checks[0].subject == subject then 1 else 0) + Count(checks[1..], code, subject)
  }

  lemma {:induction false} CountOfBoth(a: seq<Check>, b: seq<Check>, code: Code, subject: string)
    ensures Count(a + b, code, subject) == Count(a, code, subject) + Count(b, code, subject)
  {
    if a == [] {
      assert a + b == b;
    } else {
      assert (a + b)[1..] == a[1..] + b;
      CountOfBoth(a[1..], b, code, subject);
    }
  }

  lemma {:induction false} CountNone(rules: seq<Rule>, code: Code, subject: string)
    requires forall i :: 0 <= i < |rules| ==> rules[i].check.code != code
    ensures Count(Emit(rules), code, subject) == 0
  {
    if rules != [] {
      CountNone(rules[1..], code, subject);
      CountOfBoth(if rules[0].applies then [rules[0].check] else [], Emit(rules[1..]), code, subject);
    }
  }

  // A reconciled journal compares its node with Control once, and with nobody else's.
  lemma CountJournal(plan: Plan, j: Journal, node: Node, subject: string)
    ensures Count(Emit(JournalRules(plan, j, node)), ControlNotBehindAgent, subject) == if j.nodeId == subject then 1 else 0
    ensures Count(Emit(JournalRules(plan, j, node)), InventoryMissing, subject) == 0
  {
    var r := JournalRules(plan, j, node);
    CountNone(r[1..], ControlNotBehindAgent, subject);
    CountNone(r, InventoryMissing, subject);
    CountOfBoth([r[0].check], Emit(r[1..]), ControlNotBehindAgent, subject);
  }

  lemma {:induction false} CountReconciled(plan: Plan, journals: seq<Journal>, nodes: map<string, Node>, id: string)
    ensures Count(Reconcile(plan, journals, nodes).0, ControlNotBehindAgent, id) == if id in Ids(journals) && id in nodes then 1 else 0
    ensures Count(Reconcile(plan, journals, nodes).0, InventoryMissing, id) == 0
  {
    if journals != [] {
      var n := |journals| - 1;
      var (checks, left) := Reconcile(plan, journals[..n], nodes);
      var last := journals[n];
      CountReconciled(plan, journals[..n], nodes, id);
      IdsGrow(journals);
      var more := if last.nodeId in left then Emit(JournalRules(plan, last, left[last.nodeId])) else [Check(JournalNotInDatabase, Block, last.nodeId)];
      assert Reconcile(plan, journals, nodes).0 == checks + more;
      CountOfBoth(checks, more, ControlNotBehindAgent, id);
      CountOfBoth(checks, more, InventoryMissing, id);
      if last.nodeId in left {
        CountJournal(plan, last, left[last.nodeId], id);
      }
    }
  }

  lemma {:induction false} CountMissing(nodes: seq<Node>, left: map<string, Node>, id: string)
    ensures Count(Missing(nodes, left), InventoryMissing, id) ==
            if id in left && exists i :: 0 <= i < |nodes| && nodes[i].nodeId == id then 1 else 0
    ensures Count(Missing(nodes, left), ControlNotBehindAgent, id) == 0
  {
    if nodes != [] {
      var first := nodes[0].nodeId;
      var rest := if first in left then left - {first} else left;
      CountMissing(nodes[1..], rest, id);
      if first in left {
        assert Missing(nodes, left)[1..] == Missing(nodes[1..], rest);
      }
      if i :| 0 <= i < |nodes[1..]| && nodes[1..][i].nodeId == id {
        assert nodes[i + 1].nodeId == id;
      }
      if i :| 0 <= i < |nodes| && nodes[i].nodeId == id {
        assert i > 0 ==> nodes[1..][i - 1].nodeId == id;
      }
    }
  }

  lemma HeaderHasNone(plan: Plan, s: Inspection, code: Code, id: string)
    requires code == ControlNotBehindAgent || code == InventoryMissing
    ensures Count(Emit(HeaderRules(plan, s)), code, id) == 0
  {
    CountNone(HeaderRules(plan, s), code, id);
  }

  lemma TailHasNone(plan: Plan, a: Authority, code: Code, id: string)
    requires code == ControlNotBehindAgent || code == InventoryMissing
    ensures Count(Emit(TailRules(plan, a)), code, id) == 0
  {
    CountNone(TailRules(plan, a), code, id);
  }

  lemma CountAll(plan: Plan, s: Inspection, code: Code, id: string)
    requires code == ControlNotBehindAgent || code == InventoryMissing
    ensures var (journals, left) := Reconcile(plan, plan.journals, NodeMap(s.db.nodes));
            Count(AllChecks(plan, s), code, id) == Count(journals, code, id) + Count(Missing(s.db.nodes, left), code, id)
  {
    var (journals, left) := Reconcile(plan, plan.journals, NodeMap(s.db.nodes));
    var (header, middle, missing, tail) :=
      (Emit(HeaderRules(plan, s)), Emit(MiddleRules(plan, s)), Missing(s.db.nodes, left), Emit(TailRules(plan, s.authority)));
    HeaderHasNone(plan, s, code, id);
    CountNone(MiddleRules(plan, s), code, id);
    TailHasNone(plan, s.authority, code, id);
    CountParts(header, middle, journals, missing, tail, code, id);
  }

  lemma CountParts(a: seq<Check>, b: seq<Check>, c: seq<Check>, d: seq<Check>, e: seq<Check>, code: Code, id: string)
    ensures Count(a + b + c + d + e, code, id) == Count(a, code, id) + Count(b, code, id) + Count(c, code, id) + Count(d, code, id) + Count(e, code, id)
  {
    CountOfBoth(a, b, code, id);
    CountOfBoth(a + b, c, code, id);
    CountOfBoth(a + b + c, d, code, id);
    CountOfBoth(a + b + c + d, e, code, id);
  }

  // Every database node is accounted for exactly once in the report: compared with Control if a journal names it,
  // reported missing if none does, never both, however often the plan names it.
  lemma EveryNodeIsAccountedFor(plan: Plan, s: Inspection, i: nat)
    requires i < |s.db.nodes|
    ensures var (id, checks) := (s.db.nodes[i].nodeId, AllChecks(plan, s));
            && Count(checks, ControlNotBehindAgent, id) == (if id in Ids(plan.journals) then 1 else 0)
            && Count(checks, InventoryMissing, id) == (if id in Ids(plan.journals) then 0 else 1)
  {
    var id := s.db.nodes[i].nodeId;
    var (journals, left) := Reconcile(plan, plan.journals, NodeMap(s.db.nodes));
    NodeMapKeys(s.db.nodes, id);
    CountAll(plan, s, ControlNotBehindAgent, id);
    CountAll(plan, s, InventoryMissing, id);
    CountReconciled(plan, plan.journals, NodeMap(s.db.nodes), id);
    CountMissing(s.db.nodes, left, id);
  }
}

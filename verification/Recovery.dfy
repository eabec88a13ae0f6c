/**
 Recovery against live authority: the protected authority record of Control
 (apps/control/src/infrastructure/authority.ts), the restore gate (scripts/ops/recovery.ts), and every
 Agent's guard running on its own synchronized clock.

 Control works in milliseconds and seconds, Agents in nanoseconds. The true time of each step is part of
 the step; nobody can read it.
 */
module Recovery {
  import opened Outcomes
  import opened LeaseGuard
  import opened ClockEvidence
  import LeaseRuns

  const MILLI: int := 1000000
  const MAX_COUNTER: int := 9007199254740991

  datatype Authority = Authority(
    sequence: nat, database: string, trustDigest: string, maintenance: bool, latestValidUntil: Option<int>,
    maxLeaseSeconds: int, maxClockSkewSeconds: int, recoveryId: Option<string>)

  datatype Error = InvalidBound | Maintenance | SequenceExhausted | NotExpired | SameTrust | ReviewRequired
    | IssuersRunning | MaintenanceRequired | FreshTrustRequired | UntrustedClock | NotReady

  // The locked read-change-write cycle every operation on the record goes through.
  function Mutate(a: Authority, change: Result<Authority, Error>): Result<Authority, Error> {
    if a.sequence >= MAX_COUNTER then Err(SequenceExhausted)
    else if change.Err? then change
    else Ok(change.value.(sequence := a.sequence + 1))
  }

  // Date.now() is read twice: once against the past, once against the far future.
  function Issue(a: Authority, validUntil: int, leaseSeconds: int, skewSeconds: int, now: int, later: int): Result<Authority, Error> {
    if || validUntil < -MAX_COUNTER || validUntil > MAX_COUNTER || validUntil <= now
       || leaseSeconds < 1 || leaseSeconds > 300 || skewSeconds < 1 || skewSeconds > 5
       || validUntil > later + leaseSeconds * 1000
    then Err(InvalidBound)
    else Mutate(a,
      if a.maintenance then Err(Maintenance) else Ok(a.(
        latestValidUntil := Some(Max(if a.latestValidUntil.Some? then a.latestValidUntil.value else 0, validUntil)),
        maxLeaseSeconds := Max(a.maxLeaseSeconds, leaseSeconds),
        maxClockSkewSeconds := Max(a.maxClockSkewSeconds, skewSeconds))))
  }

  function Maintain(a: Authority): Result<Authority, Error> {
    Mutate(a, Ok(a.(maintenance := true)))
  }

  function Resume(a: Authority, reviewed: Option<string>): Result<Authority, Error> {
    Mutate(a, if a.recoveryId.Some? && reviewed != a.recoveryId then Err(ReviewRequired) else Ok(a.(maintenance := false)))
  }

  function Rebind(a: Authority, database: string, trust: string, recoveryId: string, now: int): Result<Authority, Error> {
    Mutate(a,
    if !a.maintenance then Err(MaintenanceRequired)
    else if a.latestValidUntil.Some? && now < a.latestValidUntil.value + a.maxClockSkewSeconds * 1000 then Err(NotExpired)
    else if a.trustDigest == trust then Err(SameTrust)
    else Ok(a.(database := database, trustDigest := trust, recoveryId := Some(recoveryId))))
  }

  // What the time checker printed: its own clock in nanoseconds, and the skew it vouches for.
  datatype TimeCheck = TimeCheck(synchronized: bool, checkedAt: int, maxSkewSeconds: int)

  // Date.parse drops everything below a millisecond.
  function ParseMillis(nanos: int): int {
    nanos / MILLI
  }

  function TrustedRecoveryTime(check: TimeCheck, started: int, ended: int): Result<int, Error> {
    var now := ParseMillis(check.checkedAt);
    if || !check.synchronized || check.maxSkewSeconds < 1 || check.maxSkewSeconds > 5
       || now < started - check.maxSkewSeconds * 1000 || now > ended + check.maxSkewSeconds * 1000
    then Err(UntrustedClock) else Ok(now)
  }

  // The gates restoreDatabase applies to the record it reads.
  function ReadGate(a: Authority, issuersStopped: bool, newTrust: string): Result<(), Error> {
    if !issuersStopped then Err(IssuersRunning)
    else if !a.maintenance then Err(MaintenanceRequired)
    else if newTrust == a.trustDigest then Err(FreshTrustRequired)
    else Ok(())
  }

  // The gate on that record once the checker has answered, up to RECOVERY_NOT_READY.
  function TimeGate(a: Authority, check: TimeCheck, started: int, ended: int): Result<(), Error> {
    var time := TrustedRecoveryTime(check, started, ended);
    if time.Err? then Err(time.error)
    else if && a.latestValidUntil.Some?
            && time.value - check.maxSkewSeconds * 1000 < a.latestValidUntil.value + a.maxClockSkewSeconds * 1000
    then Err(NotReady)
    else Ok(())
  }

  // A snapshot's time window, in nanoseconds as the Agent parses it.
  datatype Window = Window(issued: int, valid: int)

  datatype Agent = Agent(cache: Cache, history: LeaseRuns.History)

  // A restore under way: the record it read, and how much was published by then.
  datatype Restoring = Restoring(record: Authority, published: nat)

  // A restore that went ahead: when, what it took to be exhausted, what was published when it read the record, and
  // how much had been allowed by then.
  datatype Gate = Gate(truth: int, cutoff: Option<int>, published: nat, allowed: nat)

  datatype System = System(
    truth: int, authority: Authority, published: seq<Window>, agents: seq<Agent>, allowed: seq<Window>,
    restoring: seq<Restoring>, gates: seq<Gate>)

  datatype Step =
    | Publish(window: Window, leaseSeconds: int, skewSeconds: int, now: int, later: int)
    | EnterMaintenance
    | LeaveMaintenance(reviewed: Option<string>)
    | RebindTrust(database: string, trust: string, recoveryId: string, now: int)
    | Enroll(first: Reading, skew: int, maximum: int, credential: int)
    | Act(agent: nat, act: LeaseRuns.Act, query: Query)
    | ReadRecord(issuersStopped: bool, newTrust: string)
    | PassGate(restore: nat, check: TimeCheck, started: int, ended: int)

  function WithAuthority(s: System, r: Result<Authority, Error>): System {
    if r.Ok? then s.(authority := r.value) else s
  }

  function DoAct(s: System, i: nat, act: LeaseRuns.Act, q: Query): System
    requires i < |s.agents|
  {
    var agent := s.agents[i];
    var (cache, reading) := Consult(agent.cache, agent.history.lease.skew, q);
    var h := LeaseRuns.Apply(agent.history, act, reading);
    s.(agents := s.agents[i := Agent(cache, h)],
       allowed := if |h.uses| > |agent.history.uses| then s.allowed + [LastUsed(h)] else s.allowed)
  }

  // The window behind the most recent successful Allow.
  function LastUsed(h: LeaseRuns.History): Window {
    if h.uses != [] && h.uses[|h.uses| - 1].held < |h.held| && h.held[h.uses[|h.uses| - 1].held].root < |h.grants| then
      var g := h.grants[h.held[h.uses[|h.uses| - 1].held].root];
      Window(g.issued, g.valid)
    else Window(0, 0)
  }

  function DoStep(s: System, step: Step, truth: int): System {
    var t := s.(truth := truth);
    match step
    case Publish(w, lease, skew, now, later) =>
      var r := Issue(s.authority, ParseMillis(w.valid), lease, skew, now, later);
      if r.Ok? then t.(authority := r.value, published := s.published + [w]) else t
    case EnterMaintenance => WithAuthority(t, Maintain(s.authority))
    case LeaveMaintenance(reviewed) => WithAuthority(t, Resume(s.authority, reviewed))
    case RebindTrust(db, trust, id, now) => WithAuthority(t, Rebind(s.authority, db, trust, id, now))
    case Enroll(first, skew, maximum, credential) =>
      if 0 < skew < maximum && first.Reading? && 0 <= first.sample.uptime && first.sample.wall != ZERO_TIME then
        t.(agents := s.agents + [Agent(Cache(Evidence("", "", false, 0, None), 0, false),
                                       LeaseRuns.Start(Fresh(first.sample, skew, maximum, credential)))])
      else t
    case Act(i, act, q) => if i < |s.agents| then DoAct(t, i, act, q) else t
    case ReadRecord(stopped, trust) =>
      if ReadGate(s.authority, stopped, trust).Ok? then t.(restoring := s.restoring + [Restoring(s.authority, |s.published|)]) else t
    case PassGate(i, check, started, ended) =>
      if i < |s.restoring| && TimeGate(s.restoring[i].record, check, started, ended).Ok?
      then t.(gates := s.gates + [Gate(truth, s.restoring[i].record.latestValidUntil, s.restoring[i].published, |s.allowed|)])
      else t
  }

  // The physical and cryptographic assumptions, step by step: true time does not run backwards, the
  // evidence an Agent's clock relies on is honest, the checker's clock is within the skew it prints,
  // and an Agent only accepts windows Control published.
  ghost predicate Admissible(s: System, step: Step, truth: int) {
    && s.truth <= truth
    && match step
       case Act(i, act, q) =>
         && (act.Accept? ==> Window(act.issued, act.valid) in s.published)
         && (i < |s.agents| ==>
               var (cache, reading) := Consult(s.agents[i].cache, s.agents[i].history.lease.skew, q);
               reading.Reading? ==> Honest(cache.cached, reading.sample.wall, truth))
       case PassGate(_, check, _, _) =>
         -check.maxSkewSeconds * SECOND <= check.checkedAt - truth <= check.maxSkewSeconds * SECOND
       case _ => true
  }

  predicate Initial(s: System) {
    s.published == [] && s.agents == [] && s.allowed == [] && s.restoring == [] && s.gates == [] && s.authority.latestValidUntil.None?
    && s.authority.maxClockSkewSeconds == 0
  }

  // A finite run: the states it passes through.
  ghost predicate IsRun(states: seq<System>, steps: seq<(Step, int)>) {
    && |states| == |steps| + 1 && Initial(states[0])
    && forall i :: 0 <= i < |steps| ==>
         && Admissible(states[i], steps[i].0, steps[i].1)
         && states[i + 1] == DoStep(states[i], steps[i].0, steps[i].1)
  }

  // The independent record dominates everything Control ever published, and knows a skew once it knows a window.
  ghost predicate RecordDominates(a: Authority, published: seq<Window>) {
    && (a.latestValidUntil.Some? ==> 1 <= a.maxClockSkewSeconds)
    && forall w :: w in published ==> Within(a.latestValidUntil, w)
  }

  // The window ends at or before the recorded bound, at the record's resolution.
  predicate Within(latest: Option<int>, w: Window) {
    latest.Some? && ParseMillis(w.valid) <= latest.value
  }

  ghost predicate AgentSound(agent: Agent, published: seq<Window>) {
    && LeaseRuns.Inv(agent.history)
    && forall k :: 0 <= k < |agent.history.grants| ==>
         Window(agent.history.grants[k].issued, agent.history.grants[k].valid) in published
  }

  ghost predicate RestoringSound(s: System, r: Restoring) {
    r.published <= |s.published| && RecordDominates(r.record, s.published[..r.published])
  }

  // A gate that went through did so after everything at or below its bound had run out, in true time.
  ghost predicate GateSound(s: System, g: Gate) {
    && g.published <= |s.published| && g.allowed <= |s.allowed| && g.truth <= s.truth
    && (g.cutoff.Some? ==> (g.cutoff.value + 1) * MILLI <= g.truth)
    && (forall w :: w in s.published[..g.published] ==> Within(g.cutoff, w))
    && forall k :: g.allowed <= k < |s.allowed| ==> !Within(g.cutoff, s.allowed[k])
  }

  ghost predicate Inv(s: System) {
    && RecordDominates(s.authority, s.published)
    && (forall i :: 0 <= i < |s.agents| ==> AgentSound(s.agents[i], s.published))
    && (forall i :: 0 <= i < |s.restoring| ==> RestoringSound(s, s.restoring[i]))
    && forall i :: 0 <= i < |s.gates| ==> GateSound(s, s.gates[i])
  }

  // Nothing at or below a passed bound is still running.
  lemma EndedByThen(latest: Option<int>, w: Window, truth: int)
    requires latest.Some? ==> (latest.value + 1) * MILLI <= truth
    ensures Within(latest, w) ==> w.valid < truth
  {
  }

  lemma PublishKeepsRecord(s: System, w: Window, lease: int, skew: int, now: int, later: int)
    requires RecordDominates(s.authority, s.published)
    ensures var r := Issue(s.authority, ParseMillis(w.valid), lease, skew, now, later);
            r.Ok? ==> RecordDominates(r.value, s.published + [w])
  {
  }

  lemma NewGrant(h: LeaseRuns.History, act: LeaseRuns.Act, reading: Reading)
    ensures var k := LeaseRuns.Apply(h, act, reading);
            || k.grants == h.grants
            || (act.Accept? && |k.grants| == |h.grants| + 1 && k.grants[..|h.grants|] == h.grants
                && k.grants[|h.grants|].issued == act.issued && k.grants[|h.grants|].valid == act.valid)
  {
  }

  lemma NewUse(h: LeaseRuns.History, act: LeaseRuns.Act, reading: Reading)
    requires LeaseRuns.Inv(h) && |LeaseRuns.Apply(h, act, reading).uses| > |h.uses|
    ensures var k := LeaseRuns.Apply(h, act, reading);
            && reading.Reading? && k.lease.skew == h.lease.skew
            && reading.sample.wall < LastUsed(k).valid - h.lease.skew
            && exists g :: g in k.grants && LastUsed(k) == Window(g.issued, g.valid)
  {
    var k := LeaseRuns.Apply(h, act, reading);
    LeaseRuns.ApplyKeepsInv(h, act, reading);
    LeaseRuns.ApplyFrame(h, act, reading);
    var u := k.uses[|k.uses| - 1];
    assert LeaseRuns.Covered(k, u);
    var g := k.grants[k.held[u.held].root];
    assert LeaseRuns.Bounded(k.lease, g);
    assert g in k.grants && LastUsed(k) == Window(g.issued, g.valid);
    assert u.sample == reading.sample;
  }

  // An Allow that succeeds on an honest clock does so strictly before the window ends, in true time.
  lemma UseIsBeforeValid(agent: Agent, act: LeaseRuns.Act, q: Query, truth: int)
    requires LeaseRuns.Inv(agent.history)
    requires var (cache, reading) := Consult(agent.cache, agent.history.lease.skew, q);
             && (reading.Reading? ==> Honest(cache.cached, reading.sample.wall, truth))
             && |LeaseRuns.Apply(agent.history, act, reading).uses| > |agent.history.uses|
    ensures var (cache, reading) := Consult(agent.cache, agent.history.lease.skew, q);
            truth < LastUsed(LeaseRuns.Apply(agent.history, act, reading)).valid
  {
    var (cache, reading) := Consult(agent.cache, agent.history.lease.skew, q);
    NewUse(agent.history, act, reading);
    AcceptedEvidenceBoundsError(cache.cached, reading.sample.wall, truth, agent.history.lease.skew);
  }

  lemma ActKeepsInv(s: System, i: nat, act: LeaseRuns.Act, q: Query, truth: int)
    requires Inv(s) && i < |s.agents| && Admissible(s, Act(i, act, q), truth)
    ensures Inv(DoStep(s, Act(i, act, q), truth))
  {
    var t := DoStep(s, Act(i, act, q), truth);
    var agent := s.agents[i];
    var (cache, reading) := Consult(agent.cache, agent.history.lease.skew, q);
    var k := LeaseRuns.Apply(agent.history, act, reading);
    assert AgentSound(agent, s.published);
    LeaseRuns.ApplyKeepsInv(agent.history, act, reading);
    NewGrant(agent.history, act, reading);
    assert AgentSound(Agent(cache, k), s.published);
    KeepsRestoring(s, t);
    if |k.uses| > |agent.history.uses| {
      UseIsBeforeValid(agent, act, q, truth);
      AllowKeepsGates(s, t, LastUsed(k));
    } else {
      KeepsGates(s, t);
    }
  }

  // A use before the end of its window is no use of a window some gate took to be exhausted.
  lemma AllowKeepsGates(s: System, t: System, w: Window)
    requires forall i :: 0 <= i < |s.gates| ==> GateSound(s, s.gates[i])
    requires t.gates == s.gates && t.published == s.published && s.truth <= t.truth && t.allowed == s.allowed + [w] && t.truth < w.valid
    ensures forall i :: 0 <= i < |t.gates| ==> GateSound(t, t.gates[i])
  {
    forall i | 0 <= i < |t.gates|
      ensures GateSound(t, t.gates[i])
    {
      var g := s.gates[i];
      assert GateSound(s, g);
      EndedByThen(g.cutoff, w, g.truth);
    }
  }

  // Reading the record, and later passing the gate on what was read.
  lemma RestoreKeepsInv(s: System, i: nat, check: TimeCheck, started: int, ended: int, truth: int)
    requires Inv(s) && Admissible(s, PassGate(i, check, started, ended), truth)
    ensures Inv(DoStep(s, PassGate(i, check, started, ended), truth))
  {
    var t := DoStep(s, PassGate(i, check, started, ended), truth);
    KeepsRestoring(s, t);
    forall j | 0 <= j < |t.gates|
      ensures GateSound(t, t.gates[j])
    {
      if j < |s.gates| {
        assert GateSound(s, s.gates[j]);
      } else {
        assert RestoringSound(s, s.restoring[i]);
        GateIsLate(s.restoring[i].record, check, started, ended, truth);
      }
    }
  }

  // The gate's margins absorb the checker's error and the millisecond lost in parsing.
  lemma GateIsLate(a: Authority, check: TimeCheck, started: int, ended: int, truth: int)
    requires TimeGate(a, check, started, ended).Ok? && (a.latestValidUntil.Some? ==> 1 <= a.maxClockSkewSeconds)
    requires -check.maxSkewSeconds * SECOND <= check.checkedAt - truth <= check.maxSkewSeconds * SECOND
    ensures a.latestValidUntil.Some? ==> (a.latestValidUntil.value + 1) * MILLI <= truth
  {
    assert a.latestValidUntil.Some? ==> ParseMillis(check.checkedAt) - check.maxSkewSeconds * 1000 >= a.latestValidUntil.value + 1000;
  }

  lemma StepKeepsInv(s: System, step: Step, truth: int)
    requires Inv(s) && Admissible(s, step, truth)
    ensures Inv(DoStep(s, step, truth))
  {
    var t := DoStep(s, step, truth);
    match step
    case Publish(w, lease, skew, now, later) =>
      PublishKeepsRecord(s, w, lease, skew, now, later);
      KeepsGates(s, t);
      KeepsRestoring(s, t);
    case Act(i, act, q) =>
      if i < |s.agents| {
        ActKeepsInv(s, i, act, q, truth);
      } else {
        KeepsGates(s, t);
        KeepsRestoring(s, t);
      }
    case ReadRecord(stopped, trust) =>
      assert s.published[..|s.published|] == s.published;
      KeepsGates(s, t);
    case PassGate(i, check, started, ended) =>
      RestoreKeepsInv(s, i, check, started, ended, truth);
    case _ =>
      KeepsGates(s, t);
      KeepsRestoring(s, t);
  }

  lemma KeepsGates(s: System, t: System)
    requires forall i :: 0 <= i < |s.gates| ==> GateSound(s, s.gates[i])
    requires t.gates == s.gates && t.allowed == s.allowed && s.published <= t.published && s.truth <= t.truth
    ensures forall i :: 0 <= i < |t.gates| ==> GateSound(t, t.gates[i])
  {
    forall i | 0 <= i < |t.gates|
      ensures GateSound(t, t.gates[i])
    {
      assert GateSound(s, s.gates[i]);
      assert t.published[..s.gates[i].published] == s.published[..s.gates[i].published];
    }
  }

  lemma KeepsRestoring(s: System, t: System)
    requires forall i :: 0 <= i < |s.restoring| ==> RestoringSound(s, s.restoring[i])
    requires t.restoring == s.restoring && s.published <= t.published
    ensures forall i :: 0 <= i < |t.restoring| ==> RestoringSound(t, t.restoring[i])
  {
    forall i | 0 <= i < |t.restoring|
      ensures RestoringSound(t, t.restoring[i])
    {
      assert RestoringSound(s, s.restoring[i]);
      assert t.published[..s.restoring[i].published] == s.published[..s.restoring[i].published];
    }
  }

  lemma {:induction false} RunKeepsInv(states: seq<System>, steps: seq<(Step, int)>, n: nat)
    requires IsRun(states, steps) && n < |states|
    ensures Inv(states[n])
    decreases n
  {
    if n > 0 {
      RunKeepsInv(states, steps, n - 1);
      StepKeepsInv(states[n - 1], steps[n - 1].0, steps[n - 1].1);
    }
  }

  // Recovery never overlaps live authority. In every run of Control, any number of Agents and any number of
  // restores: once a restore gate has let recovery start, no Allow ever succeeds again, on any Agent, for a ticket or
  // drain whose window ends at or before the bound the gate read, whenever that window was published. It had ended
  // by then in true time. Everything published before the record was read is such a window.
  lemma RecoveryNeverOverlapsAuthority(states: seq<System>, steps: seq<(Step, int)>, n: nat, g: nat, w: Window)
    requires IsRun(states, steps) && n < |states| && g < |states[n].gates|
    ensures var (s, gate) := (states[n], states[n].gates[g]);
            && gate.published <= |s.published| && gate.allowed <= |s.allowed|
            && (gate.cutoff.Some? && ParseMillis(w.valid) <= gate.cutoff.value ==> w.valid <= gate.truth && w !in s.allowed[gate.allowed..])
            && (w in s.published[..gate.published] ==> gate.cutoff.Some? && ParseMillis(w.valid) <= gate.cutoff.value)
  {
    RunKeepsInv(states, steps, n);
    var (s, gate) := (states[n], states[n].gates[g]);
    assert GateSound(s, gate);
    EndedByThen(gate.cutoff, w, gate.truth);
  }

  // The shipped checker vouches for five seconds, and its own clock is held to exactly that.
  lemma CheckerIsWithinItsSkew(c: Cache, q: Query, truth: int)
    requires var (cache, reading) := Consult(c, 5 * SECOND, q);
             reading.Reading? && Honest(cache.cached, reading.sample.wall, truth)
    ensures var reading := Consult(c, 5 * SECOND, q).1;
            -5 * SECOND <= reading.sample.wall - truth <= 5 * SECOND
  {
    var (cache, reading) := Consult(c, 5 * SECOND, q);
    AcceptedEvidenceBoundsError(cache.cached, reading.sample.wall, truth, 5 * SECOND);
  }
}

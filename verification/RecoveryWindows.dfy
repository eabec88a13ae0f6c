/** What maintenance adds to the restore gate, and what the protected record keeps over every run. */
module RecoveryWindows {
  import opened Outcomes
  import opened ClockEvidence
  import opened Recovery

  // ---- steps ----

  // Logs only grow, and so does the record.
  lemma StepGrows(s: System, step: Step, truth: int)
    ensures Grows(s, DoStep(s, step, truth))
  {
  }

  predicate Grows(s: System, t: System) {
    && s.published <= t.published && s.restoring <= t.restoring && s.gates <= t.gates && s.allowed <= t.allowed
    && RecordGrows(s.authority, t.authority)
  }

  lemma GrowsOn(s: System, t: System, u: System)
    requires Grows(s, t) && Grows(t, u)
    ensures Grows(s, u)
  {
  }

  lemma RunStep(states: seq<System>, steps: seq<(Step, int)>, n: nat)
    requires IsRun(states, steps) && n < |steps|
    ensures GrowsAt(states, n)
  {
    StepGrows(states[n], steps[n].0, steps[n].1);
  }

  predicate GrowsAt(states: seq<System>, i: nat)
    requires i + 1 < |states|
  {
    Grows(states[i], states[i + 1])
  }

  lemma {:induction false} ChainGrows(states: seq<System>, m: nat, n: nat)
    requires m <= n < |states| && forall i :: m <= i < n ==> GrowsAt(states, i)
    ensures Grows(states[m], states[n])
    decreases n
  {
    if m < n {
      ChainGrows(states, m, n - 1);
      assert GrowsAt(states, n - 1);
      GrowsOn(states[m], states[n - 1], states[n]);
    }
  }

  predicate RecordGrows(a: Authority, b: Authority) {
    && (a.latestValidUntil.Some? ==> b.latestValidUntil.Some? && a.latestValidUntil.value <= b.latestValidUntil.value)
    && a.maxLeaseSeconds <= b.maxLeaseSeconds && a.maxClockSkewSeconds <= b.maxClockSkewSeconds
  }

  // In maintenance nothing is published, and only an explicit resume leaves it.
  lemma MaintenanceFreezes(s: System, step: Step, truth: int)
    requires s.authority.maintenance && !step.LeaveMaintenance?
    ensures DoStep(s, step, truth).authority.maintenance && DoStep(s, step, truth).published == s.published
  {
  }

  // A restore gets under way exactly if the issuers are stopped, maintenance is on and the trust is fresh.
  lemma RestoreStarts(s: System, stopped: bool, trust: string, truth: int)
    ensures |DoStep(s, ReadRecord(stopped, trust), truth).restoring| > |s.restoring| <==>
            stopped && s.authority.maintenance && trust != s.authority.trustDigest
  {
  }

  lemma RunGrows(states: seq<System>, steps: seq<(Step, int)>, m: nat, n: nat)
    requires IsRun(states, steps) && m <= n < |states|
    ensures Grows(states[m], states[n])
  {
    forall i | m <= i < n ensures GrowsAt(states, i) {
      RunStep(states, steps, i);
    }
    ChainGrows(states, m, n);
  }

  lemma {:induction false} StaysFrozen(states: seq<System>, steps: seq<(Step, int)>, r: nat, p: nat)
    requires IsRun(states, steps) && r <= p < |states| && states[r].authority.maintenance
    requires forall j :: r <= j < p ==> !steps[j].0.LeaveMaintenance?
    ensures states[p].authority.maintenance && states[p].published == states[r].published
    decreases p
  {
    if r < p {
      StaysFrozen(states, steps, r, p - 1);
      MaintenanceFreezes(states[p - 1], steps[p - 1].0, steps[p - 1].1);
    }
  }

  // ---- a restore from reading the record to passing the gate ----

  // Step `r` started a restore and step `p` passed its gate.
  predicate Restores(states: seq<System>, steps: seq<(Step, int)>, r: nat, p: nat) {
    && r < p < |steps| && |states| == |steps| + 1
    && steps[r].0.ReadRecord? && |states[r + 1].restoring| > |states[r].restoring|
    && steps[p].0.PassGate? && steps[p].0.restore == |states[r].restoring| && |states[p + 1].gates| > |states[p].gates|
  }

  lemma GateOfRestore(states: seq<System>, steps: seq<(Step, int)>, r: nat, p: nat, n: nat)
    requires IsRun(states, steps) && Restores(states, steps, r, p) && p < n < |states|
    ensures |states[p].gates| < |states[n].gates|
    ensures var gate := states[n].gates[|states[p].gates|];
            && gate.truth == steps[p].1 && gate.published == |states[r].published| && gate.allowed == |states[p].allowed|
  {
    assert states[r + 1] == DoStep(states[r], steps[r].0, steps[r].1);
    RunGrows(states, steps, r + 1, p);
    assert states[p + 1] == DoStep(states[p], steps[p].0, steps[p].1);
    RunGrows(states, steps, p + 1, n);
  }

  // If maintenance is not left in between, everything ever published before the gate, not just before the record was
  // read, had ended in true time when the gate passed, and nothing of it is allowed on any Agent afterwards.
  lemma MaintenanceClosesTheGap(states: seq<System>, steps: seq<(Step, int)>, r: nat, p: nat, n: nat, w: Window)
    requires IsRun(states, steps) && Restores(states, steps, r, p) && p < n < |states|
    requires forall j :: r < j < p ==> !steps[j].0.LeaveMaintenance?
    ensures states[p].published == states[r].published
    ensures w in states[p].published ==>
              w.valid <= steps[p].1 && |states[p].allowed| <= |states[n].allowed| && w !in states[n].allowed[|states[p].allowed|..]
  {
    assert states[r + 1] == DoStep(states[r], steps[r].0, steps[r].1);
    RestoreStarts(states[r], steps[r].0.issuersStopped, steps[r].0.newTrust, steps[r].1);
    StaysFrozen(states, steps, r, p);
    GateOfRestore(states, steps, r, p, n);
    RunGrows(states, steps, p, n);
    RecoveryNeverOverlapsAuthority(states, steps, n, |states[p].gates|, w);
    assert states[n].published[..|states[p].published|] == states[p].published;
  }

  // The gate does open: an honest, fresh checker passes once true time is past the bound and both skews.
  lemma GateOpensInTime(a: Authority, check: TimeCheck, started: int, ended: int, truth: int)
    requires check.synchronized && 1 <= check.maxSkewSeconds <= 5
    requires started - check.maxSkewSeconds * 1000 <= ParseMillis(check.checkedAt) <= ended + check.maxSkewSeconds * 1000
    requires -check.maxSkewSeconds * SECOND <= check.checkedAt - truth <= check.maxSkewSeconds * SECOND
    requires a.latestValidUntil.Some? ==>
               (a.latestValidUntil.value + (a.maxClockSkewSeconds + 2 * check.maxSkewSeconds) * 1000 + 1) * MILLI <= truth
    ensures TimeGate(a, check, started, ended).Ok?
  {
  }

  // ---- the record over a whole run ----

  // Whatever was issued stays below every later record: its end, its lease length and its skew.
  lemma IssuedStaysRecorded(states: seq<System>, steps: seq<(Step, int)>, i: nat, n: nat)
    requires IsRun(states, steps) && i < n < |states| && steps[i].0.Publish? && |states[i + 1].published| > |states[i].published|
    ensures var (issued, a) := (steps[i].0, states[n].authority);
            && a.latestValidUntil.Some? && ParseMillis(issued.window.valid) <= a.latestValidUntil.value
            && 1 <= issued.leaseSeconds <= a.maxLeaseSeconds && 1 <= issued.skewSeconds <= a.maxClockSkewSeconds
            && issued.now < ParseMillis(issued.window.valid) <= issued.later + issued.leaseSeconds * 1000
            && !states[i].authority.maintenance
  {
    assert states[i + 1] == DoStep(states[i], steps[i].0, steps[i].1);
    RunGrows(states, steps, i + 1, n);
  }

  // Every change of the record takes the next sequence number, up to the largest one a counter can hold.
  lemma StepCounts(s: System, step: Step, truth: int)
    ensures var (a, b) := (s.authority, DoStep(s, step, truth).authority);
            b == a || (b.sequence == a.sequence + 1 <= MAX_COUNTER)
  {
  }

  // Two records of a run with one sequence number are the same record.
  lemma {:induction false} SequenceIdentifies(states: seq<System>, steps: seq<(Step, int)>, m: nat, n: nat)
    requires IsRun(states, steps) && m <= n < |states|
    ensures states[m].authority.sequence <= states[n].authority.sequence
    ensures states[m].authority.sequence == states[n].authority.sequence <==> states[m].authority == states[n].authority
    ensures states[m].authority.sequence <= MAX_COUNTER ==> states[n].authority.sequence <= MAX_COUNTER
    decreases n
  {
    if m < n {
      SequenceIdentifies(states, steps, m, n - 1);
      StepCounts(states[n - 1], steps[n - 1].0, steps[n - 1].1);
      assert states[n] == DoStep(states[n - 1], steps[n - 1].0, steps[n - 1].1);
    }
  }

  // New trust is bound only in maintenance, after the recorded bound, and never to the trust it replaces; from then on
  // maintenance ends only with a review of that very recovery.
  lemma RebindNeedsReview(s: System, step: Step, truth: int)
    ensures var t := DoStep(s, step, truth);
            && (t.authority.trustDigest != s.authority.trustDigest ==>
                  && step.RebindTrust? && s.authority.maintenance && t.authority.maintenance && t.authority.recoveryId == Some(step.recoveryId)
                  && (s.authority.latestValidUntil.Some? ==>
                        s.authority.latestValidUntil.value + s.authority.maxClockSkewSeconds * 1000 <= step.now))
            && (step.RebindTrust? && t.authority != s.authority ==> t.authority.trustDigest == step.trust != s.authority.trustDigest)
            && (s.authority.maintenance && !t.authority.maintenance ==>
                  step.LeaveMaintenance? && (s.authority.recoveryId.Some? ==> step.reviewed == s.authority.recoveryId))
  {
  }
}

/** What callers set takes effect: credential limits, server time and the wall clock's own history, over any run. */
module LeaseLimits {
  import opened Outcomes
  import opened LeaseGuard
  import opened LeaseRuns

  // The run of a guard opened as `lease`.
  function After(lease: Lease, steps: seq<(Act, Reading)>): History {
    Run(Start(lease), steps)
  }

  // Step `n` of the run took a sample.
  predicate Sampled(lease: Lease, steps: seq<(Act, Reading)>, n: nat)
    requires n < |steps|
  {
    |After(lease, steps[..n + 1]).samples| > |After(lease, steps[..n]).samples|
  }

  // The run grows by one act at a time.
  lemma AfterStep(lease: Lease, steps: seq<(Act, Reading)>, n: nat)
    requires n < |steps|
    ensures After(lease, steps[..n + 1]) == Apply(After(lease, steps[..n]), steps[n].0, steps[n].1)
  {
    assert steps[..n + 1][..n] == steps[..n];
  }

  // Logs only grow, by at most one entry per act.
  lemma ActLogs(h: History, act: Act, reading: Reading)
    ensures var k := Apply(h, act, reading);
            && h.samples <= k.samples && h.grants <= k.grants && h.uses <= k.uses
            && |k.samples| <= |h.samples| + 1 && |k.grants| <= |h.grants| + 1 && |k.uses| <= |h.uses| + 1
  {
  }

  // ---- credentials ----

  // The limit in force: the last one set by a Credential call that got a sample.
  function LastSet(lease: Lease, steps: seq<(Act, Reading)>, n: nat): int
    requires n <= |steps|
  {
    if n == 0 then lease.credentialUntil
    else if steps[n - 1].0.Credential? && Sampled(lease, steps, n - 1) then steps[n - 1].0.until
    else LastSet(lease, steps, n - 1)
  }

  lemma ActSetsLimit(h: History, act: Act, reading: Reading)
    ensures var k := Apply(h, act, reading);
            k.lease.credentialUntil == if act.Credential? && |k.samples| > |h.samples| then act.until else h.lease.credentialUntil
  {
  }

  lemma StepSetsLimit(lease: Lease, steps: seq<(Act, Reading)>, n: nat)
    requires n < |steps|
    ensures After(lease, steps[..n + 1]).lease.credentialUntil ==
            if steps[n].0.Credential? && Sampled(lease, steps, n) then steps[n].0.until else After(lease, steps[..n]).lease.credentialUntil
  {
    AfterStep(lease, steps, n);
    ActSetsLimit(After(lease, steps[..n]), steps[n].0, steps[n].1);
  }

  // The guard's limit is the last one its callers set, no more and no less.
  lemma {:induction false} LimitIsLastSet(lease: Lease, steps: seq<(Act, Reading)>, n: nat)
    requires n <= |steps|
    ensures After(lease, steps[..n]).lease.credentialUntil == LastSet(lease, steps, n)
  {
    if n > 0 {
      LimitIsLastSet(lease, steps, n - 1);
      StepSetsLimit(lease, steps, n - 1);
    }
  }

  // Under a limit, what an act logs lies below it.
  lemma ActUnderLimit(h: History, act: Act, reading: Reading)
    requires h.lease.credentialUntil != ZERO_TIME
    ensures var (k, limit) := (Apply(h, act, reading), h.lease.credentialUntil);
            && (|k.uses| > |h.uses| ==> k.uses[|h.uses|].sample.wall < limit)
            && (|k.grants| > |h.grants| ==> k.grants[|h.grants|].ticket.wallUntil <= limit)
  {
  }

  lemma StepUnderLimit(lease: Lease, steps: seq<(Act, Reading)>, n: nat)
    requires n < |steps| && After(lease, steps[..n]).lease.credentialUntil != ZERO_TIME
    ensures var (h, k) := (After(lease, steps[..n]), After(lease, steps[..n + 1]));
            && h.uses <= k.uses && h.grants <= k.grants
            && (forall j :: |h.uses| <= j < |k.uses| ==> k.uses[j].sample.wall < h.lease.credentialUntil)
            && forall j :: |h.grants| <= j < |k.grants| ==> k.grants[j].ticket.wallUntil <= h.lease.credentialUntil
  {
    var h := After(lease, steps[..n]);
    AfterStep(lease, steps, n);
    ActLogs(h, steps[n].0, steps[n].1);
    ActUnderLimit(h, steps[n].0, steps[n].1);
  }

  // Once a credential limit was set, and until another one is, no Allow succeeds at or after it and no ticket reaches
  // beyond it.
  lemma {:induction false} CredentialTakesEffect(lease: Lease, steps: seq<(Act, Reading)>, i: nat, n: nat)
    requires i < n <= |steps| && steps[i].0.Credential? && steps[i].0.until != ZERO_TIME && Sampled(lease, steps, i)
    requires forall j :: i < j < n ==> !steps[j].0.Credential?
    ensures var (before, h, limit) := (After(lease, steps[..i + 1]), After(lease, steps[..n]), steps[i].0.until);
            && h.lease.credentialUntil == limit && before.uses <= h.uses && before.grants <= h.grants
            && (forall k :: |before.uses| <= k < |h.uses| ==> h.uses[k].sample.wall < limit)
            && forall k :: |before.grants| <= k < |h.grants| ==> h.grants[k].ticket.wallUntil <= limit
    decreases n
  {
    StepSetsLimit(lease, steps, n - 1);
    if i + 1 < n {
      CredentialTakesEffect(lease, steps, i, n - 1);
      StepUnderLimit(lease, steps, n - 1);
    }
  }

  // ---- nothing is refused without a reason ----

  // A renewal that gets a sample is granted exactly if the lease has not run out, the window is no longer than the
  // maximum and not from the future, and something of it is left before the cutoff.
  lemma AcceptIsExact(h: History, issued: int, valid: int, reading: Reading)
    requires Inv(h) && |Apply(h, Act.Accept(issued, valid), reading).samples| > |h.samples|
    ensures var k := Apply(h, Act.Accept(issued, valid), reading);
            var s := k.samples[|h.samples|];
            |k.grants| > |h.grants| <==>
              && (h.grants != [] ==> s.uptime < h.grants[|h.grants| - 1].ticket.until)
              && issued <= s.wall + h.lease.skew && issued < valid <= issued + h.lease.maximum
              && s.wall < valid - h.lease.skew && Unexpired(h.lease.credentialUntil, s.wall)
  {
  }

  // An Allow that gets a sample succeeds exactly inside the limits of the ticket presented.
  lemma AllowIsExact(h: History, index: nat, reading: Reading)
    requires index < |h.held| && |Apply(h, Act.Allow(index), reading).samples| > |h.samples|
    ensures var k := Apply(h, Act.Allow(index), reading);
            var s := k.samples[|h.samples|];
            |k.uses| > |h.uses| <==> s.uptime < h.held[index].ticket.until && s.wall < h.held[index].ticket.wallUntil
  {
  }

  // A drain that gets a sample hands out a ticket that ends with the one it was made from or after the drain time,
  // whichever is first on each clock; a drain that gets none hands out one that is over.
  lemma DrainIsExact(l: Lease, ticket: Ticket, duration: int, reading: Reading)
    ensures var (k, reply) := Perform(l, Call.Drain(ticket, duration), reading);
            && reply.Granted?
            && var t := reply.ticket;
            if Observe(l, reading).1.Err? then t.until <= 0 && t.wallUntil == ZERO_TIME
            else
              && var s := reading.sample;
              && t.until <= ticket.until && t.until <= s.uptime + duration && (t.until == ticket.until || t.until == s.uptime + duration)
              && t.wallUntil <= ticket.wallUntil && t.wallUntil <= s.wall + duration
              && (t.wallUntil == ticket.wallUntil || t.wallUntil == s.wall + duration)
  {
  }

  // ---- server time ----

  lemma ActJudgesServer(h: History, server: int, reading: Reading)
    requires |Apply(h, Act.ServerTime(server), reading).samples| > |h.samples|
    ensures var k := Apply(h, Act.ServerTime(server), reading);
            var wall := k.samples[|h.samples|].wall;
            k.lease.failed.Some? <==> wall - server > h.lease.skew || server - wall > h.lease.skew
  {
  }

  // A server clock further away than the skew ends all authority for good; a closer one ends nothing.
  lemma ServerSkewEndsAuthority(lease: Lease, steps: seq<(Act, Reading)>, i: nat, n: nat)
    requires i < n <= |steps| && steps[i].0.ServerTime? && Sampled(lease, steps, i)
    ensures var (before, h) := (After(lease, steps[..i + 1]), After(lease, steps[..n]));
            var wall := before.samples[|before.samples| - 1].wall;
            if wall - steps[i].0.server > lease.skew || steps[i].0.server - wall > lease.skew
            then before.lease.failed.Some? && h.samples == before.samples && h.grants == before.grants && h.uses == before.uses
            else before.lease.failed.None?
  {
    var h := After(lease, steps[..i]);
    AfterStep(lease, steps, i);
    ActLogs(h, steps[i].0, steps[i].1);
    ActJudgesServer(h, steps[i].0.server, steps[i].1);
    RunFrame(Start(lease), steps[..i]);
    if After(lease, steps[..i + 1]).lease.failed.Some? {
      StaysFailed(lease, steps, i + 1, n);
    }
  }

  lemma {:induction false} StaysFailed(lease: Lease, steps: seq<(Act, Reading)>, m: nat, n: nat)
    requires m <= n <= |steps| && After(lease, steps[..m]).lease.failed.Some?
    ensures var (before, h) := (After(lease, steps[..m]), After(lease, steps[..n]));
            h.lease == before.lease && h.samples == before.samples && h.grants == before.grants && h.uses == before.uses
    decreases n
  {
    if m < n {
      StaysFailed(lease, steps, m, n - 1);
      AfterStep(lease, steps, n - 1);
      ApplyFrame(After(lease, steps[..n - 1]), steps[n - 1].0, steps[n - 1].1);
    }
  }

  // ---- the wall clock's history ----

  // The guard remembers the sample it logged last.
  ghost predicate Remembers(h: History) {
    && (h.lease.failed.None? && h.samples != [] ==> h.lease.last == h.samples[|h.samples| - 1])
    && forall i :: 0 < i < |h.samples| ==> h.samples[i - 1].wall - h.lease.skew <= h.samples[i].wall
  }

  lemma ActRemembers(h: History, act: Act, reading: Reading)
    requires Remembers(h)
    ensures Remembers(Apply(h, act, reading))
  {
    ApplyFrame(h, act, reading);
    ActLogs(h, act, reading);
    ActSamples(h, act, reading);
  }

  lemma ActSamples(h: History, act: Act, reading: Reading)
    ensures var k := Apply(h, act, reading);
            && (k.samples == h.samples && k.lease.failed.None? ==> k.lease.last == h.lease.last)
            && (|k.samples| > |h.samples| ==> k.lease.last == k.samples[|h.samples|] && h.lease.last.wall - h.lease.skew <= k.lease.last.wall)
            && (k.lease.failed.None? ==> h.lease.failed.None?)
            && (|k.samples| > |h.samples| ==> h.lease.failed.None?)
  {
  }

  // Over any run the wall clock never falls back by more than the skew between two samples in a row.
  lemma {:induction false} WallNeverFallsBack(lease: Lease, steps: seq<(Act, Reading)>, n: nat, i: nat)
    requires n <= |steps| && 0 < i < |After(lease, steps[..n]).samples|
    ensures After(lease, steps[..n]).samples[i - 1].wall - lease.skew <= After(lease, steps[..n]).samples[i].wall
  {
    RunRemembers(lease, steps, n);
    RunFrame(Start(lease), steps[..n]);
  }

  lemma {:induction false} RunRemembers(lease: Lease, steps: seq<(Act, Reading)>, n: nat)
    requires n <= |steps|
    ensures Remembers(After(lease, steps[..n]))
  {
    if n > 0 {
      RunRemembers(lease, steps, n - 1);
      AfterStep(lease, steps, n - 1);
      ActRemembers(After(lease, steps[..n - 1]), steps[n - 1].0, steps[n - 1].1);
    }
  }
}

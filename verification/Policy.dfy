/**
 Renewal timing: validatePolicy in agent/internal/contracts/validate.go, with its 64-bit arithmetic, and what an
 accepted policy gives an Agent that polls on schedule under the lease guard's cutoff.
 */
module Policy {
  import opened Outcomes
  import LeaseGuard

  const WORD: int := 0x1_0000_0000_0000_0000
  const MAX_SECONDS: int := 9007199254740991 / 1000
  const NANOSECONDS: int := 1_000_000_000

  newtype uint64 = x: int | 0 <= x < 0x1_0000_0000_0000_0000

  datatype Policy = Policy(
    pollInterval: uint64, lease: uint64, renewalLead: uint64, maxClockSkew: uint64,
    observationFreshness: uint64, drainTimeout: uint64, connectTimeout: uint64, udpIdleTimeout: uint64)

  datatype Error = RenewalTiming | DurationOverflow

  // Go's unsigned arithmetic wraps.
  function Wrap(x: int): (r: uint64)
    ensures 0 <= x < WORD ==> r as int == x
  {
    (x % WORD) as uint64
  }

  function Durations(p: Policy): seq<uint64> {
    [p.pollInterval, p.lease, p.renewalLead, p.maxClockSkew, p.observationFreshness, p.drainTimeout, p.connectTimeout, p.udpIdleTimeout]
  }

  // What the policy promises, in exact arithmetic.
  predicate Sound(p: Policy) {
    && 2 * p.pollInterval as int + p.maxClockSkew as int < p.renewalLead as int < p.lease as int
    && p.pollInterval < p.renewalLead
    && forall i :: 0 <= i < |Durations(p)| ==> Durations(p)[i] as int <= MAX_SECONDS
  }

  // For every 64-bit policy, wrapped or not, the check is exact.
  method ValidatePolicy(p: Policy) returns (r: Result<(), Error>)
    ensures r.Ok? <==> Sound(p)
  {
    var twice := Wrap(2 * p.pollInterval as int);
    var least := Wrap(twice as int + p.maxClockSkew as int);
    ghost var d := Durations(p);
    assert d[0] == p.pollInterval && d[3] == p.maxClockSkew;
    if p.pollInterval >= p.renewalLead || p.renewalLead >= p.lease || p.renewalLead <= least {
      return Err(RenewalTiming);
    }
    var durations := Durations(p);
    for i := 0 to |durations|
      invariant forall k :: 0 <= k < i ==> durations[k] as int <= MAX_SECONDS
    {
      if durations[i] as int > MAX_SECONDS {
        return Err(DurationOverflow);
      }
    }
    return Ok(());
  }

  // ---- polling ----

  // Poll number k of an Agent whose polls are `interval` apart, at the given phase.
  function Poll(phase: int, interval: int, k: int): int {
    phase + k * interval
  }

  predicate Within(start: int, end: int, at: int) {
    start <= at < end
  }

  // Two polls in a row land in [start, end).
  predicate TwoChances(start: int, end: int, phase: int, interval: int, k: int) {
    Within(start, end, Poll(phase, interval, k)) && Within(start, end, Poll(phase, interval, k + 1))
  }

  lemma FirstPoll(start: int, phase: int, interval: int) returns (k: int)
    requires interval > 0
    ensures start <= Poll(phase, interval, k) < start + interval
  {
    var behind := phase - start;
    k := 0 - behind / interval;
    assert behind == interval * (behind / interval) + behind % interval;
    assert k * interval == 0 - interval * (behind / interval);
  }

  lemma NextPoll(phase: int, interval: int, k: int)
    ensures Poll(phase, interval, k + 1) == Poll(phase, interval, k) + interval
  {
  }

  ghost predicate HasTwoChances(start: int, end: int, phase: int, interval: int) {
    exists k :: TwoChances(start, end, phase, interval, k)
  }

  // A window gives every phase two chances exactly if it is at least two intervals long.
  lemma TwoChancesNeedTwoIntervals(start: int, end: int, interval: int)
    requires interval > 0
    ensures (forall phase :: HasTwoChances(start, end, phase, interval)) <==> end - start >= 2 * interval
  {
    if end - start >= 2 * interval {
      forall phase ensures HasTwoChances(start, end, phase, interval) {
        var k := FirstPoll(start, phase, interval);
        NextPoll(phase, interval, k);
        assert TwoChances(start, end, phase, interval, k);
      }
    } else {
      OnePhaseMisses(start, end, interval);
      assert !HasTwoChances(start, end, start - 1, interval);
    }
  }

  // The phase that polls just before a short window opens gets one chance at most.
  lemma OnePhaseMisses(start: int, end: int, interval: int)
    requires interval > 0 && end - start < 2 * interval
    ensures !HasTwoChances(start, end, start - 1, interval)
  {
    var phase := start - 1;
    if k :| TwoChances(start, end, phase, interval, k) {
      NextPoll(phase, interval, k);
      if k <= 0 {
        NotYet(interval, k);
      } else {
        TooLate(interval, k);
      }
    }
  }

  lemma NotYet(interval: int, k: int)
    requires interval > 0 && k <= 0
    ensures k * interval <= 0
  {
  }

  lemma TooLate(interval: int, k: int)
    requires interval > 0 && k > 0
    ensures k * interval >= interval
  {
  }

  // Under an accepted policy every phase polls twice between the renewal lead and the guard's cutoff, and both
  // polls come after the lease was issued.
  lemma RenewalHasTwoChances(p: Policy, l: LeaseGuard.Lease, issued: int, phase: int) returns (k: int)
    requires Sound(p) && p.pollInterval > 0
    requires l.skew == p.maxClockSkew as int * NANOSECONDS
    requires l.credentialUntil == LeaseGuard.ZERO_TIME || l.credentialUntil >= issued + p.lease as int * NANOSECONDS - l.skew
    ensures var valid := issued + p.lease as int * NANOSECONDS;
            var start := valid - p.renewalLead as int * NANOSECONDS;
            && issued < start
            && TwoChances(start, LeaseGuard.Cutoff(l, valid), phase, p.pollInterval as int * NANOSECONDS, k)
  {
    var valid := issued + p.lease as int * NANOSECONDS;
    var start := valid - p.renewalLead as int * NANOSECONDS;
    var interval := p.pollInterval as int * NANOSECONDS;
    TwoChancesNeedTwoIntervals(start, LeaseGuard.Cutoff(l, valid), interval);
    assert HasTwoChances(start, LeaseGuard.Cutoff(l, valid), phase, interval);
    k :| TwoChances(start, LeaseGuard.Cutoff(l, valid), phase, interval, k);
  }
}

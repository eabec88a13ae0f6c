/** Every run of one guard: any calls, in any order, over any clock. */
module LeaseRuns {
  import opened Outcomes
  import opened LeaseGuard

  // An Accept that succeeded: the sample it saw, the window it was given, the credential limit in force and the
  // ticket it returned.
  datatype Grant = Grant(sample: Sample, issued: int, valid: int, credentialUntil: int, ticket: Ticket)

  // A ticket somebody holds, and the grant it descends from through any number of drains.
  datatype Held = Held(ticket: Ticket, root: nat)

  // An Allow that succeeded, with the credential limit in force at that moment.
  datatype Use = Use(held: nat, sample: Sample, credentialUntil: int)

  datatype History = History(
    lease: Lease, samples: seq<Sample>, grants: seq<Grant>, held: seq<Held>, uses: seq<Use>)

  datatype Act =
    | Check
    | ServerTime(server: int)
    | Credential(until: int)
    | Accept(issued: int, valid: int)
    | Allow(index: nat)
    | Drain(index: nat, duration: int)

  // One call on the guard, before anything is logged about its reply.
  function Seen(h: History, call: Call, reading: Reading): History {
    var read := Observe(h.lease, reading).1;
    h.(lease := Perform(h.lease, call, reading).0, samples := if read.Ok? then h.samples + [read.value] else h.samples)
  }

  function ApplyAccept(h: History, issued: int, valid: int, reading: Reading): History {
    var (read, reply) := (Observe(h.lease, reading).1, Perform(h.lease, Call.Accept(issued, valid), reading).1);
    var seen := Seen(h, Call.Accept(issued, valid), reading);
    if reply.Granted? && read.Ok? then
      seen.(grants := h.grants + [Grant(read.value, issued, valid, h.lease.credentialUntil, reply.ticket)],
            held := h.held + [Held(reply.ticket, |h.grants|)])
    else seen
  }

  function ApplyAllow(h: History, index: nat, reading: Reading): History
    requires index < |h.held|
  {
    var call := Call.Allow(Some(h.held[index].ticket));
    var read := Observe(h.lease, reading).1;
    if Perform(h.lease, call, reading).1.Done? && read.Ok?
    then Seen(h, call, reading).(uses := h.uses + [Use(index, read.value, h.lease.credentialUntil)])
    else Seen(h, call, reading)
  }

  function ApplyDrain(h: History, index: nat, duration: int, reading: Reading): History
    requires index < |h.held|
  {
    var call := Call.Drain(h.held[index].ticket, duration);
    var reply := Perform(h.lease, call, reading).1;
    if reply.Granted? then Seen(h, call, reading).(held := h.held + [Held(reply.ticket, h.held[index].root)])
    else Seen(h, call, reading)
  }

  // One act of a run. Nobody can present a ticket that was never handed out.
  function Apply(h: History, act: Act, reading: Reading): History {
    match act
    case Check => Seen(h, Call.Check, reading)
    case ServerTime(server) => Seen(h, Call.ServerTime(server), reading)
    case Credential(until) => Seen(h, Call.Credential(until), reading)
    case Accept(issued, valid) => ApplyAccept(h, issued, valid, reading)
    case Allow(i) => if i < |h.held| then ApplyAllow(h, i, reading) else h
    case Drain(i, d) => if i < |h.held| then ApplyDrain(h, i, d, reading) else h
  }

  function Run(h: History, steps: seq<(Act, Reading)>): History {
    if steps == [] then h
    else
      var n := |steps| - 1;
      Apply(Run(h, steps[..n]), steps[n].0, steps[n].1)
  }

  function Start(lease: Lease): History {
    History(lease, [], [], [], [])
  }

  // The invariant, one concern at a time.
  ghost predicate SamplesTrack(h: History) {
    && 0 <= h.lease.origin.uptime <= h.lease.last.uptime
    && (forall i :: 0 <= i < |h.samples| ==>
          -h.lease.skew <= Drift(h.lease.origin, h.samples[i]) <= h.lease.skew && 0 <= h.samples[i].uptime <= h.lease.last.uptime)
    && forall i, j :: 0 <= i < j < |h.samples| ==> h.samples[i].uptime <= h.samples[j].uptime
  }

  // When a grant ends by the wall clock: its window less the skew, or the credential of that moment if it is earlier.
  function CutoffOf(l: Lease, g: Grant): int {
    Cutoff(l.(credentialUntil := g.credentialUntil), g.valid)
  }

  predicate Bounded(l: Lease, g: Grant) {
    && 0 <= g.sample.uptime < g.ticket.until == g.sample.uptime + Min(l.maximum, CutoffOf(l, g) - g.sample.wall)
    && g.ticket.wallUntil == CutoffOf(l, g)
    && g.issued < g.valid <= g.issued + l.maximum
    && g.issued <= g.sample.wall + l.skew
  }

  ghost predicate GrantsChain(h: History) {
    && (forall i :: 0 <= i < |h.grants| ==> Bounded(h.lease, h.grants[i]) && h.grants[i].sample.uptime <= h.lease.last.uptime)
    && (forall i :: 0 < i < |h.grants| ==> h.grants[i - 1].sample.uptime <= h.grants[i].sample.uptime < h.grants[i - 1].ticket.until)
    && (h.lease.hasCurrent <==> h.grants != [])
    && (h.grants != [] ==> h.lease.currentUntil == h.grants[|h.grants| - 1].ticket.until)
  }

  // A ticket with until <= 0 is the dead one that a failed Drain returns.
  predicate Narrower(t: Ticket, g: Grant) {
    t.until <= g.ticket.until && (t.until <= 0 || t.wallUntil <= g.ticket.wallUntil)
  }

  ghost predicate HeldDescend(h: History) {
    forall i :: 0 <= i < |h.held| ==> h.held[i].root < |h.grants| && Narrower(h.held[i].ticket, h.grants[h.held[i].root])
  }

  predicate Covered(h: History, u: Use)
    requires u.held < |h.held| && h.held[u.held].root < |h.grants|
  {
    var g := h.grants[h.held[u.held].root];
    && u.sample.uptime < h.held[u.held].ticket.until
    && g.sample.uptime <= u.sample.uptime
    && u.sample.wall < g.ticket.wallUntil
    && Unexpired(u.credentialUntil, u.sample.wall)
  }

  ghost predicate UsesCovered(h: History)
    requires HeldDescend(h)
  {
    forall k :: 0 <= k < |h.uses| ==> h.uses[k].held < |h.held| && Covered(h, h.uses[k])
  }

  ghost predicate Inv(h: History) {
    && 0 < h.lease.skew < h.lease.maximum
    && SamplesTrack(h) && GrantsChain(h) && HeldDescend(h) && UsesCovered(h)
  }

  // What every call leaves alone, and what a successful clock read establishes.
  lemma CallFrame(l: Lease, call: Call, reading: Reading)
    ensures var (m, read) := (Perform(l, call, reading).0, Observe(l, reading).1);
            && m.origin == l.origin && m.skew == l.skew && m.maximum == l.maximum
            && l.last.uptime <= m.last.uptime
            && (read.Ok? && call != Call.Allow(None) ==> Plausible(l, read.value) && m.last == read.value)
            && (!call.Accept? ==> m.hasCurrent == l.hasCurrent && m.currentUntil == l.currentUntil)
  {
  }

  // What an Accept that succeeds establishes; one that does not leaves the current lease alone.
  lemma AcceptFrame(l: Lease, issued: int, valid: int, reading: Reading)
    requires 0 < l.skew < l.maximum
    ensures var (m, reply) := Perform(l, Call.Accept(issued, valid), reading);
            var read := Observe(l, reading).1;
            if reply.Granted? then
              && read.Ok? && m.hasCurrent && m.currentUntil == reply.ticket.until
              && (l.hasCurrent ==> read.value.uptime < l.currentUntil)
              && (0 <= read.value.uptime ==> Bounded(m, Grant(read.value, issued, valid, l.credentialUntil, reply.ticket)))
            else m.hasCurrent == l.hasCurrent && m.currentUntil == l.currentUntil
  {
  }

  lemma SeenKeeps(h: History, call: Call, reading: Reading)
    requires Inv(h) && call != Call.Allow(None)
    ensures SamplesTrack(Seen(h, call, reading))
    ensures !call.Accept? ==> Inv(Seen(h, call, reading))
  {
    var k := Seen(h, call, reading);
    CallFrame(h.lease, call, reading);
    if !call.Accept? {
      SameGrants(h, k);
      assert forall i :: 0 <= i < |h.uses| ==> Covered(h, h.uses[i]) ==> Covered(k, h.uses[i]);
    }
  }

  lemma SameGrants(h: History, k: History)
    requires GrantsChain(h) && k.grants == h.grants
    requires k.lease.skew == h.lease.skew && k.lease.maximum == h.lease.maximum
    requires h.lease.last.uptime <= k.lease.last.uptime
    requires k.lease.hasCurrent == h.lease.hasCurrent && k.lease.currentUntil == h.lease.currentUntil
    ensures GrantsChain(k)
  {
    forall i | 0 <= i < |k.grants|
      ensures Bounded(k.lease, k.grants[i]) && k.grants[i].sample.uptime <= k.lease.last.uptime
    {
      assert Bounded(h.lease, h.grants[i]);
    }
  }

  lemma ExtendGrants(h: History, k: History, g: Grant)
    requires GrantsChain(h) && k.grants == h.grants + [g]
    requires h.lease.hasCurrent ==> g.sample.uptime < h.lease.currentUntil
    requires k.lease.skew == h.lease.skew && k.lease.maximum == h.lease.maximum
    requires h.lease.last.uptime <= g.sample.uptime == k.lease.last.uptime
    requires k.lease.hasCurrent && k.lease.currentUntil == g.ticket.until && Bounded(k.lease, g)
    ensures GrantsChain(k)
  {
    forall i | 0 <= i < |k.grants|
      ensures Bounded(k.lease, k.grants[i]) && k.grants[i].sample.uptime <= k.lease.last.uptime
    {
      if i < |h.grants| {
        assert Bounded(h.lease, h.grants[i]);
      }
    }
  }

  // Logs only grow, so what covered an old use still covers it.
  lemma UsesPersist(h: History, k: History)
    requires HeldDescend(h) && HeldDescend(k) && UsesCovered(h)
    requires h.held <= k.held && h.grants <= k.grants && k.uses == h.uses
    ensures UsesCovered(k)
  {
    forall i | 0 <= i < |k.uses|
      ensures k.uses[i].held < |k.held| && Covered(k, k.uses[i])
    {
      assert Covered(h, h.uses[i]);
    }
  }

  lemma AcceptKeepsInv(h: History, issued: int, valid: int, reading: Reading)
    requires Inv(h)
    ensures Inv(ApplyAccept(h, issued, valid, reading))
  {
    var call := Call.Accept(issued, valid);
    var k := ApplyAccept(h, issued, valid, reading);
    var reply := Perform(h.lease, call, reading).1;
    SeenKeeps(h, call, reading);
    CallFrame(h.lease, call, reading);
    AcceptFrame(h.lease, issued, valid, reading);
    if reply.Granted? {
      ExtendGrants(h, k, k.grants[|h.grants|]);
    } else {
      SameGrants(h, k);
    }
    UsesPersist(h, k);
  }

  // A success on a ticket is inside whatever grant the ticket is narrower than.
  lemma AllowStaysInside(l: Lease, t: Ticket, g: Grant, reading: Reading)
    requires Narrower(t, g) && g.sample.uptime <= l.last.uptime && 0 <= l.last.uptime
    requires Perform(l, Call.Allow(Some(t)), reading).1.Done? && Observe(l, reading).1.Ok?
    ensures var s := Observe(l, reading).1.value;
            && g.sample.uptime <= s.uptime < t.until && s.wall < g.ticket.wallUntil && Unexpired(l.credentialUntil, s.wall)
  {
    CallFrame(l, Call.Allow(Some(t)), reading);
  }

  lemma AllowKeepsInv(h: History, index: nat, reading: Reading)
    requires Inv(h) && index < |h.held|
    ensures Inv(ApplyAllow(h, index, reading))
  {
    var call := Call.Allow(Some(h.held[index].ticket));
    var k := ApplyAllow(h, index, reading);
    var seen := Seen(h, call, reading);
    SeenKeeps(h, call, reading);
    if k != seen {
      AllowStaysInside(h.lease, h.held[index].ticket, h.grants[h.held[index].root], reading);
      AddUse(seen, k, k.uses[|h.uses|]);
    }
  }

  lemma AddUse(h: History, k: History, u: Use)
    requires Inv(h) && k == h.(uses := h.uses + [u]) && u.held < |h.held| && Covered(h, u)
    ensures Inv(k)
  {
    forall i | 0 <= i < |k.uses|
      ensures k.uses[i].held < |k.held| && Covered(k, k.uses[i])
    {
      if i < |h.uses| {
        assert Covered(h, h.uses[i]);
      }
    }
  }

  lemma DrainNarrows(l: Lease, t: Ticket, g: Grant, duration: int, reading: Reading)
    requires Narrower(t, g) && 0 < g.ticket.until
    ensures var reply := Perform(l, Call.Drain(t, duration), reading).1;
            reply.Granted? && Narrower(reply.ticket, g)
  {
  }

  lemma DrainKeepsInv(h: History, index: nat, duration: int, reading: Reading)
    requires Inv(h) && index < |h.held|
    ensures Inv(ApplyDrain(h, index, duration, reading))
  {
    var call := Call.Drain(h.held[index].ticket, duration);
    var k := ApplyDrain(h, index, duration, reading);
    SeenKeeps(h, call, reading);
    var g := h.grants[h.held[index].root];
    assert Bounded(h.lease, g);
    DrainNarrows(h.lease, h.held[index].ticket, g, duration, reading);
    AddHeld(Seen(h, call, reading), k, k.held[|h.held|]);
  }

  lemma AddHeld(h: History, k: History, t: Held)
    requires Inv(h) && k == h.(held := h.held + [t]) && t.root < |h.grants| && Narrower(t.ticket, h.grants[t.root])
    ensures Inv(k)
  {
    UsesPersist(h, k);
  }

  lemma ApplyKeepsInv(h: History, act: Act, reading: Reading)
    requires Inv(h)
    ensures Inv(Apply(h, act, reading))
  {
    match act
    case Check => SeenKeeps(h, Call.Check, reading);
    case ServerTime(server) => SeenKeeps(h, Call.ServerTime(server), reading);
    case Credential(until) => SeenKeeps(h, Call.Credential(until), reading);
    case Accept(issued, valid) => AcceptKeepsInv(h, issued, valid, reading);
    case Allow(i) =>
      if i < |h.held| {
        AllowKeepsInv(h, i, reading);
      }
    case Drain(i, d) =>
      if i < |h.held| {
        DrainKeepsInv(h, i, d, reading);
      }
  }

  lemma {:induction false} RunKeepsInv(h: History, steps: seq<(Act, Reading)>)
    requires Inv(h)
    ensures Inv(Run(h, steps))
  {
    if steps != [] {
      var n := |steps| - 1;
      RunKeepsInv(h, steps[..n]);
      ApplyKeepsInv(Run(h, steps[..n]), steps[n].0, steps[n].1);
    }
  }

  // Drift cannot accumulate: over any run the wall clock and the uptime counter of any two
  // accepted samples advanced by the same amount, up to twice the skew.
  lemma DriftNeverAccumulates(lease: Lease, steps: seq<(Act, Reading)>, i: nat, j: nat)
    requires Opened(lease)
    requires i <= j < |Run(Start(lease), steps).samples|
    ensures var samples := Run(Start(lease), steps).samples;
            && samples[i].uptime <= samples[j].uptime
            && -2 * lease.skew <= Drift(samples[i], samples[j]) <= 2 * lease.skew
  {
    RunKeepsInv(Start(lease), steps);
    RunFrame(Start(lease), steps);
  }

  // Every Allow that ever succeeds, on a granted ticket or on any chain of drains of one, lies inside
  // the authority of the grant it descends from, by both clocks, and inside the credential. That authority is limited
  // by the credential in force at the Accept, even if it is extended later.
  lemma UsesStayInsideAuthority(lease: Lease, steps: seq<(Act, Reading)>, k: nat)
    requires Opened(lease)
    requires k < |Run(Start(lease), steps).uses|
    ensures var h := Run(Start(lease), steps);
            var u := h.uses[k];
            && u.held < |h.held| && h.held[u.held].root < |h.grants|
            && var g := h.grants[h.held[u.held].root];
            && g.sample.uptime <= u.sample.uptime < g.sample.uptime + Min(lease.maximum, CutoffOf(lease, g) - g.sample.wall)
            && u.sample.wall < CutoffOf(lease, g) <= g.valid - lease.skew
            && Unexpired(u.credentialUntil, u.sample.wall)
  {
    RunKeepsInv(Start(lease), steps);
    RunFrame(Start(lease), steps);
    var h := Run(Start(lease), steps);
    assert Covered(h, h.uses[k]);
    assert Bounded(h.lease, h.grants[h.held[h.uses[k].held].root]);
  }

  lemma {:induction false} RunFrame(h: History, steps: seq<(Act, Reading)>)
    ensures Run(h, steps).lease.skew == h.lease.skew && Run(h, steps).lease.maximum == h.lease.maximum
    ensures Run(h, steps).lease.origin == h.lease.origin
    ensures h.lease.last.uptime <= Run(h, steps).lease.last.uptime
  {
    if steps != [] {
      var n := |steps| - 1;
      RunFrame(h, steps[..n]);
      ApplyFrame(Run(h, steps[..n]), steps[n].0, steps[n].1);
    }
  }

  lemma ApplyFrame(h: History, act: Act, reading: Reading)
    ensures var k := Apply(h, act, reading);
            && k.lease.skew == h.lease.skew && k.lease.maximum == h.lease.maximum && k.lease.origin == h.lease.origin
            && h.lease.last.uptime <= k.lease.last.uptime
            && (h.lease.failed.Some? ==> k.lease == h.lease && k.samples == h.samples && k.grants == h.grants && k.uses == h.uses)
  {
  }

  // A drained ticket allows nothing its parent would refuse at the same sample, whatever
  // state the guard has reached by then.
  lemma DrainOnlyNarrows(l: Lease, ticket: Ticket, duration: int, first: Reading, later: Lease, second: Reading)
    requires 0 <= later.last.uptime
    ensures var drained := Perform(l, Call.Drain(ticket, duration), first).1;
            && drained.Granted?
            && (Perform(later, Call.Allow(Some(drained.ticket)), second).1.Done?
                ==> Perform(later, Call.Allow(Some(ticket)), second).1.Done?)
  {
    var drained := Perform(l, Call.Drain(ticket, duration), first).1;
    if Perform(later, Call.Allow(Some(drained.ticket)), second).1.Done? {
      CallFrame(later, Call.Allow(Some(drained.ticket)), second);
      assert drained.ticket.until <= 0 || Observe(l, first).1.Ok?;
    }
  }

  // Failure is final: after a latched failure no run samples, grants or allows anything again.
  lemma {:induction false} FailureIsFinal(h: History, steps: seq<(Act, Reading)>)
    requires h.lease.failed.Some?
    ensures var k := Run(h, steps);
            k.lease == h.lease && k.samples == h.samples && k.grants == h.grants && k.uses == h.uses
  {
    if steps != [] {
      var n := |steps| - 1;
      FailureIsFinal(h, steps[..n]);
      ApplyFrame(Run(h, steps[..n]), steps[n].0, steps[n].1);
    }
  }

  // Expiry is final: once any sample has reached the end of the current lease, no Accept succeeds.
  lemma {:induction false} ExpiryIsFinal(h: History, steps: seq<(Act, Reading)>)
    requires Inv(h) && h.lease.hasCurrent && h.lease.currentUntil <= h.lease.last.uptime
    ensures var k := Run(h, steps);
            k.grants == h.grants && k.lease.hasCurrent && k.lease.currentUntil == h.lease.currentUntil
  {
    if steps != [] {
      var n := |steps| - 1;
      ExpiryIsFinal(h, steps[..n]);
      RunFrame(h, steps[..n]);
      var m := Run(h, steps[..n]);
      match steps[n].0
      case Accept(issued, valid) => ExpiredAccept(m.lease, issued, valid, steps[n].1);
      case _ =>
    }
  }

  lemma ExpiredAccept(l: Lease, issued: int, valid: int, reading: Reading)
    requires l.hasCurrent && l.currentUntil <= l.last.uptime
    ensures !Perform(l, Call.Accept(issued, valid), reading).1.Granted?
    ensures var m := Perform(l, Call.Accept(issued, valid), reading).0;
            m.hasCurrent && m.currentUntil == l.currentUntil
  {
    CallFrame(l, Call.Accept(issued, valid), reading);
  }

  predicate Within(g: Grant, uptime: int) {
    g.sample.uptime <= uptime < g.ticket.until
  }

  // Hence the granted uptime intervals of any run join, without a gap, into one interval.
  lemma {:induction false} GrantedTimeIsContiguous(lease: Lease, steps: seq<(Act, Reading)>, k: nat, uptime: int)
    requires Opened(lease)
    requires var grants := Run(Start(lease), steps).grants;
             k < |grants| && grants[0].sample.uptime <= uptime < grants[k].ticket.until
    ensures var grants := Run(Start(lease), steps).grants;
            exists i :: 0 <= i <= k && Within(grants[i], uptime)
    decreases k
  {
    RunKeepsInv(Start(lease), steps);
    var grants := Run(Start(lease), steps).grants;
    if grants[k].sample.uptime <= uptime {
      assert Within(grants[k], uptime);
    } else {
      GrantedTimeIsContiguous(lease, steps, k - 1, uptime);
    }
  }

  // No false alarm: a clock whose wall/uptime offset stays within half the skew of some constant,
  // and whose uptime never runs backwards, is never declared divergent.
  ghost predicate Steady(offset: int, skew: int, s: Sample) {
    -skew <= 2 * (s.wall - s.uptime - offset) <= skew
  }

  lemma {:induction false} SteadyClockNeverDiverges(lease: Lease, offset: int, steps: seq<(Act, Reading)>)
    requires Opened(lease) && Steady(offset, lease.skew, lease.origin)
    requires forall i :: 0 <= i < |steps| ==> steps[i].1.Reading? && Steady(offset, lease.skew, steps[i].1.sample)
    requires forall i :: 0 <= i < |steps| ==> lease.origin.uptime <= steps[i].1.sample.uptime
    requires forall i, j :: 0 <= i < j < |steps| ==> steps[i].1.sample.uptime <= steps[j].1.sample.uptime
    ensures var l := Run(Start(lease), steps).lease;
            && l.failed != Some(HistoryDiverged) && l.failed != Some(ClockReadFailed)
            && Steady(offset, lease.skew, l.last)
            && (l.last == lease.origin || exists i :: 0 <= i < |steps| && l.last == steps[i].1.sample)
  {
    if steps != [] {
      var n := |steps| - 1;
      var before := steps[..n];
      SteadyClockNeverDiverges(lease, offset, before);
      RunFrame(Start(lease), before);
      var m := Run(Start(lease), before).lease;
      assert forall i :: 0 <= i < n ==> before[i] == steps[i];
      assert m.last.uptime <= steps[n].1.sample.uptime;
      assert Plausible(m, steps[n].1.sample);
      SteadyStep(Run(Start(lease), before), steps[n].0, steps[n].1);
    }
  }

  lemma SteadyStep(h: History, act: Act, reading: Reading)
    requires reading.Reading? && Plausible(h.lease, reading.sample)
    requires h.lease.failed != Some(HistoryDiverged) && h.lease.failed != Some(ClockReadFailed)
    ensures var l := Apply(h, act, reading).lease;
            && l.failed != Some(HistoryDiverged) && l.failed != Some(ClockReadFailed)
            && (l.last == h.lease.last || l.last == reading.sample)
  {
  }
}

/**
 The life of a remembered command, seen from outside: it begins, may be checked, is written any number of times and
 is settled. `Replay` runs such a trace and fails at the first event that breaks the rules below; the lemmas say
 what every trace that does not fail looks like.
 */
module CommandTrace {
  import opened Outcomes

  datatype Reason<R> =
    | Accepted(result: R)   // a reply that passes validation
    | Rejected              // a complete refusal
    | Unsent                // the check before the first write failed
    | Dropped               // discarded or cleared by the operator

  datatype Event<C, P, R> = Began(command: C) | Checked(plan: P) | Wrote(written: C) | Settled(reason: Reason<R>)

  datatype Live<C> = Idle | Open(command: C, checked: bool, writes: nat)

  // `guarded` commands need a check before their first write; `passes` are the plans that check a command, `valid`
  // the replies that may settle it.
  datatype Law<!C, !P, !R> = Law(guarded: bool, passes: (C, P) -> bool, valid: (C, R) -> bool)

  // One event: begin when idle, write only the open command, refuse only after exactly one write.
  function Advance<C(==), P, R>(law: Law<C, P, R>, live: Live<C>, event: Event<C, P, R>): Option<Live<C>> {
    match event
    case Began(c) => if live.Idle? then Some(Open(c, false, 0)) else None
    case Checked(plan) => if live.Open? && law.passes(live.command, plan) then Some(live.(checked := true)) else None
    case Wrote(c) =>
      if live.Open? && live.command == c && (law.guarded && live.writes == 0 ==> live.checked)
      then Some(live.(writes := live.writes + 1)) else None
    case Settled(reason) =>
      if live.Idle? then None else
      match reason
      case Accepted(r) => if live.writes > 0 && law.valid(live.command, r) then Some(Idle) else None
      case Rejected => if live.writes == 1 then Some(Idle) else None
      case Unsent => if live.writes == 0 then Some(Idle) else None
      case Dropped => Some(Idle)
  }

  function Replay<C(==), P, R>(law: Law<C, P, R>, trace: seq<Event<C, P, R>>): Option<Live<C>> {
    if trace == [] then Some(Idle) else
    var before := Replay(law, trace[..|trace| - 1]);
    if before.None? then None else Advance(law, before.value, trace[|trace| - 1])
  }

  lemma ReplayGrows<C, P, R>(law: Law<C, P, R>, trace: seq<Event<C, P, R>>, event: Event<C, P, R>)
    ensures Replay(law, trace + [event]) ==
            if Replay(law, trace).None? then None else Advance(law, Replay(law, trace).value, event)
  {
    assert (trace + [event])[..|trace|] == trace;
  }

  lemma {:induction false} PrefixIsLawful<C, P, R>(law: Law<C, P, R>, trace: seq<Event<C, P, R>>, n: nat)
    requires n <= |trace| && Replay(law, trace).Some?
    ensures Replay(law, trace[..n]).Some?
  {
    if n < |trace| {
      var before := trace[..|trace| - 1];
      PrefixIsLawful(law, before, n);
      assert before[..n] == trace[..n];
    } else {
      assert trace[..n] == trace;
    }
  }

  // Running one more event of a lawful trace.
  lemma NextIsLawful<C, P, R>(law: Law<C, P, R>, trace: seq<Event<C, P, R>>, n: nat)
    requires n < |trace| && Replay(law, trace).Some?
    ensures Replay(law, trace[..n]).Some? && Replay(law, trace[..n + 1]).Some?
    ensures Advance(law, Replay(law, trace[..n]).value, trace[n]) == Replay(law, trace[..n + 1])
  {
    PrefixIsLawful(law, trace, n);
    PrefixIsLawful(law, trace, n + 1);
    assert trace[..n + 1] == trace[..n] + [trace[n]];
    ReplayGrows(law, trace[..n], trace[n]);
  }

  predicate Quiet<C, P, R>(trace: seq<Event<C, P, R>>, i: nat, j: nat)
    requires i <= j <= |trace|
  {
    forall k :: i <= k < j ==> !trace[k].Settled?
  }

  // As long as nothing is settled, the open command stays the one it was.
  lemma {:induction false} OpenStays<C, P, R>(law: Law<C, P, R>, trace: seq<Event<C, P, R>>, i: nat, j: nat)
    requires Replay(law, trace).Some? && i <= j <= |trace| && Quiet(trace, i, j)
    requires Replay(law, trace[..i]).Some? && Replay(law, trace[..i]).value.Open?
    ensures Replay(law, trace[..j]).Some? && Replay(law, trace[..j]).value.Open?
    ensures Replay(law, trace[..j]).value.command == Replay(law, trace[..i]).value.command
    decreases j
  {
    if i < j {
      OpenStays(law, trace, i, j - 1);
      NextIsLawful(law, trace, j - 1);
    }
  }

  // A command is never silently replaced: between writes of two different commands the first one was settled.
  lemma NeverReplaced<C, P, R>(law: Law<C, P, R>, trace: seq<Event<C, P, R>>, i: nat, j: nat)
    requires Replay(law, trace).Some? && i < j < |trace| && trace[i].Wrote? && trace[j].Wrote?
    ensures trace[i].written == trace[j].written || exists k :: i < k < j && trace[k].Settled?
  {
    NextIsLawful(law, trace, i);
    NextIsLawful(law, trace, j);
    if Quiet(trace, i + 1, j) {
      OpenStays(law, trace, i + 1, j);
    }
  }

  // How often the open command has been written since it began.
  predicate SoleWrite<C, P, R>(trace: seq<Event<C, P, R>>, start: nat, end: nat, at: nat)
    requires start <= end <= |trace|
  {
    start <= at < end && trace[at].Wrote? && forall k :: start <= k < end && trace[k].Wrote? ==> k == at
  }

  predicate Unwritten<C, P, R>(trace: seq<Event<C, P, R>>, start: nat, end: nat)
    requires start <= end <= |trace|
  {
    forall k :: start <= k < end ==> !trace[k].Wrote?
  }

  // A plan that passes for the command begun at `start`.
  predicate PassedAt<C, P, R>(law: Law<C, P, R>, trace: seq<Event<C, P, R>>, start: nat, k: nat)
    requires start < |trace| && k < |trace|
  {
    trace[start].Began? && trace[k].Checked? && law.passes(trace[start].command, trace[k].plan)
  }

  // Where the open command began, and which of its writes have happened.
  ghost predicate Since<C, P, R>(law: Law<C, P, R>, trace: seq<Event<C, P, R>>, n: nat, start: nat)
    requires n <= |trace|
  {
    && start < n && trace[start].Began? && Quiet(trace, start, n)
    && Replay(law, trace[..n]).Some? && Replay(law, trace[..n]).value.Open?
    && var live := Replay(law, trace[..n]).value;
    && live.command == trace[start].command
    && (live.writes == 0 <==> Unwritten(trace, start, n))
    && (live.writes == 1 ==> exists at :: SoleWrite(trace, start, n, at))
    && (live.checked ==> exists k :: start < k < n && PassedAt(law, trace, start, k))
  }

  lemma {:induction false} OpenBegan<C, P, R>(law: Law<C, P, R>, trace: seq<Event<C, P, R>>, n: nat) returns (start: nat)
    requires n <= |trace| && Replay(law, trace).Some?
    requires Replay(law, trace[..n]).Some? && Replay(law, trace[..n]).value.Open?
    ensures Since(law, trace, n, start)
  {
    assert trace[..0] == [];
    NextIsLawful(law, trace, n - 1);
    if trace[n - 1].Began? {
      start := n - 1;
    } else {
      start := OpenBegan(law, trace, n - 1);
      SinceGrows(law, trace, n - 1, start);
    }
  }

  lemma SinceGrows<C, P, R>(law: Law<C, P, R>, trace: seq<Event<C, P, R>>, n: nat, start: nat)
    requires n < |trace| && Replay(law, trace).Some? && Since(law, trace, n, start)
    requires !trace[n].Began? && !trace[n].Settled?
    ensures Since(law, trace, n + 1, start)
  {
    NextIsLawful(law, trace, n);
    var live := Replay(law, trace[..n]).value;
    var next := Replay(law, trace[..n + 1]).value;
    if !trace[n].Wrote? && !Unwritten(trace, start, n) {
      var k :| start <= k < n && trace[k].Wrote?;
      assert start <= k < n + 1 && trace[k].Wrote?;
    }
    if next.writes == 1 {
      if trace[n].Wrote? {
        assert SoleWrite(trace, start, n + 1, n);
      } else {
        var at :| SoleWrite(trace, start, n, at);
        assert SoleWrite(trace, start, n + 1, at);
      }
    }
    if next.checked {
      if trace[n].Checked? {
        assert PassedAt(law, trace, start, n);
      } else {
        var k :| start < k < n && PassedAt(law, trace, start, k);
        assert start < k < n + 1 && PassedAt(law, trace, start, k);
      }
    }
  }

  // A command is settled only for one of four reasons: a valid reply to it after a write of it, a refusal of its one
  // and only write, a failed check before any write, or the operator.
  lemma SettledForAReason<C, P, R>(law: Law<C, P, R>, trace: seq<Event<C, P, R>>, n: nat) returns (start: nat)
    requires Replay(law, trace).Some? && n < |trace| && trace[n].Settled?
    ensures start < n && trace[start].Began? && Quiet(trace, start, n)
    ensures trace[n].reason.Accepted? ==> law.valid(trace[start].command, trace[n].reason.result) && !Unwritten(trace, start, n)
    ensures trace[n].reason.Rejected? ==> exists at :: SoleWrite(trace, start, n, at)
    ensures trace[n].reason.Unsent? ==> Unwritten(trace, start, n)
  {
    NextIsLawful(law, trace, n);
    start := OpenBegan(law, trace, n);
  }

  lemma OpenAtStart<C, P, R>(law: Law<C, P, R>, trace: seq<Event<C, P, R>>, start: nat)
    requires start < |trace| && Replay(law, trace).Some? && trace[start].Began?
    ensures Replay(law, trace[..start]) == Some(Idle)
    ensures Replay(law, trace[..start + 1]) == Some(Open(trace[start].command, false, 0))
  {
    NextIsLawful(law, trace, start);
  }

  // The open command began once.
  lemma SameStart<C, P, R>(law: Law<C, P, R>, trace: seq<Event<C, P, R>>, n: nat, a: nat, b: nat)
    requires n <= |trace| && Replay(law, trace).Some? && a < n && b < n
    requires trace[a].Began? && Quiet(trace, a, n) && trace[b].Began? && Quiet(trace, b, n)
    ensures a == b
  {
    OpenAtStart(law, trace, a);
    OpenAtStart(law, trace, b);
    if a < b {
      OpenStays(law, trace, a + 1, b);
    } else if b < a {
      OpenStays(law, trace, b + 1, a);
    }
  }

  // Under a guarded law the first write after a command began is that command, and a plan that passes for it came
  // in between.
  lemma FirstWriteIsChecked<C, P, R>(law: Law<C, P, R>, trace: seq<Event<C, P, R>>, start: nat, n: nat) returns (check: nat)
    requires law.guarded && Replay(law, trace).Some? && start < n < |trace|
    requires trace[start].Began? && trace[n].Wrote? && Quiet(trace, start, n) && Unwritten(trace, start, n)
    ensures trace[n].written == trace[start].command
    ensures start < check < n && trace[check].Checked? && law.passes(trace[start].command, trace[check].plan)
  {
    NextIsLawful(law, trace, n);
    OpenAtStart(law, trace, start);
    OpenStays(law, trace, start + 1, n);
    var began := OpenBegan(law, trace, n);
    SameStart(law, trace, n, start, began);
    check :| start < check < n && PassedAt(law, trace, start, check);
  }
}

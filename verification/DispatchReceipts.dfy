/** What an accepted or unchanged row rests on: the receipt it keeps, field by field. */
module DispatchReceipts {
  import opened Outcomes
  import opened RuleDispatch
  import opened DispatchRuns
  import opened DispatchInvariant
  import opened DispatchTheorems
  import Lb = DispatchLabels

  // The receipt is about this row's rule and, for a path row, binds this row's own template.
  predicate Names(m: Command, r: Receipt) {
    && r.forwardId == m.forwardId && 1 <= r.revision <= MAX_SAFE
    && (m.pathTarget.Some? ==>
          && r.binding.Some? && r.binding.value.template.id == m.pathTarget.value.id
          && r.binding.value.template.revision == m.pathTarget.value.revision && r.binding.value.template.digest == m.pathTarget.value.digest
          && 1 <= r.binding.value.sequence <= 64 && 1 <= r.binding.value.forwardRevision <= r.revision)
  }

  // No operation, and the revision stayed.
  predicate SaysUnchanged(m: Command, r: Receipt) {
    && Names(m, r) && r.operationId.None? && r.revision == m.expectedRevision && m.sourceOperation.None?
    && (m.pathTarget.Some? ==> !m.specChanged)
  }

  // An operation, with the next revision, or with the same revision and the same source operation for a retry.
  predicate SaysAccepted(m: Command, r: Receipt) {
    && Names(m, r) && r.operationId.Some? && IsId(r.operationId.value)
    && (if m.sourceOperation.Some? then r.sourceOperation == m.sourceOperation && r.revision == m.expectedRevision
        else r.revision == m.expectedRevision + 1)
    && (m.pathTarget.Some? ==> m.specChanged && r.revision == m.expectedRevision + 1)
  }

  // `accepted` recognises exactly these receipts.
  lemma RecognizedSays(m: Command, r: Receipt)
    ensures Recognized(m, r) <==> SaysAccepted(m, r) || SaysUnchanged(m, r)
    ensures SaysUnchanged(m, r) ==> r.operationId.None?
    ensures SaysAccepted(m, r) ==> r.operationId.Some?
  {
  }

  predicate Receipted(row: Row) {
    && (row.state.Unchanged? ==> row.result.Some? && SaysUnchanged(row.command, row.result.value))
    && (row.state.Accepted? ==> row.result.Some? && SaysAccepted(row.command, row.result.value))
  }

  ghost predicate AllReceipted(c: Console) {
    forall p, r :: 0 <= p < |c.plans| && 0 <= r < |c.plans[p]| ==> Receipted(c.plans[p][r])
  }

  // ---- every step keeps it ----

  lemma RowKeeps(c: Console, p: nat, r: nat, row: Row)
    requires AllReceipted(c) && p < |c.plans| && r < |c.plans[p]| && Receipted(row)
    ensures AllReceipted(WithRow(c, p, r, row))
  {
  }

  lemma BeginKeeps(c: Console, plan: nat, version: nat, queue: seq<nat>)
    requires AllReceipted(c) && plan < |c.plans| && forall i :: 0 <= i < |queue| ==> queue[i] < |c.plans[plan]|
    ensures AllReceipted(BeginRow(c, plan, version, queue).0)
  {
    if queue != [] {
      var row := c.plans[plan][queue[0]];
      RowKeeps(c, plan, queue[0], row.(state := Checking, check := None));
      RowKeeps(c, plan, queue[0], row.(state := Sending));
    }
  }

  lemma FailKeeps(c: Console, id: nat, t: Task, status: Option<int>)
    requires AllReceipted(c) && id < |c.tasks| && Grounded(c, t)
    ensures AllReceipted(Fail(c, id, t, status))
  {
    var row := RowOf(c, t).(state := FailedState(t, t.abort in c.aborted, status));
    RowKeeps(c, t.plan, t.queue[0], row);
    BeginKeeps(WithRow(c, t.plan, t.queue[0], row), t.plan, t.version, t.queue[1..]);
  }

  lemma WriteKeeps(c: Console, id: nat, t: Task, a: Answer<Receipt>)
    requires AllReceipted(c) && id < |c.tasks| && Grounded(c, t)
    ensures AllReceipted(ResumeWrite(c, id, t, a))
  {
    FailKeeps(c, id, t, StatusOf(a));
    if a.Body? && Recognized(RowOf(c, t).command, a.value) {
      RecognizedSays(RowOf(c, t).command, a.value);
      var row := RowOf(c, t).(state := if a.value.operationId.None? then Unchanged else Accepted, result := Some(a.value));
      RowKeeps(c, t.plan, t.queue[0], row);
      BeginKeeps(WithRow(c, t.plan, t.queue[0], row), t.plan, t.version, t.queue[1..]);
    }
  }

  lemma PlanKeeps(c: Console, id: nat, t: Task, a: Answer<Plan>)
    requires AllReceipted(c) && id < |c.tasks| && Grounded(c, t) && RowOf(c, t).command.preflight.Some?
    ensures AllReceipted(ResumePlan(c, id, t, a))
  {
    FailKeeps(c, id, t, StatusOf(a));
    if a.Body? && PlanMatches(RowOf(c, t).command, a.value) {
      var row := RowOf(c, t).(check := a.value.profile);
      RowKeeps(c, t.plan, t.queue[0], row);
      var checked := WithRow(c, t.plan, t.queue[0], row).(trace := c.trace + [Checked(t.abort, t.plan, t.queue[0], a.value.profile.value)]);
      FailKeeps(checked, id, t, None);
      RowKeeps(checked, t.plan, t.queue[0], row.(state := Sending));
    }
  }

  lemma StartKeeps(c: Console, only: Option<nat>)
    requires AllReceipted(c) && CurrentExists(c)
    ensures AllReceipted(Start(c, only))
  {
    if c.current.Some? {
      var d := c.(active := true, stopped := false, tasks := c.tasks + [None]);
      var rows := c.plans[c.current.value];
      BeginKeeps(d, c.current.value, c.generation, PendingFrom(rows, 0));
      if only.Some? && only.value < |rows| {
        BeginKeeps(d, c.current.value, c.generation, [only.value]);
      }
    }
  }

  lemma ShowKeeps(c: Console, commands: seq<Command>)
    requires AllReceipted(c)
    ensures AllReceipted(Show(c, commands))
  {
  }

  lemma StepKeeps(w: World, step: Step)
    requires Enabled(w, step) && AllReceipted(w.console)
    ensures AllReceipted(Next(w, step).console)
  {
    var c := w.console;
    match step
    case DidStart(only) => StartKeeps(c, only);
    case DidPrepare(commands, confirmed) => ShowKeeps(Clear(c), commands);
    case DidEndRetry(retry, command) => ShowKeeps(c.(retries := c.retries - {retry}), [command]);
    case GotPreview(id, a) => FailKeeps(c, id, c.tasks[id].value, StatusOf(a));
    case GotPlan(id, a) => PlanKeeps(c, id, c.tasks[id].value, a);
    case GotReceipt(id, a) => WriteKeeps(c, id, c.tasks[id].value, a);
    case _ =>
  }

  lemma {:induction false} RunReceipts(worlds: seq<World>, steps: seq<Step>, n: nat)
    requires IsRun(worlds, steps) && n < |worlds|
    ensures AllReceipted(worlds[n].console)
  {
    if n > 0 {
      RunReceipts(worlds, steps, n - 1);
      assert Enabled(worlds[n - 1], steps[n - 1]) && worlds[n] == Next(worlds[n - 1], steps[n - 1]);
      StepKeeps(worlds[n - 1], steps[n - 1]);
    }
  }

  // Over every run: an unchanged row keeps a receipt without an operation at the expected revision; an accepted row keeps
  // one with an operation at the next revision, or at the same one with its own source operation for a retry; both
  // name the row's rule, and a path row's receipt binds the row's own template.
  lemma ReceiptsMatchLabels(worlds: seq<World>, steps: seq<Step>, n: nat, p: nat, r: nat)
    requires IsRun(worlds, steps) && n < |worlds| && Lb.InRange(worlds[n].console, p, r)
    ensures var row := worlds[n].console.plans[p][r];
            && (row.state.Unchanged? ==>
                  && row.result.Some? && row.result.value.operationId.None? && row.result.value.revision == row.command.expectedRevision)
            && (row.state.Accepted? ==>
                  && row.result.Some? && row.result.value.operationId.Some?
                  && (if row.command.sourceOperation.Some?
                      then row.result.value.revision == row.command.expectedRevision && row.result.value.sourceOperation == row.command.sourceOperation
                      else row.result.value.revision == row.command.expectedRevision + 1))
            && (row.state.Unchanged? || row.state.Accepted? ==>
                  && row.result.value.forwardId == row.command.forwardId
                  && (row.command.pathTarget.Some? ==>
                        && row.result.value.binding.Some? && row.result.value.binding.value.template == row.command.pathTarget.value
                        && (row.state.Accepted? <==> row.command.specChanged)))
  {
    RunReceipts(worlds, steps, n);
    assert Receipted(worlds[n].console.plans[p][r]);
  }

  // The answer to a write that still counts decides the row exactly: accepted or unchanged by what the receipt says, and
  // uncertain for any other receipt.
  lemma ReceiptDecides(w: World, id: nat, r: Receipt)
    requires Inv(w.console) && Enabled(w, GotReceipt(id, Body(r)))
    requires Live(w.console, w.console.tasks[id].value) && w.console.tasks[id].value.abort !in w.console.aborted
    ensures var (c, d, t) := (w.console, Next(w, GotReceipt(id, Body(r))).console, w.console.tasks[id].value);
            && Lb.InRange(d, t.plan, t.queue[0])
            && var (m, row) := (RowOf(c, t).command, d.plans[t.plan][t.queue[0]]);
            && (SaysAccepted(m, r) ==> row.state == Accepted && row.result == Some(r))
            && (SaysUnchanged(m, r) ==> row.state == Unchanged && row.result == Some(r))
            && (!SaysAccepted(m, r) && !SaysUnchanged(m, r) ==> row.state == Uncertain)
  {
    var (c, t) := (w.console, w.console.tasks[id].value);
    assert TaskOk(c, t);
    RecognizedSays(RowOf(c, t).command, r);
    if Recognized(RowOf(c, t).command, r) {
      var row := RowOf(c, t).(state := if r.operationId.None? then Unchanged else Accepted, result := Some(r));
      NextLeavesAlone(WithRow(c, t.plan, t.queue[0], row), id, t);
    }
  }

  // Going on to the next row leaves the finished one as it is.
  lemma NextLeavesAlone(c: Console, id: nat, t: Task)
    requires id < |c.tasks| && Grounded(c, t) && Consecutive(t.queue)
    ensures var d := NextRow(c, id, t);
            Lb.InRange(d, t.plan, t.queue[0]) && d.plans[t.plan][t.queue[0]] == c.plans[t.plan][t.queue[0]]
  {
    if |t.queue| > 1 {
      assert t.queue[1] != t.queue[0] && t.queue[1..][0] == t.queue[1];
    }
  }
}

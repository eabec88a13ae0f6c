/** What each answer to a running attempt decides, field by field. */
module DispatchAnswers {
  import opened Outcomes
  import opened RuleDispatch
  import opened DispatchRuns
  import opened DispatchInvariant
  import opened DispatchReceipts
  import Lb = DispatchLabels

  // The coroutine is the current attempt of the list on screen, and nobody stopped it.
  predicate Counts(c: Console, id: nat) {
    Parked(c, id) && Live(c, c.tasks[id].value) && c.tasks[id].value.abort !in c.aborted
  }

  function StateAfter(d: Console, t: Task): Option<RowState> {
    if t.queue != [] && Lb.InRange(d, t.plan, t.queue[0]) then Some(d.plans[t.plan][t.queue[0]].state) else None
  }

  // A preview lets the attempt go on exactly if it repeats the frozen request and specs and claims nothing; otherwise
  // the row reads preflight-failed. Nothing is sent either way.
  lemma PreviewDecides(w: World, id: nat, v: Preview)
    requires Inv(w.console) && Enabled(w, GotPreview(id, Body(v))) && Counts(w.console, id) && !w.console.stopped
    ensures var (c, d, t) := (w.console, Next(w, GotPreview(id, Body(v))).console, w.console.tasks[id].value);
            var m := RowOf(c, t).command;
            && d.outbox == c.outbox && m.pathTarget.Some?
            && if && v.forwardId == m.forwardId && v.expectedRevision == m.expectedRevision && v.previewOnly
                  && !v.reserved && !v.executionAuthorized && !v.fullPlanAuthorization && v.changed == m.specChanged
                  && v.template == m.pathTarget.value && v.spec == m.sourceSpec && v.proposedSpec == m.proposedSpec
               then d.tasks[id] == Some(t.(pc := AwaitPlan)) && StateAfter(d, t) == Some(Checking)
               else d.tasks[id] == None && StateAfter(d, t) == Some(PreflightFailed)
  {
    var (c, t) := (w.console, w.console.tasks[id].value);
    assert TaskOk(c, t) && Running(c, t);
  }

  // A plan lets the first write go exactly if it matches the frozen Profile and the runtime gate; otherwise the row reads
  // preflight-failed and nothing is sent.
  lemma PlanDecides(w: World, id: nat, v: Plan)
    requires Inv(w.console) && Enabled(w, GotPlan(id, Body(v))) && Counts(w.console, id) && !w.console.stopped
    ensures var (c, d, t) := (w.console, Next(w, GotPlan(id, Body(v))).console, w.console.tasks[id].value);
            var m := RowOf(c, t).command;
            && m.preflight.Some?
            && if && !v.reserved && !v.executionSupported && v.runtimeEnabled && v.profile.Some?
                  && v.profile.value.id == m.preflight.value.id && v.profile.value.revision == m.preflight.value.revision
                  && v.profile.value.digest == m.preflight.value.digest
               then && |d.outbox| == |c.outbox| + 1 && StateAfter(d, t) == Some(Sending)
                    && d.outbox[|c.outbox|] == Outgoing(t.plan, t.queue[0], t.abort, m.verb, m.resource, m.body, m.key)
               else d.outbox == c.outbox && StateAfter(d, t) == Some(PreflightFailed)
  {
    var (c, t) := (w.console, w.console.tasks[id].value);
    assert TaskOk(c, t) && Running(c, t);
  }

  // A refusal of the first write with one of the eight complete codes rejects the row; any other failure of a write,
  // and any failure of a replay, leaves it uncertain.
  lemma WriteFailureDecides(w: World, id: nat, a: Answer<Receipt>)
    requires Inv(w.console) && Enabled(w, GotReceipt(id, a)) && Counts(w.console, id) && !a.Body?
    ensures var (d, t) := (Next(w, GotReceipt(id, a)).console, w.console.tasks[id].value);
            StateAfter(d, t) == Some(
              if !t.replay && a.Http? && a.status in {400, 401, 403, 404, 409, 413, 422, 429} then Rejected else Uncertain)
  {
    var (c, t) := (w.console, w.console.tasks[id].value);
    assert TaskOk(c, t);
    var row := RowOf(c, t).(state := FailedState(t, t.abort in c.aborted, StatusOf(a)));
    NextLeavesAlone(WithRow(c, t.plan, t.queue[0], row), id, t);
  }

  // A stopped attempt never settles a row: whatever the answer, a write in flight reads uncertain and a check in progress
  // preflight-failed.
  lemma StoppedIsUncertain(w: World, id: nat, a: Answer<Receipt>)
    requires Inv(w.console) && Enabled(w, GotReceipt(id, a)) && Live(w.console, w.console.tasks[id].value)
    requires w.console.tasks[id].value.abort in w.console.aborted
    ensures StateAfter(Next(w, GotReceipt(id, a)).console, w.console.tasks[id].value) == Some(Uncertain)
  {
    var (c, t) := (w.console, w.console.tasks[id].value);
    assert TaskOk(c, t);
  }
}

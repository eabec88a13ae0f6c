/** What arrives late: answers to a cleared or replaced list, and retries begun before the last clear. */
module DispatchLate {
  import opened Outcomes
  import opened RuleDispatch
  import opened DispatchRuns
  import opened DispatchTheorems

  // The step is an answer to a coroutine of plan `p`.
  predicate AnswersPlan(c: Console, step: Step, p: nat) {
    && (step.GotPreview? || step.GotPlan? || step.GotReceipt?)
    && step.id < |c.tasks| && c.tasks[step.id].Some? && c.tasks[step.id].value.plan == p
  }

  // Once a list is out of use, an answer to one of its requests, whatever it says, ends that coroutine and changes
  // nothing else: no row of any list, no write, no label of the list shown now, nothing the server holds.
  lemma LateReplyChangesNothing(worlds: seq<World>, steps: seq<Step>, n: nat, m: nat, p: nat)
    requires IsRun(worlds, steps) && n <= m < |steps|
    requires p < |worlds[n].console.plans| && worlds[n].console.current != Some(p) && AnswersPlan(worlds[m].console, steps[m], p)
    ensures var c := worlds[m].console;
            worlds[m + 1] == worlds[m].(console := c.(tasks := c.tasks[steps[m].id := None]))
  {
    ClearedPlanIsInert(worlds, steps, n, m, p);
    assert Enabled(worlds[m], steps[m]) && worlds[m + 1] == Next(worlds[m], steps[m]);
  }

  lemma BeginKeepsGeneration(c: Console, plan: nat, version: nat, queue: seq<nat>)
    requires plan < |c.plans| && forall i :: 0 <= i < |queue| ==> queue[i] < |c.plans[plan]|
    ensures BeginRow(c, plan, version, queue).0.generation == c.generation
  {
  }

  lemma FailKeepsGeneration(c: Console, id: nat, t: Task, status: Option<int>)
    requires id < |c.tasks| && Grounded(c, t)
    ensures Fail(c, id, t, status).generation == c.generation
  {
    var failed := WithRow(c, t.plan, t.queue[0], RowOf(c, t).(state := FailedState(t, t.abort in c.aborted, status)));
    BeginKeepsGeneration(failed, t.plan, t.version, t.queue[1..]);
  }

  lemma WriteKeepsGeneration(c: Console, id: nat, t: Task, a: Answer<Receipt>)
    requires id < |c.tasks| && Grounded(c, t)
    ensures ResumeWrite(c, id, t, a).generation == c.generation
  {
    FailKeepsGeneration(c, id, t, StatusOf(a));
    forall state
      ensures BeginRow(WithRow(c, t.plan, t.queue[0], RowOf(c, t).(state := state)), t.plan, t.version, t.queue[1..]).0.generation == c.generation
    {
      BeginKeepsGeneration(WithRow(c, t.plan, t.queue[0], RowOf(c, t).(state := state)), t.plan, t.version, t.queue[1..]);
    }
  }

  lemma PlanKeepsGeneration(c: Console, id: nat, t: Task, a: Answer<Plan>)
    requires id < |c.tasks| && Grounded(c, t) && RowOf(c, t).command.preflight.Some?
    ensures ResumePlan(c, id, t, a).generation == c.generation
  {
    FailKeepsGeneration(c, id, t, StatusOf(a));
    if a.Body? && PlanMatches(RowOf(c, t).command, a.value) {
      var checked := WithRow(c, t.plan, t.queue[0], RowOf(c, t).(check := a.value.profile)).(
        trace := c.trace + [Checked(t.abort, t.plan, t.queue[0], a.value.profile.value)]);
      FailKeepsGeneration(checked, id, t, None);
    }
  }

  lemma StartKeepsGeneration(c: Console, only: Option<nat>)
    requires CurrentExists(c)
    ensures Start(c, only).generation == c.generation
  {
    if c.current.Some? {
      var d := c.(active := true, stopped := false, tasks := c.tasks + [None]);
      var rows := c.plans[c.current.value];
      BeginKeepsGeneration(d, c.current.value, c.generation, PendingFrom(rows, 0));
      if only.Some? && only.value < |rows| {
        BeginKeepsGeneration(d, c.current.value, c.generation, [only.value]);
      }
    }
  }

  lemma GenerationNeverFalls(w: World, step: Step)
    requires Enabled(w, step)
    ensures w.console.generation <= Client(w.console, step).generation
  {
    var c := w.console;
    match step
    case DidStart(only) => StartKeepsGeneration(c, only);
    case GotPreview(id, a) => FailKeepsGeneration(c, id, c.tasks[id].value, StatusOf(a));
    case GotPlan(id, a) => PlanKeepsGeneration(c, id, c.tasks[id].value, a);
    case GotReceipt(id, a) => WriteKeepsGeneration(c, id, c.tasks[id].value, a);
    case _ =>
  }

  lemma {:induction false} RunGeneration(worlds: seq<World>, steps: seq<Step>, n: nat, m: nat)
    requires IsRun(worlds, steps) && n <= m < |worlds|
    ensures worlds[n].console.generation <= worlds[m].console.generation
    decreases m
  {
    if n < m {
      RunGeneration(worlds, steps, n, m - 1);
      assert Enabled(worlds[m - 1], steps[m - 1]) && worlds[m] == Next(worlds[m - 1], steps[m - 1]);
      GenerationNeverFalls(worlds[m - 1], steps[m - 1]);
    }
  }

  // A retry from before a clear shows nothing when its reads arrive, however much later.
  lemma StaleRetryChangesNothing(worlds: seq<World>, steps: seq<Step>, n: nat, m: nat)
    requires IsRun(worlds, steps) && n <= m < |steps|
    requires steps[m].DidEndRetry? && steps[m].retry.version < worlds[n].console.generation
    ensures var c := worlds[m].console;
            worlds[m + 1] == worlds[m].(console := c.(retries := c.retries - {steps[m].retry}))
  {
    RunGeneration(worlds, steps, n, m);
    assert Enabled(worlds[m], steps[m]) && worlds[m + 1] == Next(worlds[m], steps[m]);
  }
}

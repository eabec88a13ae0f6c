/** What the operator controls: nothing goes out after a stop or without consent, and no unfinished list is lost unasked. */
module DispatchOperator {
  import opened Outcomes
  import opened RuleDispatch
  import opened DispatchRuns
  import opened DispatchInvariant
  import opened DispatchSteps
  import opened DispatchTheorems

  // ---- stop ----

  // Stopped, or with no attempt running.
  ghost predicate Halted(c: Console) {
    c.stopped || NoneLive(c)
  }

  // Nothing goes out and it stays that way.
  ghost predicate StaysHalted(c: Console, d: Console) {
    Halted(d) && d.outbox == c.outbox
  }

  lemma StoppedBegin(c: Console, plan: nat, version: nat, queue: seq<nat>)
    requires c.stopped && plan < |c.plans| && forall i :: 0 <= i < |queue| ==> queue[i] < |c.plans[plan]|
    ensures BeginRow(c, plan, version, queue).0.stopped && BeginRow(c, plan, version, queue).0.outbox == c.outbox
  {
  }

  lemma StoppedFail(c: Console, id: nat, t: Task, status: Option<int>)
    requires c.stopped && id < |c.tasks| && Grounded(c, t)
    ensures Fail(c, id, t, status).stopped && Fail(c, id, t, status).outbox == c.outbox
  {
    StoppedBegin(WithRow(c, t.plan, t.queue[0], RowOf(c, t).(state := FailedState(t, t.abort in c.aborted, status))), t.plan, t.version, t.queue[1..]);
  }

  lemma StoppedPlan(c: Console, id: nat, t: Task, a: Answer<Plan>)
    requires c.stopped && id < |c.tasks| && Grounded(c, t) && RowOf(c, t).command.preflight.Some?
    ensures ResumePlan(c, id, t, a).stopped && ResumePlan(c, id, t, a).outbox == c.outbox
  {
    StoppedFail(c, id, t, StatusOf(a));
    if a.Body? && PlanMatches(RowOf(c, t).command, a.value) {
      StoppedFail(WithRow(c, t.plan, t.queue[0], RowOf(c, t).(check := a.value.profile)).(
                    trace := c.trace + [Checked(t.abort, t.plan, t.queue[0], a.value.profile.value)]), id, t, None);
    }
  }

  lemma StoppedWrite(c: Console, id: nat, t: Task, a: Answer<Receipt>)
    requires c.stopped && id < |c.tasks| && Grounded(c, t)
    ensures ResumeWrite(c, id, t, a).stopped && ResumeWrite(c, id, t, a).outbox == c.outbox
  {
    StoppedFail(c, id, t, StatusOf(a));
    if a.Body? {
      var row := RowOf(c, t).(state := if a.value.operationId.None? then Unchanged else Accepted, result := Some(a.value));
      StoppedBegin(WithRow(c, t.plan, t.queue[0], row), t.plan, t.version, t.queue[1..]);
    }
  }

  // An answer to nobody only ends its coroutine.
  lemma StaleAnswer(c: Console, d: Console, id: nat)
    requires NoneLive(c) && id < |c.tasks| && d == c.(tasks := c.tasks[id := None])
    ensures NoneLive(d)
  {
    forall i ensures !IsLive(d, i) {
      assert !IsLive(c, i);
    }
  }

  lemma AnswerHalts(w: World, step: Step)
    requires Inv(w.console) && Halted(w.console) && Enabled(w, step) && (step.GotPreview? || step.GotPlan? || step.GotReceipt?)
    ensures StaysHalted(w.console, Client(w.console, step))
  {
    var c := w.console;
    var t := c.tasks[step.id].value;
    if c.stopped {
      match step
      case GotPreview(id, a) => StoppedFail(c, id, t, StatusOf(a));
      case GotPlan(id, a) => StoppedPlan(c, id, t, a);
      case GotReceipt(id, a) => StoppedWrite(c, id, t, a);
    } else {
      assert !IsLive(c, step.id);
      StaleAnswer(c, Client(c, step), step.id);
    }
  }

  // A list can be shown only while no attempt is running.
  lemma ShowHalts(c: Console, d: Console, commands: seq<Command>)
    requires NoneLive(d) && d.outbox == c.outbox
    ensures StaysHalted(c, Show(d, commands))
  {
    forall i ensures !IsLive(Show(d, commands), i) {
      assert !IsLive(d, i);
    }
  }

  lemma RetryHalts(c: Console, retry: Retry, command: Command)
    requires Inv(c) && Halted(c) && retry in c.retries
    ensures StaysHalted(c, EndRetry(c, retry, command))
  {
    var d := c.(retries := c.retries - {retry});
    if retry.version == c.generation {
      IdleConsole(c);
    }
    if NoneLive(c) {
      forall i ensures !IsLive(d, i) {
        assert !IsLive(c, i);
      }
    }
    if retry.version == c.generation && retry.abort !in c.aborted {
      ShowHalts(c, d, [command]);
    }
  }

  lemma ClearHalts(c: Console, confirmed: bool, commands: seq<Command>)
    requires Inv(c) && Halted(c)
    ensures StaysHalted(c, Clear(c)) && StaysHalted(c, Discard(c, confirmed))
    ensures StaysHalted(c, Prepare(c, commands, confirmed)) && StaysHalted(c, BeginRetry(c, confirmed))
  {
    ClearKeeps(c);
    ShowHalts(c, Clear(c), commands);
  }

  lemma StepHalts(w: World, step: Step)
    requires Inv(w.console) && Halted(w.console) && Enabled(w, step) && !step.DidStart?
    ensures StaysHalted(w.console, Client(w.console, step))
  {
    var c := w.console;
    match step
    case DidPrepare(commands, confirmed) => ClearHalts(c, confirmed, commands);
    case DidClose(confirmed) => ClearHalts(c, confirmed, []);
    case DidClear => ClearHalts(c, true, []);
    case DidBeginRetry(confirmed) => ClearHalts(c, confirmed, []);
    case DidEndRetry(retry, command) => RetryHalts(c, retry, command);
    case GotPreview(_, _) => AnswerHalts(w, step);
    case GotPlan(_, _) => AnswerHalts(w, step);
    case GotReceipt(_, _) => AnswerHalts(w, step);
    case SetConsent(checked) =>
      assert forall i :: IsLive(c, i) == IsLive(Client(c, step), i);
    case _ =>
  }

  // After a stop nothing is sent until the operator starts again, whatever arrives or is clicked in between.
  lemma {:induction false} StopIsHonoured(worlds: seq<World>, steps: seq<Step>, n: nat, m: nat)
    requires IsRun(worlds, steps) && n < m < |worlds| && steps[n].DidStop?
    requires forall j :: n < j < m ==> !steps[j].DidStart?
    ensures Halted(worlds[m].console) && worlds[m].console.outbox == worlds[n].console.outbox
    decreases m
  {
    assert Enabled(worlds[m - 1], steps[m - 1]) && worlds[m] == Next(worlds[m - 1], steps[m - 1]);
    if n + 1 < m {
      StopIsHonoured(worlds, steps, n, m - 1);
      RunIsSound(worlds, steps, m - 1);
      StepHalts(worlds[m - 1], steps[m - 1]);
    }
  }

  // ---- consent and confirmation ----

  // A start without consent, during an attempt or without a list does nothing at all.
  lemma StartNeedsConsent(w: World, only: Option<nat>)
    requires Enabled(w, DidStart(only)) && (!w.console.consent || w.console.active || w.console.current.None?)
    ensures Next(w, DidStart(only)) == w
  {
  }

  // An unfinished list leaves the screen only by a clear or with confirmation, and a running one not even then.
  lemma UnfinishedNeedsConfirmation(w: World, step: Step)
    requires Inv(w.console) && Enabled(w, step) && w.console.current.Some? && Client(w.console, step).current != w.console.current
    ensures step.DidClear? || (!w.console.active && (step.DidPrepare? || step.DidClose? || step.DidBeginRetry?))
    ensures !step.DidClear? && Unfinished(w.console) ==> step.confirmed
  {
    var c := w.console;
    match step
    case DidStart(only) => KeepsCurrent(c, only);
    case GotPreview(id, a) => FailKeepsCurrent(c, id, c.tasks[id].value, StatusOf(a));
    case GotPlan(id, a) => PlanKeepsCurrent(c, id, c.tasks[id].value, a);
    case GotReceipt(id, a) => WriteKeepsCurrent(c, id, c.tasks[id].value, a);
    case _ =>
  }

  lemma BeginKeepsCurrent(c: Console, plan: nat, version: nat, queue: seq<nat>)
    requires plan < |c.plans| && forall i :: 0 <= i < |queue| ==> queue[i] < |c.plans[plan]|
    ensures BeginRow(c, plan, version, queue).0.current == c.current
  {
  }

  lemma FailKeepsCurrent(c: Console, id: nat, t: Task, status: Option<int>)
    requires id < |c.tasks| && Grounded(c, t)
    ensures Fail(c, id, t, status).current == c.current
  {
    BeginKeepsCurrent(WithRow(c, t.plan, t.queue[0], RowOf(c, t).(state := FailedState(t, t.abort in c.aborted, status))), t.plan, t.version, t.queue[1..]);
  }

  lemma PlanKeepsCurrent(c: Console, id: nat, t: Task, a: Answer<Plan>)
    requires id < |c.tasks| && Grounded(c, t) && RowOf(c, t).command.preflight.Some?
    ensures ResumePlan(c, id, t, a).current == c.current
  {
    FailKeepsCurrent(c, id, t, StatusOf(a));
    if a.Body? && PlanMatches(RowOf(c, t).command, a.value) {
      FailKeepsCurrent(WithRow(c, t.plan, t.queue[0], RowOf(c, t).(check := a.value.profile)).(
                         trace := c.trace + [Checked(t.abort, t.plan, t.queue[0], a.value.profile.value)]), id, t, None);
    }
  }

  lemma WriteKeepsCurrent(c: Console, id: nat, t: Task, a: Answer<Receipt>)
    requires id < |c.tasks| && Grounded(c, t)
    ensures ResumeWrite(c, id, t, a).current == c.current
  {
    FailKeepsCurrent(c, id, t, StatusOf(a));
    if a.Body? {
      var row := RowOf(c, t).(state := if a.value.operationId.None? then Unchanged else Accepted, result := Some(a.value));
      BeginKeepsCurrent(WithRow(c, t.plan, t.queue[0], row), t.plan, t.version, t.queue[1..]);
    }
  }

  lemma KeepsCurrent(c: Console, only: Option<nat>)
    requires CurrentExists(c)
    ensures Start(c, only).current == c.current
  {
    if c.current.Some? {
      var d := c.(active := true, stopped := false, tasks := c.tasks + [None]);
      var rows := c.plans[c.current.value];
      BeginKeepsCurrent(d, c.current.value, c.generation, PendingFrom(rows, 0));
      if only.Some? && only.value < |rows| {
        BeginKeepsCurrent(d, c.current.value, c.generation, [only.value]);
      }
    }
  }
}

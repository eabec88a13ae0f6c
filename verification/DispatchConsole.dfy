/**
 The console as the closure it is: mutable state, updated step by step between awaits.

 The object carries the run it has made so far: every handler is one step of that run, so whatever holds of all runs
 holds of the object at any moment.
 */
module DispatchConsole {
  import opened Outcomes
  import opened RuleDispatch
  import opened DispatchRuns
  import opened DispatchInvariant
  import opened DispatchTheorems
  import Lb = DispatchLabels

  lemma RunGrows(run: seq<World>, moves: seq<Step>, step: Step)
    requires IsRun(run, moves) && Enabled(run[|moves|], step)
    ensures IsRun(run + [Next(run[|moves|], step)], moves + [step])
  {
    var (worlds, steps) := (run + [Next(run[|moves|], step)], moves + [step]);
    forall i {:trigger steps[i]} | 0 <= i < |steps|
      ensures Enabled(worlds[i], steps[i]) && worlds[i + 1] == Next(worlds[i], steps[i])
    {
      if i < |moves| {
        assert steps[i] == moves[i];
      }
    }
  }

  class RuleConsole {
    var plans: seq<seq<Row>>
    var current: Option<nat>
    var active: bool
    var stopped: bool
    var generation: nat
    var controller: Option<nat>
    var aborts: nat
    var aborted: set<nat>
    var consent: bool
    var tasks: seq<Option<Task>>
    var retries: set<Retry>
    var outbox: seq<Outgoing>
    var trace: seq<Event>
    ghost var run: seq<World>
    ghost var moves: seq<Step>

    // The object is at the end of a run.
    ghost predicate Valid()
      reads this
    {
      IsRun(run, moves) && run[|moves|].console == Value()
    }

    // The world the object lives in: what it sent, and what became of it.
    ghost function Now(): World
      reads this
      requires |run| == |moves| + 1
    {
      run[|moves|]
    }

    ghost method Record(step: Step)
      requires Valid() && Enabled(Now(), step)
      modifies this`run, this`moves
      ensures IsRun(run, moves) && Now() == Next(old(Now()), step)
    {
      RunGrows(run, moves, step);
      run, moves := run + [Next(run[|moves|], step)], moves + [step];
    }

    function Value(): Console
      reads this
    {
      Console(plans, current, active, stopped, generation, controller, aborts, aborted, consent, tasks, retries, outbox, trace)
    }

    constructor ()
      ensures Valid() && Now() == World(Console([], None, false, false, 0, None, 0, {}, false, [], {}, [], []), [], [])
    {
      plans, current, active, stopped, generation := [], None, false, false, 0;
      controller, aborts, aborted, consent := None, 0, {}, false;
      tasks, retries, outbox, trace := [], {}, [], [];
      run, moves := [World(Console([], None, false, false, 0, None, 0, {}, false, [], {}, [], []), [], [])], [];
    }

    method SetRow(p: nat, r: nat, row: Row)
      requires p < |plans| && r < |plans[p]|
      modifies this`plans
      ensures Value() == WithRow(old(Value()), p, r, row)
    {
      plans := plans[p := plans[p][r := row]];
    }

    method FinishDispatch(plan: nat, version: nat)
      modifies this`active, this`controller, this`consent
      ensures Value() == Finish(old(Value()), plan, version)
    {
      if version == generation && current == Some(plan) {
        active := false;
        controller := None;
        consent := false;
      }
    }

    method SendRow(t: Task) returns (parked: Task)
      requires Grounded(Value(), t)
      modifies this`plans, this`outbox, this`trace
      ensures (Value(), parked) == Send(old(Value()), t)
    {
      var row := plans[t.plan][t.queue[0]];
      SetRow(t.plan, t.queue[0], row.(state := Sending));
      parked := t.(pc := AwaitWrite(|outbox|));
      trace := trace + [Wrote(t.abort, |outbox|)];
      outbox := outbox + [Outgoing(t.plan, t.queue[0], t.abort, row.command.verb, row.command.resource, row.command.body, row.command.key)];
    }

    method BeginNext(plan: nat, version: nat, queue: seq<nat>) returns (parked: Option<Task>)
      requires plan < |plans| && forall i :: 0 <= i < |queue| ==> queue[i] < |plans[plan]|
      modifies this`plans, this`active, this`controller, this`consent, this`aborts, this`outbox, this`trace
      ensures (Value(), parked) == BeginRow(old(Value()), plan, version, queue)
    {
      if queue == [] || stopped || version != generation {
        FinishDispatch(plan, version);
        return None;
      }
      var row := plans[plan][queue[0]];
      var replay := row.state.Uncertain?;
      var abort := aborts;
      aborts := aborts + 1;
      controller := Some(abort);
      if row.command.preflight.Some? && !replay {
        SetRow(plan, queue[0], row.(state := Checking, check := None));
        return Some(Task(plan, version, queue, replay, abort, if row.command.pathTarget.Some? then AwaitPreview else AwaitPlan));
      }
      var t := SendRow(Task(plan, version, queue, replay, abort, AwaitPlan));
      return Some(t);
    }

    method Continue(id: nat, t: Task)
      requires id < |tasks| && Grounded(Value(), t)
      modifies this`plans, this`active, this`controller, this`consent, this`aborts, this`outbox, this`trace, this`tasks
      ensures Value() == NextRow(old(Value()), id, t)
    {
      var parked := BeginNext(t.plan, t.version, t.queue[1..]);
      tasks := tasks[id := parked];
    }

    method Catch(id: nat, t: Task, status: Option<int>)
      requires id < |tasks| && Grounded(Value(), t)
      modifies this`plans, this`active, this`controller, this`consent, this`aborts, this`outbox, this`trace, this`tasks
      ensures Value() == Fail(old(Value()), id, t, status)
    {
      var state := FailedState(t, t.abort in aborted, status);
      SetRow(t.plan, t.queue[0], plans[t.plan][t.queue[0]].(state := state));
      if state.Uncertain? || state.PreflightFailed? {
        FinishDispatch(t.plan, t.version);
        tasks := tasks[id := None];
      } else {
        Continue(id, t);
      }
    }

    // ---- answers ----

    method GotPreview(id: nat, a: Answer<Preview>)
      requires Valid() && Enabled(Now(), Step.GotPreview(id, a))
      modifies this
      ensures Valid() && Now() == Next(old(Now()), Step.GotPreview(id, a))
    {
      Record(Step.GotPreview(id, a));
      AfterPreview(id, tasks[id].value, a);
    }

    method AfterPreview(id: nat, t: Task, a: Answer<Preview>)
      requires id < |tasks| && Grounded(Value(), t) && RowOf(Value(), t).command.pathTarget.Some?
      modifies this`plans, this`active, this`controller, this`consent, this`aborts, this`outbox, this`trace, this`tasks
      ensures Value() == ResumePreview(old(Value()), id, t, a)
    {
      if t.version != generation || current != Some(t.plan) {
        tasks := tasks[id := None];
      } else if a.Body? && t.abort !in aborted && !stopped && PreviewMatches(plans[t.plan][t.queue[0]].command, a.value) {
        trace := trace + [Previewed(t.abort, t.plan, t.queue[0])];
        tasks := tasks[id := Some(t.(pc := AwaitPlan))];
      } else {
        Catch(id, t, StatusOf(a));
      }
    }

    method GotPlan(id: nat, a: Answer<Plan>)
      requires Valid() && Enabled(Now(), Step.GotPlan(id, a))
      modifies this
      ensures Valid() && Now() == Next(old(Now()), Step.GotPlan(id, a))
    {
      Record(Step.GotPlan(id, a));
      AfterPlan(id, tasks[id].value, a);
    }

    method AfterPlan(id: nat, t: Task, a: Answer<Plan>)
      requires id < |tasks| && Grounded(Value(), t) && RowOf(Value(), t).command.preflight.Some?
      modifies this`plans, this`active, this`controller, this`consent, this`aborts, this`outbox, this`trace, this`tasks
      ensures Value() == ResumePlan(old(Value()), id, t, a)
    {
      var row := plans[t.plan][t.queue[0]];
      if t.version != generation || current != Some(t.plan) {
        tasks := tasks[id := None];
      } else if !a.Body? || t.abort in aborted || !PlanMatches(row.command, a.value) {
        Catch(id, t, StatusOf(a));
      } else {
        SetRow(t.plan, t.queue[0], row.(check := a.value.profile));
        trace := trace + [Checked(t.abort, t.plan, t.queue[0], a.value.profile.value)];
        if stopped {
          Catch(id, t, None);
        } else {
          var parked := SendRow(t);
          tasks := tasks[id := Some(parked)];
        }
      }
    }

    method GotReceipt(id: nat, a: Answer<Receipt>)
      requires Valid() && Enabled(Now(), Step.GotReceipt(id, a))
      modifies this
      ensures Valid() && Now() == Next(old(Now()), Step.GotReceipt(id, a))
    {
      Record(Step.GotReceipt(id, a));
      AfterWrite(id, tasks[id].value, a);
    }

    method AfterWrite(id: nat, t: Task, a: Answer<Receipt>)
      requires id < |tasks| && Grounded(Value(), t)
      modifies this`plans, this`active, this`controller, this`consent, this`aborts, this`outbox, this`trace, this`tasks
      ensures Value() == ResumeWrite(old(Value()), id, t, a)
    {
      var row := plans[t.plan][t.queue[0]];
      if t.version != generation || current != Some(t.plan) {
        tasks := tasks[id := None];
      } else if a.Body? && t.abort !in aborted && Recognized(row.command, a.value) {
        SetRow(t.plan, t.queue[0], row.(state := if a.value.operationId.None? then Unchanged else Accepted, result := Some(a.value)));
        Continue(id, t);
      } else {
        Catch(id, t, StatusOf(a));
      }
    }

    // ---- the operator ----

    method Dispatch(only: Option<nat>)
      requires Valid() && Enabled(Now(), DidStart(only))
      modifies this
      ensures Valid() && Now() == Next(old(Now()), DidStart(only))
    {
      Record(DidStart(only));
      if active || current.None? || !consent {
        return;
      }
      var rows := plans[current.value];
      if only.Some? {
        if only.value >= |rows| || !Blocked(rows[only.value].state) {
          return;
        }
      } else if exists i :: 0 <= i < |rows| && Blocked(rows[i].state) {
        return;
      }
      var queue := if only.Some? then [only.value] else PendingFrom(rows, 0);
      if queue == [] {
        return;
      }
      Launch(queue);
    }

    // A new coroutine runs to its first await.
    method Launch(queue: seq<nat>)
      requires current.Some? && current.value < |plans| && forall i :: 0 <= i < |queue| ==> queue[i] < |plans[current.value]|
      modifies this`stopped, this`plans, this`active, this`controller, this`consent, this`aborts, this`outbox, this`trace, this`tasks
      ensures var c := old(Value());
              Value() == Park(BeginRow(c.(active := true, stopped := false, tasks := c.tasks + [None]), c.current.value, c.generation, queue), |c.tasks|)
    {
      active, stopped, tasks := true, false, tasks + [None];
      var parked := BeginNext(current.value, generation, queue);
      tasks := tasks[|tasks| - 1 := parked];
    }

    method Consent(checked: bool)
      requires Valid() && Enabled(Now(), SetConsent(checked))
      modifies this
      ensures Valid() && Now() == Next(old(Now()), SetConsent(checked))
    {
      Record(SetConsent(checked));
      consent := checked;
    }

    method Abort()
      modifies this`stopped, this`aborted
      ensures Value() == Stop(old(Value()))
    {
      stopped := true;
      if controller.Some? {
        aborted := aborted + {controller.value};
      }
    }

    method StopDispatch()
      requires Valid() && Enabled(Now(), DidStop)
      modifies this
      ensures Valid() && Now() == Next(old(Now()), DidStop)
    {
      Record(DidStop);
      Abort();
    }

    method Forget()
      modifies this`generation, this`stopped, this`aborted, this`current, this`active, this`controller, this`consent
      ensures Value() == Clear(old(Value()))
    {
      generation := generation + 1;
      Abort();
      current, active, controller, consent := None, false, None, false;
    }

    method ClearAll()
      requires Valid() && Enabled(Now(), DidClear)
      modifies this
      ensures Valid() && Now() == Next(old(Now()), DidClear)
    {
      Record(DidClear);
      Forget();
    }

    method ShowRows(commands: seq<Command>)
      modifies this`plans, this`current, this`stopped, this`consent
      ensures Value() == Show(old(Value()), commands)
    {
      current := Some(|plans|);
      plans := plans + [Fresh(commands)];
      stopped, consent := false, false;
    }

    method Drop(confirmed: bool) returns (discarded: bool)
      requires current.Some? ==> current.value < |plans|
      modifies this`generation, this`stopped, this`aborted, this`current, this`active, this`controller, this`consent
      ensures discarded == MayDiscard(old(Value()), confirmed) && Value() == Discard(old(Value()), confirmed)
    {
      if active {
        return false;
      }
      if current.Some? {
        var rows := plans[current.value];
        if !confirmed && exists i :: 0 <= i < |rows| && (rows[i].state.Pending? || Blocked(rows[i].state)) {
          return false;
        }
      }
      Forget();
      return true;
    }

    method Close(confirmed: bool)
      requires Valid() && Enabled(Now(), DidClose(confirmed))
      modifies this
      ensures Valid() && Now() == Next(old(Now()), DidClose(confirmed))
    {
      Record(DidClose(confirmed));
      var _ := Drop(confirmed);
    }

    method PrepareRows(commands: seq<Command>, confirmed: bool)
      requires Valid() && Enabled(Now(), DidPrepare(commands, confirmed))
      modifies this
      ensures Valid() && Now() == Next(old(Now()), DidPrepare(commands, confirmed))
    {
      Record(DidPrepare(commands, confirmed));
      var discarded := Drop(confirmed);
      if discarded {
        ShowRows(commands);
      }
    }

    method RetryOperation(confirmed: bool)
      requires Valid() && Enabled(Now(), DidBeginRetry(confirmed))
      modifies this
      ensures Valid() && Now() == Next(old(Now()), DidBeginRetry(confirmed))
    {
      Record(DidBeginRetry(confirmed));
      var discarded := Drop(confirmed);
      if discarded {
        retries, controller, aborts := retries + {Retry(generation, aborts)}, Some(aborts), aborts + 1;
      }
    }

    method RetryRead(retry: Retry, command: Command)
      requires Valid() && Enabled(Now(), DidEndRetry(retry, command))
      modifies this
      ensures Valid() && Now() == Next(old(Now()), DidEndRetry(retry, command))
    {
      Record(DidEndRetry(retry, command));
      retries := retries - {retry};
      if retry.version == generation && retry.abort !in aborted {
        ShowRows([command]);
      }
    }

    // ---- the server ----

    // The server makes up its mind about a request, whether or not anybody still waits for it.
    ghost method Decide(step: Step)
      requires Valid() && Enabled(Now(), step) && (step.Commit? || step.Refuse?)
      modifies this`run, this`moves
      ensures Valid() && Now() == Next(old(Now()), step)
    {
      Record(step);
    }

    // ---- what the object may rely on ----

    // At any moment the labels on screen are true of the server, the plans have their shape and the invariant holds.
    lemma Trusted(p: nat, r: nat)
      requires Valid() && p < |plans| && r < |plans[p]|
      ensures Inv(Value()) && (exists j :: SplitsAt(plans[p], j))
      ensures var row := plans[p][r];
              && (row.state.Pending? || row.state.Checking? || row.state.PreflightFailed? ==>
                    forall q :: 0 <= q < |outbox| ==> outbox[q].key != row.command.key)
              && (row.state.Rejected? ==> !KeyCommitted(Now(), row.command.key))
              && (row.state.Accepted? || row.state.Unchanged? ==> KeyCommitted(Now(), row.command.key))
    {
      RunIsSound(run, moves, |moves|);
      PlansKeepTheirShape(run, moves, |moves|, p);
      assert Lb.InRange(run[|moves|].console, p, r);
      LabelsAreSound(run, moves, |moves|, p, r);
    }
  }
}

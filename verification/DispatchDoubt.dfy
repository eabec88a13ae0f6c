/** An uncertain command stays open: it may turn out accepted, never rejected. */
module DispatchDoubt {
  import opened Outcomes
  import opened RuleDispatch
  import opened DispatchRuns
  import opened DispatchInvariant
  import opened DispatchSteps
  import opened DispatchLabels
  import opened DispatchTheorems

  predicate Owns(t: Task, p: nat, r: nat) {
    t.plan == p && t.queue != [] && t.queue[0] == r
  }

  // Somebody once could not tell whether this row was committed.
  ghost predicate Doubtful(c: Console, p: nat, r: nat)
    requires InRange(c, p, r)
  {
    match c.plans[p][r].state
    case Uncertain => true
    case Accepted => true
    case Unchanged => true
    case Sending => forall id :: IsLive(c, id) && Owns(c.tasks[id].value, p, r) ==> c.tasks[id].value.replay
    case _ => false
  }

  // The task running after a step either ran before, on the same row in the same mode, or has just
  // picked up a row that was not in flight, as a replay exactly if that row was uncertain.
  ghost predicate Moved(c: Console, d: Console, id: nat)
    requires IsLive(d, id)
  {
    var u := d.tasks[id].value;
    && u.queue != []
    && (|| (IsLive(c, id) && Owns(c.tasks[id].value, u.plan, u.queue[0]) && c.tasks[id].value.replay == u.replay)
        || (InRange(c, u.plan, u.queue[0]) && u.replay == c.plans[u.plan][u.queue[0]].state.Uncertain?
            && !InFlightState(c.plans[u.plan][u.queue[0]].state)))
  }

  ghost predicate TasksMoved(c: Console, d: Console) {
    forall id :: IsLive(d, id) ==> Moved(c, d, id)
  }

  lemma SameTasks(c: Console, d: Console)
    requires TasksOk(c) && (d.generation != c.generation || d.tasks == c.tasks)
    requires forall i :: 0 <= i < |d.tasks| && d.tasks[i].Some? ==> d.tasks[i].value.version < d.generation || (d.tasks == c.tasks && d.generation == c.generation)
    ensures TasksMoved(c, d)
  {
    forall id | IsLive(d, id)
      ensures Moved(c, d, id)
    {
      assert IsLive(c, id) && TaskOk(c, c.tasks[id].value);
    }
  }

  // Everyone but task `id` is left alone, and `id` satisfies the rule.
  lemma OneTask(c: Console, d: Console, id: nat)
    requires TasksOk(c) && d.generation == c.generation && id < |d.tasks|
    requires |c.tasks| <= |d.tasks|
    requires forall i :: 0 <= i < |d.tasks| && i != id ==> d.tasks[i] == if i < |c.tasks| then c.tasks[i] else None
    requires IsLive(d, id) ==> Moved(c, d, id)
    ensures TasksMoved(c, d)
  {
    forall i | IsLive(d, i)
      ensures Moved(c, d, i)
    {
      if i != id {
        assert IsLive(c, i) && TaskOk(c, c.tasks[i].value);
      }
    }
  }

  // BeginRow on `b`, whose next row reads as it did in `c`.
  lemma BeginMoves(c: Console, b: Console, id: nat, plan: nat, version: nat, queue: seq<nat>)
    requires TasksOk(c) && b.generation == c.generation && id < |b.tasks| && plan < |b.plans|
    requires forall i :: 0 <= i < |queue| ==> queue[i] < |b.plans[plan]|
    requires |c.tasks| <= |b.tasks|
    requires forall i :: 0 <= i < |b.tasks| && i != id ==> b.tasks[i] == if i < |c.tasks| then c.tasks[i] else None
    requires queue != [] ==> InRange(c, plan, queue[0]) && b.plans[plan][queue[0]].state == c.plans[plan][queue[0]].state
                             && !InFlightState(c.plans[plan][queue[0]].state)
    ensures TasksMoved(c, Park(BeginRow(b, plan, version, queue), id))
  {
    OneTask(c, Park(BeginRow(b, plan, version, queue), id), id);
  }

  lemma NextMoves(c: Console, b: Console, id: nat, t: Task, row: Row)
    requires Inv(c) && IsLive(c, id) && c.tasks[id] == Some(t) && Grounded(c, t)
    requires Grounded(b, t) && b.generation == c.generation && b.tasks == c.tasks
    requires |b.plans[t.plan]| == |c.plans[t.plan]|
    requires forall v :: 0 <= v < |c.plans[t.plan]| && v != t.queue[0] ==> b.plans[t.plan][v] == c.plans[t.plan][v]
    ensures TasksMoved(c, NextRow(WithRow(b, t.plan, t.queue[0], row), id, t))
  {
    assert TaskOk(c, t) && Running(c, t) && Shaped(c.plans[t.plan]);
    if |t.queue| > 1 {
      assert t.queue[1] == t.queue[0] + 1;
      assert c.plans[t.plan][t.queue[1]].state.Pending?;
    }
    BeginMoves(c, WithRow(b, t.plan, t.queue[0], row), id, t.plan, t.version, t.queue[1..]);
  }

  lemma FailMoves(c: Console, b: Console, id: nat, t: Task, status: Option<int>)
    requires Inv(c) && IsLive(c, id) && c.tasks[id] == Some(t) && Grounded(c, t)
    requires Grounded(b, t) && b.generation == c.generation && b.tasks == c.tasks
    requires |b.plans[t.plan]| == |c.plans[t.plan]|
    requires forall v :: 0 <= v < |c.plans[t.plan]| && v != t.queue[0] ==> b.plans[t.plan][v] == c.plans[t.plan][v]
    ensures TasksMoved(c, Fail(b, id, t, status))
  {
    var state := FailedState(t, t.abort in b.aborted, status);
    if Blocked(state) {
      OneTask(c, Fail(b, id, t, status), id);
    } else {
      NextMoves(c, b, id, t, RowOf(b, t).(state := state));
    }
  }

  lemma ResumeMoves(w: World, step: Step)
    requires Inv(w.console) && Enabled(w, step) && (step.GotPreview? || step.GotReceipt?)
    ensures TasksMoved(w.console, Client(w.console, step))
  {
    var (c, id) := (w.console, step.id);
    var t := c.tasks[id].value;
    var d := Client(c, step);
    assert TaskOk(c, t);
    if !Live(c, t) {
      OneTask(c, d, id);
    } else if step.GotPreview? {
      if step.preview.Body? && t.abort !in c.aborted && !c.stopped && PreviewMatches(RowOf(c, t).command, step.preview.value) {
        OneTask(c, d, id);
      } else {
        FailMoves(c, c, id, t, StatusOf(step.preview));
      }
    } else if step.receipt.Body? && t.abort !in c.aborted && Recognized(RowOf(c, t).command, step.receipt.value) {
      NextMoves(c, c, id, t, RowOf(c, t).(state := if step.receipt.value.operationId.None? then Unchanged else Accepted, result := Some(step.receipt.value)));
    } else {
      FailMoves(c, c, id, t, StatusOf(step.receipt));
    }
  }

  lemma PlanMoves(w: World, id: nat, a: Answer<Plan>)
    requires Inv(w.console) && Enabled(w, GotPlan(id, a))
    ensures TasksMoved(w.console, Client(w.console, GotPlan(id, a)))
  {
    var c := w.console;
    var t := c.tasks[id].value;
    var d := Client(c, GotPlan(id, a));
    assert TaskOk(c, t);
    if !Live(c, t) {
      OneTask(c, d, id);
    } else if !(a.Body? && t.abort !in c.aborted && PlanMatches(RowOf(c, t).command, a.value)) {
      FailMoves(c, c, id, t, StatusOf(a));
    } else if c.stopped {
      var checked := WithRow(c, t.plan, t.queue[0], RowOf(c, t).(check := a.value.profile)).(
        trace := c.trace + [Checked(t.abort, t.plan, t.queue[0], a.value.profile.value)]);
      FailMoves(c, checked, id, t, None);
    } else {
      OneTask(c, d, id);
    }
  }

  lemma StartMoves(c: Console, only: Option<nat>)
    requires Inv(c)
    ensures TasksMoved(c, Start(c, only))
  {
    var d := Start(c, only);
    if d == c {
      SameTasks(c, d);
    } else {
      var rows := c.plans[c.current.value];
      assert Settled(rows);
      var queue := if only.Some? then [only.value] else PendingFrom(rows, 0);
      var b := c.(active := true, stopped := false, tasks := c.tasks + [None]);
      BeginMoves(c, b, |c.tasks|, c.current.value, c.generation, queue);
    }
  }

  lemma StepMoves(w: World, step: Step)
    requires Inv(w.console) && Enabled(w, step)
    ensures TasksMoved(w.console, Client(w.console, step))
  {
    var c := w.console;
    match step
    case GotPreview(_, _) => ResumeMoves(w, step);
    case GotReceipt(_, _) => ResumeMoves(w, step);
    case GotPlan(id, a) => PlanMoves(w, id, a);
    case DidStart(only) => StartMoves(c, only);
    case _ =>
      assert forall i :: 0 <= i < |c.tasks| && c.tasks[i].Some? ==> TaskOk(c, c.tasks[i].value);
      SameTasks(c, Client(c, step));
  }

  lemma DoubtPersists(w: World, c: Console, d: Console, v: Option<Verdict>, step: Step, id: nat, p: nat, r: nat)
    requires Inv(c) && w.console == c && Effect(c, d, v) && TasksMoved(c, d) && (v.Some? ==> Reached(w, step, id, v.value))
    requires InRange(c, p, r) && Doubtful(c, p, r)
    ensures InRange(d, p, r) && Doubtful(d, p, r)
  {
    var (before, after) := (c.plans[p][r].state, d.plans[p][r].state);
    if after.Sending? {
      forall i | IsLive(d, i) && Owns(d.tasks[i].value, p, r)
        ensures d.tasks[i].value.replay
      {
        assert Moved(c, d, i);
        if IsLive(c, i) {
          assert TaskOk(c, c.tasks[i].value);
        }
      }
    } else if after != before && v == Some(Verdict(p, r, after)) {
      assert IsLive(c, id) && TaskOk(c, c.tasks[id].value) && Running(c, c.tasks[id].value);
      assert Owns(c.tasks[id].value, p, r);
    }
  }

  lemma RunDoubt(worlds: seq<World>, steps: seq<Step>, n: nat, p: nat, r: nat)
    requires IsRun(worlds, steps) && n < |steps| && InRange(worlds[n].console, p, r) && Doubtful(worlds[n].console, p, r)
    ensures InRange(worlds[n + 1].console, p, r) && Doubtful(worlds[n + 1].console, p, r)
  {
    RunIsSound(worlds, steps, n);
    StepMoves(worlds[n], steps[n]);
    var v, id := StepEffect(worlds[n], steps[n]);
    DoubtPersists(worlds[n], worlds[n].console, worlds[n + 1].console, v, steps[n], id, p, r);
  }

  // Once a row has read uncertain, it never reads rejected, in any continuation of any run.
  lemma {:induction false} UncertainIsNeverRejected(worlds: seq<World>, steps: seq<Step>, n: nat, m: nat, p: nat, r: nat)
    requires IsRun(worlds, steps) && n <= m < |worlds| && InRange(worlds[n].console, p, r)
    requires worlds[n].console.plans[p][r].state.Uncertain?
    ensures InRange(worlds[m].console, p, r) && Doubtful(worlds[m].console, p, r)
    ensures var state := worlds[m].console.plans[p][r].state;
            state.Uncertain? || state.Sending? || state.Accepted? || state.Unchanged?
    decreases m
  {
    if n < m {
      UncertainIsNeverRejected(worlds, steps, n, m - 1, p, r);
      RunDoubt(worlds, steps, m - 1, p, r);
    }
  }
}

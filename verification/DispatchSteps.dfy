/** Each client step keeps the dispatcher's invariant. */
module DispatchSteps {
  import opened Outcomes
  import opened RuleDispatch
  import opened DispatchRuns
  import opened DispatchInvariant

  // Between two rows: a dispatch is active, its task is in nobody's hands, and its next row is `queue[0]`.
  ghost predicate Handing(c: Console, plan: nat, queue: seq<nat>) {
    && Base(c) && NoneLive(c) && c.active && c.current == Some(plan)
    && Consecutive(queue)
    && (forall i :: 0 <= i < |queue| ==> queue[i] < |c.plans[plan]|)
    && (queue != [] ==>
          && !Terminal(c.plans[plan][queue[0]].state)
          && forall i :: 0 <= i < queue[0] ==> Terminal(c.plans[plan][i].state))
  }

  // Only rows, logs, the controller and one parked task may differ; nobody else's task is touched.
  ghost predicate Around(c: Console, d: Console, id: nat) {
    && Extends(c, d) && |d.plans| == |c.plans| && d.generation == c.generation
    && d.retries == c.retries
    && id < |c.tasks| == |d.tasks| && (forall i :: 0 <= i < |c.tasks| && i != id ==> d.tasks[i] == c.tasks[i])
  }

  // Parking one running task where none is running.
  lemma ParkOk(c: Console, d: Console, id: nat)
    requires TasksOk(c) && NoneLive(c) && Around(c, d, id)
    requires d.tasks[id].Some? ==> TaskOk(d, d.tasks[id].value) && d.tasks[id].value.version == d.generation && Running(d, d.tasks[id].value)
    ensures TasksOk(d) && SoleTask(d)
    ensures d.tasks[id].Some? ==> IsLive(d, id)
    ensures d.tasks[id].None? ==> NoneLive(d)
  {
    forall i | 0 <= i < |d.tasks| && d.tasks[i].Some?
      ensures TaskOk(d, d.tasks[i].value) && (d.tasks[i].value.version == d.generation ==> Running(d, d.tasks[i].value))
    {
      if i != id {
        assert !IsLive(c, i);
        TaskFrame(c, d, c.tasks[i].value);
      }
    }
    forall i | 0 <= i < |d.tasks| && i != id
      ensures !IsLive(d, i)
    {
      assert !IsLive(c, i);
    }
  }

  // Appending one write for row (p, r) changes the tally of no other row.
  lemma TallySend(c: Console, d: Console, p: nat, r: nat, o: Outgoing)
    requires Tally(c) && Extends(c, d) && |d.plans| == |c.plans| && p < |d.plans| && r < |d.plans[p]|
    requires d.outbox == c.outbox + [o] && Same(o, p, r) && d.plans[p][r].state.Sending?
    requires forall u, v :: 0 <= u < |d.plans| && 0 <= v < |d.plans[u]| && (u != p || v != r) ==> d.plans[u][v] == c.plans[u][v]
    ensures Tally(d)
  {
    forall u, v | 0 <= u < |d.plans| && 0 <= v < |d.plans[u]|
      ensures Tallied(d, u, v)
    {
      if u == p && v == r {
        assert Same(d.outbox[|c.outbox|], p, r);
      } else {
        assert SameCommands(c.plans[u], d.plans[u]);
        assert Tallied(c, u, v);
        if HasWrite(c, u, v) {
          var k :| 0 <= k < |c.outbox| && Same(c.outbox[k], u, v);
          assert Same(d.outbox[k], u, v);
        }
      }
    }
  }

  lemma TallyQuiet(c: Console, d: Console, p: nat, r: nat)
    requires Tally(c) && |d.plans| == |c.plans| && d.outbox == c.outbox && p < |c.plans| && r < |c.plans[p]|
    requires forall u :: 0 <= u < |c.plans| ==> |d.plans[u]| == |c.plans[u]|
    requires forall u, v :: 0 <= u < |d.plans| && 0 <= v < |d.plans[u]| && (u != p || v != r) ==> d.plans[u][v] == c.plans[u][v]
    requires Tallied(d, p, r)
    ensures Tally(d)
  {
    forall u, v | 0 <= u < |d.plans| && 0 <= v < |d.plans[u]|
      ensures Tallied(d, u, v)
    {
      if u != p || v != r {
        assert Tallied(c, u, v);
      }
    }
  }

  // A write just appended at the end of both logs, its check right before it.
  lemma TraceSend(c: Console, d: Console, o: Outgoing)
    requires AllCarry(c) && TraceOk(c) && Extends(c, d)
    requires d.outbox == c.outbox + [o] && d.trace == c.trace + [Wrote(o.attempt, |c.outbox|)] && Carries(d, o)
    requires var m := d.plans[o.plan][o.row].command;
             || m.preflight.None? || HasWrite(c, o.plan, o.row)
             || (&& c.trace != [] && c.trace[|c.trace| - 1] == Checked(o.attempt, o.plan, o.row, m.preflight.value)
                 && (m.pathTarget.Some? ==> Previewed(o.attempt, o.plan, o.row) in c.trace[..|c.trace| - 1]))
    ensures AllCarry(d) && TraceOk(d)
  {
    forall q | 0 <= q < |d.outbox|
      ensures Carries(d, d.outbox[q])
    {
      if q < |c.outbox| {
        CarryFrame(c, d, q);
      }
    }
    forall q | 0 <= q < |d.outbox| && First(d, q) && d.plans[d.outbox[q].plan][d.outbox[q].row].command.preflight.Some?
      ensures CheckedFirst(d, q)
    {
      if q < |c.outbox| {
        assert First(c, q);
        assert Carries(c, c.outbox[q]);
        assert SameCommands(c.plans[c.outbox[q].plan], d.plans[c.outbox[q].plan]);
        CheckedFrame(c, d, q);
      } else {
        assert !HasWrite(c, o.plan, o.row);
        var n := |c.trace|;
        assert d.trace[n] == Wrote(o.attempt, q) && d.trace[n - 1] == c.trace[n - 1];
        assert d.trace[..n - 1] == c.trace[..n - 1];
      }
    }
  }

  // Sending the row in hand.
  lemma SendKeeps(c: Console, id: nat, t: Task)
    requires Handing(c, t.plan, t.queue) && t.queue != [] && t.version == c.generation && id < |c.tasks|
    requires if t.replay then HasWrite(c, t.plan, t.queue[0]) else NoWrite(c, t.plan, t.queue[0])
    requires var m := c.plans[t.plan][t.queue[0]].command;
             || m.preflight.None? || t.replay
             || (&& c.trace != [] && c.trace[|c.trace| - 1] == Checked(t.abort, t.plan, t.queue[0], m.preflight.value)
                 && (m.pathTarget.Some? ==> Previewed(t.abort, t.plan, t.queue[0]) in c.trace[..|c.trace| - 1]))
    ensures var (sent, parked) := Send(c, t);
            Inv(Park((sent, Some(parked)), id)) && Around(c, Park((sent, Some(parked)), id), id)
  {
    var (sent, parked) := Send(c, t);
    var d := Park((sent, Some(parked)), id);
    var (p, r) := (t.plan, t.queue[0]);
    assert Shaped(c.plans[p]);
    RowFrame(c, p, r, c.plans[p][r].(state := Sending));
    assert Extends(c, d) by {
      forall u | 0 <= u < |c.plans|
        ensures SameCommands(c.plans[u], d.plans[u])
      {
      }
    }
    ShapeFrame(c, p, r, c.plans[p][r].(state := Sending));
    assert AllShaped(d);
    var o := d.outbox[|c.outbox|];
    TraceSend(c, d, o);
    TallySend(c, d, p, r, o);
    KeysFrame(c, d);
    assert OnlyWrite(d, p, r, |c.outbox|) || t.replay;
    ParkOk(c, d, id);
    assert IsLive(d, id);
  }

  // Starting the fresh check of the row in hand.
  lemma CheckKeeps(c: Console, d: Console, id: nat, t: Task)
    requires Handing(c, t.plan, t.queue) && t.queue != [] && t.version == c.generation && id < |c.tasks|
    requires !t.replay && NoWrite(c, t.plan, t.queue[0])
    requires var m := c.plans[t.plan][t.queue[0]].command;
             m.preflight.Some? && t.pc == if m.pathTarget.Some? then AwaitPreview else AwaitPlan
    requires var row := c.plans[t.plan][t.queue[0]];
             d == Park((WithRow(c, t.plan, t.queue[0], row.(state := Checking, check := None)), Some(t)), id)
    ensures Inv(d) && Around(c, d, id)
  {
    var (p, r) := (t.plan, t.queue[0]);
    var row := c.plans[p][r].(state := Checking, check := None);
    assert Shaped(c.plans[p]);
    RowFrame(c, p, r, row);
    assert Extends(c, d) by {
      forall u | 0 <= u < |c.plans|
        ensures SameCommands(c.plans[u], d.plans[u])
      {
      }
    }
    ShapeFrame(c, p, r, row);
    assert AllShaped(d);
    QuietFrame(c, d);
    TallyQuiet(c, d, p, r);
    KeysFrame(c, d);
    ParkOk(c, d, id);
    assert IsLive(d, id);
  }

  // The finally block, when every row has settled.
  lemma FinishKeeps(c: Console, id: nat, plan: nat)
    requires Base(c) && NoneLive(c) && c.active && c.current == Some(plan) && Settled(c.plans[plan]) && id < |c.tasks|
    ensures Inv(Park((Finish(c, plan, c.generation), None), id))
  {
    var d := Park((Finish(c, plan, c.generation), None), id);
    assert Extends(c, d) by {
      forall u | 0 <= u < |c.plans|
        ensures SameCommands(c.plans[u], d.plans[u])
      {
      }
    }
    QuietFrame(c, d);
    KeysFrame(c, d);
    ParkOk(c, d, id);
    assert Tally(d) by {
      forall u, v | 0 <= u < |d.plans| && 0 <= v < |d.plans[u]|
        ensures Tallied(d, u, v)
      {
        assert Tallied(c, u, v);
      }
    }
  }

  // What BeginRow needs of the row in hand: nothing is in flight, and a blocked row still has its tally.
  ghost predicate Ready(c: Console, plan: nat, queue: seq<nat>) {
    Handing(c, plan, queue) && Settled(c.plans[plan])
  }

  lemma BeginCheckKeeps(c: Console, begun: Console, id: nat, plan: nat, queue: seq<nat>)
    requires Handing(begun, plan, queue) && id < |c.tasks| && queue != [] && !c.stopped
    requires begun == c.(controller := Some(c.aborts), aborts := c.aborts + 1)
    requires var row := c.plans[plan][queue[0]];
             row.command.preflight.Some? && (row.state.Pending? || row.state.PreflightFailed?)
    ensures Inv(Park(BeginRow(c, plan, c.generation, queue), id))
  {
    assert Tallied(begun, plan, queue[0]);
    var (d, t) := BeginRow(c, plan, c.generation, queue);
    CheckKeeps(begun, Park((d, t), id), id, t.value);
  }

  lemma BeginSendKeeps(c: Console, begun: Console, id: nat, plan: nat, queue: seq<nat>)
    requires Handing(begun, plan, queue) && id < |c.tasks| && queue != [] && !c.stopped
    requires begun == c.(controller := Some(c.aborts), aborts := c.aborts + 1)
    requires var row := c.plans[plan][queue[0]];
             row.state.Uncertain? || (row.command.preflight.None? && (row.state.Pending? || row.state.PreflightFailed?))
    ensures Inv(Park(BeginRow(c, plan, c.generation, queue), id))
  {
    assert Tallied(begun, plan, queue[0]);
    var t := Task(plan, c.generation, queue, c.plans[plan][queue[0]].state.Uncertain?, c.aborts, AwaitPlan);
    assert BeginRow(c, plan, c.generation, queue) == (Send(begun, t).0, Some(Send(begun, t).1));
    SendKeeps(begun, id, t);
  }

  lemma BeginKeeps(c: Console, id: nat, plan: nat, queue: seq<nat>)
    requires Ready(c, plan, queue) && id < |c.tasks|
    ensures Inv(Park(BeginRow(c, plan, c.generation, queue), id))
  {
    if queue == [] || c.stopped {
      FinishKeeps(c, id, plan);
    } else {
      var row := c.plans[plan][queue[0]];
      var begun := c.(controller := Some(c.aborts), aborts := c.aborts + 1);
      BegunHanding(c, begun, plan, queue);
      assert !InFlightState(row.state);
      if row.command.preflight.Some? && !row.state.Uncertain? {
        BeginCheckKeeps(c, begun, id, plan, queue);
      } else {
        BeginSendKeeps(c, begun, id, plan, queue);
      }
    }
  }

  lemma BegunHanding(c: Console, d: Console, plan: nat, queue: seq<nat>)
    requires Handing(c, plan, queue)
    requires d == c.(controller := d.controller, aborts := d.aborts)
    ensures Handing(d, plan, queue)
  {
    ScalarFrame(c, d);
  }

  // Changes to none of the invariant's subjects.
  lemma ScalarFrame(c: Console, d: Console)
    requires Base(c)
    requires d == c.(controller := d.controller, aborts := d.aborts, aborted := d.aborted, consent := d.consent, stopped := d.stopped)
    ensures Base(d) && (NoneLive(c) ==> NoneLive(d)) && (ActiveOk(c) ==> ActiveOk(d))
  {
    assert Extends(c, d);
    QuietFrame(c, d);
    KeysFrame(c, d);
    forall i | 0 <= i < |d.tasks| && d.tasks[i].Some?
      ensures TaskOk(d, d.tasks[i].value) && (d.tasks[i].value.version == d.generation ==> Running(d, d.tasks[i].value))
    {
      assert TaskOk(c, c.tasks[i].value);
    }
    forall u, v | 0 <= u < |d.plans| && 0 <= v < |d.plans[u]|
      ensures Tallied(d, u, v)
    {
      assert Tallied(c, u, v);
    }
    if ActiveOk(c) && c.active {
      var id :| IsLive(c, id);
      assert IsLive(d, id);
    }
    if NoneLive(c) {
      forall i
        ensures !IsLive(d, i)
      {
        assert !IsLive(c, i);
      }
    }
    forall i, j | IsLive(d, i) && IsLive(d, j)
      ensures i == j
    {
      assert IsLive(c, i) && IsLive(c, j);
    }
  }

  // The running task lets go of its row, which is now in `state`.
  lemma SettleKeeps(c: Console, d: Console, id: nat, t: Task, row: Row)
    requires Inv(c) && IsLive(c, id) && c.tasks[id] == Some(t)
    requires row.command == RowOf(c, t).command
    requires Terminal(row.state) || (row.state.PreflightFailed? && !t.pc.AwaitWrite?) || (row.state.Uncertain? && t.pc.AwaitWrite?)
    requires d == WithRow(c, t.plan, t.queue[0], row).(tasks := c.tasks[id := None])
    ensures Base(d) && NoneLive(d) && d.active && d.current == Some(t.plan) && Settled(d.plans[t.plan])
    ensures Terminal(row.state) ==> Ready(d, t.plan, t.queue[1..])
  {
    var (p, r) := (t.plan, t.queue[0]);
    assert TaskOk(c, t) && Running(c, t) && Shaped(c.plans[p]);
    RowFrame(c, p, r, row);
    assert Extends(c, d) by {
      forall u | 0 <= u < |c.plans|
        ensures SameCommands(c.plans[u], d.plans[u])
      {
      }
    }
    ShapeFrame(c, p, r, row);
    assert AllShaped(d);
    QuietFrame(c, d);
    KeysFrame(c, d);
    assert Tallied(c, p, r);
    TallyQuiet(c, d, p, r);
    LetGo(c, d, id);
    SettledRows(c, d, t);
  }

  lemma SettledRows(c: Console, d: Console, t: Task)
    requires Grounded(c, t) && Consecutive(t.queue) && Shaped(c.plans[t.plan]) && InFlightState(RowOf(c, t).state)
    requires |d.plans| == |c.plans| && |d.plans[t.plan]| == |c.plans[t.plan]|
    requires forall v :: 0 <= v < |c.plans[t.plan]| && v != t.queue[0] ==> d.plans[t.plan][v] == c.plans[t.plan][v]
    requires !InFlightState(d.plans[t.plan][t.queue[0]].state)
    ensures Settled(d.plans[t.plan])
    ensures forall i :: 0 <= i < t.queue[0] ==> Terminal(d.plans[t.plan][i].state)
    ensures |t.queue| > 1 ==> t.queue[1] == t.queue[0] + 1 && d.plans[t.plan][t.queue[1]].state.Pending?
    ensures Consecutive(t.queue[1..])
  {
    if |t.queue| > 1 {
      assert t.queue[1] == t.queue[0] + 1 && t.queue[1] < |c.plans[t.plan]|;
    }
  }

  lemma LetGo(c: Console, d: Console, id: nat)
    requires TasksOk(c) && SoleTask(c) && IsLive(c, id) && Around(c, d, id) && d.tasks[id].None?
    ensures TasksOk(d) && NoneLive(d)
  {
    forall i | 0 <= i < |d.tasks| && i != id
      ensures !IsLive(d, i)
    {
      assert IsLive(d, i) ==> IsLive(c, i);
    }
    forall i | 0 <= i < |d.tasks| && d.tasks[i].Some?
      ensures TaskOk(d, d.tasks[i].value) && (d.tasks[i].value.version == d.generation ==> Running(d, d.tasks[i].value))
    {
      TaskFrame(c, d, c.tasks[i].value);
      assert !IsLive(d, i);
    }
  }

  lemma NextRowKeeps(c: Console, id: nat, t: Task, row: Row)
    requires Inv(c) && IsLive(c, id) && c.tasks[id] == Some(t)
    requires row.command == RowOf(c, t).command && Terminal(row.state)
    ensures Inv(NextRow(WithRow(c, t.plan, t.queue[0], row), id, t))
  {
    var settled := WithRow(c, t.plan, t.queue[0], row);
    var d := settled.(tasks := c.tasks[id := None]);
    SettleKeeps(c, d, id, t, row);
    BeginKeeps(d, id, t.plan, t.queue[1..]);
    assert TaskOk(c, t);
    BeginIgnoresTasks(settled, id, t.plan, t.version, t.queue[1..]);
  }

  lemma BeginIgnoresTasks(c: Console, id: nat, plan: nat, version: nat, queue: seq<nat>)
    requires plan < |c.plans| && (forall i :: 0 <= i < |queue| ==> queue[i] < |c.plans[plan]|) && id < |c.tasks|
    ensures Park(BeginRow(c, plan, version, queue), id) == Park(BeginRow(c.(tasks := c.tasks[id := None]), plan, version, queue), id)
  {
    var x := BeginRow(c, plan, version, queue).1;
    assert c.tasks[id := None][id := x] == c.tasks[id := x];
  }

  lemma FailKeeps(c: Console, id: nat, t: Task, status: Option<int>)
    requires Inv(c) && IsLive(c, id) && c.tasks[id] == Some(t)
    ensures Grounded(c, t) && Inv(Fail(c, id, t, status))
  {
    assert TaskOk(c, t) && Running(c, t);
    var state := FailedState(t, t.abort in c.aborted, status);
    var row := RowOf(c, t).(state := state);
    if Blocked(state) {
      var failed := WithRow(c, t.plan, t.queue[0], row);
      var d := failed.(tasks := c.tasks[id := None]);
      SettleKeeps(c, d, id, t, row);
      FinishKeeps(d, id, t.plan);
      assert c.tasks[id := None][id := None] == c.tasks[id := None];
      assert Park((Finish(failed, t.plan, t.version), None), id) == Park((Finish(d, t.plan, t.version), None), id);
    } else {
      NextRowKeeps(c, id, t, row);
    }
  }

  // A stale coroutine only disappears.
  lemma StaleKeeps(c: Console, id: nat)
    requires Inv(c) && id < |c.tasks| && c.tasks[id].Some? && !Live(c, c.tasks[id].value)
    ensures Inv(Park((c, None), id))
  {
    var d := Park((c, None), id);
    assert !IsLive(c, id);
    assert Extends(c, d);
    QuietFrame(c, d);
    KeysFrame(c, d);
    forall i | 0 <= i < |d.tasks| && d.tasks[i].Some?
      ensures TaskOk(d, d.tasks[i].value) && (d.tasks[i].value.version == d.generation ==> Running(d, d.tasks[i].value))
    {
      TaskFrame(c, d, c.tasks[i].value);
    }
    forall u, v | 0 <= u < |d.plans| && 0 <= v < |d.plans[u]|
      ensures Tallied(d, u, v)
    {
      assert Tallied(c, u, v);
    }
    forall i, j | IsLive(d, i) && IsLive(d, j)
      ensures i == j
    {
      assert IsLive(c, i) && IsLive(c, j);
    }
    if c.active {
      var k :| IsLive(c, k);
      assert IsLive(d, k);
    }
  }

  lemma PreviewKeeps(c: Console, id: nat, t: Task, a: Answer<Preview>)
    requires Inv(c) && id < |c.tasks| && c.tasks[id] == Some(t) && t.pc.AwaitPreview?
    ensures Grounded(c, t) && RowOf(c, t).command.pathTarget.Some? && Inv(ResumePreview(c, id, t, a))
  {
    assert TaskOk(c, t);
    if !Live(c, t) {
      StaleKeeps(c, id);
    } else if a.Body? && t.abort !in c.aborted && !c.stopped && PreviewMatches(RowOf(c, t).command, a.value) {
      PreviewedKeeps(c, ResumePreview(c, id, t, a), id, t);
    } else {
      FailKeeps(c, id, t, StatusOf(a));
    }
  }

  lemma PreviewedKeeps(c: Console, d: Console, id: nat, t: Task)
    requires Inv(c) && IsLive(c, id) && c.tasks[id] == Some(t) && t.pc.AwaitPreview?
    requires d == c.(trace := c.trace + [Previewed(t.abort, t.plan, t.queue[0])], tasks := c.tasks[id := Some(t.(pc := AwaitPlan))])
    ensures Inv(d)
  {
    var e := c.(tasks := c.tasks[id := None]);
    assert TaskOk(c, t) && Running(c, t);
    assert Extends(c, e) && Extends(e, d) && Extends(c, d);
    LetGo(c, e, id);
    assert Previewed(t.abort, t.plan, t.queue[0]) in d.trace;
    QuietFrame(c, d);
    KeysFrame(c, d);
    assert Around(e, d, id);
    ParkOk(e, d, id);
    forall u, v | 0 <= u < |d.plans| && 0 <= v < |d.plans[u]|
      ensures Tallied(d, u, v)
    {
      assert Tallied(c, u, v);
    }
  }

  // Recording a check keeps the row in flight and the log in order.
  lemma CheckedKeeps(c: Console, d: Console, id: nat, t: Task, profile: Profile)
    requires Inv(c) && IsLive(c, id) && c.tasks[id] == Some(t) && t.pc.AwaitPlan?
    requires d == WithRow(c, t.plan, t.queue[0], RowOf(c, t).(check := Some(profile))).(
                    trace := c.trace + [Checked(t.abort, t.plan, t.queue[0], profile)])
    ensures Inv(d) && IsLive(d, id) && Around(c, d, id)
    ensures RowOf(c, t).command == RowOf(d, t).command && NoWrite(d, t.plan, t.queue[0])
    ensures RowOf(c, t).command.pathTarget.Some? ==> Previewed(t.abort, t.plan, t.queue[0]) in c.trace
  {
    var (p, r) := (t.plan, t.queue[0]);
    assert TaskOk(c, t) && Running(c, t) && Shaped(c.plans[p]) && Tallied(c, p, r);
    assert Extends(c, d) by {
      forall u | 0 <= u < |c.plans|
        ensures SameCommands(c.plans[u], d.plans[u])
      {
      }
    }
    ShapeFrame(c, p, r, RowOf(c, t).(check := Some(profile)));
    assert AllShaped(d);
    QuietFrame(c, d);
    KeysFrame(c, d);
    TallyQuiet(c, d, p, r);
    forall i | 0 <= i < |d.tasks| && d.tasks[i].Some?
      ensures TaskOk(d, d.tasks[i].value) && (d.tasks[i].value.version == d.generation ==> Running(d, d.tasks[i].value))
    {
      TaskFrame(c, d, c.tasks[i].value);
      if d.tasks[i].value.version == d.generation {
        assert IsLive(c, i);
      }
    }
    assert SoleTask(d) by {
      forall i, j | IsLive(d, i) && IsLive(d, j)
        ensures i == j
      {
        assert IsLive(c, i) && IsLive(c, j);
      }
    }
    assert IsLive(d, id);
  }

  lemma PlanKeeps(c: Console, id: nat, t: Task, a: Answer<Plan>)
    requires Inv(c) && id < |c.tasks| && c.tasks[id] == Some(t) && t.pc.AwaitPlan?
    ensures Grounded(c, t) && RowOf(c, t).command.preflight.Some? && Inv(ResumePlan(c, id, t, a))
  {
    assert TaskOk(c, t);
    if !Live(c, t) {
      StaleKeeps(c, id);
    } else if !(a.Body? && t.abort !in c.aborted && PlanMatches(RowOf(c, t).command, a.value)) {
      FailKeeps(c, id, t, StatusOf(a));
    } else {
      var profile := a.value.profile.value;
      var checked := WithRow(c, t.plan, t.queue[0], RowOf(c, t).(check := Some(profile))).(
        trace := c.trace + [Checked(t.abort, t.plan, t.queue[0], profile)]);
      CheckedKeeps(c, checked, id, t, profile);
      if c.stopped {
        FailKeeps(checked, id, t, None);
      } else {
        PlanSendKeeps(checked, id, t);
      }
    }
  }

  lemma PlanSendKeeps(c: Console, id: nat, t: Task)
    requires Inv(c) && IsLive(c, id) && c.tasks[id] == Some(t) && t.pc.AwaitPlan? && NoWrite(c, t.plan, t.queue[0])
    requires var m := RowOf(c, t).command;
             && m.preflight.Some?
             && c.trace != [] && c.trace[|c.trace| - 1] == Checked(t.abort, t.plan, t.queue[0], m.preflight.value)
             && (m.pathTarget.Some? ==> Previewed(t.abort, t.plan, t.queue[0]) in c.trace[..|c.trace| - 1])
    ensures var (sent, parked) := Send(c, t);
            Inv(Park((sent, Some(parked)), id))
  {
    var e := c.(tasks := c.tasks[id := None]);
    assert TaskOk(c, t) && Running(c, t) && Shaped(c.plans[t.plan]);
    FreeHanding(c, e, id, t);
    SendKeeps(e, id, t);
    var (sent, parked) := Send(c, t);
    assert c.tasks[id := None][id := Some(parked)] == c.tasks[id := Some(parked)];
    assert Park((sent, Some(parked)), id) == Park((Send(e, t).0, Some(Send(e, t).1)), id);
  }

  lemma FreeHanding(c: Console, e: Console, id: nat, t: Task)
    requires Inv(c) && IsLive(c, id) && c.tasks[id] == Some(t) && e == c.(tasks := c.tasks[id := None])
    ensures Handing(e, t.plan, t.queue)
  {
    assert TaskOk(c, t) && Running(c, t) && Shaped(c.plans[t.plan]);
    assert Extends(c, e);
    LetGo(c, e, id);
    QuietFrame(c, e);
    KeysFrame(c, e);
    forall u, v | 0 <= u < |e.plans| && 0 <= v < |e.plans[u]|
      ensures Tallied(e, u, v)
    {
      assert Tallied(c, u, v);
    }
  }

  lemma WriteKeeps(c: Console, id: nat, t: Task, a: Answer<Receipt>)
    requires Inv(c) && id < |c.tasks| && c.tasks[id] == Some(t) && t.pc.AwaitWrite?
    ensures Grounded(c, t) && Inv(ResumeWrite(c, id, t, a))
  {
    assert TaskOk(c, t);
    if !Live(c, t) {
      StaleKeeps(c, id);
    } else if a.Body? && t.abort !in c.aborted && Recognized(RowOf(c, t).command, a.value) {
      NextRowKeeps(c, id, t, RowOf(c, t).(state := if a.value.operationId.None? then Unchanged else Accepted, result := Some(a.value)));
    } else {
      FailKeeps(c, id, t, StatusOf(a));
    }
  }

  lemma ClearKeeps(c: Console)
    requires Inv(c)
    ensures Inv(Clear(c)) && NoneLive(Clear(c))
  {
    var d := Clear(c);
    assert Extends(c, d);
    QuietFrame(c, d);
    KeysFrame(c, d);
    forall i | 0 <= i < |d.tasks| && d.tasks[i].Some?
      ensures TaskOk(d, d.tasks[i].value) && d.tasks[i].value.version < d.generation
    {
      TaskFrame(c, d, c.tasks[i].value);
    }
    forall u, v | 0 <= u < |d.plans| && 0 <= v < |d.plans[u]|
      ensures Tallied(d, u, v)
    {
      assert Tallied(c, u, v);
    }
  }

  lemma IdleConsole(c: Console)
    requires TasksOk(c) && !c.active
    ensures NoneLive(c)
  {
  }

  // A new list appears only where there is none.
  lemma ShowKeeps(c: Console, commands: seq<Command>)
    requires Inv(c) && c.current.None? && !c.active && FreshKeys(c, commands)
    requires forall x :: x in c.retries ==> x.version < c.generation
    ensures Inv(Show(c, commands))
  {
    var d := Show(c, commands);
    IdleConsole(c);
    assert Extends(c, d);
    QuietFrame(c, d);
    forall i | 0 <= i < |d.tasks| && d.tasks[i].Some?
      ensures TaskOk(d, d.tasks[i].value) && d.tasks[i].value.version != d.generation
    {
      assert !IsLive(c, i);
      TaskFrame(c, d, c.tasks[i].value);
    }
    forall u, v | 0 <= u < |d.plans| && 0 <= v < |d.plans[u]|
      ensures Tallied(d, u, v)
    {
      if u < |c.plans| {
        assert Tallied(c, u, v);
      } else {
        forall k | 0 <= k < |d.outbox|
          ensures !Same(d.outbox[k], u, v)
        {
          assert Carries(c, c.outbox[k]);
        }
      }
    }
    assert AllShaped(d) by {
      forall p | 0 <= p < |d.plans|
        ensures Shaped(d.plans[p])
      {
        if p < |c.plans| {
          assert Shaped(c.plans[p]);
        }
      }
    }
  }

  lemma PrepareKeeps(c: Console, commands: seq<Command>, confirmed: bool)
    requires Inv(c) && FreshKeys(c, commands)
    ensures Inv(Prepare(c, commands, confirmed))
  {
    if MayDiscard(c, confirmed) {
      ClearKeeps(c);
      assert FreshKeys(Clear(c), commands);
      ShowKeeps(Clear(c), commands);
    }
  }

  lemma BeginRetryKeeps(c: Console, confirmed: bool)
    requires Inv(c)
    ensures Inv(BeginRetry(c, confirmed))
  {
    if MayDiscard(c, confirmed) {
      ClearKeeps(c);
      var d := Clear(c);
      var e := d.(controller := Some(d.aborts), aborts := d.aborts + 1);
      ScalarFrame(d, e);
      RetriesFrame(e, BeginRetry(c, confirmed));
    }
  }

  lemma RetriesFrame(c: Console, d: Console)
    requires Inv(c) && d == c.(retries := d.retries) && RetriesOk(d)
    ensures Inv(d)
  {
    assert Extends(c, d);
    QuietFrame(c, d);
    KeysFrame(c, d);
    forall i | 0 <= i < |d.tasks| && d.tasks[i].Some?
      ensures TaskOk(d, d.tasks[i].value) && (d.tasks[i].value.version == d.generation ==> Running(d, d.tasks[i].value))
    {
      assert TaskOk(c, c.tasks[i].value);
    }
    forall u, v | 0 <= u < |d.plans| && 0 <= v < |d.plans[u]|
      ensures Tallied(d, u, v)
    {
      assert Tallied(c, u, v);
    }
    forall i, j | IsLive(d, i) && IsLive(d, j)
      ensures i == j
    {
      assert IsLive(c, i) && IsLive(c, j);
    }
    if c.active {
      var k :| IsLive(c, k);
      assert IsLive(d, k);
    }
  }

  lemma EndRetryKeeps(c: Console, retry: Retry, command: Command)
    requires Inv(c) && retry in c.retries && FreshKeys(c, [command])
    ensures Inv(EndRetry(c, retry, command))
  {
    var d := c.(retries := c.retries - {retry});
    RetriesFrame(c, d);
    if retry.version == c.generation && retry.abort !in c.aborted {
      assert FreshKeys(d, [command]);
      ShowKeeps(d, [command]);
    }
  }

  lemma {:induction false} AllPending(rows: seq<Row>, i: nat)
    requires i <= |rows| && forall r :: i <= r < |rows| ==> rows[r].state.Pending?
    ensures |PendingFrom(rows, i)| == |rows| - i && forall k :: 0 <= k < |rows| - i ==> PendingFrom(rows, i)[k] == i + k
    decreases |rows| - i
  {
    if i < |rows| {
      AllPending(rows, i + 1);
    }
  }

  // The pending rows are the tail of the plan, behind rows that are done.
  ghost predicate IsTail(rows: seq<Row>, i: nat, queue: seq<nat>) {
    && Consecutive(queue)
    && (queue != [] ==> queue[|queue| - 1] == |rows| - 1 && forall r :: i <= r < queue[0] && r < |rows| ==> Terminal(rows[r].state))
  }

  lemma {:induction false} PendingIsTail(rows: seq<Row>, i: nat)
    requires i <= |rows| && (forall r :: i <= r < |rows| ==> Terminal(rows[r].state) || rows[r].state.Pending?) && Shaped(rows)
    ensures IsTail(rows, i, PendingFrom(rows, i))
    decreases |rows| - i
  {
    if i < |rows| {
      if rows[i].state.Pending? {
        AllPending(rows, i);
      } else {
        PendingIsTail(rows, i + 1);
      }
    }
  }

  lemma StartKeeps(c: Console, only: Option<nat>)
    requires Inv(c)
    ensures Inv(Start(c, only))
  {
    if !c.active && c.current.Some? && c.consent {
      var plan := c.current.value;
      var rows := c.plans[plan];
      assert Shaped(rows) && Settled(rows);
      if only.Some? {
        if only.value < |rows| && Blocked(rows[only.value].state) {
          StartsReady(c, [only.value]);
        }
      } else if !exists i :: 0 <= i < |rows| && Blocked(rows[i].state) {
        PendingIsTail(rows, 0);
        var queue := PendingFrom(rows, 0);
        if queue != [] {
          StartsReady(c, queue);
        }
      }
    }
  }

  lemma StartsReady(c: Console, queue: seq<nat>)
    requires Inv(c) && !c.active && c.current.Some? && queue != [] && Consecutive(queue)
    requires forall i :: 0 <= i < |queue| ==> queue[i] < |c.plans[c.current.value]|
    requires !Terminal(c.plans[c.current.value][queue[0]].state)
    requires forall i :: 0 <= i < queue[0] ==> Terminal(c.plans[c.current.value][i].state)
    ensures var d := c.(active := true, stopped := false, tasks := c.tasks + [None]);
            Inv(Park(BeginRow(d, c.current.value, c.generation, queue), |c.tasks|))
  {
    var d := c.(active := true, stopped := false, tasks := c.tasks + [None]);
    IdleConsole(c);
    forall i
      ensures !IsLive(d, i)
    {
      assert !IsLive(c, i);
    }
    assert Extends(c, d);
    QuietFrame(c, d);
    KeysFrame(c, d);
    forall i | 0 <= i < |d.tasks| && d.tasks[i].Some?
      ensures TaskOk(d, d.tasks[i].value) && d.tasks[i].value.version != d.generation
    {
      assert !IsLive(d, i);
      TaskFrame(c, d, c.tasks[i].value);
    }
    forall u, v | 0 <= u < |d.plans| && 0 <= v < |d.plans[u]|
      ensures Tallied(d, u, v)
    {
      assert Tallied(c, u, v);
    }
    BeginKeeps(d, |c.tasks|, c.current.value, queue);
  }

  lemma ClientKeeps(w: World, step: Step)
    requires Inv(w.console) && Enabled(w, step)
    ensures Inv(Client(w.console, step))
  {
    var c := w.console;
    match step
    case DidPrepare(commands, confirmed) => PrepareKeeps(c, commands, confirmed);
    case DidClose(confirmed) => if MayDiscard(c, confirmed) { ClearKeeps(c); }
    case SetConsent(checked) => ScalarFrame(c, c.(consent := checked));
    case DidStart(only) => StartKeeps(c, only);
    case DidStop => ScalarFrame(c, Stop(c));
    case DidClear => ClearKeeps(c);
    case DidBeginRetry(confirmed) => BeginRetryKeeps(c, confirmed);
    case DidEndRetry(retry, command) => EndRetryKeeps(c, retry, command);
    case GotPreview(id, a) => PreviewKeeps(c, id, c.tasks[id].value, a);
    case GotPlan(id, a) => PlanKeeps(c, id, c.tasks[id].value, a);
    case GotReceipt(id, a) => WriteKeeps(c, id, c.tasks[id].value, a);
    case _ =>
  }
}

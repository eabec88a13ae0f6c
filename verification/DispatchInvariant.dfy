/** What holds of the dispatcher between any two steps, and why each client step keeps it. */
module DispatchInvariant {
  import opened Outcomes
  import opened RuleDispatch
  import opened DispatchRuns

  predicate InFlightState(s: RowState) {
    s.Checking? || s.Sending?
  }

  // Terminal rows, then at most one other row, then pending rows.
  ghost predicate Shaped(rows: seq<Row>) {
    forall i, k :: 0 <= i < k < |rows| ==> Terminal(rows[i].state) || rows[k].state.Pending?
  }

  ghost predicate AllShaped(c: Console) {
    forall p :: 0 <= p < |c.plans| ==> Shaped(c.plans[p])
  }

  ghost predicate Settled(rows: seq<Row>) {
    forall r :: 0 <= r < |rows| ==> !InFlightState(rows[r].state)
  }

  // An outgoing write is exactly its row's frozen command.
  predicate Carries(c: Console, o: Outgoing) {
    && o.plan < |c.plans| && o.row < |c.plans[o.plan]|
    && var m := c.plans[o.plan][o.row].command;
       o.verb == m.verb && o.resource == m.resource && o.body == m.body && o.key == m.key
  }

  ghost predicate AllCarry(c: Console) {
    forall q :: 0 <= q < |c.outbox| ==> Carries(c, c.outbox[q])
  }

  predicate Consecutive(queue: seq<nat>) {
    forall i :: 0 <= i < |queue| ==> queue[i] == queue[0] + i
  }

  // What a suspended task may rely on, stale or not.
  predicate TaskOk(c: Console, t: Task) {
    && Grounded(c, t) && Consecutive(t.queue) && t.version <= c.generation
    && var m := RowOf(c, t).command;
    && (!t.pc.AwaitWrite? ==> m.preflight.Some? && !t.replay)
    && (t.pc.AwaitPreview? ==> m.pathTarget.Some?)
    && (t.pc.AwaitPlan? && m.pathTarget.Some? ==> Previewed(t.abort, t.plan, t.queue[0]) in c.trace)
    && (t.pc.AwaitWrite? ==> t.pc.request < |c.outbox| && c.outbox[t.pc.request].plan == t.plan && c.outbox[t.pc.request].row == t.queue[0])
  }

  // What the running task knows besides: its row is its own, and a first write is the row's only write.
  ghost predicate Running(c: Console, t: Task)
    requires Grounded(c, t)
  {
    && c.active && c.current == Some(t.plan)
    && RowOf(c, t).state == (if t.pc.AwaitWrite? then Sending else Checking)
    && (t.pc.AwaitWrite? && !t.replay ==> OnlyWrite(c, t.plan, t.queue[0], t.pc.request))
  }

  ghost predicate TasksOk(c: Console) {
    forall id :: 0 <= id < |c.tasks| && c.tasks[id].Some? ==>
      TaskOk(c, c.tasks[id].value) && (c.tasks[id].value.version == c.generation ==> Running(c, c.tasks[id].value))
  }

  predicate IsLive(c: Console, id: int) {
    0 <= id < |c.tasks| && c.tasks[id].Some? && c.tasks[id].value.version == c.generation
  }

  ghost predicate SoleTask(c: Console) {
    forall i, j :: IsLive(c, i) && IsLive(c, j) ==> i == j
  }

  ghost predicate NoneLive(c: Console) {
    forall i :: !IsLive(c, i)
  }

  ghost predicate ActiveOk(c: Console) {
    && (c.active ==> exists id :: IsLive(c, id))
    && (!c.active && c.current.Some? && c.current.value < |c.plans| ==> Settled(c.plans[c.current.value]))
  }

  ghost predicate RetriesOk(c: Console) {
    && (forall x :: x in c.retries ==> x.version <= c.generation && (x.version == c.generation ==> c.current.None? && !c.active))
    && forall x, y :: x in c.retries && y in c.retries && x.version == y.version ==> x == y
  }

  ghost predicate KeysDistinct(c: Console) {
    forall p, r, u, v :: 0 <= p < |c.plans| && 0 <= r < |c.plans[p]| && 0 <= u < |c.plans| && 0 <= v < |c.plans[u]| ==>
      c.plans[p][r].command.key == c.plans[u][v].command.key ==> p == u && r == v
  }

  predicate Same(o: Outgoing, p: nat, r: nat) {
    o.plan == p && o.row == r
  }

  ghost predicate NoWrite(c: Console, p: nat, r: nat) {
    forall k :: 0 <= k < |c.outbox| ==> !Same(c.outbox[k], p, r)
  }

  ghost predicate OnlyWrite(c: Console, p: nat, r: nat, q: nat) {
    forall k :: 0 <= k < |c.outbox| && Same(c.outbox[k], p, r) ==> k == q
  }

  ghost predicate HasWrite(c: Console, p: nat, r: nat) {
    exists k :: 0 <= k < |c.outbox| && Same(c.outbox[k], p, r)
  }

  // Which rows have been written at all.
  ghost predicate Tallied(c: Console, p: nat, r: nat)
    requires p < |c.plans| && r < |c.plans[p]|
  {
    match c.plans[p][r].state
    case Pending => NoWrite(c, p, r)
    case Checking => NoWrite(c, p, r)
    case PreflightFailed => NoWrite(c, p, r)
    case Sending => HasWrite(c, p, r)
    case Uncertain => HasWrite(c, p, r)
    case _ => true
  }

  ghost predicate Tally(c: Console) {
    forall p, r :: 0 <= p < |c.plans| && 0 <= r < |c.plans[p]| ==> Tallied(c, p, r)
  }

  ghost predicate First(c: Console, q: nat)
    requires q < |c.outbox|
  {
    forall k :: 0 <= k < q ==> !Same(c.outbox[k], c.outbox[q].plan, c.outbox[q].row)
  }

  // In one attempt, in this order: a matching preview (for a path row), a matching plan check, the write.
  ghost predicate CheckedFirst(c: Console, q: nat)
    requires q < |c.outbox| && Carries(c, c.outbox[q])
  {
    var o := c.outbox[q];
    var m := c.plans[o.plan][o.row].command;
    exists i, j :: 0 <= i < j < |c.trace| && c.trace[j] == Wrote(o.attempt, q)
      && c.trace[i].Checked? && c.trace[i].attempt == o.attempt && c.trace[i].plan == o.plan && c.trace[i].row == o.row
      && m.preflight == Some(c.trace[i].profile)
      && (m.pathTarget.Some? ==> Previewed(o.attempt, o.plan, o.row) in c.trace[..i])
  }

  ghost predicate TraceOk(c: Console)
    requires AllCarry(c)
  {
    forall q :: 0 <= q < |c.outbox| && First(c, q) && c.plans[c.outbox[q].plan][c.outbox[q].row].command.preflight.Some? ==> CheckedFirst(c, q)
  }

  // Everything except who is running.
  ghost predicate Base(c: Console) {
    && CurrentExists(c) && AllShaped(c) && AllCarry(c) && TasksOk(c) && SoleTask(c) && RetriesOk(c) && KeysDistinct(c) && TraceOk(c) && Tally(c)
  }

  ghost predicate Inv(c: Console) {
    Base(c) && ActiveOk(c)
  }

  // ---- frames ----

  // Commands are frozen and logs only grow.
  ghost predicate Extends(c: Console, d: Console) {
    && |c.plans| <= |d.plans|
    && (forall p :: 0 <= p < |c.plans| ==> SameCommands(c.plans[p], d.plans[p]))
    && c.outbox <= d.outbox && c.trace <= d.trace
  }

  ghost predicate SameCommands(a: seq<Row>, b: seq<Row>) {
    |a| == |b| && forall r :: 0 <= r < |a| ==> a[r].command == b[r].command
  }

  lemma ExtendsTransitive(a: Console, b: Console, c: Console)
    requires Extends(a, b) && Extends(b, c)
    ensures Extends(a, c)
  {
    forall p | 0 <= p < |a.plans|
      ensures SameCommands(a.plans[p], c.plans[p])
    {
      assert SameCommands(a.plans[p], b.plans[p]) && SameCommands(b.plans[p], c.plans[p]);
    }
  }

  lemma TaskFrame(c: Console, d: Console, t: Task)
    requires TaskOk(c, t) && Extends(c, d) && c.generation <= d.generation
    ensures TaskOk(d, t)
  {
    assert SameCommands(c.plans[t.plan], d.plans[t.plan]);
    if t.pc.AwaitWrite? {
      assert d.outbox[t.pc.request] == c.outbox[t.pc.request];
    }
    if Previewed(t.abort, t.plan, t.queue[0]) in c.trace {
      assert Previewed(t.abort, t.plan, t.queue[0]) in d.trace;
    }
  }

  lemma CarryFrame(c: Console, d: Console, q: nat)
    requires AllCarry(c) && Extends(c, d) && q < |c.outbox|
    ensures d.outbox[q] == c.outbox[q] && Carries(d, d.outbox[q])
  {
    assert Carries(c, c.outbox[q]);
    assert SameCommands(c.plans[c.outbox[q].plan], d.plans[c.outbox[q].plan]);
  }

  lemma CheckedFrame(c: Console, d: Console, q: nat)
    requires AllCarry(c) && Extends(c, d) && q < |c.outbox| && CheckedFirst(c, q)
    ensures d.outbox[q] == c.outbox[q] && Carries(d, d.outbox[q]) && CheckedFirst(d, q)
  {
    CarryFrame(c, d, q);
    var o := c.outbox[q];
    assert SameCommands(c.plans[o.plan], d.plans[o.plan]);
    var i, j :| 0 <= i < j < |c.trace| && c.trace[j] == Wrote(o.attempt, q)
      && c.trace[i].Checked? && c.trace[i].attempt == o.attempt && c.trace[i].plan == o.plan && c.trace[i].row == o.row
      && c.plans[o.plan][o.row].command.preflight == Some(c.trace[i].profile)
      && (c.plans[o.plan][o.row].command.pathTarget.Some? ==> Previewed(o.attempt, o.plan, o.row) in c.trace[..i]);
    assert d.trace[j] == c.trace[j] && d.trace[i] == c.trace[i] && d.trace[..i] == c.trace[..i];
  }

  // A step that sends nothing keeps the outbox part of the invariant.
  lemma QuietFrame(c: Console, d: Console)
    requires AllCarry(c) && TraceOk(c) && Extends(c, d) && d.outbox == c.outbox
    ensures AllCarry(d) && TraceOk(d)
  {
    forall q | 0 <= q < |d.outbox|
      ensures Carries(d, d.outbox[q])
    {
      CarryFrame(c, d, q);
    }
    forall q | 0 <= q < |d.outbox| && First(d, q) && d.plans[d.outbox[q].plan][d.outbox[q].row].command.preflight.Some?
      ensures CheckedFirst(d, q)
    {
      assert First(c, q);
      assert Carries(c, c.outbox[q]);
      assert SameCommands(c.plans[c.outbox[q].plan], d.plans[c.outbox[q].plan]);
      CheckedFrame(c, d, q);
    }
  }

  lemma KeysFrame(c: Console, d: Console)
    requires KeysDistinct(c) && Extends(c, d) && |d.plans| == |c.plans|
    ensures KeysDistinct(d)
  {
    forall p, r, u, v | 0 <= p < |d.plans| && 0 <= r < |d.plans[p]| && 0 <= u < |d.plans| && 0 <= v < |d.plans[u]|
      && d.plans[p][r].command.key == d.plans[u][v].command.key
      ensures p == u && r == v
    {
      assert SameCommands(c.plans[p], d.plans[p]) && SameCommands(c.plans[u], d.plans[u]);
    }
  }

  lemma RowFrame(c: Console, p: nat, r: nat, row: Row)
    requires p < |c.plans| && r < |c.plans[p]| && row.command == c.plans[p][r].command
    ensures Extends(c, WithRow(c, p, r, row))
  {
  }

  // Writing one row keeps every plan in shape if it keeps its own.
  lemma ShapeFrame(c: Console, p: nat, r: nat, row: Row)
    requires AllShaped(c) && p < |c.plans| && r < |c.plans[p]|
    requires forall k :: r < k < |c.plans[p]| ==> Terminal(row.state) || c.plans[p][k].state.Pending?
    requires forall i :: 0 <= i < r ==> Terminal(c.plans[p][i].state) || row.state.Pending?
    ensures AllShaped(WithRow(c, p, r, row))
  {
    var d := WithRow(c, p, r, row);
    forall u | 0 <= u < |d.plans|
      ensures Shaped(d.plans[u])
    {
      assert Shaped(c.plans[u]);
    }
  }
}

/**
 The rule console's command dispatcher (apps/web/rule-console.js).

 `Console` is the closure state of the console plus its suspended coroutines: every `await` in `dispatch` is a
 point where a task is parked, and resuming it runs to the next `await`. Plans are kept for ever, so a plan is
 identified by its index and `plan === current` is equality of indices. `outbox` and `trace` are logs: the
 write requests handed to the network, and the checks and writes in the order they happened.
 */
module RuleDispatch {
  import opened Outcomes

  const MAX_SAFE: int := 9007199254740991

  datatype RowState = Pending | Checking | Sending | Accepted | Unchanged | Rejected | PreflightFailed | Uncertain

  datatype Profile = Profile(id: string, revision: int, digest: string)

  datatype Template = Template(id: string, revision: int, digest: string)

  // What one row asks for; specs are in canonical form, bodies are the cloned JSON text.
  datatype Command = Command(
    verb: string, resource: string, body: string, key: string,
    forwardId: string, expectedRevision: int, sourceOperation: Option<string>,
    preflight: Option<Profile>, pathTarget: Option<Template>,
    specChanged: bool, sourceSpec: string, proposedSpec: string)

  datatype Row = Row(command: Command, state: RowState, check: Option<Profile>, result: Option<Receipt>)

  datatype Pc = AwaitPreview | AwaitPlan | AwaitWrite(request: nat)

  // A suspended dispatch: `queue` holds the row in flight and those still to come.
  datatype Task = Task(plan: nat, version: nat, queue: seq<nat>, replay: bool, abort: nat, pc: Pc)

  datatype Outgoing = Outgoing(plan: nat, row: nat, attempt: nat, verb: string, resource: string, body: string, key: string)

  datatype Event =
    | Previewed(attempt: nat, plan: nat, row: nat)
    | Checked(attempt: nat, plan: nat, row: nat, profile: Profile)
    | Wrote(attempt: nat, request: nat)

  // A retry waiting for its two reads.
  datatype Retry = Retry(version: nat, abort: nat)

  datatype Console = Console(
    plans: seq<seq<Row>>, current: Option<nat>, active: bool, stopped: bool, generation: nat,
    controller: Option<nat>, aborts: nat, aborted: set<nat>, consent: bool,
    tasks: seq<Option<Task>>, retries: set<Retry>, outbox: seq<Outgoing>, trace: seq<Event>)

  datatype Answer<T> = Body(value: T) | Http(status: int) | Broken

  datatype Preview = Preview(
    forwardId: string, expectedRevision: int, previewOnly: bool, reserved: bool, executionAuthorized: bool,
    fullPlanAuthorization: bool, changed: bool, template: Template, spec: string, proposedSpec: string)

  datatype Plan = Plan(reserved: bool, executionSupported: bool, runtimeEnabled: bool, profile: Option<Profile>)

  datatype Binding = Binding(template: Template, sequence: int, forwardRevision: int)

  datatype Receipt = Receipt(
    forwardId: string, revision: int, operationId: Option<string>, sourceOperation: Option<string>, binding: Option<Binding>)

  predicate CompleteRejection(status: int) {
    status in {400, 401, 403, 404, 409, 413, 422, 429}
  }

  predicate IsIdChar(c: char, first: bool) {
    || 'A' <= c <= 'Z' || 'a' <= c <= 'z' || '0' <= c <= '9'
    || (!first && (c == '.' || c == '_' || c == ':' || c == '-'))
  }

  predicate IsId(s: string) {
    1 <= |s| <= 128 && forall i :: 0 <= i < |s| ==> IsIdChar(s[i], i == 0)
  }

  predicate IsRevision(n: int) {
    1 <= n <= MAX_SAFE
  }

  predicate PreviewMatches(c: Command, p: Preview)
    requires c.pathTarget.Some?
  {
    && p.forwardId == c.forwardId && p.expectedRevision == c.expectedRevision && p.previewOnly
    && !p.reserved && !p.executionAuthorized && !p.fullPlanAuthorization && p.changed == c.specChanged
    && p.template == c.pathTarget.value && p.spec == c.sourceSpec && p.proposedSpec == c.proposedSpec
  }

  predicate PlanMatches(c: Command, p: Plan)
    requires c.preflight.Some?
  {
    !p.reserved && !p.executionSupported && p.runtimeEnabled && p.profile == c.preflight
  }

  // `accepted`: the receipts that may settle a row.
  predicate Recognized(c: Command, r: Receipt) {
    && r.forwardId == c.forwardId && IsRevision(r.revision)
    && (r.operationId.Some? ==> IsId(r.operationId.value))
    && (if c.sourceOperation.Some? then
          r.sourceOperation == c.sourceOperation && r.revision == c.expectedRevision && r.operationId.Some?
        else r.revision == c.expectedRevision + if r.operationId.None? then 0 else 1)
    && (c.pathTarget.Some? ==>
          && r.revision == c.expectedRevision + (if c.specChanged then 1 else 0)
          && r.operationId.Some? == c.specChanged
          && r.binding.Some? && r.binding.value.template == c.pathTarget.value
          && IsRevision(r.binding.value.sequence) && r.binding.value.sequence <= 64
          && IsRevision(r.binding.value.forwardRevision) && r.binding.value.forwardRevision <= r.revision)
  }

  predicate Blocked(s: RowState) {
    s.Uncertain? || s.PreflightFailed?
  }

  predicate Terminal(s: RowState) {
    s.Accepted? || s.Unchanged? || s.Rejected?
  }

  predicate Live(c: Console, t: Task) {
    t.version == c.generation && c.current == Some(t.plan)
  }

  // The task's row exists.
  predicate Grounded(c: Console, t: Task) {
    && t.plan < |c.plans| && t.queue != []
    && forall i :: 0 <= i < |t.queue| ==> t.queue[i] < |c.plans[t.plan]|
  }

  function RowOf(c: Console, t: Task): Row
    requires Grounded(c, t)
  {
    c.plans[t.plan][t.queue[0]]
  }

  function WithRow(c: Console, p: nat, r: nat, row: Row): Console
    requires p < |c.plans| && r < |c.plans[p]|
  {
    c.(plans := c.plans[p := c.plans[p][r := row]])
  }

  // ---- dispatch, segment by segment ----

  // The finally block.
  function Finish(c: Console, plan: nat, version: nat): Console {
    if version == c.generation && c.current == Some(plan)
    then c.(active := false, controller := None, consent := false) else c
  }

  // The write itself: the last thing done before its await.
  function Send(c: Console, t: Task): (Console, Task)
    requires Grounded(c, t)
  {
    var row := RowOf(c, t);
    var sent := WithRow(c, t.plan, t.queue[0], row.(state := Sending)).(
      outbox := c.outbox + [Outgoing(t.plan, t.queue[0], t.abort, row.command.verb, row.command.resource, row.command.body, row.command.key)],
      trace := c.trace + [Wrote(t.abort, |c.outbox|)]);
    (sent, t.(pc := AwaitWrite(|c.outbox|)))
  }

  // The top of the loop, down to the first await of the next row.
  function BeginRow(c: Console, plan: nat, version: nat, queue: seq<nat>): (Console, Option<Task>)
    requires plan < |c.plans| && forall i :: 0 <= i < |queue| ==> queue[i] < |c.plans[plan]|
  {
    if queue == [] || c.stopped || version != c.generation then (Finish(c, plan, version), None)
    else
      var row := c.plans[plan][queue[0]];
      var replay := row.state.Uncertain?;
      var begun := c.(controller := Some(c.aborts), aborts := c.aborts + 1);
      if row.command.preflight.Some? && !replay then
        (WithRow(begun, plan, queue[0], row.(state := Checking, check := None)),
         Some(Task(plan, version, queue, replay, c.aborts, if row.command.pathTarget.Some? then AwaitPreview else AwaitPlan)))
      else
        var (sent, t) := Send(begun, Task(plan, version, queue, replay, c.aborts, AwaitPlan));
        (sent, Some(t))
  }

  function Park(c: (Console, Option<Task>), id: nat): Console
    requires id < |c.0.tasks|
  {
    c.0.(tasks := c.0.tasks[id := c.1])
  }

  // After a row settled: on with the rest of the queue.
  function NextRow(c: Console, id: nat, t: Task): Console
    requires id < |c.tasks| && Grounded(c, t)
  {
    Park(BeginRow(c, t.plan, t.version, t.queue[1..]), id)
  }

  function FailedState(t: Task, aborted: bool, status: Option<int>): RowState {
    if !t.replay && !aborted && status.Some? && CompleteRejection(status.value) then Rejected
    else if t.pc.AwaitWrite? || t.replay then Uncertain
    else PreflightFailed
  }

  // The catch block; `status` is the error's httpStatus, if it has one.
  function Fail(c: Console, id: nat, t: Task, status: Option<int>): Console
    requires id < |c.tasks| && Grounded(c, t)
  {
    var state := FailedState(t, t.abort in c.aborted, status);
    var failed := WithRow(c, t.plan, t.queue[0], RowOf(c, t).(state := state));
    if Blocked(state) then Park((Finish(failed, t.plan, t.version), None), id)
    else NextRow(failed, id, t)
  }

  function StatusOf<T>(a: Answer<T>): Option<int> {
    if a.Http? then Some(a.status) else None
  }

  function ResumePreview(c: Console, id: nat, t: Task, a: Answer<Preview>): Console
    requires id < |c.tasks| && Grounded(c, t) && RowOf(c, t).command.pathTarget.Some?
  {
    if !Live(c, t) then Park((c, None), id)
    else if a.Body? && t.abort !in c.aborted && !c.stopped && PreviewMatches(RowOf(c, t).command, a.value) then
      Park((c.(trace := c.trace + [Previewed(t.abort, t.plan, t.queue[0])]), Some(t.(pc := AwaitPlan))), id)
    else Fail(c, id, t, StatusOf(a))
  }

  function ResumePlan(c: Console, id: nat, t: Task, a: Answer<Plan>): Console
    requires id < |c.tasks| && Grounded(c, t) && RowOf(c, t).command.preflight.Some?
  {
    if !Live(c, t) then Park((c, None), id)
    else if !(a.Body? && t.abort !in c.aborted && PlanMatches(RowOf(c, t).command, a.value)) then Fail(c, id, t, StatusOf(a))
    else
      var checked := WithRow(c, t.plan, t.queue[0], RowOf(c, t).(check := a.value.profile)).(
        trace := c.trace + [Checked(t.abort, t.plan, t.queue[0], a.value.profile.value)]);
      if c.stopped then Fail(checked, id, t, None)
      else
        var (sent, parked) := Send(checked, t);
        Park((sent, Some(parked)), id)
  }

  function ResumeWrite(c: Console, id: nat, t: Task, a: Answer<Receipt>): Console
    requires id < |c.tasks| && Grounded(c, t)
  {
    if !Live(c, t) then Park((c, None), id)
    else if a.Body? && t.abort !in c.aborted && Recognized(RowOf(c, t).command, a.value) then
      NextRow(WithRow(c, t.plan, t.queue[0], RowOf(c, t).(state := if a.value.operationId.None? then Unchanged else Accepted, result := Some(a.value))), id, t)
    else Fail(c, id, t, StatusOf(a))
  }

  function PendingFrom(rows: seq<Row>, i: nat): (queue: seq<nat>)
    requires i <= |rows|
    ensures forall k :: 0 <= k < |queue| ==> i <= queue[k] < |rows| && rows[queue[k]].state.Pending?
    decreases |rows| - i
  {
    if i == |rows| then []
    else if rows[i].state.Pending? then [i] + PendingFrom(rows, i + 1)
    else PendingFrom(rows, i + 1)
  }

  // The filter keeps every pending row ...
  lemma {:induction false} PendingOccurs(rows: seq<Row>, i: nat, r: nat)
    requires i <= r < |rows|
    ensures r in PendingFrom(rows, i) <==> rows[r].state.Pending?
    decreases |rows| - i
  {
    if i < r {
      PendingOccurs(rows, i + 1, r);
    } else {
      assert r in PendingFrom(rows, i) ==> rows[r].state.Pending?;
      assert rows[r].state.Pending? ==> PendingFrom(rows, i)[0] == r;
    }
  }

  // ... once, in plan order.
  lemma {:induction false} PendingAscends(rows: seq<Row>, i: nat, j: nat, k: nat)
    requires i <= |rows| && j < k < |PendingFrom(rows, i)|
    ensures PendingFrom(rows, i)[j] < PendingFrom(rows, i)[k]
    decreases |rows| - i
  {
    if !rows[i].state.Pending? {
      PendingAscends(rows, i + 1, j, k);
    } else if j > 0 {
      PendingAscends(rows, i + 1, j - 1, k - 1);
    }
  }

  // A click on Start, or on the replay button of one row.
  function Start(c: Console, only: Option<nat>): Console
    requires c.current.Some? ==> c.current.value < |c.plans|
  {
    if c.active || c.current.None? || !c.consent then c else
    var rows := c.plans[c.current.value];
    if only.Some? && (only.value >= |rows| || !Blocked(rows[only.value].state)) then c
    else if only.None? && exists i :: 0 <= i < |rows| && Blocked(rows[i].state) then c
    else
      var queue := if only.Some? then [only.value] else PendingFrom(rows, 0);
      if queue == [] then c
      else Park(BeginRow(c.(active := true, stopped := false, tasks := c.tasks + [None]), c.current.value, c.generation, queue), |c.tasks|)
  }

  function Stop(c: Console): Console {
    c.(stopped := true, aborted := if c.controller.Some? then c.aborted + {c.controller.value} else c.aborted)
  }

  function Clear(c: Console): Console {
    Stop(c).(generation := c.generation + 1, current := None, active := false, controller := None, consent := false)
  }

  predicate Unfinished(c: Console)
    requires c.current.Some? ==> c.current.value < |c.plans|
  {
    && c.current.Some?
    && var rows := c.plans[c.current.value];
       exists i :: 0 <= i < |rows| && (rows[i].state.Pending? || Blocked(rows[i].state))
  }

  predicate MayDiscard(c: Console, confirmed: bool)
    requires c.current.Some? ==> c.current.value < |c.plans|
  {
    !c.active && (Unfinished(c) ==> confirmed)
  }

  function Discard(c: Console, confirmed: bool): Console
    requires c.current.Some? ==> c.current.value < |c.plans|
  {
    if MayDiscard(c, confirmed) then Clear(c) else c
  }

  function Fresh(commands: seq<Command>): seq<Row> {
    seq(|commands|, i requires 0 <= i < |commands| => Row(commands[i], Pending, None, None))
  }

  function Show(c: Console, commands: seq<Command>): Console {
    c.(plans := c.plans + [Fresh(commands)], current := Some(|c.plans|), stopped := false, consent := false)
  }

  // batch, profileBatch and pathBatch end alike: discard the old list, show the new one.
  function Prepare(c: Console, commands: seq<Command>, confirmed: bool): Console
    requires c.current.Some? ==> c.current.value < |c.plans|
  {
    if MayDiscard(c, confirmed) then Show(Clear(c), commands) else c
  }

  function BeginRetry(c: Console, confirmed: bool): Console
    requires c.current.Some? ==> c.current.value < |c.plans|
  {
    if !MayDiscard(c, confirmed) then c
    else
      var d := Clear(c);
      d.(controller := Some(d.aborts), aborts := d.aborts + 1, retries := d.retries + {Retry(d.generation, d.aborts)})
  }

  function EndRetry(c: Console, retry: Retry, command: Command): Console {
    var d := c.(retries := c.retries - {retry});
    if retry.version == c.generation && retry.abort !in c.aborted then Show(d, [command]) else d
  }
}

/** Every interleaving of the dispatcher with its user, its own stale coroutines and an unreliable server. */
module DispatchRuns {
  import opened Outcomes
  import opened RuleDispatch

  // What became of a write request: perhaps never anything; commits may come long after the client gave up.
  datatype Fate = InFlight | Committed | Refused

  datatype World = World(console: Console, fates: seq<Fate>, commits: seq<nat>)

  datatype Step =
    | DidPrepare(commands: seq<Command>, confirmed: bool)
    | DidClose(confirmed: bool)
    | SetConsent(checked: bool)
    | DidStart(only: Option<nat>)
    | DidStop
    | DidClear
    | DidBeginRetry(confirmed: bool)
    | DidEndRetry(retry: Retry, command: Command)
    | GotPreview(id: nat, preview: Answer<Preview>)
    | GotPlan(id: nat, plan: Answer<Plan>)
    | GotReceipt(id: nat, receipt: Answer<Receipt>)
    | Commit(request: nat)
    | Refuse(request: nat)

  predicate Parked(c: Console, id: nat) {
    id < |c.tasks| && c.tasks[id].Some? && Grounded(c, c.tasks[id].value)
  }

  predicate CurrentExists(c: Console) {
    c.current.Some? ==> c.current.value < |c.plans|
  }

  // newKey: no key is ever used twice.
  ghost predicate FreshKeys(c: Console, commands: seq<Command>) {
    && (forall i, j :: 0 <= i < j < |commands| ==> commands[i].key != commands[j].key)
    && forall i, p, r :: 0 <= i < |commands| && 0 <= p < |c.plans| && 0 <= r < |c.plans[p]| ==>
         commands[i].key != c.plans[p][r].command.key
  }

  // When a step can happen at all. The server is free except that a success answer to a write means it has
  // committed, and a complete client rejection means that this request has been refused for good.
  ghost predicate Enabled(w: World, step: Step) {
    var c := w.console;
    && CurrentExists(c) && |w.fates| == |c.outbox|
    && match step
       case DidPrepare(commands, _) => FreshKeys(c, commands)
       case DidEndRetry(retry, command) => retry in c.retries && FreshKeys(c, [command])
       case GotPreview(id, _) =>
         Parked(c, id) && c.tasks[id].value.pc.AwaitPreview? && RowOf(c, c.tasks[id].value).command.pathTarget.Some?
       case GotPlan(id, _) =>
         Parked(c, id) && c.tasks[id].value.pc.AwaitPlan? && RowOf(c, c.tasks[id].value).command.preflight.Some?
       case GotReceipt(id, a) =>
         && Parked(c, id) && c.tasks[id].value.pc.AwaitWrite? && c.tasks[id].value.pc.request < |w.fates|
         && (a.Body? ==> w.fates[c.tasks[id].value.pc.request].Committed?)
         && (a.Http? && CompleteRejection(a.status) ==> w.fates[c.tasks[id].value.pc.request].Refused?)
       case Commit(q) => q < |w.fates| && w.fates[q].InFlight?
       case Refuse(q) => q < |w.fates| && w.fates[q].InFlight?
       case _ => true
  }

  function Client(c: Console, step: Step): Console
    requires CurrentExists(c)
    requires step.GotPreview? ==> Parked(c, step.id) && RowOf(c, c.tasks[step.id].value).command.pathTarget.Some?
    requires step.GotPlan? ==> Parked(c, step.id) && RowOf(c, c.tasks[step.id].value).command.preflight.Some?
    requires step.GotReceipt? ==> Parked(c, step.id)
  {
    match step
    case DidPrepare(commands, confirmed) => Prepare(c, commands, confirmed)
    case DidClose(confirmed) => Discard(c, confirmed)
    case SetConsent(checked) => c.(consent := checked)
    case DidStart(only) => Start(c, only)
    case DidStop => Stop(c)
    case DidClear => Clear(c)
    case DidBeginRetry(confirmed) => BeginRetry(c, confirmed)
    case DidEndRetry(retry, command) => EndRetry(c, retry, command)
    case GotPreview(id, a) => ResumePreview(c, id, c.tasks[id].value, a)
    case GotPlan(id, a) => ResumePlan(c, id, c.tasks[id].value, a)
    case GotReceipt(id, a) => ResumeWrite(c, id, c.tasks[id].value, a)
    case Commit(_) => c
    case Refuse(_) => c
  }

  predicate KeyCommitted(w: World, key: string) {
    exists i :: 0 <= i < |w.commits| && w.commits[i] < |w.console.outbox| && w.console.outbox[w.commits[i]].key == key
  }

  function InFlightFor(n: nat): seq<Fate> {
    seq(n, i => InFlight)
  }

  // An idempotent server: a request whose key is already committed is answered, not committed again.
  function Next(w: World, step: Step): World
    requires Enabled(w, step)
  {
    var c := Client(w.console, step);
    match step
    case Commit(q) =>
      World(c, w.fates[q := Committed], if KeyCommitted(w, w.console.outbox[q].key) then w.commits else w.commits + [q])
    case Refuse(q) => World(c, w.fates[q := Refused], w.commits)
    case _ => World(c, if |c.outbox| > |w.fates| then w.fates + InFlightFor(|c.outbox| - |w.fates|) else w.fates, w.commits)
  }
}

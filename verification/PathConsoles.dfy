/**
 Path template authoring as the closure it is: variables reassigned between awaits. The object carries the run it has
 made so far, and every handler is one step of it.
 */
module TemplateConsole {
  import opened Outcomes
  import opened CommandTrace
  import opened PathTemplates
  import D = RuleDispatch

  lemma RunGrows(run: seq<State>, moves: seq<Step>, step: Step)
    requires IsRun(run, moves) && Enabled(run[|moves|], step)
    ensures IsRun(run + [Next(run[|moves|], step)], moves + [step])
  {
    var (states, steps) := (run + [Next(run[|moves|], step)], moves + [step]);
    forall i {:trigger steps[i]} | 0 <= i < |steps|
      ensures Enabled(states[i], steps[i]) && states[i + 1] == Next(states[i], steps[i])
    {
      if i < |moves| {
        assert steps[i] == moves[i];
      }
    }
  }

  class Authoring {
    var form: Form
    var epoch: nat
    var readVersion: nat
    var captureVersion: nat
    var pending: Option<Pending>
    var sending: bool
    var locks: Option<seq<Endpoint>>
    var stamp: Option<Draft>
    var captures: map<nat, Capture>
    var inspects: map<nat, Inspect>
    var sends: map<nat, Send>
    var tasks: nat
    var issued: nat
    var log: seq<Read>
    var trace: seq<Event<Order, (), Outcome>>
    ghost var run: seq<State>
    ghost var moves: seq<Step>

    // The object is at the end of a run.
    ghost predicate Valid()
      reads this
    {
      IsRun(run, moves) && run[|moves|] == Value()
    }

    ghost method Record(step: Step)
      requires Valid() && Enabled(Value(), step)
      modifies this`run, this`moves
      ensures IsRun(run, moves) && run[|moves|] == Next(Value(), step)
    {
      RunGrows(run, moves, step);
      run, moves := run + [Next(run[|moves|], step)], moves + [step];
    }

    function Value(): State
      reads this
    {
      State(form, epoch, readVersion, captureVersion, pending, sending, locks, stamp, captures, inspects, sends, tasks, issued, log, trace)
    }

    constructor ()
      ensures Valid() && Value() == Initial()
    {
      form, epoch, readVersion, captureVersion, pending, sending := BLANK, 0, 0, 0, None, false;
      locks, stamp, captures, inspects, sends := None, None, map[], map[], map[];
      tasks, issued, log, trace := 0, 0, [], [];
      run, moves := [Initial()], [];
    }

    method Forget()
      modifies this`captureVersion, this`readVersion, this`locks, this`stamp
      ensures Value() == old(Value()).(captureVersion := old(captureVersion) + 1, readVersion := old(readVersion) + 1, locks := None, stamp := None)
    {
      captureVersion, readVersion, locks, stamp := captureVersion + 1, readVersion + 1, None, None;
    }

    method Hold(endpoints: seq<Endpoint>, draft: Draft)
      modifies this`locks, this`stamp
      ensures Value() == old(Value()).(locks := Some(endpoints), stamp := Some(draft))
    {
      locks, stamp := Some(endpoints), Some(draft);
    }

    method Outdate()
      modifies this`captureVersion, this`readVersion, this`locks, this`stamp
      ensures Value() == Invalidated(old(Value()))
    {
      if pending.Some? {
        return;
      }
      Forget();
    }

    method Invalidate()
      requires Valid() && Enabled(Value(), DidInvalidate)
      modifies this
      ensures Valid() && Value() == Next(old(Value()), DidInvalidate)
    {
      Record(DidInvalidate);
      Outdate();
    }

    method Edit(fields: Form)
      requires Valid() && Enabled(Value(), DidEdit(fields))
      modifies this
      ensures Valid() && Value() == Next(old(Value()), DidEdit(fields))
    {
      Record(DidEdit(fields));
      if pending.Some? {
        return;
      }
      form := fields;
      Outdate();
    }

    method Capture()
      requires Valid() && Enabled(Value(), DidCapture)
      modifies this
      ensures Valid() && Value() == Next(old(Value()), DidCapture)
    {
      Record(DidCapture);
      if pending.Some? {
        return;
      }
      if form.draft.None? {
        captureVersion, readVersion := captureVersion + 1, readVersion + 1;
        return;
      }
      Forget();
      tasks, captures := tasks + 1, captures[tasks := PathTemplates.Capture.Capture(captureVersion, epoch, form.draft.value, [])];
    }

    method GotEndpoint(id: nat, reply: Option<Endpoint>)
      requires Valid() && Enabled(Value(), DidReadEndpoint(id, reply))
      modifies this
      ensures Valid() && Value() == Next(old(Value()), DidReadEndpoint(id, reply))
    {
      Record(DidReadEndpoint(id, reply));
      var c := captures[id];
      var was := captures;
      captures := captures - {id};
      if reply.None? || c.connection != epoch || c.version != captureVersion || pending.Some? || |c.endpoints| + 1 >= |c.draft.nodes| {
        return;
      }
      var endpoint := reply.value;
      if endpoint.nodeId != c.draft.nodes[|c.endpoints| + 1] || !D.IsRevision(endpoint.revision) {
        return;
      }
      var endpoints := c.endpoints + [endpoint];
      log := log + [EndpointRead(id, c.draft, endpoint)];
      if |endpoints| + 1 < |c.draft.nodes| {
        captures := was[id := c.(endpoints := endpoints)];
        return;
      }
      if form.draft != Some(c.draft) {
        return;
      }
      Hold(endpoints, c.draft);
    }

    method Inspect(template: string, requested: Requested)
      requires Valid() && Enabled(Value(), DidInspect(template, requested))
      modifies this
      ensures Valid() && Value() == Next(old(Value()), DidInspect(template, requested))
    {
      Record(DidInspect(template, requested));
      if pending.Some? {
        return;
      }
      Forget();
      if !D.IsId(template) || requested.Malformed? {
        return;
      }
      inspects, tasks := inspects[tasks := PathTemplates.Inspect.Inspect(readVersion, epoch, template, requested)], tasks + 1;
    }

    method GotRecord(id: nat, reply: Option<Record>)
      requires Valid() && Enabled(Value(), DidReadRecord(id, reply))
      modifies this
      ensures Valid() && Value() == Next(old(Value()), DidReadRecord(id, reply))
    {
      Record(DidReadRecord(id, reply));
      AfterRecord(id, reply);
    }

    method AfterRecord(id: nat, reply: Option<Record>)
      requires id in inspects
      modifies this`inspects, this`captureVersion, this`form, this`locks, this`stamp, this`log
      ensures Value() == Inspection(old(Value()), id, reply)
    {
      var i := inspects[id];
      inspects := inspects - {id};
      if reply.None? || i.connection != epoch || i.version != readVersion || pending.Some? || !RecordOk(i, reply.value) {
        return;
      }
      var config := reply.value.config;
      captureVersion, log := captureVersion + 1, log + [Inspected(config)];
      form := Form(i.template, Some(reply.value.currentRevision), Some(DraftOf(config)));
      Hold(config.endpoints, DraftOf(config));
    }

    method Keep(command: Order)
      modifies this`pending, this`issued, this`readVersion, this`captureVersion, this`trace
      ensures Value() == Remember(old(Value()), command)
    {
      pending, issued, readVersion, captureVersion, trace :=
        Some(Pending(issued, command)), issued + 1, readVersion + 1, captureVersion + 1, trace + [Began(command)];
    }

    method Write(replay: bool)
      requires pending.Some?
      modifies this`sending, this`sends, this`tasks, this`trace
      ensures Value() == Transmit(old(Value()), replay)
    {
      sending, sends, tasks, trace :=
        true, sends[tasks := Send(epoch, replay, pending.value)], tasks + 1, trace + [Wrote(pending.value.command)];
    }

    method Command(verb: Verb, confirmed: bool, key: string)
      requires Valid() && Enabled(Value(), DidCommand(verb, confirmed, key))
      modifies this
      ensures Valid() && Value() == Next(old(Value()), DidCommand(verb, confirmed, key))
    {
      Record(DidCommand(verb, confirmed, key));
      if sending {
        return;
      }
      var replay := pending.Some?;
      if pending.Some? {
        if pending.value.command.verb != verb || !confirmed {
          return;
        }
      } else {
        var input := Compose(Value(), verb);
        if input.None? || !confirmed {
          return;
        }
        Keep(Order(verb, form.template, input.value, key));
      }
      Write(replay);
    }

    // The remembered command ends.
    method Settle(reason: Reason<Outcome>)
      modifies this`pending, this`sending, this`trace
      ensures Value() == old(Value()).(pending := None, sending := false, trace := old(trace) + [Settled(reason)])
    {
      pending, sending, trace := None, false, trace + [Settled(reason)];
    }

    method Fail(t: Send, status: Option<int>)
      modifies this`sending, this`pending, this`trace
      ensures Value() == Failed(old(Value()), t, status)
    {
      if t.connection != epoch {
        return;
      }
      if pending.Some? && !t.replay && status.Some? && D.CompleteRejection(status.value) {
        Settle(Rejected);
      } else {
        sending := false;
      }
    }

    method GotOutcome(id: nat, reply: D.Answer<Outcome>)
      requires Valid() && Enabled(Value(), DidAnswer(id, reply))
      modifies this
      ensures Valid() && Value() == Next(old(Value()), DidAnswer(id, reply))
    {
      Record(DidAnswer(id, reply));
      AfterOutcome(id, reply);
    }

    method AfterOutcome(id: nat, reply: D.Answer<Outcome>)
      requires id in sends
      modifies this`sends, this`sending, this`pending, this`trace, this`form
      ensures Value() == Answered(old(Value()), id, reply)
    {
      var t := sends[id];
      sends := sends - {id};
      match reply
      case Http(status) => Fail(t, Some(status));
      case Broken => Fail(t, None);
      case Body(result) =>
        if t.connection != epoch || pending != Some(t.original) {
          return;
        }
        if !ValidOutcome(t.original.command, result) {
          Fail(t, None);
          return;
        }
        Settle(Accepted(result));
        form := form.(expected := Some(result.revision));
    }

    method Reset()
      modifies this`trace, this`pending, this`epoch, this`sending, this`form, this`captureVersion, this`readVersion, this`locks, this`stamp
      ensures Value() == Cleared(old(Value()))
    {
      if pending.Some? {
        Settle(Dropped);
      }
      Forget();
      epoch, sending, form := epoch + 1, false, BLANK;
    }

    method Clear()
      requires Valid() && Enabled(Value(), DidClear)
      modifies this
      ensures Valid() && Value() == Next(old(Value()), DidClear)
    {
      Record(DidClear);
      Reset();
    }

    method Discard(confirmed: bool)
      requires Valid() && Enabled(Value(), DidDiscard(confirmed))
      modifies this
      ensures Valid() && Value() == Next(old(Value()), DidDiscard(confirmed))
    {
      Record(DidDiscard(confirmed));
      if pending.Some? && confirmed {
        Reset();
      }
    }

    // At any moment, a write that differs from an earlier one follows the end of the earlier command, and a published
    // config comes from one reading of its own proposal.
    lemma Trusted(i: nat, j: nat)
      requires Valid() && i < j < |trace| && trace[i].Wrote? && trace[j].Wrote?
      ensures trace[i].written == trace[j].written || exists k :: i < k < j && trace[k].Settled?
      ensures trace[j].written.verb.Publish? ==>
                && trace[j].written.input.config.Some? && ConfigOk(trace[j].written.input.config.value)
                && Sourced(log, ProposalOf(trace[j].written.input.config.value), trace[j].written.input.config.value.endpoints)
    {
      PendingIsNeverReplaced(run, moves, |moves|, i, j);
      if trace[j].written.verb.Publish? {
        PublishedFromOneReading(run, moves, |moves|, j);
      }
    }
  }
}

/** The path switch as the closure it is, with the run it has made so far. */
module SwitchConsole {
  import opened Outcomes
  import opened CommandTrace
  import opened PathSwitch
  import D = RuleDispatch
  import T = PathTemplates

  lemma RunGrows(run: seq<State>, moves: seq<Step>, step: Step)
    requires IsRun(run, moves) && Enabled(run[|moves|], step)
    ensures IsRun(run + [Next(run[|moves|], step)], moves + [step])
  {
    var (states, steps) := (run + [Next(run[|moves|], step)], moves + [step]);
    forall i {:trigger steps[i]} | 0 <= i < |steps|
      ensures Enabled(states[i], steps[i]) && states[i + 1] == Next(states[i], steps[i])
    {
      if i < |moves| {
        assert steps[i] == moves[i];
      }
    }
  }

  class Switch {
    var form: Form
    var epoch: nat
    var version: nat
    var locked: Option<Locked>
    var proposal: Option<Proposal>
    var pending: Option<Pending>
    var sending: bool
    var lockings: map<nat, Locking>
    var preparings: map<nat, Preparing>
    var submits: map<nat, Submit>
    var tasks: nat
    var issued: nat
    var log: seq<Prepared>
    var trace: seq<Event<Order, D.Plan, D.Receipt>>
    ghost var run: seq<State>
    ghost var moves: seq<Step>

    // The object is at the end of a run.
    ghost predicate Valid()
      reads this
    {
      IsRun(run, moves) && run[|moves|] == Value()
    }

    ghost method Record(step: Step)
      requires Valid() && Enabled(Value(), step)
      modifies this`run, this`moves
      ensures IsRun(run, moves) && run[|moves|] == Next(Value(), step)
    {
      RunGrows(run, moves, step);
      run, moves := run + [Next(run[|moves|], step)], moves + [step];
    }

    function Value(): State
      reads this
    {
      State(form, epoch, version, locked, proposal, pending, sending, lockings, preparings, submits, tasks, issued, log, trace)
    }

    constructor ()
      ensures Valid() && Value() == Initial()
    {
      form, epoch, version, locked, proposal, pending, sending := BLANK, 0, 0, None, None, None, false;
      lockings, preparings, submits := map[], map[], map[];
      tasks, issued, log, trace := 0, 0, [], [];
      run, moves := [Initial()], [];
    }

    method Outdate(target: bool)
      modifies this`version, this`proposal, this`locked
      ensures Value() == Invalidated(old(Value()), target)
    {
      if pending.Some? {
        return;
      }
      version, proposal := version + 1, None;
      if target {
        locked := None;
      }
    }

    method Invalidate(target: bool)
      requires Valid() && Enabled(Value(), DidInvalidate(target))
      modifies this
      ensures Valid() && Value() == Next(old(Value()), DidInvalidate(target))
    {
      Record(DidInvalidate(target));
      Outdate(target);
    }

    method Unlock()
      modifies this`version, this`locked, this`proposal
      ensures Value() == old(Value()).(version := old(version) + 1, locked := None, proposal := None)
    {
      version, locked, proposal := version + 1, None, None;
    }

    method Edit(fields: Form)
      requires Valid() && Enabled(Value(), DidEdit(fields))
      modifies this
      ensures Valid() && Value() == Next(old(Value()), DidEdit(fields))
    {
      Record(DidEdit(fields));
      if pending.Some? {
        return;
      }
      var target := fields.template != form.template || fields.revision != form.revision;
      form := fields;
      Outdate(target);
    }

    method Lock()
      requires Valid() && Enabled(Value(), DidLock)
      modifies this
      ensures Valid() && Value() == Next(old(Value()), DidLock)
    {
      Record(DidLock);
      if pending.Some? {
        return;
      }
      Outdate(true);
      version := version + 1;
      if !D.IsId(form.template) || form.revision.None? {
        return;
      }
      lockings, tasks := lockings[tasks := Locking(epoch, version, form.template, form.revision.value)], tasks + 1;
    }

    method GotTemplate(id: nat, reply: Option<(T.Record, bool, string, string)>)
      requires Valid() && Enabled(Value(), DidReadTemplate(id, reply))
      modifies this
      ensures Valid() && Value() == Next(old(Value()), DidReadTemplate(id, reply))
    {
      Record(DidReadTemplate(id, reply));
      var l := lockings[id];
      lockings := lockings - {id};
      if reply.None? || l.connection != epoch || l.token != version || pending.Some? {
        return;
      }
      var (record, archived, configDigest, profileDigest) := reply.value;
      if !RecordOk(l, record, archived) {
        return;
      }
      locked := Some(Locked(D.Template(l.template, l.revision, configDigest), profileDigest, record.config));
    }

    method Prepare()
      requires Valid() && Enabled(Value(), DidPrepare)
      modifies this
      ensures Valid() && Value() == Next(old(Value()), DidPrepare)
    {
      Record(DidPrepare);
      if pending.Some? {
        return;
      }
      Outdate(false);
      version := version + 1;
      if || locked.None? || locked.value.template.id != form.template || form.revision != Some(locked.value.template.revision)
         || !D.IsId(form.forward) || form.expected.None?
      {
        return;
      }
      preparings, tasks := preparings[tasks := Preparing(epoch, version, form.forward, form.expected.value, locked.value)], tasks + 1;
    }

    method GotPreview(id: nat, reply: Option<Preview>)
      requires Valid() && Enabled(Value(), DidPreview(id, reply))
      modifies this
      ensures Valid() && Value() == Next(old(Value()), DidPreview(id, reply))
    {
      Record(DidPreview(id, reply));
      AfterPreview(id, reply);
    }

    method AfterPreview(id: nat, reply: Option<Preview>)
      requires id in preparings
      modifies this`preparings, this`proposal, this`log
      ensures Value() == PrepareAnswered(old(Value()), id, reply)
    {
      var p := preparings[id];
      preparings := preparings - {id};
      if p.connection != epoch || p.token != version || (reply.Some? && pending.Some?) {
        return;
      }
      if reply.None? || !PreviewOk(p, reply.value) || locked.None? {
        proposal := None;
        return;
      }
      proposal, log := Some(ProposalOf(p, reply.value, locked.value.profileDigest)), log + [Prepared(reply.value, locked.value)];
    }

    method Submit(confirmed: bool, key: string)
      requires Valid() && Enabled(Value(), DidSubmit(confirmed, key))
      modifies this
      ensures Valid() && Value() == Next(old(Value()), DidSubmit(confirmed, key))
    {
      Record(DidSubmit(confirmed, key));
      BeginSubmit(confirmed, key);
    }

    method BeginSubmit(confirmed: bool, key: string)
      modifies this`pending, this`issued, this`version, this`trace, this`sending, this`submits, this`tasks
      ensures Value() == Submitted(old(Value()), confirmed, key)
    {
      if sending || (pending.None? && proposal.None?) || !confirmed {
        return;
      }
      if pending.Some? {
        pending := Some(pending.value.(sent := true));
        trace := trace + [Wrote(pending.value.command)];
        Park(PathSwitch.Submit.Submit(epoch, true, pending.value.serial, AwaitWrite));
      } else {
        var command := Order(proposal.value, key);
        pending, issued, version := Some(Pending(issued, command, false)), issued + 1, version + 1;
        trace := trace + [Began(command)];
        Park(PathSwitch.Submit.Submit(epoch, false, pending.value.serial, AwaitPlan));
      }
    }

    method Park(submit: PathSwitch.Submit)
      modifies this`sending, this`submits, this`tasks
      ensures Value() == old(Value()).(sending := true, submits := old(submits)[old(tasks) := submit], tasks := old(tasks) + 1)
    {
      sending, submits, tasks := true, submits[tasks := submit], tasks + 1;
    }

    // The remembered command ends.
    method Settle(reason: Reason<D.Receipt>)
      modifies this`pending, this`sending, this`trace
      ensures Value() == old(Value()).(pending := None, sending := false, trace := old(trace) + [Settled(reason)])
    {
      pending, sending, trace := None, false, trace + [Settled(reason)];
    }

    method Fail(t: PathSwitch.Submit, status: Option<int>)
      modifies this`sending, this`proposal, this`pending, this`trace
      ensures Value() == Failed(old(Value()), t, status)
    {
      if t.connection != epoch {
        return;
      }
      proposal := None;
      if pending.Some? && !pending.value.sent {
        Settle(Unsent);
      } else if pending.Some? && !t.replay && status.Some? && D.CompleteRejection(status.value) {
        Settle(Rejected);
      } else {
        sending := false;
      }
    }

    method GotPlan(id: nat, reply: D.Answer<D.Plan>)
      requires Valid() && Enabled(Value(), DidPlan(id, reply))
      modifies this
      ensures Valid() && Value() == Next(old(Value()), DidPlan(id, reply))
    {
      Record(DidPlan(id, reply));
      AfterPlan(id, reply);
    }

    method AfterPlan(id: nat, reply: D.Answer<D.Plan>)
      requires id in submits
      modifies this`submits, this`trace, this`pending, this`sending, this`proposal
      ensures Value() == PlanAnswered(old(Value()), id, reply)
    {
      var t := submits[id];
      var was := submits;
      submits := submits - {id};
      match reply
      case Http(status) => Fail(t, Some(status));
      case Broken => Fail(t, None);
      case Body(plan) =>
        if Stale(Value(), t) {
          return;
        }
        if !PlanOk(pending.value.command, plan) {
          Fail(t, None);
          return;
        }
        trace := trace + [Checked(plan)];
        pending, trace, submits :=
          Some(pending.value.(sent := true)), trace + [Wrote(pending.value.command)], was[id := t.(stage := AwaitWrite)];
    }

    method GotReceipt(id: nat, reply: D.Answer<D.Receipt>)
      requires Valid() && Enabled(Value(), DidWrite(id, reply))
      modifies this
      ensures Valid() && Value() == Next(old(Value()), DidWrite(id, reply))
    {
      Record(DidWrite(id, reply));
      AfterWrite(id, reply);
    }

    method AfterWrite(id: nat, reply: D.Answer<D.Receipt>)
      requires id in submits
      modifies this`submits, this`trace, this`pending, this`sending, this`proposal, this`form
      ensures Value() == WriteAnswered(old(Value()), id, reply)
    {
      var t := submits[id];
      submits := submits - {id};
      match reply
      case Http(status) => Fail(t, Some(status));
      case Broken => Fail(t, None);
      case Body(receipt) =>
        if Stale(Value(), t) {
          return;
        }
        if !ReceiptOk(pending.value.command, receipt) {
          Fail(t, None);
          return;
        }
        Settle(Accepted(receipt));
        proposal, form := None, form.(expected := Some(receipt.revision));
    }

    method Reset()
      modifies this`trace, this`pending, this`epoch, this`version, this`locked, this`proposal, this`sending, this`form
      ensures Value() == Cleared(old(Value()))
    {
      if pending.Some? {
        Settle(Dropped);
      }
      Unlock();
      epoch, sending, form := epoch + 1, false, BLANK;
    }

    method Clear()
      requires Valid() && Enabled(Value(), DidClear)
      modifies this
      ensures Valid() && Value() == Next(old(Value()), DidClear)
    {
      Record(DidClear);
      Reset();
    }

    method Discard(confirmed: bool)
      requires Valid() && Enabled(Value(), DidDiscard(confirmed))
      modifies this
      ensures Valid() && Value() == Next(old(Value()), DidDiscard(confirmed))
    {
      Record(DidDiscard(confirmed));
      if pending.Some? && confirmed {
        Reset();
      }
    }

    // At any moment, a write that differs from an earlier one follows the end of the earlier command, and what was
    // written was previewed for exactly that request.
    lemma Trusted(i: nat, j: nat)
      requires Valid() && i < j < |trace| && trace[i].Wrote? && trace[j].Wrote?
      ensures trace[i].written == trace[j].written || exists k :: i < k < j && trace[k].Settled?
      ensures Backed(log, trace[j].written.proposal)
    {
      PendingIsNeverReplaced(run, moves, |moves|, i, j);
      WrittenAsPreviewed(run, moves, |moves|, j);
    }
  }
}

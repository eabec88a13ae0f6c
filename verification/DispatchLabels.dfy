/** What the row labels mean, in every run, whatever the server does. */
module DispatchLabels {
  import opened Outcomes
  import opened RuleDispatch
  import opened DispatchRuns
  import opened DispatchInvariant
  import opened DispatchSteps

  predicate InRange(c: Console, p: int, r: int) {
    0 <= p < |c.plans| && 0 <= r < |c.plans[p]|
  }

  // At most one row settles in a step, and at most one other row goes in flight.
  datatype Verdict = Verdict(plan: nat, row: nat, state: RowState)

  ghost predicate SentOk(c: Console, d: Console) {
    || d.outbox == c.outbox
    || (&& |d.outbox| == |c.outbox| + 1
        && var o := d.outbox[|c.outbox|];
           c.current == Some(o.plan) && o.plan < |c.plans| && InRange(d, o.plan, o.row) && d.plans[o.plan][o.row].state.Sending?)
  }

  ghost predicate Effect(c: Console, d: Console, v: Option<Verdict>) {
    && Extends(c, d) && SentOk(c, d)
    && (d.current == c.current || d.current.None? || d.current == Some(|c.plans|))
    && (forall p, r :: InRange(c, p, r) ==> InRange(d, p, r))
    && (forall p, r :: InRange(c, p, r) && d.plans[p][r].state != c.plans[p][r].state ==>
          || (v == Some(Verdict(p, r, d.plans[p][r].state)) && InFlightState(c.plans[p][r].state))
          || (InFlightState(d.plans[p][r].state) && !Terminal(c.plans[p][r].state) && !c.plans[p][r].state.Sending?
              && (c.plans[p][r].state.Uncertain? ==> d.plans[p][r].state.Sending?)))
    && (forall p, r :: InRange(d, p, r) && p >= |c.plans| ==> d.plans[p][r].state.Pending?)
    && (forall p :: 0 <= p < |c.plans| && c.current != Some(p) ==> d.plans[p] == c.plans[p])
  }

  // BeginRow touches only the row in hand.
  lemma BeginEffect(c: Console, id: nat, plan: nat, version: nat, queue: seq<nat>)
    requires plan < |c.plans| && c.current == Some(plan) && id < |c.tasks|
    requires forall i :: 0 <= i < |queue| ==> queue[i] < |c.plans[plan]|
    requires queue != [] ==> !Terminal(c.plans[plan][queue[0]].state) && !InFlightState(c.plans[plan][queue[0]].state)
    ensures Effect(c, Park(BeginRow(c, plan, version, queue), id), None)
  {
    var d := Park(BeginRow(c, plan, version, queue), id);
    forall p | 0 <= p < |c.plans|
      ensures SameCommands(c.plans[p], d.plans[p])
    {
    }
  }

  lemma SettleEffect(c: Console, d: Console, e: Console, p: nat, r: nat, row: Row)
    requires InRange(c, p, r) && c.current == Some(p) && row.command == c.plans[p][r].command
    requires d.plans == c.plans[p := c.plans[p][r := row]] && d.outbox == c.outbox && c.trace <= d.trace && d.current == c.current
    requires Effect(d, e, None) && Terminal(row.state) && InFlightState(c.plans[p][r].state)
    ensures Effect(c, e, Some(Verdict(p, r, row.state)))
  {
    assert Extends(c, d) by {
      forall u | 0 <= u < |c.plans|
        ensures SameCommands(c.plans[u], d.plans[u])
      {
      }
    }
    ExtendsTransitive(c, d, e);
    forall u, v | InRange(c, u, v)
      ensures InRange(e, u, v)
    {
      assert InRange(d, u, v);
    }
  }

  // One row rewritten, nothing sent.
  lemma RewriteEffect(c: Console, d: Console, p: nat, r: nat, row: Row)
    requires InRange(c, p, r) && InFlightState(c.plans[p][r].state) && c.current == Some(p) && row.command == c.plans[p][r].command
    requires d.plans == c.plans[p := c.plans[p][r := row]] && d.outbox == c.outbox && c.trace <= d.trace && d.current == c.current
    ensures Effect(c, d, Some(Verdict(p, r, row.state)))
  {
    assert Extends(c, d) by {
      forall u | 0 <= u < |c.plans|
        ensures SameCommands(c.plans[u], d.plans[u])
      {
      }
    }
  }

  lemma NothingEffect(c: Console, d: Console)
    requires d.plans == c.plans && d.outbox == c.outbox && c.trace <= d.trace && (d.current == c.current || d.current.None?)
    ensures Effect(c, d, None)
  {
  }

  // The row may have gained a check mark between `c` and `b`, in which case the log grew too.
  lemma FailEffect(c: Console, b: Console, id: nat, t: Task, status: Option<int>)
    requires Inv(b) && IsLive(b, id) && b.tasks[id] == Some(t)
    requires Grounded(c, t) && c.current == Some(t.plan) == b.current && Grounded(b, t)
    requires b.plans == c.plans[t.plan := c.plans[t.plan][t.queue[0] := RowOf(b, t)]] && RowOf(b, t).command == RowOf(c, t).command
    requires b.outbox == c.outbox && c.trace <= b.trace && InFlightState(RowOf(c, t).state)
    ensures Effect(c, Fail(b, id, t, status), Some(Verdict(t.plan, t.queue[0], FailedState(t, t.abort in b.aborted, status))))
  {
    var state := FailedState(t, t.abort in b.aborted, status);
    var row := RowOf(b, t).(state := state);
    var failed := WithRow(b, t.plan, t.queue[0], row);
    RewriteTwice(c.plans, t.plan, t.queue[0], RowOf(b, t), row);
    if Blocked(state) {
      RewriteEffect(c, Fail(b, id, t, status), t.plan, t.queue[0], row);
    } else {
      NextEffect(c, failed, b, id, t, row);
    }
  }

  lemma RewriteTwice(plans: seq<seq<Row>>, p: nat, r: nat, a: Row, b: Row)
    requires p < |plans| && r < |plans[p]|
    ensures var once := plans[p := plans[p][r := a]];
            once[p := once[p][r := b]] == plans[p := plans[p][r := b]]
    ensures plans[p := plans[p][r := plans[p][r]]] == plans
  {
    assert plans[p][r := a][r := b] == plans[p][r := b];
    assert plans[p][r := plans[p][r]] == plans[p];
  }

  lemma FailHere(c: Console, id: nat, t: Task, status: Option<int>)
    requires Inv(c) && IsLive(c, id) && c.tasks[id] == Some(t) && Grounded(c, t) && c.current == Some(t.plan)
    ensures Effect(c, Fail(c, id, t, status), Some(Verdict(t.plan, t.queue[0], FailedState(t, t.abort in c.aborted, status))))
  {
    RewriteTwice(c.plans, t.plan, t.queue[0], RowOf(c, t), RowOf(c, t));
    assert Running(c, t);
    FailEffect(c, c, id, t, status);
  }

  lemma NextEffect(c: Console, settled: Console, b: Console, id: nat, t: Task, row: Row)
    requires Inv(b) && IsLive(b, id) && b.tasks[id] == Some(t)
    requires Grounded(c, t) && c.current == Some(t.plan) == b.current && row.command == RowOf(c, t).command && Terminal(row.state)
    requires Grounded(b, t) && settled == WithRow(b, t.plan, t.queue[0], row)
    requires settled.plans == c.plans[t.plan := c.plans[t.plan][t.queue[0] := row]]
    requires b.outbox == c.outbox && c.trace <= b.trace && InFlightState(RowOf(c, t).state)
    ensures Effect(c, NextRow(settled, id, t), Some(Verdict(t.plan, t.queue[0], row.state)))
  {
    assert TaskOk(b, t) && Running(b, t) && Shaped(b.plans[t.plan]);
    SettledRows(b, settled, t);
    BeginEffect(settled, id, t.plan, t.version, t.queue[1..]);
    SettleEffect(c, settled, NextRow(settled, id, t), t.plan, t.queue[0], row);
  }

  // The verdict a resumed task may reach on its row.
  ghost predicate Reached(w: World, step: Step, id: nat, v: Verdict) {
    var c := w.console;
    && IsLive(c, id) && Grounded(c, c.tasks[id].value)
    && var t := c.tasks[id].value;
    && v.plan == t.plan && v.row == t.queue[0] && (Terminal(v.state) || Blocked(v.state))
    && (v.state.Rejected? ==> !t.replay)
    && (v.state.PreflightFailed? ==> !t.pc.AwaitWrite?)
    && (v.state.Rejected? && t.pc.AwaitWrite? ==> t.pc.request < |w.fates| && w.fates[t.pc.request].Refused?)
    && (v.state.Accepted? || v.state.Unchanged? ==>
          t.pc.AwaitWrite? && t.pc.request < |w.fates| && w.fates[t.pc.request].Committed?)
  }

  lemma PreviewEffect(w: World, id: nat, a: Answer<Preview>) returns (v: Option<Verdict>)
    requires Inv(w.console) && Enabled(w, GotPreview(id, a))
    ensures Effect(w.console, Client(w.console, GotPreview(id, a)), v)
    ensures v.Some? ==> Reached(w, GotPreview(id, a), id, v.value)
  {
    var (c, t) := (w.console, w.console.tasks[id].value);
    var d := Client(c, GotPreview(id, a));
    assert TaskOk(c, t);
    if !Live(c, t) || (a.Body? && t.abort !in c.aborted && !c.stopped && PreviewMatches(RowOf(c, t).command, a.value)) {
      v := None;
      NothingEffect(c, d);
    } else {
      v := Some(Verdict(t.plan, t.queue[0], FailedState(t, t.abort in c.aborted, StatusOf(a))));
      FailHere(c, id, t, StatusOf(a));
    }
  }

  lemma PlanEffect(w: World, id: nat, a: Answer<Plan>) returns (v: Option<Verdict>)
    requires Inv(w.console) && Enabled(w, GotPlan(id, a))
    ensures Effect(w.console, Client(w.console, GotPlan(id, a)), v)
    ensures v.Some? ==> Reached(w, GotPlan(id, a), id, v.value)
  {
    var (c, t) := (w.console, w.console.tasks[id].value);
    var d := Client(c, GotPlan(id, a));
    assert TaskOk(c, t);
    if !Live(c, t) {
      v := None;
      NothingEffect(c, d);
    } else if !(a.Body? && t.abort !in c.aborted && PlanMatches(RowOf(c, t).command, a.value)) {
      v := Some(Verdict(t.plan, t.queue[0], FailedState(t, t.abort in c.aborted, StatusOf(a))));
      FailHere(c, id, t, StatusOf(a));
    } else {
      var profile := a.value.profile.value;
      var checked := WithRow(c, t.plan, t.queue[0], RowOf(c, t).(check := Some(profile))).(
        trace := c.trace + [Checked(t.abort, t.plan, t.queue[0], profile)]);
      CheckedKeeps(c, checked, id, t, profile);
      assert Running(c, t);
      if c.stopped {
        v := Some(Verdict(t.plan, t.queue[0], FailedState(t, t.abort in c.aborted, None)));
        FailEffect(c, checked, id, t, None);
      } else {
        v := None;
        SentEffect(c, checked, d, t);
      }
    }
  }

  lemma SentEffect(c: Console, checked: Console, d: Console, t: Task)
    requires Grounded(c, t) && c.current == Some(t.plan) && RowOf(c, t).state.Checking?
    requires Grounded(checked, t) && RowOf(checked, t).command == RowOf(c, t).command
    requires checked.plans == c.plans[t.plan := c.plans[t.plan][t.queue[0] := RowOf(checked, t)]]
    requires checked.outbox == c.outbox && c.trace <= checked.trace && checked.current == c.current
    requires d == Send(checked, t).0.(tasks := d.tasks)
    ensures Effect(c, d, None)
  {
    RewriteTwice(c.plans, t.plan, t.queue[0], RowOf(checked, t), RowOf(checked, t).(state := Sending));
    assert Extends(c, d) by {
      forall u | 0 <= u < |c.plans|
        ensures SameCommands(c.plans[u], d.plans[u])
      {
      }
    }
  }

  lemma ReceiptEffect(w: World, id: nat, a: Answer<Receipt>) returns (v: Option<Verdict>)
    requires Inv(w.console) && Enabled(w, GotReceipt(id, a))
    ensures Effect(w.console, Client(w.console, GotReceipt(id, a)), v)
    ensures v.Some? ==> Reached(w, GotReceipt(id, a), id, v.value)
  {
    var (c, t) := (w.console, w.console.tasks[id].value);
    var d := Client(c, GotReceipt(id, a));
    assert TaskOk(c, t);
    if !Live(c, t) {
      v := None;
      NothingEffect(c, d);
    } else if a.Body? && t.abort !in c.aborted && Recognized(RowOf(c, t).command, a.value) {
      var row := RowOf(c, t).(state := if a.value.operationId.None? then Unchanged else Accepted, result := Some(a.value));
      v := Some(Verdict(t.plan, t.queue[0], row.state));
      assert Running(c, t);
      NextEffect(c, WithRow(c, t.plan, t.queue[0], row), c, id, t, row);
    } else {
      v := Some(Verdict(t.plan, t.queue[0], FailedState(t, t.abort in c.aborted, StatusOf(a))));
      FailHere(c, id, t, StatusOf(a));
    }
  }

  lemma ShowEffect(c: Console, b: Console, commands: seq<Command>)
    requires b.plans == c.plans && b.outbox == c.outbox && b.trace == c.trace
    ensures Effect(c, Show(b, commands), None)
  {
  }

  lemma StartEffect(c: Console, only: Option<nat>)
    requires Inv(c)
    ensures Effect(c, Start(c, only), None)
  {
    var d := Start(c, only);
    if d == c {
      NothingEffect(c, d);
    } else {
      var queue := if only.Some? then [only.value] else PendingFrom(c.plans[c.current.value], 0);
      var b := c.(active := true, stopped := false, tasks := c.tasks + [None]);
      assert Settled(c.plans[c.current.value]);
      BeginEffect(b, |c.tasks|, c.current.value, c.generation, queue);
      SameRowsEffect(c, b, d);
    }
  }

  lemma SameRowsEffect(c: Console, b: Console, d: Console)
    requires Effect(b, d, None) && b.plans == c.plans && b.outbox == c.outbox && b.trace == c.trace && b.current == c.current
    ensures Effect(c, d, None)
  {
    forall p, r | InRange(c, p, r)
      ensures InRange(d, p, r)
    {
      assert InRange(b, p, r);
    }
  }

  lemma StepEffect(w: World, step: Step) returns (v: Option<Verdict>, id: nat)
    requires Inv(w.console) && Enabled(w, step)
    ensures Effect(w.console, Client(w.console, step), v)
    ensures v.Some? ==> Reached(w, step, id, v.value)
  {
    var c := w.console;
    v, id := None, 0;
    match step
    case GotPreview(i, a) => id := i; v := PreviewEffect(w, i, a);
    case GotPlan(i, a) => id := i; v := PlanEffect(w, i, a);
    case GotReceipt(i, a) => id := i; v := ReceiptEffect(w, i, a);
    case DidStart(only) => StartEffect(c, only);
    case DidPrepare(commands, confirmed) =>
      if MayDiscard(c, confirmed) { ShowEffect(c, Clear(c), commands); } else { NothingEffect(c, c); }
    case DidEndRetry(retry, command) =>
      var b := c.(retries := c.retries - {retry});
      if retry.version == c.generation && retry.abort !in c.aborted { ShowEffect(c, b, [command]); } else { NothingEffect(c, b); }
    case _ => NothingEffect(c, Client(c, step));
  }
}

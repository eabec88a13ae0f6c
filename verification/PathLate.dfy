/** Late metadata in path template authoring: a reading is used only if the form is still the one it was started from. */
module PathLate {
  import opened Outcomes
  import opened PathTemplates
  import D = RuleDispatch

  // ---- tokens ----

  // Task numbers are fresh, and every inspection has its own token, no newer than the current one.
  ghost predicate TokensOk(s: State) {
    && (forall id :: id in s.inspects ==> id < s.tasks && s.inspects[id].version <= s.readVersion)
    && (forall id :: id in s.captures ==> id < s.tasks && s.captures[id].version <= s.captureVersion)
    && forall a, b :: a in s.inspects && b in s.inspects && s.inspects[a].version == s.inspects[b].version ==> a == b
  }

  // At most one inspection and one capture is added, under the next task number, with a token newer than before.
  ghost predicate Adds(s: State, t: State) {
    && s.tasks <= t.tasks && s.readVersion <= t.readVersion && s.captureVersion <= t.captureVersion
    && (forall id :: id in t.inspects && (id !in s.inspects || t.inspects[id] != s.inspects[id]) ==>
          id == s.tasks < t.tasks && s.readVersion < t.inspects[id].version <= t.readVersion)
    && forall id :: id in t.captures && (id !in s.captures || t.captures[id].version != s.captures[id].version) ==>
          id == s.tasks < t.tasks && s.captureVersion < t.captures[id].version <= t.captureVersion
  }

  lemma StepAdds(s: State, step: Step)
    requires Enabled(s, step)
    ensures Adds(s, Next(s, step))
  {
    match step
    case DidReadEndpoint(id, endpoint) => CaptureAdds(s, id, endpoint);
    case DidCapture => CaptureBegins(s);
    case DidInspect(template, requested) => InspectBegins(s, template, requested);
    case DidReadRecord(id, record) => RecordAdds(s, id, record);
    case _ => OtherAdds(s, step);
  }

  lemma CaptureAdds(s: State, id: nat, reply: Option<Endpoint>)
    requires id in s.captures
    ensures Adds(s, CaptureContinued(s, id, reply))
  {
  }

  lemma CaptureBegins(s: State)
    ensures Adds(s, CaptureBegun(s))
  {
  }

  lemma InspectBegins(s: State, template: string, requested: Requested)
    ensures Adds(s, InspectBegun(s, template, requested))
  {
  }

  lemma RecordAdds(s: State, id: nat, reply: Option<Record>)
    requires id in s.inspects
    ensures Adds(s, Inspection(s, id, reply))
  {
  }

  lemma OtherAdds(s: State, step: Step)
    requires Enabled(s, step) && !step.DidReadEndpoint? && !step.DidCapture? && !step.DidInspect? && !step.DidReadRecord?
    ensures Adds(s, Next(s, step))
  {
  }

  lemma AddsKeeps(s: State, t: State)
    requires TokensOk(s) && Adds(s, t)
    ensures TokensOk(t)
  {
  }

  lemma {:induction false} RunTokens(states: seq<State>, steps: seq<Step>, n: nat)
    requires IsRun(states, steps) && n < |states|
    ensures TokensOk(states[n])
  {
    if n > 0 {
      RunTokens(states, steps, n - 1);
      assert Enabled(states[n - 1], steps[n - 1]);
      StepAdds(states[n - 1], steps[n - 1]);
      AddsKeeps(states[n - 1], states[n]);
    }
  }

  // ---- the form under a token ----

  // While no command is remembered, the form changes only with a newer capture token.
  lemma FormNeedsCapture(s: State, step: Step)
    requires Enabled(s, step) && s.pending.None?
    ensures var t := Next(s, step); t.captureVersion == s.captureVersion ==> t.pending.None? && t.form == s.form
  {
  }

  // It changes without a newer read token only by the inspection that holds the current one.
  lemma FormNeedsRead(s: State, step: Step)
    requires Enabled(s, step) && s.pending.None?
    ensures var t := Next(s, step);
            t.readVersion == s.readVersion ==>
              && t.pending.None?
              && (t.form == s.form || (step.DidReadRecord? && s.inspects[step.task].version == s.readVersion))
  {
  }

  lemma {:induction false} CaptureSeesOneForm(states: seq<State>, steps: seq<Step>, m: nat, n: nat)
    requires IsRun(states, steps) && m <= n < |states| && states[m].pending.None? && states[n].captureVersion == states[m].captureVersion
    ensures states[n].pending.None? && states[n].form == states[m].form
    decreases n
  {
    if m < n {
      assert Enabled(states[n - 1], steps[n - 1]);
      StepAdds(states[n - 1], steps[n - 1]);
      CapturesAscend(states, steps, m, n - 1);
      CaptureSeesOneForm(states, steps, m, n - 1);
      FormNeedsCapture(states[n - 1], steps[n - 1]);
    }
  }

  lemma {:induction false} CapturesAscend(states: seq<State>, steps: seq<Step>, m: nat, n: nat)
    requires IsRun(states, steps) && m <= n < |states|
    ensures states[m].captureVersion <= states[n].captureVersion && states[m].readVersion <= states[n].readVersion
    ensures states[m].tasks <= states[n].tasks
    decreases n
  {
    if m < n {
      assert Enabled(states[n - 1], steps[n - 1]);
      StepAdds(states[n - 1], steps[n - 1]);
      CapturesAscend(states, steps, m, n - 1);
    }
  }

  // A capture keeps the token it was started with.
  lemma {:induction false} CaptureKeepsToken(states: seq<State>, steps: seq<Step>, m: nat, n: nat, id: nat)
    requires IsRun(states, steps) && m <= n < |states| && id < states[m].tasks && id in states[n].captures
    ensures id in states[m].captures && states[n].captures[id].version == states[m].captures[id].version
    decreases n
  {
    if m < n {
      assert Enabled(states[n - 1], steps[n - 1]);
      StepAdds(states[n - 1], steps[n - 1]);
      CapturesAscend(states, steps, m, n - 1);
      CaptureKeepsToken(states, steps, m, n - 1, id);
    }
  }

  lemma {:induction false} InspectKeepsToken(states: seq<State>, steps: seq<Step>, m: nat, n: nat, id: nat)
    requires IsRun(states, steps) && m <= n < |states| && id < states[m].tasks && id in states[n].inspects
    ensures id in states[m].inspects && states[n].inspects[id] == states[m].inspects[id]
    decreases n
  {
    if m < n {
      assert Enabled(states[n - 1], steps[n - 1]);
      StepAdds(states[n - 1], steps[n - 1]);
      CapturesAscend(states, steps, m, n - 1);
      InspectKeepsToken(states, steps, m, n - 1, id);
    }
  }

  // ---- what a reading may do ----

  lemma UsedCaptureIsCurrent(s: State, step: Step)
    requires Enabled(s, step) && step.DidReadEndpoint? && Next(s, step).locks != s.locks
    ensures s.captures[step.task].version == s.captureVersion && s.captures[step.task].connection == s.epoch && s.pending.None?
  {
  }

  lemma UsedRecordIsCurrent(s: State, step: Step)
    requires Enabled(s, step) && step.DidReadRecord? && (Next(s, step).form != s.form || Next(s, step).locks != s.locks)
    ensures var i := s.inspects[step.task];
            && i.version == s.readVersion && i.connection == s.epoch && s.pending.None?
            && step.record.Some? && step.record.value.templateId == i.template
            && (i.requested.Exact? ==> step.record.value.revision == i.requested.revision)
            && (i.requested.Newest? ==> step.record.value.revision == step.record.value.currentRevision)
  {
  }

  // Over every run: endpoints become locks only if the form is still, field for field, the one their capture was
  // started from and no command was begun in between.
  lemma LocksBelongToTheForm(states: seq<State>, steps: seq<Step>, m: nat, n: nat)
    requires IsRun(states, steps) && m < n < |steps| && steps[m].DidCapture? && states[m].tasks < states[m + 1].tasks
    requires steps[n].DidReadEndpoint? && steps[n].task == states[m].tasks && states[n + 1].locks != states[n].locks
    ensures states[n].form == states[m].form && states[m].pending.None? && states[n].pending.None?
  {
    assert Enabled(states[m], steps[m]) && states[m + 1] == Next(states[m], steps[m]);
    assert Enabled(states[n], steps[n]) && states[n + 1] == Next(states[n], steps[n]);
    UsedCaptureIsCurrent(states[n], steps[n]);
    CaptureKeepsToken(states, steps, m + 1, n, states[m].tasks);
    CaptureSeesOneForm(states, steps, m + 1, n);
  }

  lemma {:induction false} InspectionSeesOneForm(states: seq<State>, steps: seq<Step>, m: nat, n: nat, id: nat)
    requires IsRun(states, steps) && m <= n < |states| && states[m].pending.None? && id < states[m].tasks
    requires id in states[n].inspects && states[n].inspects[id].version == states[n].readVersion == states[m].readVersion
    ensures states[n].pending.None? && states[n].form == states[m].form
    decreases n
  {
    if m < n {
      var (s, step) := (states[n - 1], steps[n - 1]);
      assert Enabled(s, step) && states[n] == Next(s, step);
      StepAdds(s, step);
      CapturesAscend(states, steps, m, n - 1);
      InspectKeepsToken(states, steps, m, n, id);
      InspectKeepsToken(states, steps, n - 1, n, id);
      InspectionSeesOneForm(states, steps, m, n - 1, id);
      FormNeedsRead(s, step);
      RunTokens(states, steps, n - 1);
      assert step.DidReadRecord? ==> step.task != id;
    }
  }

  // Over every run: a record is copied over the form only if nobody edited the form since that record was asked for.
  lemma NoEditIsOverwritten(states: seq<State>, steps: seq<Step>, m: nat, n: nat)
    requires IsRun(states, steps) && m < n < |steps| && steps[m].DidInspect? && states[m].tasks < states[m + 1].tasks
    requires steps[n].DidReadRecord? && steps[n].task == states[m].tasks && states[n + 1].form != states[n].form
    ensures states[n].form == states[m].form && states[n].pending.None?
    ensures states[n + 1].form.template == steps[m].template
  {
    assert Enabled(states[m], steps[m]) && states[m + 1] == Next(states[m], steps[m]);
    assert Enabled(states[n], steps[n]) && states[n + 1] == Next(states[n], steps[n]);
    UsedRecordIsCurrent(states[n], steps[n]);
    InspectKeepsToken(states, steps, m + 1, n, states[m].tasks);
    InspectionSeesOneForm(states, steps, m + 1, n, states[m].tasks);
  }
}

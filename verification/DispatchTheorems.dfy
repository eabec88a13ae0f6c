/** The dispatcher's promises, over whole runs. */
module DispatchTheorems {
  import opened Outcomes
  import opened RuleDispatch
  import opened DispatchRuns
  import opened DispatchInvariant
  import opened DispatchSteps
  import opened DispatchLabels

  // What a settled row says about the server.
  ghost predicate LabelOk(w: World, p: nat, r: nat)
    requires InRange(w.console, p, r) && |w.fates| == |w.console.outbox|
  {
    var c := w.console;
    match c.plans[p][r].state
    case Rejected => forall k :: 0 <= k < |c.outbox| && Same(c.outbox[k], p, r) ==> w.fates[k].Refused?
    case Accepted => exists k :: 0 <= k < |c.outbox| && Same(c.outbox[k], p, r) && w.fates[k].Committed?
    case Unchanged => exists k :: 0 <= k < |c.outbox| && Same(c.outbox[k], p, r) && w.fates[k].Committed?
    case _ => true
  }

  ghost predicate LabelsOk(w: World)
    requires |w.fates| == |w.console.outbox|
  {
    forall p, r :: InRange(w.console, p, r) ==> LabelOk(w, p, r)
  }

  ghost predicate CommitsOk(w: World)
    requires |w.fates| == |w.console.outbox|
  {
    && (forall i :: 0 <= i < |w.commits| ==> w.commits[i] < |w.fates| && w.fates[w.commits[i]].Committed?)
    && (forall i, j :: 0 <= i < j < |w.commits| ==> w.console.outbox[w.commits[i]].key != w.console.outbox[w.commits[j]].key)
    && (forall q :: 0 <= q < |w.fates| && w.fates[q].Committed? ==> KeyCommitted(w, w.console.outbox[q].key))
  }

  ghost predicate Sound(w: World) {
    Inv(w.console) && |w.fates| == |w.console.outbox| && LabelsOk(w) && CommitsOk(w)
  }

  lemma ClientLabels(w: World, x: World, step: Step, v: Option<Verdict>, id: nat)
    requires Inv(w.console) && |w.fates| == |w.console.outbox| && |x.fates| == |x.console.outbox| && LabelsOk(w)
    requires w.fates <= x.fates && Effect(w.console, x.console, v) && (v.Some? ==> Reached(w, step, id, v.value))
    ensures LabelsOk(x)
  {
    var (c, d) := (w.console, x.console);
    forall p, r | InRange(d, p, r)
      ensures LabelOk(x, p, r)
    {
      if p < |c.plans| {
        assert SameCommands(c.plans[p], d.plans[p]);
        assert InRange(c, p, r) && LabelOk(w, p, r);
        if d.plans[p][r].state == c.plans[p][r].state {
          if Terminal(d.plans[p][r].state) {
            KeptLabel(w, x, p, r);
          }
        } else if v == Some(Verdict(p, r, d.plans[p][r].state)) {
          VerdictLabel(w, x, step, id, v.value);
        }
      }
    }
  }

  lemma KeptLabel(w: World, x: World, p: nat, r: nat)
    requires |w.fates| == |w.console.outbox| && |x.fates| == |x.console.outbox| && SentOk(w.console, x.console)
    requires w.fates <= x.fates && w.console.outbox <= x.console.outbox
    requires InRange(w.console, p, r) && InRange(x.console, p, r) && LabelOk(w, p, r)
    requires Terminal(w.console.plans[p][r].state) && x.console.plans[p][r].state == w.console.plans[p][r].state
    ensures LabelOk(x, p, r)
  {
    var (c, d) := (w.console, x.console);
    if !c.plans[p][r].state.Rejected? {
      var k :| 0 <= k < |c.outbox| && Same(c.outbox[k], p, r) && w.fates[k].Committed?;
      assert Same(d.outbox[k], p, r) && x.fates[k].Committed?;
    }
  }

  lemma VerdictLabel(w: World, x: World, step: Step, id: nat, v: Verdict)
    requires Inv(w.console) && |w.fates| == |w.console.outbox| && |x.fates| == |x.console.outbox|
    requires SentOk(w.console, x.console) && w.fates <= x.fates && w.console.outbox <= x.console.outbox
    requires Reached(w, step, id, v) && InRange(x.console, v.plan, v.row) && x.console.plans[v.plan][v.row].state == v.state
    ensures LabelOk(x, v.plan, v.row)
  {
    var (c, d) := (w.console, x.console);
    var t := c.tasks[id].value;
    assert TaskOk(c, t) && Running(c, t) && Tallied(c, v.plan, v.row);
    if v.state.Accepted? || v.state.Unchanged? {
      var q := t.pc.request;
      assert Same(d.outbox[q], v.plan, v.row) && x.fates[q].Committed?;
    } else if v.state.Rejected? {
      forall k | 0 <= k < |d.outbox| && Same(d.outbox[k], v.plan, v.row)
        ensures x.fates[k].Refused?
      {
        assert k < |c.outbox| && Same(c.outbox[k], v.plan, v.row);
      }
    }
  }

  // New requests start in flight, so they change nothing about what has been committed.
  lemma GrowCommits(w: World, x: World)
    requires |w.fates| == |w.console.outbox| && |x.fates| == |x.console.outbox| && CommitsOk(w)
    requires x.commits == w.commits && w.fates <= x.fates && w.console.outbox <= x.console.outbox
    requires forall q :: |w.fates| <= q < |x.fates| ==> x.fates[q].InFlight?
    ensures CommitsOk(x)
  {
    forall q | 0 <= q < |x.fates| && x.fates[q].Committed?
      ensures KeyCommitted(x, x.console.outbox[q].key)
    {
      assert KeyCommitted(w, w.console.outbox[q].key);
      var i :| 0 <= i < |w.commits| && w.commits[i] < |w.console.outbox| && w.console.outbox[w.commits[i]].key == w.console.outbox[q].key;
      assert x.console.outbox[x.commits[i]].key == x.console.outbox[q].key;
    }
  }

  // A fate decided keeps every label: it was in flight, so no settled row was counting on it.
  lemma DecideLabels(w: World, x: World, q: nat, fate: Fate)
    requires |w.fates| == |w.console.outbox| && LabelsOk(w) && q < |w.fates| && w.fates[q].InFlight?
    requires x.console == w.console && x.fates == w.fates[q := fate]
    ensures LabelsOk(x)
  {
    forall p, r | InRange(x.console, p, r)
      ensures LabelOk(x, p, r)
    {
      assert LabelOk(w, p, r);
      if w.console.plans[p][r].state.Accepted? || w.console.plans[p][r].state.Unchanged? {
        var k :| 0 <= k < |w.fates| && Same(w.console.outbox[k], p, r) && w.fates[k].Committed?;
        assert x.fates[k].Committed?;
      }
    }
  }

  lemma CommitOnce(w: World, x: World, q: nat)
    requires |w.fates| == |w.console.outbox| && CommitsOk(w) && q < |w.fates| && w.fates[q].InFlight?
    requires x.console == w.console && x.fates == w.fates[q := Committed]
    requires x.commits == if KeyCommitted(w, w.console.outbox[q].key) then w.commits else w.commits + [q]
    ensures CommitsOk(x)
  {
    CommitsStayDistinct(w, x, q);
    forall k | 0 <= k < |x.fates| && x.fates[k].Committed?
      ensures KeyCommitted(x, x.console.outbox[k].key)
    {
      if k == q && !KeyCommitted(w, w.console.outbox[q].key) {
        assert x.commits[|w.commits|] == q;
      } else {
        KeyStaysCommitted(w, x, w.console.outbox[k].key);
      }
    }
  }

  lemma CommitsStayDistinct(w: World, x: World, q: nat)
    requires |w.fates| == |w.console.outbox| && CommitsOk(w) && q < |w.fates| && x.console == w.console
    requires x.commits == if KeyCommitted(w, w.console.outbox[q].key) then w.commits else w.commits + [q]
    ensures forall i :: 0 <= i < |x.commits| ==> x.commits[i] < |w.fates|
    ensures forall i, j :: 0 <= i < j < |x.commits| ==> x.console.outbox[x.commits[i]].key != x.console.outbox[x.commits[j]].key
  {
    assert !KeyCommitted(w, w.console.outbox[q].key) ==>
      forall i :: 0 <= i < |w.commits| ==> w.console.outbox[w.commits[i]].key != w.console.outbox[q].key;
  }

  lemma KeyStaysCommitted(w: World, x: World, key: string)
    requires x.console == w.console && w.commits <= x.commits && KeyCommitted(w, key)
    ensures KeyCommitted(x, key)
  {
    var i :| 0 <= i < |w.commits| && w.commits[i] < |w.console.outbox| && w.console.outbox[w.commits[i]].key == key;
    assert x.commits[i] == w.commits[i];
  }

  lemma RefuseCommits(w: World, x: World, q: nat)
    requires |w.fates| == |w.console.outbox| && CommitsOk(w) && q < |w.fates| && w.fates[q].InFlight?
    requires x.console == w.console && x.fates == w.fates[q := Refused] && x.commits == w.commits
    ensures CommitsOk(x)
  {
    forall k | 0 <= k < |x.fates| && x.fates[k].Committed?
      ensures KeyCommitted(x, x.console.outbox[k].key)
    {
      assert KeyCommitted(w, w.console.outbox[k].key);
    }
  }

  lemma NextFates(w: World, step: Step)
    requires Enabled(w, step) && !step.Commit? && !step.Refuse? && w.console.outbox <= Client(w.console, step).outbox
    ensures var x := Next(w, step);
            && x.console == Client(w.console, step) && x.commits == w.commits
            && |x.fates| == |x.console.outbox| && w.fates <= x.fates
            && forall q :: |w.fates| <= q < |x.fates| ==> x.fates[q].InFlight?
  {
  }

  lemma ClientStepKeeps(w: World, step: Step)
    requires Sound(w) && Enabled(w, step) && !step.Commit? && !step.Refuse?
    ensures Sound(Next(w, step))
  {
    var x := Next(w, step);
    ClientKeeps(w, step);
    var v, id := StepEffect(w, step);
    NextFates(w, step);
    ClientLabels(w, x, step, v, id);
    GrowCommits(w, x);
  }

  lemma NextKeeps(w: World, step: Step)
    requires Sound(w) && Enabled(w, step)
    ensures Sound(Next(w, step))
  {
    match step
    case Commit(q) =>
      DecideLabels(w, Next(w, step), q, Committed);
      CommitOnce(w, Next(w, step), q);
    case Refuse(q) =>
      DecideLabels(w, Next(w, step), q, Refused);
      RefuseCommits(w, Next(w, step), q);
    case _ =>
      ClientStepKeeps(w, step);
  }

  predicate Initial(w: World) {
    && w.fates == [] && w.commits == []
    && var c := w.console;
       && c.plans == [] && c.current.None? && !c.active && c.tasks == [] && c.retries == {} && c.outbox == [] && c.trace == []
  }

  ghost predicate IsRun(worlds: seq<World>, steps: seq<Step>) {
    && |worlds| == |steps| + 1 && Initial(worlds[0])
    && forall i {:trigger steps[i]} :: 0 <= i < |steps| ==> Enabled(worlds[i], steps[i]) && worlds[i + 1] == Next(worlds[i], steps[i])
  }

  lemma {:induction false} RunIsSound(worlds: seq<World>, steps: seq<Step>, n: nat)
    requires IsRun(worlds, steps) && n < |worlds|
    ensures Sound(worlds[n])
    decreases n
  {
    if n > 0 {
      RunIsSound(worlds, steps, n - 1);
      NextKeeps(worlds[n - 1], steps[n - 1]);
    }
  }

  lemma RunEffect(worlds: seq<World>, steps: seq<Step>, n: nat) returns (v: Option<Verdict>)
    requires IsRun(worlds, steps) && n < |steps|
    ensures Effect(worlds[n].console, worlds[n + 1].console, v)
  {
    RunIsSound(worlds, steps, n);
    var id;
    v, id := StepEffect(worlds[n], steps[n]);
  }

  // Label soundness, by idempotency key, against every server behaviour: a row that still reads pending,
  // checking or preflight-failed has never been sent; a rejected row's key is not committed and nothing sent
  // for it can still commit; an accepted or unchanged row's key is committed; an uncertain row was sent.
  lemma LabelsAreSound(worlds: seq<World>, steps: seq<Step>, n: nat, p: nat, r: nat)
    requires IsRun(worlds, steps) && n < |worlds| && InRange(worlds[n].console, p, r)
    ensures var (w, c) := (worlds[n], worlds[n].console);
            var row := c.plans[p][r];
            && |w.fates| == |c.outbox|
            && (row.state.Pending? || row.state.Checking? || row.state.PreflightFailed? ==>
                  forall q :: 0 <= q < |c.outbox| ==> c.outbox[q].key != row.command.key)
            && (row.state.Rejected? ==>
                  && !KeyCommitted(w, row.command.key)
                  && forall q :: 0 <= q < |c.outbox| && c.outbox[q].key == row.command.key ==> w.fates[q].Refused?)
            && (row.state.Accepted? || row.state.Unchanged? ==> KeyCommitted(w, row.command.key))
            && (row.state.Uncertain? ==> exists q :: 0 <= q < |c.outbox| && c.outbox[q].key == row.command.key)
  {
    RunIsSound(worlds, steps, n);
    SoundLabel(worlds[n], p, r);
  }

  lemma KeyNamesRow(c: Console, q: nat, p: nat, r: nat)
    requires AllCarry(c) && KeysDistinct(c) && q < |c.outbox| && InRange(c, p, r)
    ensures c.outbox[q].key == c.plans[p][r].command.key <==> Same(c.outbox[q], p, r)
  {
    assert Carries(c, c.outbox[q]);
  }

  lemma SoundLabel(w: World, p: nat, r: nat)
    requires Sound(w) && InRange(w.console, p, r)
    ensures var c := w.console;
            var row := c.plans[p][r];
            && (row.state.Pending? || row.state.Checking? || row.state.PreflightFailed? ==>
                  forall q :: 0 <= q < |c.outbox| ==> c.outbox[q].key != row.command.key)
            && (row.state.Rejected? ==>
                  && !KeyCommitted(w, row.command.key)
                  && forall q :: 0 <= q < |c.outbox| && c.outbox[q].key == row.command.key ==> w.fates[q].Refused?)
            && (row.state.Accepted? || row.state.Unchanged? ==> KeyCommitted(w, row.command.key))
            && (row.state.Uncertain? ==> exists q :: 0 <= q < |c.outbox| && c.outbox[q].key == row.command.key)
  {
    var c := w.console;
    assert LabelOk(w, p, r) && Tallied(c, p, r);
    forall q | 0 <= q < |c.outbox|
      ensures c.outbox[q].key == c.plans[p][r].command.key <==> Same(c.outbox[q], p, r)
    {
      KeyNamesRow(c, q, p, r);
    }
  }

  // Each row commits at most once, and what commits is that row's frozen command: no two commits belong to
  // the same row, and every commit belongs to exactly one.
  lemma EachRowCommitsAtMostOnce(worlds: seq<World>, steps: seq<Step>, n: nat, i: nat, j: nat)
    requires IsRun(worlds, steps) && n < |worlds| && i < j < |worlds[n].commits|
    ensures var (c, commits) := (worlds[n].console, worlds[n].commits);
            && commits[i] < |c.outbox| && commits[j] < |c.outbox|
            && Carries(c, c.outbox[commits[i]]) && Carries(c, c.outbox[commits[j]])
            && !Same(c.outbox[commits[i]], c.outbox[commits[j]].plan, c.outbox[commits[j]].row)
  {
    RunIsSound(worlds, steps, n);
    var (c, commits) := (worlds[n].console, worlds[n].commits);
    assert Carries(c, c.outbox[commits[i]]) && Carries(c, c.outbox[commits[j]]);
    assert c.outbox[commits[i]].key != c.outbox[commits[j]].key;
  }

  // Commands are frozen when the list is shown: at no later point does a row, or a write for it, differ.
  lemma {:induction false} CommandsAreFrozen(worlds: seq<World>, steps: seq<Step>, n: nat, m: nat)
    requires IsRun(worlds, steps) && n <= m < |worlds|
    ensures Extends(worlds[n].console, worlds[m].console) && AllCarry(worlds[m].console)
    decreases m
  {
    assert AllCarry(worlds[m].console) by {
      RunIsSound(worlds, steps, m);
    }
    if n < m {
      CommandsAreFrozen(worlds, steps, n, m - 1);
      var v := RunEffect(worlds, steps, m - 1);
      ExtendsTransitive(worlds[n].console, worlds[m - 1].console, worlds[m].console);
    }
  }

  // The rows read as settled ones, then at most one other, then pending ones, at every step.
  lemma PlansKeepTheirShape(worlds: seq<World>, steps: seq<Step>, n: nat, p: nat)
    requires IsRun(worlds, steps) && n < |worlds| && p < |worlds[n].console.plans|
    ensures var rows := worlds[n].console.plans[p];
            exists j :: SplitsAt(rows, j)
  {
    RunIsSound(worlds, steps, n);
    var rows := worlds[n].console.plans[p];
    assert Shaped(rows);
    var j := FirstOpen(rows);
    assert SplitsAt(rows, j);
  }

  ghost predicate SplitsAt(rows: seq<Row>, j: nat) {
    && (forall i :: 0 <= i < j && i < |rows| ==> Terminal(rows[i].state))
    && (forall k :: j < k < |rows| ==> rows[k].state.Pending?)
  }

  lemma {:induction false} FirstOpen(rows: seq<Row>) returns (j: nat)
    ensures j <= |rows| && (forall i :: 0 <= i < j ==> Terminal(rows[i].state)) && (j < |rows| ==> !Terminal(rows[j].state))
  {
    j := 0;
    while j < |rows| && Terminal(rows[j].state)
      invariant j <= |rows| && forall i :: 0 <= i < j ==> Terminal(rows[i].state)
    {
      j := j + 1;
    }
  }

  // The first write of a row that needs a fresh plan follows, in the same attempt, a plan check that matched
  // the frozen Profile, and for a path row a preview that matched before that.
  lemma FirstWriteFollowsItsCheck(worlds: seq<World>, steps: seq<Step>, n: nat, q: nat)
    requires IsRun(worlds, steps) && n < |worlds| && q < |worlds[n].console.outbox|
    ensures var c := worlds[n].console;
            && Carries(c, c.outbox[q])
            && (First(c, q) && c.plans[c.outbox[q].plan][c.outbox[q].row].command.preflight.Some? ==> CheckedFirst(c, q))
  {
    RunIsSound(worlds, steps, n);
    assert Carries(worlds[n].console, worlds[n].console.outbox[q]);
  }

  // From `c` to `d`, plan `p` is out of use, unchanged, and sent nothing.
  ghost predicate Inert(c: Console, d: Console, p: nat) {
    && p < |c.plans| && p < |d.plans| && d.plans[p] == c.plans[p] && d.current != Some(p) && c.outbox <= d.outbox
    && forall q :: |c.outbox| <= q < |d.outbox| ==> d.outbox[q].plan != p
  }

  // After a list is cleared or replaced, nothing of it is ever sent again and nothing ever changes it.
  lemma {:induction false} ClearedPlanIsInert(worlds: seq<World>, steps: seq<Step>, n: nat, m: nat, p: nat)
    requires IsRun(worlds, steps) && n <= m < |worlds|
    requires p < |worlds[n].console.plans| && worlds[n].console.current != Some(p)
    ensures Inert(worlds[n].console, worlds[m].console, p)
    decreases m
  {
    if n < m {
      ClearedPlanIsInert(worlds, steps, n, m - 1, p);
      var v := RunEffect(worlds, steps, m - 1);
      EffectIsInert(worlds[m - 1].console, worlds[m].console, v, p);
    }
  }

  lemma EffectIsInert(c: Console, d: Console, v: Option<Verdict>, p: nat)
    requires Effect(c, d, v) && p < |c.plans| && c.current != Some(p)
    ensures Inert(c, d, p)
  {
  }

  // A settled row is settled for good; with label soundness, a rejected command never commits later either.
  lemma {:induction false} SettledIsFinal(worlds: seq<World>, steps: seq<Step>, n: nat, m: nat, p: nat, r: nat)
    requires IsRun(worlds, steps) && n <= m < |worlds| && InRange(worlds[n].console, p, r)
    requires Terminal(worlds[n].console.plans[p][r].state)
    ensures InRange(worlds[m].console, p, r)
    ensures worlds[m].console.plans[p][r].state == worlds[n].console.plans[p][r].state
    decreases m
  {
    if n < m {
      SettledIsFinal(worlds, steps, n, m - 1, p, r);
      var v := RunEffect(worlds, steps, m - 1);
    }
  }
}

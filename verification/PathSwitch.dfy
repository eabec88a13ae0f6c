/**
 The single-rule path switch: initPathSwitch in apps/web/path-templates.js as steps between awaits.

 Specs are JSON values and `equal` is equality up to key order. `log` holds the previews that became proposals and
 `trace` the life of the remembered command; a parked request is an entry of `lockings`, `preparings` or `submits`.
 */
module PathSwitch {
  import opened Outcomes
  import opened CommandTrace
  import opened CanonicalJson
  import B = Batches
  import D = RuleDispatch
  import T = PathTemplates

  datatype Locked = Locked(template: D.Template, profileDigest: string, config: T.Config)

  datatype Proposal = Proposal(
    forward: string, expectedRevision: int, template: D.Template, proposedSpec: Json,
    profile: D.Profile, changed: bool)

  datatype Order = Order(proposal: Proposal, key: string)

  datatype Pending = Pending(serial: nat, command: Order, sent: bool)

  // `expected` and `revision` are None when the field is not a canonical number in range.
  datatype Form = Form(forward: string, expected: Option<int>, template: string, revision: Option<int>)

  datatype Locking = Locking(connection: nat, token: nat, template: string, revision: int)

  datatype Preparing = Preparing(connection: nat, token: nat, forward: string, expected: int, locked: Locked)

  // `inert` says that the preview reserves and authorises nothing, `shapely` that listener and target are well-formed.
  datatype Preview = Preview(
    forwardId: string, expectedRevision: int, template: D.Template, inert: bool, shapely: bool, spec: Json, proposedSpec: Json, changed: bool)

  // A preview that became a proposal, with the template that was locked then.
  datatype Prepared = Prepared(preview: Preview, locked: Locked)

  datatype Stage = AwaitPlan | AwaitWrite

  datatype Submit = Submit(connection: nat, replay: bool, serial: nat, stage: Stage)

  datatype State = State(
    form: Form, epoch: nat, version: nat, locked: Option<Locked>, proposal: Option<Proposal>, pending: Option<Pending>, sending: bool,
    lockings: map<nat, Locking>, preparings: map<nat, Preparing>, submits: map<nat, Submit>, tasks: nat, issued: nat,
    log: seq<Prepared>, trace: seq<Event<Order, D.Plan, D.Receipt>>)

  // ---- validation ----

  predicate RecordOk(l: Locking, r: T.Record, archived: bool) {
    && r.templateId == l.template && r.revision == l.revision && r.revision <= r.currentRevision <= 64 && !archived
    && r.sealed && T.ConfigOk(r.config)
  }

  // The spec with the locked path and Profile put in.
  function SwitchedSpec(config: T.Config, spec: Json): Json
    requires spec.Object? && |config.nodes| > 0 && config.configRevision >= 0
  {
    var via := Object(Member("via", Array(B.Strings(config.nodes[1..])), NoMembers));
    var transport := Object(Member("profileId", Str(config.profileId), Member("configRevision", B.Int(config.configRevision), NoMembers)));
    Object(B.Put(B.Put(spec.members, "path", via), "transport", transport))
  }

  // A preview that is for exactly this request and changes nothing but path and Profile.
  predicate PreviewOk(p: Preparing, v: Preview) {
    && v.forwardId == p.forward && v.expectedRevision == p.expected && v.template == p.locked.template && v.inert && v.shapely
    && |p.locked.config.nodes| > 0 && p.locked.config.configRevision >= 0
    && v.spec.Object? && B.HasEnabled(v.spec) && B.SameProtocols(v.spec, p.locked.config.protocols)
    && B.Get(B.Get(Some(v.spec), "ingress"), "nodeId") == Some(Str(p.locked.config.nodes[0]))
    && Same(v.proposedSpec, SwitchedSpec(p.locked.config, v.spec))
    && (v.changed <==> !Same(v.spec, SwitchedSpec(p.locked.config, v.spec)))
  }

  predicate PlanOk(c: Order, p: D.Plan) {
    !p.reserved && !p.executionSupported && p.runtimeEnabled && p.profile == Some(c.proposal.profile)
  }

  predicate ReceiptOk(c: Order, r: D.Receipt) {
    && r.forwardId == c.proposal.forward && r.revision == c.proposal.expectedRevision + (if c.proposal.changed then 1 else 0)
    && (if c.proposal.changed then r.operationId.Some? && D.IsId(r.operationId.value) else r.operationId.None?)
    && r.binding.Some? && r.binding.value.template == c.proposal.template
    && 1 <= r.binding.value.sequence <= 64 && 1 <= r.binding.value.forwardRevision <= r.revision
  }

  const LAW: Law<Order, D.Plan, D.Receipt> := Law(true, (c, p) => PlanOk(c, p), (c, r) => ReceiptOk(c, r))

  // ---- steps ----

  const BLANK := Form("", None, "", None)

  function Initial(): State {
    State(BLANK, 0, 0, None, None, None, false, map[], map[], map[], 0, 0, [], [])
  }

  // Nothing about the command changes.
  predicate Calm(s: State, t: State) {
    && t.trace == s.trace && t.pending == s.pending && t.sending == s.sending && t.submits == s.submits && t.epoch == s.epoch
    && s.tasks <= t.tasks && s.log <= t.log
  }

  function Invalidated(s: State, target: bool): (t: State)
    ensures Calm(s, t)
  {
    if s.pending.Some? then s
    else s.(version := s.version + 1, proposal := None, locked := if target then None else s.locked)
  }

  function Edited(s: State, form: Form): (t: State)
    ensures Calm(s, t)
  {
    if s.pending.Some? then s
    else Invalidated(s.(form := form), form.template != s.form.template || form.revision != s.form.revision)
  }

  function LockBegun(s: State): (r: State)
    ensures Calm(s, r)
  {
    if s.pending.Some? then s else
    var i := Invalidated(s, true);
    var t := i.(version := i.version + 1);
    if !D.IsId(t.form.template) || t.form.revision.None? then t
    else t.(tasks := t.tasks + 1,
            lockings := t.lockings[t.tasks := Locking(t.epoch, t.version, t.form.template, t.form.revision.value)])
  }

  function LockAnswered(s: State, id: nat, reply: Option<(T.Record, bool, string, string)>): (t: State)
    requires id in s.lockings
    ensures Calm(s, t)
  {
    var l := s.lockings[id];
    var done := s.(lockings := s.lockings - {id});
    if reply.None? || l.connection != s.epoch || l.token != s.version || s.pending.Some? then done
    else
      var (record, archived, configDigest, profileDigest) := reply.value;
      if !RecordOk(l, record, archived) then done
      else done.(locked := Some(Locked(D.Template(l.template, l.revision, configDigest), profileDigest, record.config)))
  }

  // At most one preparation is added, with the newest token and what is locked.
  predicate Prepares(s: State, t: State) {
    || t.preparings == s.preparings
    || (&& s.locked.Some? && s.tasks in t.preparings && t.preparings == s.preparings[s.tasks := t.preparings[s.tasks]]
        && t.preparings[s.tasks].token == t.version && t.preparings[s.tasks].locked == s.locked.value)
  }

  function PrepareBegun(s: State): (r: State)
    ensures Calm(s, r)
    ensures r == s || (r.version == s.version + 2 && r.proposal.None? && Prepares(s, r))
    ensures r.locked == s.locked && r.lockings == s.lockings && r.log == s.log
  {
    if s.pending.Some? then s else
    var i := Invalidated(s, false);
    var t := i.(version := i.version + 1);
    if || t.locked.None? || t.locked.value.template.id != t.form.template || t.form.revision != Some(t.locked.value.template.revision)
       || !D.IsId(t.form.forward) || t.form.expected.None?
    then t
    else t.(tasks := t.tasks + 1,
            preparings := t.preparings[t.tasks := Preparing(t.epoch, t.version, t.form.forward, t.form.expected.value, t.locked.value)])
  }

  // The Profile digest is taken from what is locked when the preview arrives.
  function ProposalOf(p: Preparing, v: Preview, profileDigest: string): Proposal
    requires PreviewOk(p, v)
  {
    Proposal(p.forward, p.expected, p.locked.template, SwitchedSpec(p.locked.config, v.spec),
             D.Profile(p.locked.config.profileId, p.locked.config.configRevision, profileDigest), v.changed)
  }

  function PrepareAnswered(s: State, id: nat, reply: Option<Preview>): (t: State)
    requires id in s.preparings
    ensures Calm(s, t)
  {
    var p := s.preparings[id];
    var done := s.(preparings := s.preparings - {id});
    if p.connection != s.epoch || p.token != s.version then done
    else if reply.Some? && s.pending.Some? then done
    else if reply.None? || !PreviewOk(p, reply.value) || s.locked.None? then done.(proposal := None)
    else done.(proposal := Some(ProposalOf(p, reply.value, s.locked.value.profileDigest)), log := s.log + [Prepared(reply.value, s.locked.value)])
  }

  // No proposal is made, and the lock changes only with a newer token.
  predicate Blind(s: State, t: State) {
    && t.log == s.log && (t.proposal.None? || t.proposal == s.proposal) && t.lockings == s.lockings && t.preparings == s.preparings
    && (t.version > s.version || (t.version == s.version && t.locked == s.locked))
  }

  function Submitted(s: State, confirmed: bool, key: string): (t: State)
    ensures Blind(s, t)
  {
    if s.sending || (s.pending.None? && s.proposal.None?) || !confirmed then s
    else if s.pending.Some? then
      s.(sending := true, pending := Some(s.pending.value.(sent := true)), tasks := s.tasks + 1,
         submits := s.submits[s.tasks := Submit(s.epoch, true, s.pending.value.serial, AwaitWrite)],
         trace := s.trace + [Wrote(s.pending.value.command)])
    else
      var c := Order(s.proposal.value, key);
      s.(sending := true, pending := Some(Pending(s.issued, c, false)), issued := s.issued + 1, version := s.version + 1,
         tasks := s.tasks + 1, submits := s.submits[s.tasks := Submit(s.epoch, false, s.issued, AwaitPlan)],
         trace := s.trace + [Began(c)])
  }

  // The `catch` of `submit`.
  function Failed(s: State, t: Submit, status: Option<int>): (r: State)
    ensures Blind(s, r)
  {
    if t.connection != s.epoch then s else
    var f := s.(sending := false, proposal := None);
    if s.pending.Some? && !s.pending.value.sent then f.(pending := None, trace := s.trace + [Settled(Unsent)])
    else if s.pending.Some? && !t.replay && status.Some? && D.CompleteRejection(status.value)
    then f.(pending := None, trace := s.trace + [Settled(Rejected)]) else f
  }

  predicate Stale(s: State, t: Submit) {
    t.connection != s.epoch || s.pending.None? || s.pending.value.serial != t.serial
  }

  function PlanAnswered(s: State, id: nat, reply: D.Answer<D.Plan>): (r: State)
    requires id in s.submits
    ensures Blind(s, r)
  {
    var t := s.submits[id];
    var done := s.(submits := s.submits - {id});
    match reply
    case Http(status) => Failed(done, t, Some(status))
    case Broken => Failed(done, t, None)
    case Body(plan) =>
      if Stale(s, t) then done
      else if !PlanOk(s.pending.value.command, plan) then Failed(done, t, None)
      else s.(submits := s.submits[id := t.(stage := AwaitWrite)], pending := Some(s.pending.value.(sent := true)),
              trace := s.trace + [Checked(plan)] + [Wrote(s.pending.value.command)])
  }

  function WriteAnswered(s: State, id: nat, reply: D.Answer<D.Receipt>): (r: State)
    requires id in s.submits
    ensures Blind(s, r)
  {
    var t := s.submits[id];
    var done := s.(submits := s.submits - {id});
    match reply
    case Http(status) => Failed(done, t, Some(status))
    case Broken => Failed(done, t, None)
    case Body(receipt) =>
      if Stale(s, t) then done
      else if !ReceiptOk(s.pending.value.command, receipt) then Failed(done, t, None)
      else done.(pending := None, proposal := None, sending := false, form := s.form.(expected := Some(receipt.revision)),
                 trace := s.trace + [Settled(Accepted(receipt))])
  }

  function Cleared(s: State): (t: State)
    ensures Blind(s, t)
  {
    s.(form := BLANK, epoch := s.epoch + 1, version := s.version + 1, locked := None, proposal := None, pending := None, sending := false,
       trace := if s.pending.Some? then s.trace + [Settled(Dropped)] else s.trace)
  }

  function Discarded(s: State, confirmed: bool): (t: State)
    ensures Blind(s, t)
  {
    if s.pending.Some? && confirmed then Cleared(s) else s
  }

  datatype Step =
    | DidEdit(form: Form) | DidInvalidate(target: bool) | DidLock | DidReadTemplate(task: nat, record: Option<(T.Record, bool, string, string)>)
    | DidPrepare | DidPreview(task: nat, preview: Option<Preview>)
    | DidSubmit(confirmed: bool, key: string) | DidPlan(task: nat, plan: D.Answer<D.Plan>) | DidWrite(task: nat, reply: D.Answer<D.Receipt>)
    | DidClear | DidDiscard(confirmed: bool)

  predicate Enabled(s: State, step: Step) {
    match step
    case DidReadTemplate(id, _) => id in s.lockings
    case DidPreview(id, _) => id in s.preparings
    case DidPlan(id, _) => id in s.submits && s.submits[id].stage.AwaitPlan?
    case DidWrite(id, _) => id in s.submits && s.submits[id].stage.AwaitWrite?
    case _ => true
  }

  function Next(s: State, step: Step): State
    requires Enabled(s, step)
  {
    match step
    case DidEdit(form) => Edited(s, form)
    case DidInvalidate(target) => Invalidated(s, target)
    case DidLock => LockBegun(s)
    case DidReadTemplate(id, record) => LockAnswered(s, id, record)
    case DidPrepare => PrepareBegun(s)
    case DidPreview(id, preview) => PrepareAnswered(s, id, preview)
    case DidSubmit(confirmed, key) => Submitted(s, confirmed, key)
    case DidPlan(id, plan) => PlanAnswered(s, id, plan)
    case DidWrite(id, reply) => WriteAnswered(s, id, reply)
    case DidClear => Cleared(s)
    case DidDiscard(confirmed) => Discarded(s, confirmed)
  }

  // ---- invariant ----

  // Some preview in the log is for exactly this proposal, which is its spec with path and Profile replaced: it enters
  // at the first locked node and goes through every later one, in order. Template and Profile come from the one record that was locked.
  ghost predicate BackedBy(r: Prepared, p: Proposal) {
    && var v := r.preview;
    && v.forwardId == p.forward && v.expectedRevision == p.expectedRevision && v.template == p.template && v.inert
    && v.spec.Object? && Same(v.proposedSpec, p.proposedSpec) && (p.changed <==> !Same(v.spec, p.proposedSpec)) && p.changed == v.changed
    && B.AgreeOutside(p.proposedSpec, v.spec, {"path", "transport"})
    && B.Enters(p.proposedSpec, r.locked.config.nodes, r.locked.config.protocols)
    && B.Routes(p.proposedSpec, r.locked.config.nodes) && B.Uses(p.proposedSpec, p.profile.id, p.profile.revision)
    && p.template == r.locked.template
    && p.profile == D.Profile(r.locked.config.profileId, r.locked.config.configRevision, r.locked.profileDigest)
  }

  ghost predicate Backed(log: seq<Prepared>, p: Proposal) {
    exists i :: 0 <= i < |log| && BackedBy(log[i], p)
  }

  // Every lock and every preparation has its own token, and a preparation with the newest token still sees its lock.
  ghost predicate TokensOk(lockings: map<nat, Locking>, preparings: map<nat, Preparing>, version: nat, locked: Option<Locked>) {
    && (forall id :: id in lockings ==> lockings[id].token <= version)
    && (forall id :: id in preparings ==> preparings[id].token <= version)
    && (forall l, p :: l in lockings && p in preparings ==> lockings[l].token != preparings[p].token)
    && forall id :: id in preparings && preparings[id].token == version ==> locked == Some(preparings[id].locked)
  }

  ghost predicate WritesOk(log: seq<Prepared>, trace: seq<Event<Order, D.Plan, D.Receipt>>) {
    forall i :: 0 <= i < |trace| && trace[i].Wrote? ==> Backed(log, trace[i].written.proposal)
  }

  // The trace so far is lawful, leaves exactly the remembered command open and counts a write once it was sent.
  ghost predicate Remembers(live: Option<Live<Order>>, pending: Option<Pending>) {
    && live.Some?
    && (pending.None? ==> live.value.Idle?)
    && (pending.Some? ==> live.value.Open? && live.value.command == pending.value.command && (pending.value.sent <==> live.value.writes > 0))
  }

  ghost predicate SubmitOk(t: Submit, sending: bool, pending: Option<Pending>, live: Option<Live<Order>>) {
    && sending && pending.Some? && pending.value.serial == t.serial
    && (t.stage.AwaitPlan? ==> !t.replay && !pending.value.sent)
    && (t.stage.AwaitWrite? ==> pending.value.sent && (!t.replay ==> live.Some? && live.value.Open? && live.value.writes == 1))
  }

  // A submit of the current connection is the only one and belongs to the remembered command.
  ghost predicate SubmitsOk(submits: map<nat, Submit>, tasks: nat, epoch: nat, sending: bool, pending: Option<Pending>, live: Option<Live<Order>>) {
    && (forall id :: id in submits ==> id < tasks && submits[id].connection <= epoch)
    && (forall id :: id in submits && submits[id].connection == epoch ==> SubmitOk(submits[id], sending, pending, live))
    && (forall a, b :: a in submits && b in submits && submits[a].connection == epoch && submits[b].connection == epoch ==> a == b)
    && (!sending && pending.Some? ==> pending.value.sent)
  }

  ghost predicate Commands(s: State) {
    && WritesOk(s.log, s.trace) && (s.pending.Some? ==> Backed(s.log, s.pending.value.command.proposal))
    && Remembers(Replay(LAW, s.trace), s.pending)
    && SubmitsOk(s.submits, s.tasks, s.epoch, s.sending, s.pending, Replay(LAW, s.trace))
  }

  ghost predicate Inv(s: State) {
    Commands(s) && Proposals(s)
  }

  ghost predicate Proposals(s: State) {
    TokensOk(s.lockings, s.preparings, s.version, s.locked) && (s.proposal.Some? ==> Backed(s.log, s.proposal.value))
  }

  // ---- every step keeps the invariant ----

  lemma BackedStays(before: seq<Prepared>, after: seq<Prepared>, p: Proposal)
    requires before <= after && Backed(before, p)
    ensures Backed(after, p)
  {
    var i :| 0 <= i < |before| && BackedBy(before[i], p);
    assert after[i] == before[i];
  }

  lemma Undisturbed(s: State, t: State)
    requires Commands(s) && Calm(s, t)
    ensures Commands(t)
  {
    forall i | 0 <= i < |s.trace| && s.trace[i].Wrote? ensures Backed(t.log, s.trace[i].written.proposal) {
      BackedStays(s.log, t.log, s.trace[i].written.proposal);
    }
    if s.pending.Some? {
      BackedStays(s.log, t.log, s.pending.value.command.proposal);
    }
  }

  lemma SwitchedSpecKeeps(config: T.Config, spec: Json)
    requires spec.Object? && |config.nodes| > 0 && config.configRevision >= 0
    ensures var s := SwitchedSpec(config, spec);
            && B.AgreeOutside(s, spec, {"path", "transport"})
            && B.Routes(s, config.nodes) && B.Uses(s, config.profileId, config.configRevision)
  {
    var via := Object(Member("via", Array(B.Strings(config.nodes[1..])), NoMembers));
    var transport := Object(Member("profileId", Str(config.profileId), Member("configRevision", B.Int(config.configRevision), NoMembers)));
    var inner := B.Put(spec.members, "path", via);
    forall key ensures Find(B.Put(inner, "transport", transport), key) ==
        if key == "transport" then Some(transport) else if key == "path" then Some(via) else Find(spec.members, key) {
      B.PutChangesOneKey(spec.members, "path", via, key);
      B.PutChangesOneKey(inner, "transport", transport, key);
    }
    assert |"transport"| != |"path"| && |"profileId"| != |"configRevision"|;
    B.FindPair("profileId", Str(config.profileId), "configRevision", B.Int(config.configRevision));
    B.ViaRoutes(config.nodes, SwitchedSpec(config, spec));
  }

  lemma PreviewBacks(p: Preparing, v: Preview)
    requires PreviewOk(p, v)
    ensures BackedBy(Prepared(v, p.locked), ProposalOf(p, v, p.locked.profileDigest))
  {
    SwitchedSpecKeeps(p.locked.config, v.spec);
    B.StillEnters(SwitchedSpec(p.locked.config, v.spec), v.spec, p.locked.config.nodes, p.locked.config.protocols);
  }

  lemma PrepareKeeps(s: State, id: nat, reply: Option<Preview>)
    requires Proposals(s) && id in s.preparings
    ensures Proposals(PrepareAnswered(s, id, reply))
  {
    var t := PrepareAnswered(s, id, reply);
    if t.log != s.log {
      PreviewBacks(s.preparings[id], reply.value);
      assert t.log[|s.log|] == Prepared(reply.value, s.preparings[id].locked);
    }
  }

  lemma AppendKeeps(s: State, event: Event<Order, D.Plan, D.Receipt>)
    requires WritesOk(s.log, s.trace) && Replay(LAW, s.trace).Some? && Advance(LAW, Replay(LAW, s.trace).value, event).Some?
    requires event.Wrote? ==> Backed(s.log, event.written.proposal)
    ensures Replay(LAW, s.trace + [event]) == Advance(LAW, Replay(LAW, s.trace).value, event)
    ensures WritesOk(s.log, s.trace + [event])
  {
    ReplayGrows(LAW, s.trace, event);
  }

  lemma ReplayKeeps(s: State, key: string)
    requires Commands(s) && !s.sending && s.pending.Some?
    ensures Commands(Submitted(s, true, key))
  {
    AppendKeeps(s, Wrote(s.pending.value.command));
  }

  lemma BeginKeeps(s: State, key: string)
    requires Inv(s) && !s.sending && s.pending.None? && s.proposal.Some?
    ensures Commands(Submitted(s, true, key))
  {
    AppendKeeps(s, Began(Order(s.proposal.value, key)));
  }

  lemma SubmitKeeps(s: State, confirmed: bool, key: string)
    requires Inv(s)
    ensures Commands(Submitted(s, confirmed, key))
  {
    if Submitted(s, confirmed, key) != s {
      if s.pending.Some? {
        ReplayKeeps(s, key);
      } else {
        BeginKeeps(s, key);
      }
    }
  }

  // An answered submit of the current connection leaves no other behind.
  lemma SubmitEnds(s: State, id: nat, pending: Option<Pending>, live: Option<Live<Order>>)
    requires SubmitsOk(s.submits, s.tasks, s.epoch, s.sending, s.pending, Replay(LAW, s.trace)) && id in s.submits
    requires s.submits[id].connection == s.epoch && (pending.Some? ==> pending.value.sent)
    ensures SubmitsOk(s.submits - {id}, s.tasks, s.epoch, false, pending, live)
  {
  }

  // A late answer of an earlier connection changes nothing.
  lemma SubmitFades(s: State, id: nat)
    requires Commands(s) && id in s.submits
    ensures Commands(s.(submits := s.submits - {id}))
  {
  }

  lemma FailureKeeps(s: State, id: nat, status: Option<int>)
    requires Commands(s) && id in s.submits
    ensures Commands(Failed(s.(submits := s.submits - {id}), s.submits[id], status))
  {
    if s.submits[id].connection != s.epoch {
      SubmitFades(s, id);
    } else {
      var t := Failed(s.(submits := s.submits - {id}), s.submits[id], status);
      if t.trace != s.trace {
        AppendKeeps(s, t.trace[|s.trace|]);
      }
      SubmitEnds(s, id, t.pending, Replay(LAW, t.trace));
    }
  }

  lemma PlanKeeps(s: State, id: nat, reply: D.Answer<D.Plan>)
    requires Commands(s) && id in s.submits && s.submits[id].stage.AwaitPlan?
    ensures Commands(PlanAnswered(s, id, reply))
  {
    match reply
    case Http(status) => FailureKeeps(s, id, Some(status));
    case Broken => FailureKeeps(s, id, None);
    case Body(plan) =>
      FailureKeeps(s, id, None);
      if !Stale(s, s.submits[id]) && PlanOk(s.pending.value.command, plan) {
        CheckedWrite(s, s.pending.value.command, plan);
      }
  }

  // The check and the first write it allows.
  lemma CheckedWrite(s: State, c: Order, plan: D.Plan)
    requires Commands(s) && s.pending.Some? && !s.pending.value.sent && s.pending.value.command == c && PlanOk(c, plan)
    ensures Replay(LAW, s.trace + [Checked(plan)] + [Wrote(c)]) == Some(Open(c, true, 1))
    ensures WritesOk(s.log, s.trace + [Checked(plan)] + [Wrote(c)])
  {
    AppendKeeps(s, Checked(plan));
    ReplayGrows(LAW, s.trace + [Checked(plan)], Wrote(c));
  }

  lemma WriteKeeps(s: State, id: nat, reply: D.Answer<D.Receipt>)
    requires Commands(s) && id in s.submits && s.submits[id].stage.AwaitWrite?
    ensures Commands(WriteAnswered(s, id, reply))
  {
    match reply
    case Http(status) => FailureKeeps(s, id, Some(status));
    case Broken => FailureKeeps(s, id, None);
    case Body(receipt) =>
      if Stale(s, s.submits[id]) {
        SubmitFades(s, id);
      } else if ReceiptOk(s.pending.value.command, receipt) {
        AppendKeeps(s, Settled(Accepted(receipt)));
        SubmitEnds(s, id, None, Some(Idle));
      } else {
        FailureKeeps(s, id, None);
      }
  }

  lemma ClearKeeps(s: State)
    requires Commands(s)
    ensures Commands(Cleared(s))
  {
    if s.pending.Some? {
      AppendKeeps(s, Settled(Dropped));
    }
  }

  // Steps that only edit, lock or prepare.
  predicate Browses(step: Step) {
    step.DidEdit? || step.DidInvalidate? || step.DidLock? || step.DidReadTemplate? || step.DidPrepare? || step.DidPreview?
  }

  // A newer token leaves no preparation current.
  lemma NewerToken(s: State, version: nat, locked: Option<Locked>)
    requires Proposals(s) && version > s.version
    ensures TokensOk(s.lockings, s.preparings, version, locked)
    ensures forall id :: id in s.lockings ==> s.lockings[id].token < version
    ensures forall id :: id in s.preparings ==> s.preparings[id].token < version
  {
  }

  lemma LockingKeeps(s: State)
    requires Proposals(s)
    ensures Proposals(LockBegun(s))
  {
    NewerToken(s, s.version + 2, None);
  }

  lemma LockedKeeps(s: State, id: nat, reply: Option<(T.Record, bool, string, string)>)
    requires Proposals(s) && id in s.lockings
    ensures Proposals(LockAnswered(s, id, reply))
  {
  }

  lemma PreparingKeeps(s: State, t: State)
    requires Proposals(s) && t.version == s.version + 2 && t.proposal.None? && Prepares(s, t)
    requires t.locked == s.locked && t.lockings == s.lockings && t.log == s.log
    ensures Proposals(t)
  {
    NewerToken(s, s.version + 2, s.locked);
    if t.preparings != s.preparings {
      PreparationAdds(s.lockings, s.preparings, s.version + 2, s.locked.value, s.tasks, t.preparings[s.tasks]);
    }
  }

  lemma PreparationAdds(lockings: map<nat, Locking>, preparings: map<nat, Preparing>, version: nat, locked: Locked, id: nat, p: Preparing)
    requires TokensOk(lockings, preparings, version, Some(locked)) && p.token == version && p.locked == locked
    requires forall l :: l in lockings ==> lockings[l].token < version
    ensures TokensOk(lockings, preparings[id := p], version, Some(locked))
  {
  }

  lemma EditingKeeps(s: State, form: Form, target: bool)
    requires Proposals(s)
    ensures Proposals(Edited(s, form)) && Proposals(Invalidated(s, target))
  {
    NewerToken(s, s.version + 1, s.locked);
    NewerToken(s, s.version + 1, None);
  }

  lemma BrowsingProposes(s: State, step: Step)
    requires Proposals(s) && Enabled(s, step) && Browses(step)
    ensures Proposals(Next(s, step))
  {
    match step
    case DidEdit(form) => EditingKeeps(s, form, false);
    case DidInvalidate(target) => EditingKeeps(s, s.form, target);
    case DidLock => LockingKeeps(s);
    case DidReadTemplate(id, record) => LockedKeeps(s, id, record);
    case DidPrepare =>
      if PrepareBegun(s) != s {
        PreparingKeeps(s, PrepareBegun(s));
      }
    case DidPreview(id, preview) => PrepareKeeps(s, id, preview);
  }

  lemma BrowsingKeeps(s: State, step: Step)
    requires Inv(s) && Enabled(s, step) && Browses(step)
    ensures Inv(Next(s, step))
  {
    BrowsingProposes(s, step);
    assert Calm(s, Next(s, step));
    Undisturbed(s, Next(s, step));
  }

  // Submitting makes no proposal.
  lemma CommandingProposes(s: State, step: Step)
    requires Proposals(s) && Enabled(s, step) && !Browses(step)
    ensures Proposals(Next(s, step))
  {
    assert Blind(s, Next(s, step));
    BlindKeeps(s, Next(s, step));
  }

  lemma BlindKeeps(s: State, t: State)
    requires Proposals(s) && Blind(s, t)
    ensures Proposals(t)
  {
    if t.version > s.version {
      NewerToken(s, t.version, t.locked);
    }
  }

  lemma CommandingKeeps(s: State, step: Step)
    requires Inv(s) && Enabled(s, step) && !Browses(step)
    ensures Commands(Next(s, step))
  {
    match step
    case DidSubmit(confirmed, key) => SubmitKeeps(s, confirmed, key);
    case DidPlan(id, plan) => PlanKeeps(s, id, plan);
    case DidWrite(id, reply) => WriteKeeps(s, id, reply);
    case DidClear => ClearKeeps(s);
    case DidDiscard(confirmed) => ClearKeeps(s);
  }

  lemma NextKeeps(s: State, step: Step)
    requires Inv(s) && Enabled(s, step)
    ensures Inv(Next(s, step))
  {
    if Browses(step) {
      BrowsingKeeps(s, step);
    } else {
      CommandingProposes(s, step);
      CommandingKeeps(s, step);
    }
  }

  // ---- whole runs ----

  ghost predicate IsRun(states: seq<State>, steps: seq<Step>) {
    && |states| == |steps| + 1 && states[0] == Initial()
    && forall i {:trigger steps[i]} :: 0 <= i < |steps| ==> Enabled(states[i], steps[i]) && states[i + 1] == Next(states[i], steps[i])
  }

  lemma {:induction false} RunIsSound(states: seq<State>, steps: seq<Step>, n: nat)
    requires IsRun(states, steps) && n < |states|
    ensures Inv(states[n])
  {
    if n > 0 {
      RunIsSound(states, steps, n - 1);
      assert Enabled(states[n - 1], steps[n - 1]);
      NextKeeps(states[n - 1], steps[n - 1]);
    }
  }

  // Over every run: two writes of different commands are separated by the end of the first.
  lemma PendingIsNeverReplaced(states: seq<State>, steps: seq<Step>, n: nat, i: nat, j: nat)
    requires IsRun(states, steps) && n < |states| && i < j < |states[n].trace|
    requires states[n].trace[i].Wrote? && states[n].trace[j].Wrote?
    ensures states[n].trace[i].written == states[n].trace[j].written || exists k :: i < k < j && states[n].trace[k].Settled?
  {
    RunIsSound(states, steps, n);
    NeverReplaced(LAW, states[n].trace, i, j);
  }

  // The receipt names this rule and binds this template: with an operation and one revision above if the spec changes,
  // otherwise with neither.
  predicate Answers(p: Proposal, r: D.Receipt) {
    && r.forwardId == p.forward && r.operationId.Some? == p.changed && (p.changed ==> D.IsId(r.operationId.value))
    && r.revision - p.expectedRevision == (if p.changed then 1 else 0)
    && r.binding.Some? && r.binding.value.template == p.template
    && 1 <= r.binding.value.sequence <= 64 && 1 <= r.binding.value.forwardRevision <= r.revision
  }

  // What starts a command: the operator confirmed it, and it is the proposal on screen.
  lemma CommandIsTheProposal(s: State, step: Step)
    requires Enabled(s, step) && s.pending.None? && Next(s, step).pending.Some?
    ensures && step.DidSubmit? && step.confirmed && !s.sending
            && var c := Next(s, step).pending.value.command;
            && c.key == step.key && s.proposal == Some(c.proposal) && Next(s, step).trace == s.trace + [Began(c)]
  {
    assert Browses(step) ==> Calm(s, Next(s, step));
  }

  // Step m starts the command from the proposal on screen.
  ghost predicate Starts(states: seq<State>, steps: seq<Step>, m: nat, c: Order)
    requires m < |steps| < |states|
  {
    steps[m].DidSubmit? && steps[m].confirmed && states[m].pending.None? && c.key == steps[m].key && states[m].proposal == Some(c.proposal)
  }

  // A remembered command stays until it ends, and only it is written.
  ghost predicate Steady(s: State, t: State) {
    && s.trace <= t.trace
    && (s.pending.Some? && t.pending.Some? ==> t.pending.value.command == s.pending.value.command)
    && forall k :: |s.trace| <= k < |t.trace| && t.trace[k].Wrote? ==> t.pending.Some? && t.trace[k].written == t.pending.value.command
  }

  lemma PlanWrites(s: State, id: nat, reply: D.Answer<D.Plan>)
    requires id in s.submits
    ensures Steady(s, PlanAnswered(s, id, reply))
  {
  }

  lemma AnswerWrites(s: State, id: nat, reply: D.Answer<D.Receipt>)
    requires id in s.submits
    ensures Steady(s, WriteAnswered(s, id, reply))
  {
  }

  lemma StepWrites(s: State, step: Step)
    requires Enabled(s, step)
    ensures Steady(s, Next(s, step))
  {
    if Browses(step) {
      assert Calm(s, Next(s, step));
    } else {
      match step
      case DidPlan(id, plan) => PlanWrites(s, id, plan);
      case DidWrite(id, reply) => AnswerWrites(s, id, reply);
      case _ =>
    }
  }

  lemma {:induction false} PendingWasStarted(states: seq<State>, steps: seq<Step>, n: nat) returns (m: nat)
    requires IsRun(states, steps) && n < |states| && states[n].pending.Some?
    ensures m < n && Starts(states, steps, m, states[n].pending.value.command)
  {
    assert n > 0;
    m := n - 1;
    assert Enabled(states[m], steps[m]) && states[n] == Next(states[m], steps[m]);
    RunIsSound(states, steps, m);
    if states[m].pending.None? {
      CommandIsTheProposal(states[m], steps[m]);
    } else {
      StepWrites(states[m], steps[m]);
      m := PendingWasStarted(states, steps, n - 1);
    }
  }

  // Over every run: what is written was started by a confirmed submit of the proposal then on screen.
  lemma {:induction false} WrittenWasStarted(states: seq<State>, steps: seq<Step>, n: nat, k: nat) returns (m: nat)
    requires IsRun(states, steps) && n < |states| && k < |states[n].trace| && states[n].trace[k].Wrote?
    ensures m < n && Starts(states, steps, m, states[n].trace[k].written)
  {
    assert n > 0;
    assert Enabled(states[n - 1], steps[n - 1]) && states[n] == Next(states[n - 1], steps[n - 1]);
    RunIsSound(states, steps, n - 1);
    StepWrites(states[n - 1], steps[n - 1]);
    if k < |states[n - 1].trace| {
      assert states[n - 1].trace[k] == states[n].trace[k];
      m := WrittenWasStarted(states, steps, n - 1, k);
    } else {
      m := PendingWasStarted(states, steps, n);
    }
  }

  // Over every run: a command ends with a valid receipt, a complete refusal of its only write, a failed check before
  // any write, or the operator.
  lemma EndsForAReason(states: seq<State>, steps: seq<Step>, n: nat, k: nat) returns (start: nat)
    requires IsRun(states, steps) && n < |states| && k < |states[n].trace| && states[n].trace[k].Settled?
    ensures var trace := states[n].trace;
            && start < k && trace[start].Began? && Quiet(trace, start, k)
            && (trace[k].reason.Accepted? ==> Answers(trace[start].command.proposal, trace[k].reason.result) && !Unwritten(trace, start, k))
            && (trace[k].reason.Rejected? ==> exists at :: SoleWrite(trace, start, k, at))
            && (trace[k].reason.Unsent? ==> Unwritten(trace, start, k))
  {
    RunIsSound(states, steps, n);
    start := SettledForAReason(LAW, states[n].trace, k);
  }

  // Over every run: the first write after a command began is that command, and in between a fresh plan arrived that
  // matches its exact Profile and the runtime gate.
  lemma FirstWriteFollowsItsPlan(states: seq<State>, steps: seq<Step>, n: nat, start: nat, k: nat) returns (check: nat)
    requires IsRun(states, steps) && n < |states| && start < k < |states[n].trace|
    requires states[n].trace[start].Began? && states[n].trace[k].Wrote?
    requires Quiet(states[n].trace, start, k) && Unwritten(states[n].trace, start, k)
    ensures var trace := states[n].trace;
            && trace[k].written == trace[start].command
            && start < check < k && trace[check].Checked?
            && var plan := trace[check].plan;
            && plan.profile == Some(trace[start].command.proposal.profile)
            && !plan.reserved && !plan.executionSupported && plan.runtimeEnabled
  {
    RunIsSound(states, steps, n);
    check := FirstWriteIsChecked(LAW, states[n].trace, start, k);
  }

  // Over every run: what is written was previewed for exactly that request, and changes path and Profile alone.
  lemma WrittenAsPreviewed(states: seq<State>, steps: seq<Step>, n: nat, k: nat)
    requires IsRun(states, steps) && n < |states| && k < |states[n].trace| && states[n].trace[k].Wrote?
    ensures Backed(states[n].log, states[n].trace[k].written.proposal)
  {
    RunIsSound(states, steps, n);
  }
}

/**
 Path template authoring: initPathTemplates in apps/web/path-templates.js as steps between awaits.

 The form holds what `draft` and the numeric fields parse to. `log` holds the metadata replies that were used and
 `trace` the life of the remembered command; a parked request is an entry of `captures`, `inspects` or `sends`.
 */
module PathTemplates {
  import opened Outcomes
  import opened CommandTrace
  import D = RuleDispatch

  datatype Endpoint = Endpoint(nodeId: string, revision: int)

  datatype Draft = Draft(nodes: seq<string>, protocols: seq<string>, profileId: string, configRevision: int)

  datatype Config = Config(
    version: int, nodes: seq<string>, protocols: seq<string>, endpoints: seq<Endpoint>, profileId: string, configRevision: int)

  datatype Verb = Publish | Archive

  datatype Input = Input(expectedRevision: int, config: Option<Config>)

  datatype Order = Order(verb: Verb, template: string, input: Input, key: string)

  datatype Outcome = Outcome(templateId: string, revision: int, digestOk: bool, archived: bool, changed: bool)

  // `expected` is None when the field is not a canonical number up to 64, `draft` when `draft()` throws.
  datatype Form = Form(template: string, expected: Option<int>, draft: Option<Draft>)

  datatype Pending = Pending(serial: nat, command: Order)

  datatype Capture = Capture(version: nat, connection: nat, draft: Draft, endpoints: seq<Endpoint>)

  datatype Requested = Newest | Exact(revision: int) | Malformed

  datatype Inspect = Inspect(version: nat, connection: nat, template: string, requested: Requested)

  // An immutable template record; `sealed` says that its digests are well-formed and it claims no authority.
  datatype Record = Record(templateId: string, currentRevision: int, revision: int, sealed: bool, config: Config)

  datatype Send = Send(connection: nat, replay: bool, original: Pending)

  datatype Read = EndpointRead(task: nat, draft: Draft, endpoint: Endpoint) | Inspected(config: Config)

  datatype State = State(
    form: Form, epoch: nat, readVersion: nat, captureVersion: nat, pending: Option<Pending>, sending: bool,
    locks: Option<seq<Endpoint>>, stamp: Option<Draft>, captures: map<nat, Capture>, inspects: map<nat, Inspect>,
    sends: map<nat, Send>, tasks: nat, issued: nat, log: seq<Read>, trace: seq<Event<Order, (), Outcome>>)

  // ---- validation ----

  predicate DistinctNames(names: seq<string>) {
    forall i, j :: 0 <= i < j < |names| ==> names[i] != names[j]
  }

  predicate Business(protocols: seq<string>) {
    && 1 <= |protocols| <= 2 && DistinctNames(protocols)
    && forall i :: 0 <= i < |protocols| ==> protocols[i] == "tcp" || protocols[i] == "udp"
  }

  predicate NodesOk(nodes: seq<string>) {
    2 <= |nodes| <= 8 && (forall i :: 0 <= i < |nodes| ==> D.IsId(nodes[i])) && DistinctNames(nodes)
  }

  // Endpoint i belongs to node i + 1.
  predicate Aligned(nodes: seq<string>, endpoints: seq<Endpoint>) {
    |endpoints| + 1 == |nodes| && forall i :: 0 <= i < |endpoints| ==> endpoints[i].nodeId == nodes[i + 1] && D.IsRevision(endpoints[i].revision)
  }

  // `configView`
  predicate ConfigOk(c: Config) {
    && c.version == 1 && NodesOk(c.nodes) && Business(c.protocols) && Aligned(c.nodes, c.endpoints)
    && D.IsId(c.profileId) && D.IsRevision(c.configRevision)
  }

  predicate DraftOk(d: Draft) {
    && NodesOk(d.nodes) && (d.protocols == ["tcp", "udp"] || d.protocols == ["tcp"] || d.protocols == ["udp"])
    && D.IsId(d.profileId) && D.IsRevision(d.configRevision)
  }

  // What the form parses to after a record was copied into it.
  function DraftOf(c: Config): Draft {
    Draft(c.nodes, if |c.protocols| == 2 then ["tcp", "udp"] else c.protocols, c.profileId, c.configRevision)
  }

  function ProposalOf(c: Config): Draft {
    Draft(c.nodes, c.protocols, c.profileId, c.configRevision)
  }

  predicate ValidOutcome(c: Order, r: Outcome) {
    && r.templateId == c.template && 1 <= r.revision <= 64 && r.digestOk && (r.archived <==> c.verb.Archive?)
    && r.revision == c.input.expectedRevision + (if c.verb.Publish? && r.changed then 1 else 0)
  }

  const LAW: Law<Order, (), Outcome> := Law(false, (c, p) => false, (c, r) => ValidOutcome(c, r))

  // ---- steps ----

  const BLANK := Form("", Some(0), None)

  function Initial(): State {
    State(BLANK, 0, 0, 0, None, false, None, None, map[], map[], map[], 0, 0, [], [])
  }

  // Nothing about the command changes.
  predicate Calm(s: State, t: State) {
    && t.trace == s.trace && t.pending == s.pending && t.sending == s.sending && t.sends == s.sends && t.epoch == s.epoch
    && s.tasks <= t.tasks
  }

  function Invalidated(s: State): (t: State)
    ensures Calm(s, t)
  {
    if s.pending.Some? then s
    else s.(captureVersion := s.captureVersion + 1, readVersion := s.readVersion + 1, locks := None, stamp := None)
  }

  // Fields are disabled while a command is remembered.
  function Edited(s: State, form: Form): (t: State)
    ensures Calm(s, t)
  {
    if s.pending.Some? then s else Invalidated(s.(form := form))
  }

  // A proposal that does not parse leaves earlier locks in place.
  function CaptureBegun(s: State): (r: State)
    ensures Calm(s, r)
  {
    if s.pending.Some? then s else
    var t := s.(captureVersion := s.captureVersion + 1, readVersion := s.readVersion + 1);
    if t.form.draft.None? then t
    else t.(locks := None, stamp := None, tasks := t.tasks + 1,
            captures := t.captures[t.tasks := Capture(t.captureVersion, t.epoch, t.form.draft.value, [])])
  }

  function CaptureContinued(s: State, id: nat, reply: Option<Endpoint>): (t: State)
    requires id in s.captures
    ensures Calm(s, t)
  {
    var c := s.captures[id];
    var done := s.(captures := s.captures - {id});
    if reply.None? || c.connection != s.epoch || c.version != s.captureVersion || s.pending.Some? then done
    else if |c.endpoints| + 1 >= |c.draft.nodes| then done
    else if reply.value.nodeId != c.draft.nodes[|c.endpoints| + 1] || !D.IsRevision(reply.value.revision) then done
    else
      var endpoints := c.endpoints + [reply.value];
      var log := s.log + [EndpointRead(id, c.draft, reply.value)];
      if |endpoints| + 1 < |c.draft.nodes| then s.(captures := s.captures[id := c.(endpoints := endpoints)], log := log)
      else if s.form.draft != Some(c.draft) then done.(log := log)
      else done.(log := log, locks := Some(endpoints), stamp := Some(c.draft))
  }

  function InspectBegun(s: State, template: string, requested: Requested): (r: State)
    ensures Calm(s, r)
  {
    if s.pending.Some? then s else
    var t := s.(readVersion := s.readVersion + 1, captureVersion := s.captureVersion + 1, locks := None, stamp := None);
    if !D.IsId(template) || requested.Malformed? then t
    else t.(tasks := t.tasks + 1, inspects := t.inspects[t.tasks := Inspect(t.readVersion, t.epoch, template, requested)])
  }

  predicate RecordOk(i: Inspect, r: Record) {
    && r.templateId == i.template && 1 <= r.revision <= r.currentRevision <= 64
    && (if i.requested.Exact? then r.revision == i.requested.revision else r.revision == r.currentRevision)
    && r.sealed && ConfigOk(r.config)
  }

  function Inspection(s: State, id: nat, reply: Option<Record>): (t: State)
    requires id in s.inspects
    ensures Calm(s, t)
  {
    var i := s.inspects[id];
    var done := s.(inspects := s.inspects - {id});
    if reply.None? || i.connection != s.epoch || i.version != s.readVersion || s.pending.Some? || !RecordOk(i, reply.value) then done
    else
      var config := reply.value.config;
      done.(captureVersion := s.captureVersion + 1, form := Form(i.template, Some(reply.value.currentRevision), Some(DraftOf(config))),
            locks := Some(config.endpoints), stamp := Some(DraftOf(config)), log := s.log + [Inspected(config)])
  }

  // The body a fresh command would carry, or None where `command` throws.
  function Compose(s: State, verb: Verb): Option<Input> {
    var f := s.form;
    if !D.IsId(f.template) || f.expected.None? || (verb.Archive? && f.expected.value == 0) then None
    else if verb.Archive? then Some(Input(f.expected.value, None))
    else if f.draft.None? || s.locks.None? || s.stamp != f.draft then None
    else
      var d := f.draft.value;
      var config := Config(1, d.nodes, d.protocols, s.locks.value, d.profileId, d.configRevision);
      if ConfigOk(config) then Some(Input(f.expected.value, Some(config))) else None
  }

  function Remember(s: State, c: Order): State {
    s.(pending := Some(Pending(s.issued, c)), issued := s.issued + 1, readVersion := s.readVersion + 1,
       captureVersion := s.captureVersion + 1, trace := s.trace + [Began(c)])
  }

  function Transmit(s: State, replay: bool): State
    requires s.pending.Some?
  {
    s.(sending := true, tasks := s.tasks + 1, sends := s.sends[s.tasks := Send(s.epoch, replay, s.pending.value)],
       trace := s.trace + [Wrote(s.pending.value.command)])
  }

  // No reading is made, and the locks stay or go as a pair.
  predicate Blind(s: State, t: State) {
    && t.log == s.log && t.captures == s.captures && (t.form.draft.None? || t.form.draft == s.form.draft)
    && ((t.locks == s.locks && t.stamp == s.stamp) || (t.locks.None? && t.stamp.None?))
  }

  function Commanded(s: State, verb: Verb, confirmed: bool, key: string): (t: State)
    ensures Blind(s, t)
  {
    if s.sending then s
    else if s.pending.Some? then
      if s.pending.value.command.verb != verb || !confirmed then s else Transmit(s, true)
    else
      var input := Compose(s, verb);
      if input.None? || !confirmed then s
      else Transmit(Remember(s, Order(verb, s.form.template, input.value, key)), false)
  }

  // The `catch` of `command`.
  function Failed(s: State, t: Send, status: Option<int>): (r: State)
    ensures Blind(s, r)
  {
    if t.connection != s.epoch then s else
    var f := s.(sending := false);
    if s.pending.Some? && !t.replay && status.Some? && D.CompleteRejection(status.value)
    then f.(pending := None, trace := s.trace + [Settled(Rejected)]) else f
  }

  function Answered(s: State, id: nat, reply: D.Answer<Outcome>): (r: State)
    requires id in s.sends
    ensures Blind(s, r)
  {
    var t := s.sends[id];
    var done := s.(sends := s.sends - {id});
    match reply
    case Http(status) => Failed(done, t, Some(status))
    case Broken => Failed(done, t, None)
    case Body(result) =>
      if t.connection != s.epoch || s.pending != Some(t.original) then done
      else if !ValidOutcome(t.original.command, result) then Failed(done, t, None)
      else done.(pending := None, sending := false, form := s.form.(expected := Some(result.revision)), trace := s.trace + [Settled(Accepted(result))])
  }

  function Cleared(s: State): (t: State)
    ensures Blind(s, t)
  {
    s.(form := BLANK, epoch := s.epoch + 1, readVersion := s.readVersion + 1, captureVersion := s.captureVersion + 1,
       pending := None, sending := false, locks := None, stamp := None,
       trace := if s.pending.Some? then s.trace + [Settled(Dropped)] else s.trace)
  }

  function Discarded(s: State, confirmed: bool): (t: State)
    ensures Blind(s, t)
  {
    if s.pending.Some? && confirmed then Cleared(s) else s
  }

  datatype Step =
    | DidEdit(form: Form) | DidInvalidate | DidCapture | DidReadEndpoint(task: nat, endpoint: Option<Endpoint>)
    | DidInspect(template: string, requested: Requested) | DidReadRecord(task: nat, record: Option<Record>)
    | DidCommand(verb: Verb, confirmed: bool, key: string) | DidAnswer(task: nat, reply: D.Answer<Outcome>)
    | DidClear | DidDiscard(confirmed: bool)

  predicate Enabled(s: State, step: Step) {
    match step
    case DidEdit(form) => form.draft.Some? ==> DraftOk(form.draft.value)
    case DidReadEndpoint(id, _) => id in s.captures
    case DidReadRecord(id, _) => id in s.inspects
    case DidAnswer(id, _) => id in s.sends
    case _ => true
  }

  function Next(s: State, step: Step): State
    requires Enabled(s, step)
  {
    match step
    case DidEdit(form) => Edited(s, form)
    case DidInvalidate => Invalidated(s)
    case DidCapture => CaptureBegun(s)
    case DidReadEndpoint(id, endpoint) => CaptureContinued(s, id, endpoint)
    case DidInspect(template, requested) => InspectBegun(s, template, requested)
    case DidReadRecord(id, record) => Inspection(s, id, record)
    case DidCommand(verb, confirmed, key) => Commanded(s, verb, confirmed, key)
    case DidAnswer(id, reply) => Answered(s, id, reply)
    case DidClear => Cleared(s)
    case DidDiscard(confirmed) => Discarded(s, confirmed)
  }

  // ---- invariant ----

  // The endpoints come from one capture of this draft, or from one record that says the same.
  ghost predicate ReadBy(log: seq<Read>, task: nat, d: Draft, endpoints: seq<Endpoint>) {
    forall i :: 0 <= i < |endpoints| ==> EndpointRead(task, d, endpoints[i]) in log
  }

  ghost predicate CopiedFrom(log: seq<Read>, c: Config, d: Draft, endpoints: seq<Endpoint>) {
    Inspected(c) in log && DraftOf(c) == d && c.endpoints == endpoints
  }

  ghost predicate OneReading(log: seq<Read>, d: Draft, endpoints: seq<Endpoint>) {
    (exists task :: ReadBy(log, task, d, endpoints)) || exists c :: CopiedFrom(log, c, d, endpoints)
  }

  ghost predicate Sourced(log: seq<Read>, d: Draft, endpoints: seq<Endpoint>) {
    Aligned(d.nodes, endpoints) && OneReading(log, d, endpoints)
  }

  // A published config passes `configView` and its endpoints come from one reading of exactly its proposal.
  ghost predicate Paired(log: seq<Read>, c: Order) {
    c.verb.Publish? ==>
      && c.input.config.Some? && ConfigOk(c.input.config.value)
      && Sourced(log, ProposalOf(c.input.config.value), c.input.config.value.endpoints)
  }

  ghost predicate CaptureOk(log: seq<Read>, id: nat, c: Capture) {
    && |c.endpoints| < |c.draft.nodes| && ReadBy(log, id, c.draft, c.endpoints)
    && forall i :: 0 <= i < |c.endpoints| ==> c.endpoints[i].nodeId == c.draft.nodes[i + 1] && D.IsRevision(c.endpoints[i].revision)
  }

  ghost predicate LocksOk(log: seq<Read>, locks: Option<seq<Endpoint>>, stamp: Option<Draft>) {
    (locks.Some? <==> stamp.Some?) && (locks.Some? ==> Sourced(log, stamp.value, locks.value))
  }

  predicate FormOk(form: Form) {
    form.draft.Some? ==> |form.draft.value.nodes| >= 2
  }

  ghost predicate CapturesOk(log: seq<Read>, captures: map<nat, Capture>) {
    forall id :: id in captures ==> CaptureOk(log, id, captures[id])
  }

  ghost predicate WritesOk(log: seq<Read>, trace: seq<Event<Order, (), Outcome>>) {
    forall i :: 0 <= i < |trace| && trace[i].Wrote? ==> Paired(log, trace[i].written)
  }

  // The trace so far is lawful and leaves exactly the remembered command open.
  ghost predicate Remembers(live: Option<Live<Order>>, pending: Option<Pending>) {
    && live.Some?
    && (pending.None? ==> live.value.Idle?)
    && (pending.Some? ==> live.value.Open? && live.value.command == pending.value.command && live.value.writes > 0)
  }

  // A send of the current connection is the only one and belongs to the remembered command.
  ghost predicate SendsOk(sends: map<nat, Send>, tasks: nat, epoch: nat, sending: bool, pending: Option<Pending>, live: Option<Live<Order>>) {
    && (forall id :: id in sends ==> id < tasks && sends[id].connection <= epoch)
    && (forall id :: id in sends && sends[id].connection == epoch ==>
          && sending && pending == Some(sends[id].original)
          && (!sends[id].replay ==> live.Some? && live.value.Open? && live.value.writes == 1))
    && forall a, b :: a in sends && b in sends && sends[a].connection == epoch && sends[b].connection == epoch ==> a == b
  }

  ghost predicate Readings(s: State) {
    LocksOk(s.log, s.locks, s.stamp) && FormOk(s.form) && CapturesOk(s.log, s.captures)
  }

  ghost predicate Commands(s: State) {
    && WritesOk(s.log, s.trace) && (s.pending.Some? ==> Paired(s.log, s.pending.value.command))
    && Remembers(Replay(LAW, s.trace), s.pending)
    && SendsOk(s.sends, s.tasks, s.epoch, s.sending, s.pending, Replay(LAW, s.trace))
  }

  ghost predicate Inv(s: State) {
    Readings(s) && Commands(s)
  }

  // ---- readings only accumulate ----

  lemma SourcedStays(before: seq<Read>, after: seq<Read>, d: Draft, endpoints: seq<Endpoint>)
    requires before <= after && Sourced(before, d, endpoints)
    ensures Sourced(after, d, endpoints)
  {
    assert forall r :: r in before ==> r in after;
    if task :| ReadBy(before, task, d, endpoints) {
      assert ReadBy(after, task, d, endpoints);
    } else {
      var c :| CopiedFrom(before, c, d, endpoints);
      assert CopiedFrom(after, c, d, endpoints);
    }
  }

  // A step that leaves the command alone.
  lemma Undisturbed(s: State, t: State)
    requires Commands(s) && s.log <= t.log && Calm(s, t)
    ensures Commands(t)
  {
    forall i | 0 <= i < |s.trace| && s.trace[i].Wrote? ensures Paired(t.log, s.trace[i].written) {
      PairedStays(s.log, t.log, s.trace[i].written);
    }
    if s.pending.Some? {
      PairedStays(s.log, t.log, s.pending.value.command);
    }
  }

  lemma CapturesStay(before: seq<Read>, after: seq<Read>, captures: map<nat, Capture>)
    requires before <= after && CapturesOk(before, captures)
    ensures CapturesOk(after, captures)
  {
    assert forall r :: r in before ==> r in after;
    forall id | id in captures ensures CaptureOk(after, id, captures[id]) {
      assert CaptureOk(before, id, captures[id]);
    }
  }

  lemma PairedStays(before: seq<Read>, after: seq<Read>, c: Order)
    requires before <= after && Paired(before, c)
    ensures Paired(after, c)
  {
    if c.verb.Publish? {
      SourcedStays(before, after, ProposalOf(c.input.config.value), c.input.config.value.endpoints);
    }
  }

  // ---- every step keeps the invariant ----

  lemma CaptureKeeps(s: State, id: nat, reply: Option<Endpoint>)
    requires Readings(s) && id in s.captures
    ensures Readings(CaptureContinued(s, id, reply)) && s.log <= CaptureContinued(s, id, reply).log
  {
    var t := CaptureContinued(s, id, reply);
    if t.log != s.log {
      CapturesStay(s.log, t.log, s.captures);
      EndpointAdds(s.log, id, s.captures[id], reply.value);
      if s.locks.Some? {
        SourcedStays(s.log, t.log, s.stamp.value, s.locks.value);
      }
    }
  }

  // One more endpoint of the same capture.
  lemma EndpointAdds(log: seq<Read>, id: nat, c: Capture, e: Endpoint)
    requires CaptureOk(log, id, c) && |c.endpoints| + 1 < |c.draft.nodes|
    requires e.nodeId == c.draft.nodes[|c.endpoints| + 1] && D.IsRevision(e.revision)
    ensures var (after, endpoints) := (log + [EndpointRead(id, c.draft, e)], c.endpoints + [e]);
            && CaptureOk(after, id, c.(endpoints := endpoints))
            && (|endpoints| + 1 == |c.draft.nodes| ==> Sourced(after, c.draft, endpoints))
  {
    var (after, endpoints) := (log + [EndpointRead(id, c.draft, e)], c.endpoints + [e]);
    assert forall r :: r in log ==> r in after;
    assert after[|log|] == EndpointRead(id, c.draft, e);
    assert ReadBy(after, id, c.draft, endpoints);
  }

  lemma InspectionKeeps(s: State, id: nat, reply: Option<Record>)
    requires Readings(s) && id in s.inspects
    ensures Readings(Inspection(s, id, reply)) && s.log <= Inspection(s, id, reply).log
  {
    var t := Inspection(s, id, reply);
    if t.log != s.log {
      var c := reply.value.config;
      CapturesStay(s.log, t.log, s.captures);
      assert t.log[|s.log|] == Inspected(c);
      assert CopiedFrom(t.log, c, DraftOf(c), c.endpoints);
    }
  }

  lemma AppendKeeps(s: State, event: Event<Order, (), Outcome>)
    requires WritesOk(s.log, s.trace) && Replay(LAW, s.trace).Some? && Advance(LAW, Replay(LAW, s.trace).value, event).Some?
    requires event.Wrote? ==> Paired(s.log, event.written)
    ensures Replay(LAW, s.trace + [event]) == Advance(LAW, Replay(LAW, s.trace).value, event)
    ensures WritesOk(s.log, s.trace + [event])
  {
    ReplayGrows(LAW, s.trace, event);
  }

  // A fresh publication carries the locks of its own draft.
  lemma ComposedIsPaired(s: State, verb: Verb, template: string, key: string)
    requires Readings(s) && Compose(s, verb).Some?
    ensures Paired(s.log, Order(verb, template, Compose(s, verb).value, key))
  {
  }

  lemma TransmitKeeps(s: State, replay: bool)
    requires SendsOk(s.sends, s.tasks, s.epoch, s.sending, s.pending, Replay(LAW, s.trace)) && !s.sending && s.pending.Some?
    requires Replay(LAW, s.trace).Some? && Replay(LAW, s.trace).value.Open? && Replay(LAW, s.trace).value.command == s.pending.value.command
    requires !replay ==> Replay(LAW, s.trace).value.writes == 0
    requires Paired(s.log, s.pending.value.command)
    requires WritesOk(s.log, s.trace)
    ensures Commands(Transmit(s, replay))
  {
    ReplayGrows(LAW, s.trace, Wrote(s.pending.value.command));
  }

  lemma CommandKeeps(s: State, verb: Verb, confirmed: bool, key: string)
    requires Inv(s)
    ensures Commands(Commanded(s, verb, confirmed, key))
  {
    if Commanded(s, verb, confirmed, key) != s {
      if s.pending.Some? {
        TransmitKeeps(s, true);
      } else {
        var c := Order(verb, s.form.template, Compose(s, verb).value, key);
        ComposedIsPaired(s, verb, s.form.template, key);
        RememberKeeps(s, c);
        TransmitKeeps(Remember(s, c), false);
      }
    }
  }

  lemma RememberKeeps(s: State, c: Order)
    requires Commands(s) && s.pending.None? && !s.sending && Paired(s.log, c)
    ensures var t := Remember(s, c);
            && WritesOk(t.log, t.trace) && Replay(LAW, t.trace) == Some(Open(c, false, 0))
            && SendsOk(t.sends, t.tasks, t.epoch, t.sending, t.pending, Replay(LAW, t.trace))
  {
    AppendKeeps(s, Began(c));
  }

  lemma AnswerKeeps(s: State, id: nat, reply: D.Answer<Outcome>)
    requires Commands(s) && id in s.sends
    ensures Commands(Answered(s, id, reply))
  {
    var t := Answered(s, id, reply);
    if t.trace != s.trace {
      AppendKeeps(s, t.trace[|s.trace|]);
    }
  }

  lemma ClearKeeps(s: State)
    requires Commands(s)
    ensures Commands(Cleared(s))
  {
    if s.pending.Some? {
      AppendKeeps(s, Settled(Dropped));
    }
  }

  // Steps that read metadata or edit the form.
  predicate Browses(step: Step) {
    step.DidEdit? || step.DidInvalidate? || step.DidCapture? || step.DidReadEndpoint? || step.DidInspect? || step.DidReadRecord?
  }

  lemma CaptureBegins(s: State)
    requires Readings(s)
    ensures Readings(CaptureBegun(s)) && CaptureBegun(s).log == s.log
  {
  }

  lemma BrowsingReads(s: State, step: Step)
    requires Readings(s) && Enabled(s, step) && Browses(step)
    ensures Readings(Next(s, step)) && s.log <= Next(s, step).log
  {
    match step
    case DidReadEndpoint(id, endpoint) => CaptureKeeps(s, id, endpoint);
    case DidReadRecord(id, record) => InspectionKeeps(s, id, record);
    case DidCapture => CaptureBegins(s);
    case _ =>
  }

  lemma BrowsingKeeps(s: State, step: Step)
    requires Inv(s) && Enabled(s, step) && Browses(step)
    ensures Inv(Next(s, step))
  {
    BrowsingReads(s, step);
    assert Calm(s, Next(s, step));
    Undisturbed(s, Next(s, step));
  }

  // Locks survive a command or are dropped as a pair.
  lemma CommandingReads(s: State, step: Step)
    requires Readings(s) && Enabled(s, step) && !Browses(step)
    ensures Readings(Next(s, step))
  {
    assert Blind(s, Next(s, step));
  }

  lemma CommandingKeeps(s: State, step: Step)
    requires Inv(s) && Enabled(s, step) && !Browses(step)
    ensures Commands(Next(s, step))
  {
    match step
    case DidCommand(verb, confirmed, key) => CommandKeeps(s, verb, confirmed, key);
    case DidAnswer(id, reply) => AnswerKeeps(s, id, reply);
    case DidClear => ClearKeeps(s);
    case DidDiscard(confirmed) => ClearKeeps(s);
  }

  lemma NextKeeps(s: State, step: Step)
    requires Inv(s) && Enabled(s, step)
    ensures Inv(Next(s, step))
  {
    if Browses(step) {
      BrowsingKeeps(s, step);
    } else {
      CommandingReads(s, step);
      CommandingKeeps(s, step);
    }
  }

  // ---- whole runs ----

  ghost predicate IsRun(states: seq<State>, steps: seq<Step>) {
    && |states| == |steps| + 1 && states[0] == Initial()
    && forall i {:trigger steps[i]} :: 0 <= i < |steps| ==> Enabled(states[i], steps[i]) && states[i + 1] == Next(states[i], steps[i])
  }

  lemma {:induction false} RunIsSound(states: seq<State>, steps: seq<Step>, n: nat)
    requires IsRun(states, steps) && n < |states|
    ensures Inv(states[n])
  {
    if n > 0 {
      RunIsSound(states, steps, n - 1);
      assert Enabled(states[n - 1], steps[n - 1]);
      NextKeeps(states[n - 1], steps[n - 1]);
    }
  }

  // Over every run: two writes of different commands are separated by the end of the first.
  lemma PendingIsNeverReplaced(states: seq<State>, steps: seq<Step>, n: nat, i: nat, j: nat)
    requires IsRun(states, steps) && n < |states| && i < j < |states[n].trace|
    requires states[n].trace[i].Wrote? && states[n].trace[j].Wrote?
    ensures states[n].trace[i].written == states[n].trace[j].written || exists k :: i < k < j && states[n].trace[k].Settled?
  {
    RunIsSound(states, steps, n);
    NeverReplaced(LAW, states[n].trace, i, j);
  }

  // The acceptance names this template: an archive at the revision it expected, a publication there or one above.
  predicate Answers(c: Order, r: Outcome) {
    && r.templateId == c.template && r.digestOk && 1 <= r.revision <= 64
    && match c.verb
       case Archive => r.archived && r.revision == c.input.expectedRevision
       case Publish => !r.archived && r.revision - c.input.expectedRevision == if r.changed then 1 else 0
  }

  // What starts a command: the operator confirmed it, and it carries the template, revision and proposal of the form.
  lemma CommandCarriesTheForm(s: State, step: Step)
    requires Enabled(s, step) && s.pending.None? && Next(s, step).pending.Some?
    ensures && step.DidCommand? && step.confirmed && !s.sending
            && var c := Next(s, step).pending.value.command;
            && c.verb == step.verb && c.key == step.key && c.template == s.form.template && D.IsId(c.template)
            && s.form.expected == Some(c.input.expectedRevision)
            && Next(s, step).trace == s.trace + [Began(c), Wrote(c)]
            && (c.verb.Archive? ==> c.input.config.None? && c.input.expectedRevision != 0)
            && (c.verb.Publish? ==> c.input.config.Some? && s.form.draft == Some(ProposalOf(c.input.config.value))
                                    && s.locks == Some(c.input.config.value.endpoints) && s.stamp == s.form.draft)
  {
    assert Browses(step) ==> Calm(s, Next(s, step));
  }

  // Step m starts the command from the form on screen.
  ghost predicate Starts(states: seq<State>, steps: seq<Step>, m: nat, c: Order)
    requires m < |steps| < |states|
  {
    && steps[m].DidCommand? && steps[m].confirmed && states[m].pending.None?
    && c.verb == steps[m].verb && c.key == steps[m].key && c.template == states[m].form.template
    && states[m].form.expected == Some(c.input.expectedRevision)
    && (c.verb.Archive? ==> c.input.config.None? && c.input.expectedRevision != 0)
    && (c.verb.Publish? ==> c.input.config.Some? && states[m].form.draft == Some(ProposalOf(c.input.config.value))
                            && states[m].locks == Some(c.input.config.value.endpoints) && states[m].stamp == states[m].form.draft)
  }

  // A remembered command stays until it ends, and only it is written.
  lemma StepWrites(s: State, step: Step)
    requires Enabled(s, step)
    ensures var t := Next(s, step);
            && s.trace <= t.trace
            && (s.pending.Some? && t.pending.Some? ==> t.pending.value.command == s.pending.value.command)
            && forall k :: |s.trace| <= k < |t.trace| && t.trace[k].Wrote? ==> t.pending.Some? && t.trace[k].written == t.pending.value.command
  {
    assert Browses(step) ==> Calm(s, Next(s, step));
  }

  lemma {:induction false} PendingWasStarted(states: seq<State>, steps: seq<Step>, n: nat) returns (m: nat)
    requires IsRun(states, steps) && n < |states| && states[n].pending.Some?
    ensures m < n && Starts(states, steps, m, states[n].pending.value.command)
  {
    assert n > 0;
    m := n - 1;
    assert Enabled(states[m], steps[m]) && states[n] == Next(states[m], steps[m]);
    RunIsSound(states, steps, m);
    if states[m].pending.None? {
      CommandCarriesTheForm(states[m], steps[m]);
    } else {
      StepWrites(states[m], steps[m]);
      m := PendingWasStarted(states, steps, n - 1);
    }
  }

  // Over every run: what is written was started by a confirmed command with template, revision and proposal of the form.
  lemma {:induction false} WrittenWasStarted(states: seq<State>, steps: seq<Step>, n: nat, k: nat) returns (m: nat)
    requires IsRun(states, steps) && n < |states| && k < |states[n].trace| && states[n].trace[k].Wrote?
    ensures m < n && Starts(states, steps, m, states[n].trace[k].written)
  {
    assert n > 0;
    assert Enabled(states[n - 1], steps[n - 1]) && states[n] == Next(states[n - 1], steps[n - 1]);
    RunIsSound(states, steps, n - 1);
    StepWrites(states[n - 1], steps[n - 1]);
    if k < |states[n - 1].trace| {
      assert states[n - 1].trace[k] == states[n].trace[k];
      m := WrittenWasStarted(states, steps, n - 1, k);
    } else {
      m := PendingWasStarted(states, steps, n);
    }
  }

  // Over every run: a command ends with a valid acceptance, a complete refusal of its only write, or the operator.
  lemma EndsForAReason(states: seq<State>, steps: seq<Step>, n: nat, k: nat) returns (start: nat)
    requires IsRun(states, steps) && n < |states| && k < |states[n].trace| && states[n].trace[k].Settled?
    ensures var trace := states[n].trace;
            && start < k && trace[start].Began? && Quiet(trace, start, k)
            && (trace[k].reason.Accepted? ==> Answers(trace[start].command, trace[k].reason.result) && !Unwritten(trace, start, k))
            && (trace[k].reason.Rejected? ==> exists at :: SoleWrite(trace, start, k, at))
            && (trace[k].reason.Unsent? ==> Unwritten(trace, start, k))
  {
    RunIsSound(states, steps, n);
    start := SettledForAReason(LAW, states[n].trace, k);
  }

  // Over every run: each published config pairs endpoint i with node i + 1, all from one reading of that proposal.
  lemma PublishedFromOneReading(states: seq<State>, steps: seq<Step>, n: nat, k: nat)
    requires IsRun(states, steps) && n < |states| && k < |states[n].trace| && states[n].trace[k].Wrote?
    requires states[n].trace[k].written.verb.Publish?
    ensures var config := states[n].trace[k].written.input.config;
            && config.Some? && ConfigOk(config.value) && Aligned(config.value.nodes, config.value.endpoints)
            && OneReading(states[n].log, ProposalOf(config.value), config.value.endpoints)
  {
    RunIsSound(states, steps, n);
  }
}

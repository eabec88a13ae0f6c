/**
 Explicit batches: profileBatch and pathBatch in apps/web/rule-console.js turn an impact page into frozen commands.
 JSON.stringify, encodeURIComponent and the key generator are parameters.
 */
module Batches {
  import opened Outcomes
  import opened Decimals
  import opened Text
  import opened CanonicalJson
  import opened RuleDispatch

  datatype Engine = Engine(before: Order, render: Json -> string, encode: string -> string, newKey: nat -> string)

  // Keys are enumerated by one order, and different values of one key order are written differently.
  ghost predicate Sane(e: Engine) {
    && IsOrder(e.before)
    && forall a, b {:trigger e.render(a), e.render(b)} :: e.render(a) == e.render(b) ==> a == b
  }

  predicate IsHex(c: char) {
    'a' <= c <= 'f' || '0' <= c <= '9'
  }

  predicate IsDigest(s: string) {
    |s| == 71 && s[..7] == "sha256:" && forall i :: 7 <= i < 71 ==> IsHex(s[i])
  }

  // ---- objects ----

  // `{ ...members, [key]: value }`
  function Put(m: Members, key: string, value: Json): Members {
    if m.NoMembers? then Member(key, value, NoMembers)
    else if m.key == key then Member(key, value, m.rest)
    else Member(m.key, m.value, Put(m.rest, key, value))
  }

  lemma {:induction false} PutChangesOneKey(m: Members, key: string, value: Json, other: string)
    ensures Find(Put(m, key, value), other) == if other == key then Some(value) else Find(m, other)
  {
    if m.Member? {
      PutChangesOneKey(m.rest, key, value, other);
    }
  }

  lemma {:induction false} PutIsWellFormed(m: Members, key: string, value: Json)
    requires DistinctKeys(m) && WellFormedMembers(m) && WellFormed(value)
    ensures Keys(Put(m, key, value)) == Keys(m) + {key}
    ensures DistinctKeys(Put(m, key, value)) && WellFormedMembers(Put(m, key, value))
  {
    if m.Member? && m.key != key {
      PutIsWellFormed(m.rest, key, value);
    }
  }

  // `v?.key`
  function Get(v: Option<Json>, key: string): Option<Json> {
    if v.Some? && v.value.Object? then Find(v.value.members, key) else None
  }

  function Int(n: nat): Json {
    Number(Decimal(n))
  }

  lemma FindPair(a: string, x: Json, b: string, y: Json)
    requires a != b
    ensures Get(Some(Object(Member(a, x, Member(b, y, NoMembers)))), a) == Some(x)
    ensures Get(Some(Object(Member(a, x, Member(b, y, NoMembers)))), b) == Some(y)
  {
    assert Find(Member(b, y, NoMembers), b) == Some(y);
  }

  lemma PairIsWellFormed(a: string, x: Json, b: string, y: Json)
    requires a != b && WellFormed(x) && WellFormed(y)
    ensures WellFormed(Object(Member(a, x, Member(b, y, NoMembers))))
  {
    var last := Member(b, y, NoMembers);
    assert Keys(last.rest) == {} && WellFormedMembers(last.rest);
    assert Keys(last) == {b} && DistinctKeys(last) && WellFormedMembers(last);
  }

  function Elements(items: Items): seq<Json> {
    if items.NoItems? then [] else [items.head] + Elements(items.tail)
  }

  function Strings(texts: seq<string>): (r: Items)
    ensures WellFormedItems(r)
  {
    if texts == [] then NoItems else Item(Str(texts[0]), Strings(texts[1..]))
  }

  lemma {:induction false} StringsInOrder(texts: seq<string>, i: nat)
    ensures |Elements(Strings(texts))| == |texts|
    ensures i < |texts| ==> Elements(Strings(texts))[i] == Str(texts[i])
  {
    if texts != [] {
      StringsInOrder(texts[1..], if i > 0 then i - 1 else 0);
    }
  }

  // The spec goes through every node after the entry, in order.
  ghost predicate Routes(spec: Json, nodes: seq<string>) {
    && var via := Get(Get(Some(spec), "path"), "via");
    && via.Some? && via.value.Array? && |Elements(via.value.items)| + 1 == |nodes|
    && forall i :: 0 <= i < |nodes| - 1 ==> Elements(via.value.items)[i] == Str(nodes[i + 1])
  }

  // The spec is locked to this revision of this Profile.
  ghost predicate Uses(spec: Json, profileId: string, revision: int) {
    && revision >= 0
    && Get(Get(Some(spec), "transport"), "profileId") == Some(Str(profileId))
    && Get(Get(Some(spec), "transport"), "configRevision") == Some(Int(revision))
  }

  lemma ViaRoutes(nodes: seq<string>, spec: Json)
    requires |nodes| > 0 && Get(Some(spec), "path") == Some(Object(Member("via", Array(Strings(nodes[1..])), NoMembers)))
    ensures Routes(spec, nodes)
  {
    StringsInOrder(nodes[1..], 0);
    forall i | 0 <= i < |nodes| - 1 ensures Elements(Strings(nodes[1..]))[i] == Str(nodes[i + 1]) {
      StringsInOrder(nodes[1..], i);
    }
  }

  // Two specs agree on every field outside `changed`.
  ghost predicate AgreeOutside(spec: Json, source: Json, changed: set<string>) {
    && spec.Object? && source.Object?
    && forall key :: key !in changed ==> Find(spec.members, key) == Find(source.members, key)
  }

  predicate Equal(e: Engine, a: Json, b: Json) {
    e.render(Ordered(e.before, a)) == e.render(Ordered(e.before, b))
  }

  lemma EqualMeansSame(e: Engine, a: Json, b: Json)
    requires Sane(e) && WellFormed(a) && WellFormed(b)
    ensures Equal(e, a, b) <==> Same(a, b)
  {
    OrderedIsCanonical(e.before, a, b);
  }

  // ---- commands ----

  // `spec.enabled` is a boolean.
  predicate HasEnabled(spec: Json) {
    spec.Object? && Find(spec.members, "enabled").Some? && Find(spec.members, "enabled").value.Bool?
  }

  function UpdateInput(revision: nat, spec: Json): Json {
    Object(Member("expectedRevision", Int(revision), Member("spec", spec, NoMembers)))
  }

  function TemplateJson(t: Template): Json
    requires t.revision >= 0
  {
    Object(Member("templateId", Str(t.id), Member("revision", Int(t.revision), Member("configDigest", Str(t.digest), NoMembers))))
  }

  function BindingInput(revision: nat, t: Template): Json
    requires t.revision >= 0
  {
    Object(Member("expectedRevision", Int(revision), Member("template", TemplateJson(t), NoMembers)))
  }

  ghost predicate IsTemplate(v: Option<Json>, t: Template) {
    && t.revision >= 0 && Get(v, "templateId") == Some(Str(t.id)) && Get(v, "revision") == Some(Int(t.revision))
    && Get(v, "configDigest") == Some(Str(t.digest))
  }

  lemma InputFields(revision: nat, spec: Json, t: Template)
    requires t.revision >= 0
    ensures Get(Some(UpdateInput(revision, spec)), "expectedRevision") == Some(Int(revision))
    ensures Get(Some(UpdateInput(revision, spec)), "spec") == Some(spec)
    ensures Get(Some(BindingInput(revision, t)), "expectedRevision") == Some(Int(revision))
    ensures IsTemplate(Get(Some(BindingInput(revision, t)), "template"), t)
  {
    assert |"expectedRevision"| != |"spec"| && |"expectedRevision"| != |"template"|;
    FindPair("expectedRevision", Int(revision), "spec", spec);
    FindPair("expectedRevision", Int(revision), "template", TemplateJson(t));
    TemplateFields(t);
  }

  lemma TemplateFields(t: Template)
    requires t.revision >= 0
    ensures IsTemplate(Some(TemplateJson(t)), t)
  {
    assert |"templateId"| != |"revision"| && |"templateId"| != |"configDigest"| && |"revision"| != |"configDigest"|;
    FindPair("revision", Int(t.revision), "configDigest", Str(t.digest));
  }

  // A drafted row: the frozen command, the value its body renders and the spec it proposes.
  datatype Draft = Draft(command: Command, input: Json, spec: Json)

  datatype Error = BadProposal | BadItem | MoreThanTransport | MoreThanPath | AlreadyThere

  // `items.map(row)` where `row` may throw: the first error wins.
  function Collect(results: seq<Result<Draft, Error>>): Result<seq<Draft>, Error> {
    if results == [] then Ok([])
    else if results[0].Err? then Err(results[0].error)
    else
      var rest := Collect(results[1..]);
      if rest.Err? then rest else Ok([results[0].value] + rest.value)
  }

  lemma {:induction false} CollectIsAll(results: seq<Result<Draft, Error>>)
    ensures Collect(results).Ok? <==> forall i :: 0 <= i < |results| ==> results[i].Ok?
    ensures Collect(results).Ok? ==> |Collect(results).value| == |results|
    ensures Collect(results).Ok? ==> forall i :: 0 <= i < |results| ==> results[i] == Ok(Collect(results).value[i])
  {
    if results != [] {
      CollectIsAll(results[1..]);
      assert forall i :: 0 < i < |results| ==> results[i] == results[1..][i - 1];
      assert forall i :: 0 <= i < |results[1..]| ==> results[1..][i] == results[i + 1];
    }
  }

  // ---- Profile batches ----

  datatype ProfileItem = ProfileItem(
    forwardId: string, expectedRevision: int, revision: int, changed: bool, recoverySuspended: bool, configRevision: int,
    spec: Json, proposedSpec: Json)

  datatype ProfileProposal = ProfileProposal(target: Profile, items: seq<ProfileItem>)

  predicate DistinctForwards(ids: seq<string>) {
    forall i, j :: 0 <= i < j < |ids| ==> ids[i] != ids[j]
  }

  function ProfileIds(p: ProfileProposal): seq<string> {
    seq(|p.items|, i requires 0 <= i < |p.items| => p.items[i].forwardId)
  }

  predicate ProfileProposalOk(p: ProfileProposal) {
    && IsId(p.target.id) && IsRevision(p.target.revision) && IsDigest(p.target.digest)
    && 1 <= |p.items| <= 10 && DistinctForwards(ProfileIds(p))
  }

  predicate ProfileItemOk(target: Profile, item: ProfileItem) {
    && IsId(item.forwardId) && IsRevision(item.expectedRevision) && item.expectedRevision == item.revision && item.changed
    && !item.recoverySuspended && IsRevision(item.configRevision) && item.configRevision != target.revision
    && var transport := Get(Some(item.spec), "transport");
    && Get(transport, "profileId") == Some(Str(target.id)) && Get(transport, "configRevision") == Some(Int(item.configRevision))
    && var via := Get(Get(Some(item.spec), "path"), "via");
    && via.Some? && via.value.Array? && via.value.items.Item?
    && item.spec.Object? && HasEnabled(item.spec)
  }

  function Lock(target: Profile): (r: Json)
    requires target.revision >= 0
    ensures WellFormed(r)
  {
    assert |"profileId"| != |"configRevision"|;
    PairIsWellFormed("profileId", Str(target.id), "configRevision", Int(target.revision));
    Object(Member("profileId", Str(target.id), Member("configRevision", Int(target.revision), NoMembers)))
  }

  function ProfileSpec(target: Profile, spec: Json): Json
    requires spec.Object? && target.revision >= 0
  {
    Object(Put(spec.members, "transport", Lock(target)))
  }

  // `{ ...clone(spec), enabled }` with the value it already has.
  function Enabled(spec: Json): Json
    requires HasEnabled(spec)
  {
    Object(Put(spec.members, "enabled", Find(spec.members, "enabled").value))
  }

  lemma {:induction false} PutSame(m: Members, key: string)
    requires key in Keys(m)
    ensures Put(m, key, Find(m, key).value) == m
  {
    if m.key != key {
      PutSame(m.rest, key);
    }
  }

  lemma ProfileSpecKeeps(target: Profile, spec: Json)
    requires spec.Object? && WellFormed(spec) && target.revision >= 0
    ensures var p := ProfileSpec(target, spec);
            AgreeOutside(p, spec, {"transport"}) && Uses(p, target.id, target.revision) && WellFormed(p)
    ensures HasEnabled(ProfileSpec(target, spec)) <==> HasEnabled(spec)
  {
    forall key ensures Find(Put(spec.members, "transport", Lock(target)), key) ==
        if key == "transport" then Some(Lock(target)) else Find(spec.members, key) {
      PutChangesOneKey(spec.members, "transport", Lock(target), key);
    }
    PutIsWellFormed(spec.members, "transport", Lock(target));
    assert |"transport"| != |"enabled"| && |"profileId"| != |"configRevision"|;
    FindPair("profileId", Str(target.id), "configRevision", Int(target.revision));
  }

  // What the row of an item looks like: it moves the rule to another revision of the Profile it uses, nothing else.
  ghost predicate IsProfileRow(e: Engine, target: Profile, item: ProfileItem, draft: Draft, key: string) {
    && item.expectedRevision >= 0 && target.revision >= 0
    && AgreeOutside(draft.spec, item.spec, {"transport"}) && Uses(draft.spec, target.id, target.revision)
    && Uses(item.spec, target.id, item.configRevision) && item.configRevision != target.revision
    && Same(draft.spec, item.proposedSpec)
    && Get(Some(draft.input), "expectedRevision") == Some(Int(item.expectedRevision)) && Get(Some(draft.input), "spec") == Some(draft.spec)
    && draft.command == Command("PUT", "forwards/" + e.encode(item.forwardId), e.render(draft.input), key,
                                item.forwardId, item.expectedRevision, None, Some(target), None, false, "", "")
  }

  function ProfileRow(e: Engine, target: Profile, item: ProfileItem, key: string): (r: Result<Draft, Error>)
    requires Sane(e) && IsRevision(target.revision) && WellFormed(item.spec) && WellFormed(item.proposedSpec)
    ensures r.Ok? <==> ProfileItemOk(target, item) && Same(ProfileSpec(target, item.spec), item.proposedSpec)
    ensures r.Ok? ==> IsProfileRow(e, target, item, r.value, key)
  {
    if !ProfileItemOk(target, item) then Err(BadItem) else
    var expected := ProfileSpec(target, item.spec);
    ProfileSpecKeeps(target, item.spec);
    EqualMeansSame(e, expected, item.proposedSpec);
    if !Equal(e, expected, item.proposedSpec) then Err(MoreThanTransport) else
    var spec := Enabled(expected);
    PutSame(expected.members, "enabled");
    InputFields(item.expectedRevision, spec, Template("", 0, ""));
    Ok(Draft(Command("PUT", "forwards/" + e.encode(item.forwardId), e.render(UpdateInput(item.expectedRevision, spec)), key,
                     item.forwardId, item.expectedRevision, None, Some(target), None, false, "", ""), UpdateInput(item.expectedRevision, spec), spec))
  }

  // A page is as well-formed as the JSON it was read from.
  predicate ProfilePage(p: ProfileProposal) {
    forall i :: 0 <= i < |p.items| ==> WellFormed(p.items[i].spec) && WellFormed(p.items[i].proposedSpec)
  }

  function ProfileResult(e: Engine, p: ProfileProposal, i: nat): Result<Draft, Error>
    requires Sane(e) && ProfilePage(p) && IsRevision(p.target.revision) && i < |p.items|
  {
    ProfileRow(e, p.target, p.items[i], e.newKey(i))
  }

  function ProfileBatch(e: Engine, p: ProfileProposal): Result<seq<Draft>, Error>
    requires Sane(e) && ProfilePage(p)
  {
    if !ProfileProposalOk(p) then Err(BadProposal)
    else Collect(seq(|p.items|, i requires 0 <= i < |p.items| => ProfileResult(e, p, i)))
  }

  predicate ProfileFits(p: ProfileProposal, i: nat)
    requires IsRevision(p.target.revision) && i < |p.items|
  {
    ProfileItemOk(p.target, p.items[i]) && Same(ProfileSpec(p.target, p.items[i].spec), p.items[i].proposedSpec)
  }

  lemma ProfileResultFits(e: Engine, p: ProfileProposal, i: nat)
    requires Sane(e) && ProfilePage(p) && IsRevision(p.target.revision) && i < |p.items|
    ensures ProfileResult(e, p, i).Ok? <==> ProfileFits(p, i)
  {
  }

  // A batch is accepted exactly if the proposal is sound and every item changes its transport lock alone.
  lemma ProfileBatchIsExact(e: Engine, p: ProfileProposal)
    requires Sane(e) && ProfilePage(p)
    ensures ProfileBatch(e, p).Ok? <==> ProfileProposalOk(p) && forall i :: 0 <= i < |p.items| ==> ProfileFits(p, i)
    ensures ProfileBatch(e, p).Ok? ==> |ProfileBatch(e, p).value| == |p.items|
  {
    if ProfileProposalOk(p) {
      var results := seq(|p.items|, i requires 0 <= i < |p.items| => ProfileResult(e, p, i));
      CollectIsAll(results);
      forall i | 0 <= i < |p.items| ensures results[i].Ok? <==> ProfileFits(p, i) {
        ProfileResultFits(e, p, i);
      }
    }
  }

  // Every row of an accepted batch proposes its own source with the transport lock replaced, nothing else.
  lemma ProfileBatchIsMinimal(e: Engine, p: ProfileProposal, i: nat)
    requires Sane(e) && ProfilePage(p) && ProfileBatch(e, p).Ok? && i < |p.items|
    ensures i < |ProfileBatch(e, p).value| && IsProfileRow(e, p.target, p.items[i], ProfileBatch(e, p).value[i], e.newKey(i))
  {
    var results := seq(|p.items|, i requires 0 <= i < |p.items| => ProfileResult(e, p, i));
    CollectIsAll(results);
    assert results[i] == ProfileResult(e, p, i);
  }

  // ---- path batches ----

  datatype PathItem = PathItem(
    forwardId: string, expectedRevision: int, recoverySuspended: bool, changed: bool, available: bool, binding: Template,
    spec: Json, proposedSpec: Json)

  datatype PathProposal = PathProposal(
    target: Template, profileDigest: string, nodes: seq<string>, protocols: seq<string>, profileId: string, configRevision: int,
    transport: Json, items: seq<PathItem>)

  function PathIds(p: PathProposal): seq<string> {
    seq(|p.items|, i requires 0 <= i < |p.items| => p.items[i].forwardId)
  }

  predicate PathProposalOk(p: PathProposal) {
    && IsId(p.target.id) && IsRevision(p.target.revision) && p.target.revision <= 64 && IsDigest(p.target.digest)
    && IsDigest(p.profileDigest)
    && 2 <= |p.nodes| <= 8 && (forall i :: 0 <= i < |p.nodes| ==> IsId(p.nodes[i])) && DistinctForwards(p.nodes)
    && 1 <= |p.protocols| <= 2 && (forall i :: 0 <= i < |p.protocols| ==> p.protocols[i] == "tcp" || p.protocols[i] == "udp")
    && DistinctForwards(p.protocols)
    && IsId(p.profileId) && IsRevision(p.configRevision)
    && Get(Some(p.transport), "profileId") == Some(Str(p.profileId)) && Get(Some(p.transport), "configRevision") == Some(Int(p.configRevision))
    && 1 <= |p.items| <= 10 && DistinctForwards(PathIds(p))
  }

  // Both protocol lists, sorted, are written the same.
  predicate SameProtocols(spec: Json, protocols: seq<string>) {
    var listed := Get(Some(spec), "protocols");
    && listed.Some? && listed.value.Array?
    && multiset(Elements(listed.value.items)) == multiset(Elements(Strings(protocols)))
  }

  predicate PathItemOk(p: PathProposal, item: PathItem)
    requires PathProposalOk(p)
  {
    && IsId(item.forwardId) && IsRevision(item.expectedRevision) && !item.recoverySuspended && item.changed && item.available
    && item.binding.id == p.target.id && IsRevision(item.binding.revision) && item.binding.revision <= 64 && IsDigest(item.binding.digest)
    && Get(Get(Some(item.spec), "ingress"), "nodeId") == Some(Str(p.nodes[0])) && SameProtocols(item.spec, p.protocols)
    && HasEnabled(item.spec)
  }

  function Via(p: PathProposal): (r: Json)
    requires |p.nodes| > 0
    ensures WellFormed(r)
  {
    var via := Member("via", Array(Strings(p.nodes[1..])), NoMembers);
    assert Keys(via.rest) == {} && WellFormed(via.value) && DistinctKeys(via) && WellFormedMembers(via);
    Object(via)
  }

  function PathSpec(p: PathProposal, spec: Json): Json
    requires spec.Object? && |p.nodes| > 0
  {
    Object(Put(Put(spec.members, "path", Via(p)), "transport", p.transport))
  }

  lemma PathSpecKeeps(p: PathProposal, spec: Json)
    requires spec.Object? && WellFormed(spec) && WellFormed(p.transport) && |p.nodes| > 0
    ensures var s := PathSpec(p, spec);
            && AgreeOutside(s, spec, {"path", "transport"}) && WellFormed(s)
            && Routes(s, p.nodes) && Find(s.members, "transport") == Some(p.transport)
  {
    var inner := Put(spec.members, "path", Via(p));
    PutIsWellFormed(spec.members, "path", Via(p));
    PutIsWellFormed(inner, "transport", p.transport);
    forall key ensures Find(Put(inner, "transport", p.transport), key) ==
        if key == "transport" then Some(p.transport) else if key == "path" then Some(Via(p)) else Find(spec.members, key) {
      PutChangesOneKey(spec.members, "path", Via(p), key);
      PutChangesOneKey(inner, "transport", p.transport, key);
    }
    assert |"transport"| != |"path"|;
    ViaRoutes(p.nodes, PathSpec(p, spec));
  }

  predicate PathItemFits(p: PathProposal, item: PathItem)
    requires PathProposalOk(p)
  {
    && PathItemOk(p, item) && Same(item.proposedSpec, PathSpec(p, item.spec))
    && !(Same(item.spec, PathSpec(p, item.spec)) && item.binding.revision == p.target.revision && item.binding.digest == p.target.digest)
  }

  // The rule enters the path at its first node and carries exactly its protocols.
  ghost predicate Enters(spec: Json, nodes: seq<string>, protocols: seq<string>) {
    && nodes != [] && Get(Get(Some(spec), "ingress"), "nodeId") == Some(Str(nodes[0]))
    && var listed := Get(Some(spec), "protocols");
    && listed.Some? && listed.value.Array?
    && multiset(Elements(listed.value.items)) == multiset(seq(|protocols|, i requires 0 <= i < |protocols| => Str(protocols[i])))
  }

  lemma StringsAreTexts(texts: seq<string>)
    ensures Elements(Strings(texts)) == seq(|texts|, i requires 0 <= i < |texts| => Str(texts[i]))
  {
    StringsInOrder(texts, 0);
    forall i | 0 <= i < |texts| ensures Elements(Strings(texts))[i] == Str(texts[i]) {
      StringsInOrder(texts, i);
    }
  }

  // Replacing path and Profile leaves the entry and the protocols.
  lemma StillEnters(spec: Json, source: Json, nodes: seq<string>, protocols: seq<string>)
    requires AgreeOutside(spec, source, {"path", "transport"}) && SameProtocols(source, protocols)
    requires nodes != [] && Get(Get(Some(source), "ingress"), "nodeId") == Some(Str(nodes[0]))
    ensures Enters(spec, nodes, protocols)
  {
    StringsAreTexts(protocols);
    assert |"ingress"| != |"path"| && |"protocols"| != |"path"| && "ingress"[0] != "transport"[0] && "protocols"[0] != "transport"[0];
    assert Find(spec.members, "ingress") == Find(source.members, "ingress");
    assert Find(spec.members, "protocols") == Find(source.members, "protocols");
  }

  // The row binds the exact template, announces a change exactly if the spec changes, and shows the source with
  // path and transport replaced, nothing else.
  ghost predicate IsPathRow(e: Engine, p: PathProposal, item: PathItem, draft: Draft, key: string) {
    && item.expectedRevision >= 0 && p.target.revision >= 0 && |p.nodes| > 0
    && AgreeOutside(draft.spec, item.spec, {"path", "transport"})
    && Enters(draft.spec, p.nodes, p.protocols) && item.binding.id == p.target.id
    && Routes(draft.spec, p.nodes) && Uses(draft.spec, p.profileId, p.configRevision) && Find(draft.spec.members, "transport") == Some(p.transport)
    && Same(item.proposedSpec, draft.spec)
    && Get(Some(draft.input), "expectedRevision") == Some(Int(item.expectedRevision)) && IsTemplate(Get(Some(draft.input), "template"), p.target)
    && draft.command == Command("PUT", "forwards/" + e.encode(item.forwardId) + "/path-binding",
                                e.render(draft.input), key, item.forwardId, item.expectedRevision, None,
                                Some(Profile(p.profileId, p.configRevision, p.profileDigest)), Some(p.target),
                                !Same(item.spec, draft.spec), e.render(Ordered(e.before, item.spec)), e.render(Ordered(e.before, draft.spec)))
  }

  function PathRow(e: Engine, p: PathProposal, item: PathItem, key: string): (r: Result<Draft, Error>)
    requires Sane(e) && PathProposalOk(p) && WellFormed(p.transport) && WellFormed(item.spec) && WellFormed(item.proposedSpec)
    ensures r.Ok? <==> PathItemFits(p, item)
    ensures r.Ok? ==> IsPathRow(e, p, item, r.value, key)
  {
    if !PathItemOk(p, item) then Err(BadItem) else
    var proposed := PathSpec(p, item.spec);
    PathSpecKeeps(p, item.spec);
    EqualMeansSame(e, item.proposedSpec, proposed);
    EqualMeansSame(e, item.spec, proposed);
    InputFields(item.expectedRevision, item.spec, p.target);
    StillEnters(proposed, item.spec, p.nodes, p.protocols);
    if !Equal(e, item.proposedSpec, proposed) then Err(MoreThanPath) else
    var specChanged := !Equal(e, item.spec, proposed);
    if !specChanged && item.binding.revision == p.target.revision && item.binding.digest == p.target.digest then Err(AlreadyThere) else
    Ok(Draft(Command("PUT", "forwards/" + e.encode(item.forwardId) + "/path-binding",
                     e.render(BindingInput(item.expectedRevision, p.target)), key, item.forwardId, item.expectedRevision, None,
                     Some(Profile(p.profileId, p.configRevision, p.profileDigest)), Some(p.target),
                     specChanged, e.render(Ordered(e.before, item.spec)), e.render(Ordered(e.before, proposed))),
             BindingInput(item.expectedRevision, p.target), proposed))
  }

  predicate PathPage(p: PathProposal) {
    WellFormed(p.transport) && forall i :: 0 <= i < |p.items| ==> WellFormed(p.items[i].spec) && WellFormed(p.items[i].proposedSpec)
  }

  function PathResult(e: Engine, p: PathProposal, i: nat): Result<Draft, Error>
    requires Sane(e) && PathPage(p) && PathProposalOk(p) && i < |p.items|
  {
    PathRow(e, p, p.items[i], e.newKey(i))
  }

  function PathBatch(e: Engine, p: PathProposal): Result<seq<Draft>, Error>
    requires Sane(e) && PathPage(p)
  {
    if !PathProposalOk(p) then Err(BadProposal)
    else Collect(seq(|p.items|, i requires 0 <= i < |p.items| => PathResult(e, p, i)))
  }

  predicate PathFits(p: PathProposal, i: nat)
    requires PathProposalOk(p) && i < |p.items|
  {
    PathItemFits(p, p.items[i])
  }

  lemma PathResultFits(e: Engine, p: PathProposal, i: nat)
    requires Sane(e) && PathPage(p) && PathProposalOk(p) && i < |p.items|
    ensures PathResult(e, p, i).Ok? <==> PathFits(p, i)
  {
  }

  // A batch is accepted exactly if the proposal is sound and every item changes its path and transport alone, and
  // something about it.
  lemma PathBatchIsExact(e: Engine, p: PathProposal)
    requires Sane(e) && PathPage(p)
    ensures PathBatch(e, p).Ok? <==> PathProposalOk(p) && forall i :: 0 <= i < |p.items| ==> PathFits(p, i)
    ensures PathBatch(e, p).Ok? ==> |PathBatch(e, p).value| == |p.items|
  {
    if PathProposalOk(p) {
      var results := seq(|p.items|, i requires 0 <= i < |p.items| => PathResult(e, p, i));
      CollectIsAll(results);
      forall i | 0 <= i < |p.items| ensures results[i].Ok? <==> PathFits(p, i) {
        PathResultFits(e, p, i);
      }
    }
  }

  lemma PathBatchIsMinimal(e: Engine, p: PathProposal, i: nat)
    requires Sane(e) && PathPage(p) && PathBatch(e, p).Ok? && i < |p.items|
    ensures i < |PathBatch(e, p).value| && IsPathRow(e, p, p.items[i], PathBatch(e, p).value[i], e.newKey(i))
  {
    var results := seq(|p.items|, i requires 0 <= i < |p.items| => PathResult(e, p, i));
    CollectIsAll(results);
    assert results[i] == PathResult(e, p, i);
  }
}

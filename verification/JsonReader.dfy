/** The strict token reader: readValue and ParseJSON in agent/internal/contracts/validate.go. */
module JsonReader {
  import opened Outcomes
  import opened SafeInteger

  const MAX_DEPTH: nat := 64

  // What encoding/json's Token() yields; commas and colons never surface.
  datatype Token = Delim(mark: char) | Text(text: string) | Number(digits: string) | Bool(truth: bool) | Null

  datatype Value = Object(members: map<string, Value>) | Array(items: seq<Value>) | Scalar(token: Token)

  datatype Error = TooDeep | EndOfInput | ExpectedKey | DuplicateKey | BadEnding | UnexpectedDelimiter | UnsafeNumber | TrailingData

  // decoder.More()
  predicate More(ts: seq<Token>) {
    ts != [] && ts[0] != Delim('}') && ts[0] != Delim(']')
  }

  ghost predicate ScalarToken(t: Token) {
    !t.Delim? && (t.Number? ==> Denotes(t.digits))
  }

  // Reading from the front of `ts`: the value and what is left.
  ghost function Read(ts: seq<Token>, depth: nat): (r: Result<(Value, seq<Token>), Error>)
    ensures r.Ok? ==> |r.value.1| < |ts|
    decreases |ts|, 1
  {
    if depth > MAX_DEPTH then Err(TooDeep)
    else if ts == [] then Err(EndOfInput)
    else match ts[0]
      case Delim(mark) =>
        if mark == '{' then ReadMembers(ts[1..], depth, map[])
        else if mark == '[' then ReadItems(ts[1..], depth, [])
        else Err(UnexpectedDelimiter)
      case Number(digits) => if Denotes(digits) then Ok((Scalar(ts[0]), ts[1..])) else Err(UnsafeNumber)
      case _ => Ok((Scalar(ts[0]), ts[1..]))
  }

  ghost function ReadMembers(ts: seq<Token>, depth: nat, members: map<string, Value>): (r: Result<(Value, seq<Token>), Error>)
    ensures r.Ok? ==> |r.value.1| < |ts|
    decreases |ts|, 0
  {
    if !More(ts) then
      if ts != [] && ts[0] == Delim('}') then Ok((Object(members), ts[1..])) else Err(BadEnding)
    else if !ts[0].Text? then Err(ExpectedKey)
    else if ts[0].text in members then Err(DuplicateKey)
    else
      var child := Read(ts[1..], depth + 1);
      if child.Err? then child else ReadMembers(child.value.1, depth, members[ts[0].text := child.value.0])
  }

  ghost function ReadItems(ts: seq<Token>, depth: nat, items: seq<Value>): (r: Result<(Value, seq<Token>), Error>)
    ensures r.Ok? ==> |r.value.1| < |ts|
    decreases |ts|, 2
  {
    if !More(ts) then
      if ts != [] && ts[0] == Delim(']') then Ok((Array(items), ts[1..])) else Err(BadEnding)
    else
      var child := Read(ts, depth + 1);
      if child.Err? then child else ReadItems(child.value.1, depth, items + [child.value.0])
  }

  /** The reader itself; `pos` is the decoder's place in the stream. */
  method ReadValue(ts: seq<Token>, pos: nat, depth: nat) returns (r: Result<Value, Error>, next: nat)
    requires pos <= |ts|
    ensures pos <= next <= |ts|
    ensures r.Ok? ==> pos < next && Read(ts[pos..], depth) == Ok((r.value, ts[next..]))
    ensures r.Err? ==> Read(ts[pos..], depth) == Err(r.error)
    decreases |ts| - pos, 0
  {
    if depth > MAX_DEPTH {
      return Err(TooDeep), pos;
    }
    if pos == |ts| {
      return Err(EndOfInput), pos;
    }
    var token := ts[pos];
    next := pos + 1;
    assert ts[pos..][1..] == ts[next..];
    match token
    case Delim(mark) =>
      if mark == '{' {
        r, next := ReadObject(ts, next, depth);
      } else if mark == '[' {
        r, next := ReadArray(ts, next, depth);
      } else {
        r := Err(UnexpectedDelimiter);
      }
    case Number(digits) =>
      var safe := IsSafeInteger(digits);
      r := if safe then Ok(Scalar(token)) else Err(UnsafeNumber);
    case _ =>
      r := Ok(Scalar(token));
  }

  method ReadObject(ts: seq<Token>, pos: nat, depth: nat) returns (r: Result<Value, Error>, next: nat)
    requires pos <= |ts|
    ensures pos <= next <= |ts|
    ensures r.Ok? ==> pos < next && ReadMembers(ts[pos..], depth, map[]) == Ok((r.value, ts[next..]))
    ensures r.Err? ==> ReadMembers(ts[pos..], depth, map[]) == Err(r.error)
    decreases |ts| - pos, 1
  {
    next := pos;
    var members: map<string, Value> := map[];
    while next < |ts| && ts[next] != Delim('}') && ts[next] != Delim(']')
      invariant pos <= next <= |ts|
      invariant ReadMembers(ts[pos..], depth, map[]) == ReadMembers(ts[next..], depth, members)
      decreases |ts| - next
    {
      assert ts[next..][0] == ts[next] && ts[next..][1..] == ts[next + 1..];
      if !ts[next].Text? {
        return Err(ExpectedKey), next;
      }
      var name := ts[next].text;
      if name in members {
        return Err(DuplicateKey), next;
      }
      var child, after := ReadValue(ts, next + 1, depth + 1);
      if child.Err? {
        return child, next;
      }
      members := members[name := child.value];
      next := after;
    }
    if next == |ts| || ts[next] != Delim('}') {
      return Err(BadEnding), next;
    }
    assert ts[next..][1..] == ts[next + 1..];
    return Ok(Object(members)), next + 1;
  }

  method ReadArray(ts: seq<Token>, pos: nat, depth: nat) returns (r: Result<Value, Error>, next: nat)
    requires pos <= |ts|
    ensures pos <= next <= |ts|
    ensures r.Ok? ==> pos < next && ReadItems(ts[pos..], depth, []) == Ok((r.value, ts[next..]))
    ensures r.Err? ==> ReadItems(ts[pos..], depth, []) == Err(r.error)
    decreases |ts| - pos, 1
  {
    next := pos;
    var items: seq<Value> := [];
    while next < |ts| && ts[next] != Delim('}') && ts[next] != Delim(']')
      invariant pos <= next <= |ts|
      invariant ReadItems(ts[pos..], depth, []) == ReadItems(ts[next..], depth, items)
      decreases |ts| - next
    {
      var child, after := ReadValue(ts, next, depth + 1);
      if child.Err? {
        return child, next;
      }
      items := items + [child.value];
      next := after;
    }
    if next == |ts| || ts[next] != Delim(']') {
      return Err(BadEnding), next;
    }
    assert ts[next..][1..] == ts[next + 1..];
    return Ok(Array(items)), next + 1;
  }

  ghost function Parse(ts: seq<Token>): Result<Value, Error> {
    var r := Read(ts, 0);
    if r.Err? then Err(r.error) else if r.value.1 != [] then Err(TrailingData) else Ok(r.value.0)
  }

  method ParseTokens(ts: seq<Token>) returns (r: Result<Value, Error>)
    ensures r == Parse(ts)
  {
    var next;
    r, next := ReadValue(ts, 0, 0);
    assert ts[0..] == ts;
    if r.Ok? && next < |ts| {
      r := Err(TrailingData);
    }
  }

  // ---- the trees a stream may spell, with members in the order written ----

  datatype Tree = Obj(members: Members) | Arr(elements: Elements) | Leaf(token: Token)

  datatype Members = NoMembers | Member(key: string, value: Tree, others: Members)

  datatype Elements = NoElements | Element(first: Tree, others: Elements)

  // The tokens of a tree, followed by `rest`.
  function Spell(t: Tree, rest: seq<Token>): seq<Token>
    decreases t
  {
    match t
    case Obj(members) => [Delim('{')] + SpellMembers(members, [Delim('}')] + rest)
    case Arr(elements) => [Delim('[')] + SpellElements(elements, [Delim(']')] + rest)
    case Leaf(token) => [token] + rest
  }

  function SpellMembers(ms: Members, rest: seq<Token>): seq<Token>
    decreases ms
  {
    match ms
    case NoMembers => rest
    case Member(key, value, others) => [Text(key)] + Spell(value, SpellMembers(others, rest))
  }

  function SpellElements(es: Elements, rest: seq<Token>): seq<Token>
    decreases es
  {
    match es
    case NoElements => rest
    case Element(first, others) => Spell(first, SpellElements(others, rest))
  }

  // Distinct keys in every object, every number a safe integer, and no node deeper than the limit.
  ghost predicate Acceptable(t: Tree, depth: nat) {
    && depth <= MAX_DEPTH
    && match t
       case Obj(members) => AcceptableMembers(members, depth + 1, {})
       case Arr(elements) => AcceptableElements(elements, depth + 1)
       case Leaf(token) => ScalarToken(token)
  }

  ghost predicate AcceptableMembers(ms: Members, depth: nat, taken: set<string>) {
    match ms
    case NoMembers => true
    case Member(key, value, others) => key !in taken && Acceptable(value, depth) && AcceptableMembers(others, depth, taken + {key})
  }

  ghost predicate AcceptableElements(es: Elements, depth: nat) {
    match es
    case NoElements => true
    case Element(first, others) => Acceptable(first, depth) && AcceptableElements(others, depth)
  }

  function Denote(t: Tree): Value {
    match t
    case Obj(members) => Object(DenoteMembers(members, map[]))
    case Arr(elements) => Array(DenoteElements(elements, []))
    case Leaf(token) => Scalar(token)
  }

  function DenoteMembers(ms: Members, before: map<string, Value>): map<string, Value> {
    match ms
    case NoMembers => before
    case Member(key, value, others) => DenoteMembers(others, before[key := Denote(value)])
  }

  function DenoteElements(es: Elements, before: seq<Value>): seq<Value> {
    match es
    case NoElements => before
    case Element(first, others) => DenoteElements(others, before + [Denote(first)])
  }

  lemma NoKeys()
    ensures var none: map<string, Value> := map[]; none.Keys == {}
  {
  }

  // Reading what an acceptable tree spells returns its meaning and consumes exactly its tokens.
  lemma {:induction false} ReadsEveryTree(t: Tree, depth: nat, rest: seq<Token>)
    requires Acceptable(t, depth)
    ensures Read(Spell(t, rest), depth) == Ok((Denote(t), rest))
    decreases t
  {
    var ts := Spell(t, rest);
    match t
    case Obj(members) =>
      assert ts[1..] == SpellMembers(members, [Delim('}')] + rest);
      NoKeys();
      ReadsMembers(members, depth, map[], rest);
    case Arr(elements) =>
      assert ts[1..] == SpellElements(elements, [Delim(']')] + rest);
      ReadsElements(elements, depth, [], rest);
    case Leaf(token) =>
      assert ts[1..] == rest;
  }

  lemma {:induction false} ReadsMembers(ms: Members, depth: nat, before: map<string, Value>, rest: seq<Token>)
    requires AcceptableMembers(ms, depth + 1, before.Keys)
    ensures ReadMembers(SpellMembers(ms, [Delim('}')] + rest), depth, before) == Ok((Object(DenoteMembers(ms, before)), rest))
    decreases ms
  {
    var ts := SpellMembers(ms, [Delim('}')] + rest);
    match ms
    case NoMembers =>
      assert ts[1..] == rest;
    case Member(key, value, others) =>
      var tail := SpellMembers(others, [Delim('}')] + rest);
      assert ts[1..] == Spell(value, tail);
      ReadsEveryTree(value, depth + 1, tail);
      var grown := before[key := Denote(value)];
      assert grown.Keys == before.Keys + {key};
      ReadsMembers(others, depth, grown, rest);
  }

  lemma {:induction false} ReadsElements(es: Elements, depth: nat, before: seq<Value>, rest: seq<Token>)
    requires AcceptableElements(es, depth + 1)
    ensures ReadItems(SpellElements(es, [Delim(']')] + rest), depth, before) == Ok((Array(DenoteElements(es, before)), rest))
    decreases es
  {
    var ts := SpellElements(es, [Delim(']')] + rest);
    match es
    case NoElements =>
      assert ts[1..] == rest;
    case Element(first, others) =>
      var tail := SpellElements(others, [Delim(']')] + rest);
      ReadsEveryTree(first, depth + 1, tail);
      ReadsElements(others, depth, before + [Denote(first)], rest);
  }

  // Conversely, whatever is accepted spells an acceptable tree.
  lemma {:induction false} ReadsOnlyTrees(ts: seq<Token>, depth: nat) returns (t: Tree)
    requires Read(ts, depth).Ok?
    ensures Acceptable(t, depth)
    ensures ts == Spell(t, Read(ts, depth).value.1) && Read(ts, depth).value.0 == Denote(t)
    decreases |ts|, 1
  {
    assert ts == [ts[0]] + ts[1..];
    if ts[0] == Delim('{') {
      NoKeys();
      var ms := ReadsOnlyMembers(ts[1..], depth, map[]);
      t := Obj(ms);
    } else if ts[0] == Delim('[') {
      var es := ReadsOnlyElements(ts[1..], depth, []);
      t := Arr(es);
    } else {
      t := Leaf(ts[0]);
    }
  }

  lemma {:induction false} ReadsOnlyMembers(ts: seq<Token>, depth: nat, before: map<string, Value>) returns (ms: Members)
    requires ReadMembers(ts, depth, before).Ok?
    ensures AcceptableMembers(ms, depth + 1, before.Keys)
    ensures var (v, rest) := ReadMembers(ts, depth, before).value;
            ts == SpellMembers(ms, [Delim('}')] + rest) && v == Object(DenoteMembers(ms, before))
    decreases |ts|, 0
  {
    assert ts == [ts[0]] + ts[1..];
    if !More(ts) {
      ms := NoMembers;
    } else {
      var key := ts[0].text;
      var (v, rest) := Read(ts[1..], depth + 1).value;
      var t := ReadsOnlyTrees(ts[1..], depth + 1);
      var grown := before[key := v];
      assert grown.Keys == before.Keys + {key};
      var others := ReadsOnlyMembers(rest, depth, grown);
      ms := Member(key, t, others);
    }
  }

  lemma {:induction false} ReadsOnlyElements(ts: seq<Token>, depth: nat, before: seq<Value>) returns (es: Elements)
    requires ReadItems(ts, depth, before).Ok?
    ensures AcceptableElements(es, depth + 1)
    ensures var (v, rest) := ReadItems(ts, depth, before).value;
            ts == SpellElements(es, [Delim(']')] + rest) && v == Array(DenoteElements(es, before))
    decreases |ts|, 2
  {
    assert ts == [ts[0]] + ts[1..];
    if !More(ts) {
      es := NoElements;
    } else {
      var (v, rest) := Read(ts, depth + 1).value;
      var t := ReadsOnlyTrees(ts, depth + 1);
      var others := ReadsOnlyElements(rest, depth, before + [v]);
      es := Element(t, others);
    }
  }

  // So a stream parses exactly if it spells some acceptable tree, and then to that tree's meaning.
  lemma ParsesExactlyTheTrees(ts: seq<Token>)
    ensures Parse(ts).Ok? <==> exists t :: Acceptable(t, 0) && ts == Spell(t, [])
    ensures forall t :: Acceptable(t, 0) && ts == Spell(t, []) ==> Parse(ts) == Ok(Denote(t))
  {
    if Parse(ts).Ok? {
      var t := ReadsOnlyTrees(ts, 0);
      assert Acceptable(t, 0) && ts == Spell(t, []);
    }
    forall t | Acceptable(t, 0) && ts == Spell(t, [])
      ensures Parse(ts) == Ok(Denote(t))
    {
      ReadsEveryTree(t, 0, []);
    }
  }
}

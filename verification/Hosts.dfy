/**
 Target host checks: normalizedHost and CanonicalHost in agent/internal/contracts/validate.go, and the
 loop-based canonicalHost in agent/internal/adp3relay/validate.go.

 netip.ParseAddr and strings.ToLower are parameters; `Netip` and `Lowers` say what is relied on.
 */
module Hosts {
  import opened Outcomes
  import opened Decimals

  // A parsed address: its zone, whether it is unspecified after unmapping, and its canonical text.
  datatype Addr = Addr(zone: string, unspecified: bool, text: string)

  predicate Ascii(s: string) {
    forall i :: 0 <= i < |s| ==> s[i] as int <= 127
  }

  predicate Numeric(s: string) {
    forall i :: 0 <= i < |s| ==> IsDigit(s[i]) || s[i] == '.'
  }

  predicate HasColon(s: string) {
    exists i :: 0 <= i < |s| && s[i] == ':'
  }

  // net/netip: zone-free addresses print in ASCII, print back to themselves, and are written either with
  // colons or with digits and dots only.
  ghost predicate Netip(parse: string -> Option<Addr>) {
    && (forall s :: parse(s).Some? ==> HasColon(s) || Numeric(s))
    && (forall s :: parse(s).Some? && parse(s).value.zone == "" ==>
          Ascii(parse(s).value.text) && parse(parse(s).value.text) == parse(s))
  }

  function AsciiLower(c: char): char {
    if 'A' <= c <= 'Z' then (c as int + 32) as char else c
  }

  // strings.ToLower works rune by rune; only its ASCII part is fixed here.
  ghost predicate Lowers(lower: char -> char) {
    forall c: char :: c as int <= 127 ==> lower(c) == AsciiLower(c)
  }

  function ToLower(s: string, lower: char -> char): string {
    seq(|s|, i requires 0 <= i < |s| => lower(s[i]))
  }

  function TrimDot(s: string): string {
    if s != "" && s[|s| - 1] == '.' then s[..|s| - 1] else s
  }

  function FirstDot(s: string): (i: nat)
    ensures i <= |s| && (i < |s| ==> s[i] == '.') && forall k :: 0 <= k < i ==> s[k] != '.'
  {
    if s == "" || s[0] == '.' then 0 else 1 + FirstDot(s[1..])
  }

  // strings.Split(s, ".")
  function Split(s: string): (labels: seq<string>)
    ensures labels != []
  {
    var i := FirstDot(s);
    if i == |s| then [s] else [s[..i]] + Split(s[i + 1..])
  }

  predicate Alnum(c: char) {
    'a' <= c <= 'z' || '0' <= c <= '9'
  }

  // 1 to 63 characters matching ^[a-z0-9](?:[a-z0-9-]*[a-z0-9])?$
  predicate HostLabel(l: string) {
    && 1 <= |l| <= 63
    && Alnum(l[0])
    && (|l| == 1 || (Alnum(l[|l| - 1]) && forall i :: 1 <= i < |l| - 1 ==> Alnum(l[i]) || l[i] == '-'))
  }

  predicate NameOk(s: string) {
    |s| <= 253 && !(s != "" && Numeric(s)) && forall l :: l in Split(s) ==> HostLabel(l)
  }

  function NormalizedHost(host: string, parse: string -> Option<Addr>, lower: char -> char): Option<string> {
    if !Ascii(host) then None
    else
      var addr := parse(host);
      if addr.Some? then
        if addr.value.zone != "" || addr.value.unspecified then None else Some(addr.value.text)
      else
        var normalized := TrimDot(ToLower(host, lower));
        if NameOk(normalized) then Some(normalized) else None
  }

  predicate CanonicalHost(host: string, parse: string -> Option<Addr>, lower: char -> char) {
    NormalizedHost(host, parse, lower) == Some(host)
  }

  // A character of a split name sits in one of its labels, unless it is a dot.
  lemma {:induction false} LabelsCover(s: string, k: nat)
    requires k < |s| && (forall l :: l in Split(s) ==> HostLabel(l))
    ensures s[k] == '.' || s[k] == '-' || Alnum(s[k])
  {
    var i := FirstDot(s);
    if k < i {
      var l := s[..i];
      assert Split(s)[0] == l && l[k] == s[k];
      assert HostLabel(l);
    } else if k > i {
      var rest := s[i + 1..];
      assert Split(s)[1..] == Split(rest);
      assert rest[k - i - 1] == s[k];
      LabelsCover(rest, k - i - 1);
    }
  }

  lemma {:induction false} LabelsEnd(s: string)
    requires forall l :: l in Split(s) ==> HostLabel(l)
    ensures s != "" && s[|s| - 1] != '.'
  {
    var i := FirstDot(s);
    if i == |s| {
      assert s in Split(s);
      assert s[|s| - 1] == s[|s| - 1];
    } else {
      var rest := s[i + 1..];
      assert Split(s)[1..] == Split(rest);
      LabelsEnd(rest);
      assert rest[|rest| - 1] == s[|s| - 1];
    }
  }

  // A valid name is already lower case, so nothing is left to normalize.
  lemma NameIsFixed(n: string, lower: char -> char)
    requires NameOk(n) && Lowers(lower)
    ensures Ascii(n) && ToLower(n, lower) == n && TrimDot(n) == n && !HasColon(n) && !Numeric(n)
  {
    LabelsEnd(n);
    forall k | 0 <= k < |n|
      ensures n[k] as int <= 127 && lower(n[k]) == n[k] && n[k] != ':'
    {
      LabelsCover(n, k);
    }
  }

  // Normalization is idempotent on everything it accepts.
  lemma NormalizedIsCanonical(host: string, parse: string -> Option<Addr>, lower: char -> char)
    requires Netip(parse) && Lowers(lower)
    ensures var n := NormalizedHost(host, parse, lower);
            n.Some? ==> CanonicalHost(n.value, parse, lower)
  {
    var n := NormalizedHost(host, parse, lower);
    if n.Some? && parse(host).None? {
      NameIsFixed(n.value, lower);
      assert parse(n.value).None?;
    }
  }

  // For anything that is not an address, canonical means: a valid name as it stands.
  lemma NameIsCanonical(host: string, parse: string -> Option<Addr>, lower: char -> char)
    requires parse(host).None? && Lowers(lower)
    ensures CanonicalHost(host, parse, lower) <==> NameOk(host)
  {
    if NameOk(host) {
      NameIsFixed(host, lower);
    }
  }

  /** The Relay checker, loops and all. It accepts exactly the hosts the contract checker calls canonical. */
  method RelayCanonicalHost(host: string, parse: string -> Option<Addr>, lower: char -> char) returns (ok: bool)
    requires Netip(parse) && Lowers(lower)
    ensures ok <==> CanonicalHost(host, parse, lower)
  {
    var addr := parse(host);
    if addr.Some? {
      return addr.value.zone == "" && !addr.value.unspecified && addr.value.text == host;
    }
    NameIsCanonical(host, parse, lower);
    ok := RelayName(host, lower);
  }

  method RelayName(host: string, lower: char -> char) returns (ok: bool)
    requires Lowers(lower)
    ensures ok <==> NameOk(host)
  {
    if host != ToLower(host, lower) || (host != "" && host[|host| - 1] == '.') {
      NotFixed(host, lower);
      return false;
    }
    var numeric := true;
    for i := 0 to |host|
      invariant numeric <==> forall k :: 0 <= k < i ==> IsDigit(host[k]) || host[k] == '.'
    {
      if !(IsDigit(host[i]) || host[i] == '.') {
        numeric := false;
      }
    }
    if numeric || |host| > 253 {
      EmptyIsNoName();
      return false;
    }
    var labels := Split(host);
    for j := 0 to |labels|
      invariant forall k :: 0 <= k < j ==> HostLabel(labels[k])
    {
      var good := RelayLabel(labels[j]);
      if !good {
        return false;
      }
    }
    return true;
  }

  method RelayLabel(part: string) returns (ok: bool)
    ensures ok <==> HostLabel(part)
  {
    if |part| < 1 || |part| > 63 || part[0] == '-' || part[|part| - 1] == '-' {
      return false;
    }
    for k := 0 to |part|
      invariant forall m :: 0 <= m < k ==> Alnum(part[m]) || part[m] == '-'
    {
      if !(Alnum(part[k]) || part[k] == '-') {
        return false;
      }
    }
    return true;
  }

  lemma EmptyIsNoName()
    ensures !NameOk("")
  {
    assert "" in Split("");
  }

  lemma NotFixed(host: string, lower: char -> char)
    requires Lowers(lower) && (host != ToLower(host, lower) || (host != "" && host[|host| - 1] == '.'))
    ensures !NameOk(host)
  {
    if NameOk(host) {
      NameIsFixed(host, lower);
    }
  }
}

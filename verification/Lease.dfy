/**
 The execution-lease clock of the Agent (agent/internal/authorization/guard.go).

 Instants and durations are integer nanoseconds; the Go zero time is one particular instant.
 A clock read is a parameter of every call: the clock may fail or report anything at all.
 `Lease` is the value of a guard's fields, `Perform` what one call does to it, and `History`
 a guard together with every ticket it ever handed out and a log of what happened.
 */
module LeaseGuard {
  import opened Outcomes

  // time.Time{} as nanoseconds since the Unix epoch
  const ZERO_TIME: int := -62135596800 * 1000000000

  datatype Sample = Sample(wall: int, uptime: int)

  datatype Reading = Unreadable | Reading(sample: Sample)

  datatype Error =
    | InvalidTiming | InvalidSample
    | ClockReadFailed | HistoryDiverged | CredentialExpired | ServerSkew
    | SessionExpired | InvalidWindow | NothingRemaining | AuthorizationEnded | NoAuthorization

  // The guard a ticket belongs to is the one whose history holds it.
  datatype Ticket = Ticket(until: int, wallUntil: int)

  datatype Lease = Lease(
    origin: Sample, last: Sample, skew: int, maximum: int,
    credentialUntil: int, failed: Option<Error>, currentUntil: int, hasCurrent: bool)

  datatype Call =
    | Check
    | ServerTime(server: int)
    | Credential(credential: int)
    | Accept(issued: int, valid: int)
    | Allow(presented: Option<Ticket>)
    | Drain(ticket: Ticket, duration: int)

  datatype Reply = Done | Granted(ticket: Ticket) | Refused(error: Error)

  // How far the wall clock ran ahead of the uptime counter between two samples.
  function Drift(a: Sample, b: Sample): int {
    (b.wall - a.wall) - (b.uptime - a.uptime)
  }

  predicate Unexpired(credentialUntil: int, wall: int) {
    credentialUntil == ZERO_TIME || wall < credentialUntil
  }

  predicate Plausible(l: Lease, s: Sample) {
    && l.last.uptime <= s.uptime
    && l.last.wall - l.skew <= s.wall
    && -l.skew <= Drift(l.origin, s) <= l.skew
  }

  function Observe(l: Lease, reading: Reading): (Lease, Result<Sample, Error>) {
    if l.failed.Some? then (l, Err(l.failed.value))
    else if reading.Unreadable? then Latch(l, ClockReadFailed)
    else if !Plausible(l, reading.sample) then Latch(l, HistoryDiverged)
    else if !Unexpired(l.credentialUntil, reading.sample.wall) then Latch(l.(last := reading.sample), CredentialExpired)
    else (l.(last := reading.sample), Ok(reading.sample))
  }

  function Latch<T>(l: Lease, e: Error): (Lease, Result<T, Error>) {
    (l.(failed := Some(e)), Err(e))
  }

  function Cutoff(l: Lease, valid: int): int {
    if l.credentialUntil != ZERO_TIME && l.credentialUntil < valid - l.skew then l.credentialUntil else valid - l.skew
  }

  function Perform(l: Lease, call: Call, reading: Reading): (Lease, Reply) {
    if call == Allow(None) then (l, Refused(NoAuthorization)) else
    var (seen, read) := Observe(l, reading);
    match read
    case Err(e) => (seen, if call.Drain? then Granted(Ticket(0, ZERO_TIME)) else Refused(e))
    case Ok(s) =>
      match call
      case Check => (seen, Done)
      case ServerTime(server) =>
        if -l.skew <= s.wall - server <= l.skew then (seen, Done)
        else (seen.(failed := Some(ServerSkew)), Refused(ServerSkew))
      case Credential(until) => (seen.(credentialUntil := until), Done)
      case Accept(issued, valid) =>
        if seen.hasCurrent && seen.currentUntil <= s.uptime then (seen, Refused(SessionExpired))
        else if s.wall + l.skew < issued || valid <= issued || l.maximum < valid - issued then (seen, Refused(InvalidWindow))
        else
          var remaining := Cutoff(seen, valid) - s.wall;
          if remaining <= 0 then (seen, Refused(NothingRemaining))
          else
            var until := s.uptime + Min(remaining, l.maximum);
            (seen.(currentUntil := until, hasCurrent := true), Granted(Ticket(until, Cutoff(seen, valid))))
      case Allow(presented) =>
        if presented.value.until <= s.uptime || presented.value.wallUntil <= s.wall then (seen, Refused(AuthorizationEnded))
        else (seen, Done)
      case Drain(ticket, duration) =>
        (seen, Granted(Ticket(Min(ticket.until, s.uptime + duration), Min(ticket.wallUntil, s.wall + duration))))
  }

  /** The guard itself; the mutex makes each call one step. */
  class Guard {
    var origin: Sample
    var last: Sample
    var skew: int
    var maximum: int
    var credentialUntil: int
    var failed: Option<Error>
    var currentUntil: int
    var hasCurrent: bool

    function Value(): Lease
      reads this
    {
      Lease(origin, last, skew, maximum, credentialUntil, failed, currentUntil, hasCurrent)
    }

    constructor (sample: Sample, skew: int, maximum: int, credentialUntil: int)
      ensures Value() == Fresh(sample, skew, maximum, credentialUntil)
    {
      origin, last := sample, sample;
      this.skew, this.maximum, this.credentialUntil := skew, maximum, credentialUntil;
      failed, currentUntil, hasCurrent := None, 0, false;
    }

    static method New(reading: Reading, skew: int, maximum: int, credentialUntil: int) returns (r: Result<Guard, Error>)
      ensures r.Ok? <==> 0 < skew < maximum && reading.Reading? && 0 <= reading.sample.uptime && reading.sample.wall != ZERO_TIME
      ensures r.Ok? ==> fresh(r.value) && Opened(r.value.Value())
      ensures r.Ok? ==> r.value.Value() == Fresh(reading.sample, skew, maximum, credentialUntil)
    {
      if skew <= 0 || maximum <= skew {
        return Err(InvalidTiming);
      }
      if reading.Unreadable? {
        return Err(ClockReadFailed);
      }
      if reading.sample.uptime < 0 || reading.sample.wall == ZERO_TIME {
        return Err(InvalidSample);
      }
      var guard := new Guard(reading.sample, skew, maximum, credentialUntil);
      return Ok(guard);
    }

    method SampleLocked(reading: Reading) returns (r: Result<Sample, Error>)
      modifies this
      ensures (Value(), r) == Observe(old(Value()), reading)
    {
      if failed.Some? {
        return Err(failed.value);
      }
      if reading.Unreadable? {
        failed := Some(ClockReadFailed);
        return Err(ClockReadFailed);
      }
      var sample := reading.sample;
      var delta := (sample.wall - origin.wall) - (sample.uptime - origin.uptime);
      if sample.uptime < last.uptime || sample.wall < last.wall - skew || delta > skew || delta < -skew {
        failed := Some(HistoryDiverged);
        return Err(HistoryDiverged);
      }
      last := sample;
      if credentialUntil != ZERO_TIME && sample.wall >= credentialUntil {
        failed := Some(CredentialExpired);
        return Err(CredentialExpired);
      }
      return Ok(sample);
    }

    method Check(reading: Reading) returns (r: Reply)
      modifies this
      ensures (Value(), r) == Perform(old(Value()), Call.Check, reading)
    {
      var read := SampleLocked(reading);
      r := if read.Err? then Refused(read.error) else Done;
    }

    method ValidateServerTime(server: int, reading: Reading) returns (r: Reply)
      modifies this
      ensures (Value(), r) == Perform(old(Value()), ServerTime(server), reading)
    {
      var read := SampleLocked(reading);
      if read.Err? {
        return Refused(read.error);
      }
      var delta := read.value.wall - server;
      if delta > skew || delta < -skew {
        failed := Some(ServerSkew);
        return Refused(ServerSkew);
      }
      return Done;
    }

    method SetCredential(until: int, reading: Reading) returns (r: Reply)
      modifies this
      ensures (Value(), r) == Perform(old(Value()), Credential(until), reading)
    {
      var read := SampleLocked(reading);
      if read.Err? {
        return Refused(read.error);
      }
      credentialUntil := until;
      return Done;
    }

    method Accept(issued: int, valid: int, reading: Reading) returns (r: Reply)
      modifies this
      ensures (Value(), r) == Perform(old(Value()), Call.Accept(issued, valid), reading)
    {
      var read := SampleLocked(reading);
      if read.Err? {
        return Refused(read.error);
      }
      var sample := read.value;
      if hasCurrent && sample.uptime >= currentUntil {
        return Refused(SessionExpired);
      }
      if issued > sample.wall + skew || valid <= issued || valid - issued > maximum {
        return Refused(InvalidWindow);
      }
      var cutoff := valid - skew;
      if credentialUntil != ZERO_TIME && credentialUntil < cutoff {
        cutoff := credentialUntil;
      }
      var remaining := cutoff - sample.wall;
      if remaining <= 0 {
        return Refused(NothingRemaining);
      }
      remaining := Min(remaining, maximum);
      currentUntil := sample.uptime + remaining;
      hasCurrent := true;
      return Granted(Ticket(currentUntil, cutoff));
    }

    method Allow(presented: Option<Ticket>, reading: Reading) returns (r: Reply)
      modifies this
      ensures (Value(), r) == Perform(old(Value()), Call.Allow(presented), reading)
    {
      if presented.None? {
        return Refused(NoAuthorization);
      }
      var read := SampleLocked(reading);
      if read.Err? {
        return Refused(read.error);
      }
      if read.value.uptime >= presented.value.until || read.value.wall >= presented.value.wallUntil {
        return Refused(AuthorizationEnded);
      }
      return Done;
    }

    method Drain(ticket: Ticket, duration: int, reading: Reading) returns (r: Reply)
      modifies this
      ensures (Value(), r) == Perform(old(Value()), Call.Drain(ticket, duration), reading)
    {
      var read := SampleLocked(reading);
      if read.Err? {
        return Granted(Ticket(0, ZERO_TIME));
      }
      return Granted(Ticket(Min(ticket.until, read.value.uptime + duration), Min(ticket.wallUntil, read.value.wall + duration)));
    }
  }

  function Fresh(sample: Sample, skew: int, maximum: int, credentialUntil: int): Lease {
    Lease(sample, sample, skew, maximum, credentialUntil, None, 0, false)
  }

  // The state in which New leaves a guard.
  predicate Opened(l: Lease) {
    && 0 < l.skew < l.maximum
    && l.origin == l.last && 0 <= l.last.uptime
    && l.failed.None? && !l.hasCurrent
  }
}

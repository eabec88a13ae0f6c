/** Operating-system synchronization evidence: agent/internal/authorization/synchronization.go. */
module ClockEvidence {
  import opened Outcomes
  import opened LeaseGuard

  const SECOND: int := 1000000000

  // `observed` is None when the reported timestamp does not parse.
  datatype Evidence = Evidence(host: string, source: string, synchronized: bool, maxError: int, observed: Option<int>)

  predicate KnownSource(source: string) {
    source == "linux-adjtimex" || source == "windows-w32time"
  }

  // Holdover after the OS sample is charged at 500 ppm of its age, rounded down.
  function Uncertainty(e: Evidence, now: int): int
    requires e.observed.Some?
  {
    e.maxError + Max(now - e.observed.value, 0) / 2000
  }

  predicate ValidateSynchronization(e: Evidence, now: int, skew: int) {
    && e.observed.Some? && e.synchronized && KnownSource(e.source)
    && 0 <= e.maxError <= skew
    && e.observed.value <= now + skew && now - e.observed.value <= 30 * SECOND
    && Uncertainty(e, now) <= skew
  }

  // The evidence told the truth: at true instant `start` the wall clock showed `observed`, off by at most
  // the reported error, and until true instant `truth` it ran free by at most 500 ppm of the time it counted.
  predicate HonestSince(e: Evidence, start: int, wall: int, truth: int) {
    && e.observed.Some?
    && -e.maxError <= e.observed.value - start <= e.maxError
    && var holdover := (wall - e.observed.value) - (truth - start);
       var counted := Max(wall - e.observed.value, 0);
       -counted <= 2000 * holdover <= counted
  }

  ghost predicate Honest(e: Evidence, wall: int, truth: int) {
    exists start :: HonestSince(e, start, wall, truth)
  }

  // Accepted evidence that is honest bounds the clock error by the skew it was checked against.
  lemma AcceptedEvidenceBoundsError(e: Evidence, wall: int, truth: int, skew: int)
    requires ValidateSynchronization(e, wall, skew) && Honest(e, wall, truth)
    ensures -skew <= wall - truth <= skew
  {
    var start :| HonestSince(e, start, wall, truth);
    var counted := Max(wall - e.observed.value, 0);
    var holdover := (wall - e.observed.value) - (truth - start);
    assert -(counted / 2000) <= holdover <= counted / 2000;
  }

  // One use of the clock: the two system reads around the provider query, and what they returned.
  // A failed provider query still hands back some evidence value.
  datatype Query = Query(before: Reading, provided: Evidence, failed: bool, after: Reading, host: Option<string>, platform: string)

  datatype Cache = Cache(cached: Evidence, checked: int, initialized: bool)

  function ExpectedSource(platform: string): string {
    if platform == "linux" then "linux-adjtimex" else if platform == "windows" then "windows-w32time" else ""
  }

  predicate MustRefresh(c: Cache, uptime: int) {
    !c.initialized || uptime < c.checked || uptime - c.checked >= 2 * SECOND
  }

  function Consult(c: Cache, skew: int, q: Query): (Cache, Reading) {
    if q.before.Unreadable? then (c, Unreadable) else
    var refresh := MustRefresh(c, q.before.sample.uptime);
    if refresh && q.failed then (c.(cached := q.provided), Unreadable) else
    var d := if refresh then Cache(q.provided, q.before.sample.uptime, true) else c;
    if && q.after.Reading?
       && q.host == Some(d.cached.host)
       && d.cached.source == ExpectedSource(q.platform)
       && ValidateSynchronization(d.cached, q.after.sample.wall, skew)
    then (d, q.after) else (d, Unreadable)
  }

  /** The closure SynchronizedClock returns; its captured variables are the fields. */
  class SynchronizedClock {
    const skew: int
    var cached: Evidence
    var checked: int
    var initialized: bool

    function Value(): Cache
      reads this
    {
      Cache(cached, checked, initialized)
    }

    constructor (skew: int)
      ensures this.skew == skew && !initialized
    {
      this.skew := skew;
      cached, checked, initialized := Evidence("", "", false, 0, None), 0, false;
    }

    method Read(q: Query) returns (r: Reading)
      modifies this
      ensures (Value(), r) == Consult(old(Value()), skew, q)
      ensures r.Reading? ==> r == q.after && initialized && ValidateSynchronization(cached, r.sample.wall, skew)
      ensures r.Reading? ==> 0 <= q.before.sample.uptime - checked < 2 * SECOND
      ensures r.Reading? ==> q.host == Some(cached.host) && cached.synchronized && cached.observed.Some?
      ensures r.Reading? ==> -skew <= r.sample.wall - cached.observed.value <= 30 * SECOND
      ensures r.Reading? ==> || (q.platform == "linux" && cached.source == "linux-adjtimex")
                             || (q.platform == "windows" && cached.source == "windows-w32time")
    {
      if q.before.Unreadable? {
        return Unreadable;
      }
      var uptime := q.before.sample.uptime;
      if !initialized || uptime < checked || uptime - checked >= 2 * SECOND {
        cached := q.provided;
        if q.failed {
          return Unreadable;
        }
        initialized := true;
        checked := uptime;
      }
      if q.after.Unreadable? {
        return Unreadable;
      }
      if q.host.None? || cached.host != q.host.value {
        return Unreadable;
      }
      var expected := "";
      if q.platform == "linux" {
        expected := "linux-adjtimex";
      } else if q.platform == "windows" {
        expected := "windows-w32time";
      }
      if cached.source != expected || !ValidateSynchronization(cached, q.after.sample.wall, skew) {
        return Unreadable;
      }
      return q.after;
    }
  }
}

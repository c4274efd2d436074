/** The configuration record, the service table, and the random draws that depend on them. */
module Settings {

  const SERVICES: nat := 6
  const MINUTES_A_DAY: nat := 1440
  const MAX_SEATS: nat := 30

  datatype Config = Config(
    numSeats: nat,
    simDuration: nat,
    minuteDuration: nat,
    shiftOpen: nat,
    shiftClose: nat,
    explodeMax: nat,
    maxRequests: nat,
    nofPause: nat)

  /** What the loader guarantees: these entries are only ever overwritten by positive numbers. */
  predicate Loaded(c: Config) {
    && c.numSeats > 0 && c.simDuration > 0 && c.minuteDuration > 0 && c.maxRequests > 0
    && c.nofPause > 0
  }

  predicate IsService(k: int) {
    0 <= k < SERVICES
  }

  /** Nominal minutes of each service. */
  function Duration(k: int): nat
    requires IsService(k)
  {
    [10, 8, 6, 8, 20, 20][k]
  }

  /** Nanoseconds spent on a service of the given nominal length, for a draw of rand(). */
  function ServiceNanos(nominal: nat, minute: nat, draw: nat): nat {
    var base := nominal * minute;
    var min := base / 2;
    var max := base + base / 2;
    var span := max - min + 1;
    min + draw % span
  }

  /** The service time in simulated minutes, as reported in the done message. */
  function ServiceMinutes(c: Config, k: int, draw: nat): real
    requires Loaded(c) && IsService(k)
  {
    ServiceNanos(Duration(k), c.minuteDuration, draw) as real / c.minuteDuration as real
  }

  ghost predicate WithinHalf(time: real, nominal: nat) {
    nominal as real / 2.0 <= time <= 3.0 * nominal as real / 2.0
  }

  lemma DrawRange(low: nat, span: nat, n: nat)
    requires span > 0
    ensures (exists draw: nat :: low + draw % span == n) <==> low <= n < low + span
  {
    if low <= n < low + span {
      var draw := n - low;
      assert low + draw % span == n;
    }
  }

  /** The draws cover exactly the integers from half the base to one and a half times the base. */
  lemma ServiceNanosExactRange(nominal: nat, minute: nat, n: nat)
    ensures (exists draw: nat :: ServiceNanos(nominal, minute, draw) == n)
       <==> nominal * minute / 2 <= n <= nominal * minute + nominal * minute / 2
  {
    var low := nominal * minute / 2;
    var span := nominal * minute + low - low + 1;
    DrawRange(low, span, n);
    if low <= n < low + span {
      var draw: nat :| low + draw % span == n;
      assert ServiceNanos(nominal, minute, draw) == n;
    }
    forall draw: nat | ServiceNanos(nominal, minute, draw) == n ensures low + draw % span == n {
    }
  }

  /** Every nominal time of the table is even, so halving loses nothing and the draw stays within 50%. */
  lemma ServiceMinutesWithinHalf(c: Config, k: int, draw: nat)
    requires Loaded(c) && IsService(k)
    ensures WithinHalf(ServiceMinutes(c, k, draw), Duration(k))
  {
    var d, m := Duration(k), c.minuteDuration;
    var n := ServiceNanos(d, m, draw);
    ServiceNanosExactRange(d, m, n);
    assert exists x: nat :: ServiceNanos(d, m, x) == n;
    var half := d / 2;
    assert d == 2 * half;
    assert d * m == 2 * (half * m);
    assert d * m / 2 == half * m;
    assert half * m <= n <= 3 * (half * m);
    DivideBounds(half, m, n);
  }

  /** t minutes are n nanoseconds. */
  predicate LastsFor(c: Config, t: real, n: nat) {
    t * c.minuteDuration as real == n as real
  }

  /** n nanoseconds are from half to one and a half times the nominal time of the service. */
  predicate NanosFit(c: Config, k: int, n: nat)
    requires IsService(k)
  {
    var nominal := Duration(k) * c.minuteDuration;
    nominal <= 2 * n <= 3 * nominal
  }

  /**
   The times reported for a service are exactly those of a whole number of nanoseconds
   from half to one and a half times its nominal time: each draw gives one of them, and
   each of them is given by some draw.
   */
  lemma ServiceMinutesExactRange(c: Config, k: int, t: real)
    requires Loaded(c) && IsService(k)
    ensures (exists draw: nat :: ServiceMinutes(c, k, draw) == t)
       <==> (exists n: nat :: LastsFor(c, t, n) && NanosFit(c, k, n))
  {
    var d, m := Duration(k), c.minuteDuration;
    HalfIsExact(k, m);
    if draw: nat :| ServiceMinutes(c, k, draw) == t {
      var n := ServiceNanos(d, m, draw);
      ServiceNanosExactRange(d, m, n);
      QuotientLasts(c, n);
      assert LastsFor(c, t, n) && NanosFit(c, k, n);
    }
    if n: nat :| LastsFor(c, t, n) && NanosFit(c, k, n) {
      ServiceNanosExactRange(d, m, n);
      var draw: nat :| ServiceNanos(d, m, draw) == n;
      QuotientLasts(c, n);
      SameAmount(c, t, n as real / m as real, n);
      assert ServiceMinutes(c, k, draw) == t;
    }
  }

  lemma HalfOfEven(half: nat, m: nat)
    ensures 2 * (2 * half * m / 2) == 2 * half * m
  {
    assert 2 * half * m == 2 * (half * m);
  }

  /** Every nominal time of the table is even. */
  lemma EvenTable(k: int)
    requires IsService(k)
    ensures Duration(k) == 2 * (Duration(k) / 2)
  {
  }

  lemma HalfIsExact(k: int, m: nat)
    requires IsService(k)
    ensures 2 * (Duration(k) * m / 2) == Duration(k) * m
  {
    var d := Duration(k);
    EvenTable(k);
    HalfOfEven(d / 2, m);
  }

  lemma QuotientLasts(c: Config, n: nat)
    requires c.minuteDuration > 0
    ensures LastsFor(c, n as real / c.minuteDuration as real, n)
  {
  }

  lemma SameAmount(c: Config, t: real, t': real, n: nat)
    requires c.minuteDuration > 0 && LastsFor(c, t, n) && LastsFor(c, t', n)
    ensures t == t'
  {
    var m := c.minuteDuration as real;
    assert (t - t') * m == 0.0;
  }

  lemma DivideBounds(half: nat, m: nat, n: nat)
    requires m > 0 && half * m <= n <= 3 * (half * m)
    ensures half as real <= n as real / m as real <= 3.0 * half as real
  {
    var q := n as real / m as real;
    assert q * m as real == n as real;
    assert (half * m) as real == half as real * m as real;
    assert (half as real) * (m as real) <= q * (m as real) <= (3.0 * half as real) * (m as real);
  }

  /** The minute at which a user with n requests walks in, for a draw of rand(). */
  function WalkInTime(c: Config, n: nat, draw: nat): int {
    var start := c.shiftOpen * 60;
    var end := c.shiftClose * 60;
    var room := end - 5 * n - start;
    var span := if room < 1 then 1 else room;
    start + draw % span + 1
  }

  /** Users come strictly after opening, and leave five minutes per request when the shift has them. */
  lemma WalkInWithinShift(c: Config, n: nat, draw: nat)
    ensures c.shiftOpen * 60 < WalkInTime(c, n, draw)
    ensures (WalkInTime(c, n, draw) + 5 * n <= c.shiftClose * 60)
       <==> (c.shiftOpen * 60 + 5 * n < c.shiftClose * 60)
  {
    var room := c.shiftClose * 60 - 5 * n - c.shiftOpen * 60;
    var span := if room < 1 then 1 else room;
    assert 0 <= draw % span < span;
  }

  /**
   The minutes at which a user with n requests may walk in are exactly those after
   opening and within the room that its requests leave before closing, or the first one
   after opening when they leave none: each draw gives one of them, and each is drawn.
   */
  lemma WalkInExactRange(c: Config, n: nat, t: int)
    ensures (exists draw: nat :: WalkInTime(c, n, draw) == t)
       <==> c.shiftOpen * 60 < t
            && (t + 5 * n <= c.shiftClose * 60 || t == c.shiftOpen * 60 + 1)
  {
    var start := c.shiftOpen * 60;
    var room := c.shiftClose * 60 - 5 * n - start;
    var span: nat := if room < 1 then 1 else room;
    DrawRange(start + 1, span, if t >= 0 then t else 0);
    forall draw: nat ensures WalkInTime(c, n, draw) == start + 1 + draw % span {
    }
    if draw: nat :| start + 1 + draw % span == t {
      assert WalkInTime(c, n, draw) == t;
    }
  }
}

/**
 * The polling interval of a Supla server, in seconds.
 *
 * Without a configured scan interval, the public servers' hourly call budget
 * is spread over the server's channels: 3600 * N / 950 seconds for N channels.
 * A configured interval is taken in seconds instead. Either raw value is then
 * rounded up to a whole number of 10-second base ticks.
 *
 * Raw intervals are exact fractions `num / den` of a second; a configured
 * `timedelta` is carried as a whole number of microseconds.
 */
module Interval {
  import opened Options

  /** The integration's base scan tick, in seconds. */
  const ScanIntervalSeconds: int := 10
  /** Calls per hour the integration allows itself on one server. */
  const ApiCallLimit: int := 950
  const SecondsPerHour: int := 3600
  const MicrosPerSecond: int := 1_000_000

  /** A `timedelta`; its `total_seconds()` is exactly `micros / 1_000_000`. */
  datatype Duration = Duration(micros: int)

  /** A raw interval of `num / den` seconds. */
  datatype Seconds = Seconds(num: int, den: int)

  /** `math.ceil(a / b)` for a positive divisor. */
  function CeilDiv(a: int, b: int): (q: int)
    requires b > 0
    ensures b * (q - 1) < a <= b * q
  {
    var f := (-a) / b;
    assert b * f <= -a < b * f + b;
    -f
  }

  /** Multiplying by a non-negative factor keeps order. */
  lemma MulMono(b: int, x: int, y: int)
    requires b >= 0 && x <= y
    ensures b * x <= b * y
  {
  }

  /** A strict inequality between multiples of a positive factor holds of the factors. */
  lemma MulLessCancel(b: int, x: int, y: int)
    requires b > 0 && b * x < b * y
    ensures x < y
  {
    if y <= x {
      MulMono(b, y, x);
    }
  }

  /** A non-strict inequality between multiples of a positive factor holds of the factors. */
  lemma MulMonoConverse(b: int, x: int, y: int)
    requires b > 0 && b * x <= b * y
    ensures x <= y
  {
    if y < x {
      MulLessCancel(b, y, x);
    }
  }

  /** The quotient of `CeilDiv` is pinned down by its two bounds. */
  lemma CeilDivUnique(a: int, b: int, q: int)
    requires b > 0
    requires b * (q - 1) < a <= b * q
    ensures CeilDiv(a, b) == q
  {
    var r := CeilDiv(a, b);
    MulLessCancel(b, r - 1, q);
    MulLessCancel(b, q - 1, r);
  }

  /** Rounds `num / den` seconds up to the next multiple of the base tick. */
  function RoundToTick(raw: Seconds): (r: int)
    requires raw.den > 0
    ensures r % ScanIntervalSeconds == 0
    ensures r * raw.den >= raw.num
    ensures (r - ScanIntervalSeconds) * raw.den < raw.num
  {
    var q := CeilDiv(raw.num, ScanIntervalSeconds * raw.den);
    assert ScanIntervalSeconds * q * raw.den == ScanIntervalSeconds * raw.den * q;
    assert (ScanIntervalSeconds * q - ScanIntervalSeconds) * raw.den == ScanIntervalSeconds * raw.den * (q - 1);
    ScanIntervalSeconds * q
  }

  /** A raw value already on a tick is left unchanged. */
  lemma RoundToTickOnTick(raw: Seconds, k: int)
    requires raw.den > 0
    requires raw.num == ScanIntervalSeconds * k * raw.den
    ensures RoundToTick(raw) == ScanIntervalSeconds * k
  {
    var r := RoundToTick(raw);
    var d := raw.den;
    assert (r - ScanIntervalSeconds) * d < ScanIntervalSeconds * k * d <= r * d;
    assert d * (r - ScanIntervalSeconds) < d * (ScanIntervalSeconds * k) <= d * r;
    MulLessCancel(d, r - ScanIntervalSeconds, ScanIntervalSeconds * k);
    MulMonoConverse(d, ScanIntervalSeconds * k, r);
    assert r == ScanIntervalSeconds * (r / ScanIntervalSeconds);
  }

  /** The interval before rounding: budget-derived, or the configured seconds. */
  function RawInterval(configured: Option<Duration>, channelCount: nat): (raw: Seconds)
    ensures raw.den > 0
  {
    match configured
    case None => Seconds(SecondsPerHour * channelCount, ApiCallLimit)
    case Some(d) => Seconds(d.micros, MicrosPerSecond)
  }

  /** The update interval a server's channels are stamped with. */
  function UpdateInterval(configured: Option<Duration>, channelCount: nat): (seconds: int)
    ensures seconds % ScanIntervalSeconds == 0
    ensures configured.None? ==>
      && seconds >= 0
      && seconds * ApiCallLimit >= SecondsPerHour * channelCount
      && (seconds - ScanIntervalSeconds) * ApiCallLimit < SecondsPerHour * channelCount
    ensures configured.Some? ==>
      && seconds * MicrosPerSecond >= configured.value.micros
      && (seconds - ScanIntervalSeconds) * MicrosPerSecond < configured.value.micros
  {
    RoundToTick(RawInterval(configured, channelCount))
  }

  /** Without configuration the interval is 10 * ceil(36 N / 95) seconds. */
  lemma UnconfiguredClosedForm(n: nat)
    ensures UpdateInterval(None, n) == ScanIntervalSeconds * CeilDiv(36 * n, 95)
  {
    var s := UpdateInterval(None, n);
    var q := s / ScanIntervalSeconds;
    assert s == ScanIntervalSeconds * q;
    assert 95 * (q - 1) < 36 * n <= 95 * q by {
      assert s * 950 == 9500 * q;
      assert (s - 10) * 950 == 9500 * (q - 1);
    }
    CeilDivUnique(36 * n, 95, q);
  }

  /**
   * Worked values: no channels poll at 0 s, one channel (3.79 s raw) at 10 s,
   * ten channels (37.9 s raw) at 40 s, a hundred channels (378.9 s raw) at
   * 380 s, and 950 channels use the whole hour.
   */
  lemma UnconfiguredExamples()
    ensures UpdateInterval(None, 0) == 0
    ensures UpdateInterval(None, 1) == 10
    ensures UpdateInterval(None, 10) == 40
    ensures UpdateInterval(None, 100) == 380
    ensures UpdateInterval(None, 950) == 3600
  {
    UnconfiguredClosedForm(0);
    UnconfiguredClosedForm(1);
    CeilDivUnique(36, 95, 1);
    UnconfiguredClosedForm(100);
    UnconfiguredClosedForm(10);
    CeilDivUnique(36 * 10, 95, 4);
    CeilDivUnique(36 * 100, 95, 38);
    UnconfiguredClosedForm(950);
    CeilDivUnique(36 * 950, 95, 360);
  }

  /** More channels never shorten the budget-derived interval. */
  lemma UnconfiguredMonotone(n1: nat, n2: nat)
    requires n1 <= n2
    ensures UpdateInterval(None, n1) <= UpdateInterval(None, n2)
  {
    var s1 := UpdateInterval(None, n1);
    var s2 := UpdateInterval(None, n2);
    MulMono(SecondsPerHour, n1, n2);
    assert ApiCallLimit * (s1 - ScanIntervalSeconds) < ApiCallLimit * s2;
    MulLessCancel(ApiCallLimit, s1 - ScanIntervalSeconds, s2);
    assert s1 == ScanIntervalSeconds * (s1 / ScanIntervalSeconds);
    assert s2 == ScanIntervalSeconds * (s2 / ScanIntervalSeconds);
  }

  /** A configured interval makes the channel count irrelevant. */
  lemma ConfiguredIgnoresChannelCount(d: Duration, n1: nat, n2: nat)
    ensures UpdateInterval(Some(d), n1) == UpdateInterval(Some(d), n2)
  {
  }

  /** A configured interval is still rounded up: 25 s becomes 30 s, while 30 s stays 30 s. */
  lemma ConfiguredIsRounded(n: nat)
    ensures UpdateInterval(Some(Duration(25 * MicrosPerSecond)), n) == 30
    ensures UpdateInterval(Some(Duration(30 * MicrosPerSecond)), n) == 30
  {
    RoundToTickOnTick(Seconds(30 * MicrosPerSecond, MicrosPerSecond), 3);
    var r := UpdateInterval(Some(Duration(25 * MicrosPerSecond)), n);
    assert r * MicrosPerSecond >= 25 * MicrosPerSecond;
    assert (r - 10) * MicrosPerSecond < 25 * MicrosPerSecond;
  }
}

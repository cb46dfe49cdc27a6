/** The named time intervals of the pure-Python statistic module: each has
    a display name and a length. Lengths are in seconds, and a custom
    interval is a whole number of seconds. */
module Statistic {
  import Text

  datatype TimeInterval = Annual365 | Annual252 | Daily | TimeDelta(seconds: int)

  const SecondsPerDay: int := 86400

  /** The integer nearest to `n / d`, ties to the even one: how Python's
      `format(x, ".0f")` rounds a quotient that it holds exactly. */
  function RoundHalfEven(n: int, d: int): (q: int)
    requires d > 0
    ensures -d <= 2 * (n - q * d) <= d
    ensures 2 * (n - q * d) == d || 2 * (n - q * d) == -d ==> q % 2 == 0
  {
    var q := n / d;
    var r := n % d;
    if 2 * r < d then q
    else if 2 * r > d then q + 1
    else if q % 2 == 0 then q
    else q + 1
  }

  /** The number `f"{seconds / 60:.0f}"` prints; a negative quotient that
      rounds to zero prints as `-0`. */
  function MinutesLabel(seconds: int): (r: string)
    ensures seconds < 0 && RoundHalfEven(seconds, 60) == 0 ==> r == "-0"
    ensures !(seconds < 0 && RoundHalfEven(seconds, 60) == 0) ==> r == Text.IntToString(RoundHalfEven(seconds, 60))
  {
    var m := RoundHalfEven(seconds, 60);
    if seconds < 0 && m == 0 then "-0" else Text.IntToString(m)
  }

  /** The `name` property. */
  function Name(t: TimeInterval): (r: string)
    ensures t == Annual365 ==> r == "Annual(365)"
    ensures t == Annual252 ==> r == "Annual(252)"
    ensures t == Daily ==> r == "Daily"
    ensures t.TimeDelta? ==> r == "Duration " + MinutesLabel(t.seconds) + " (minutes)"
  {
    match t
    case Annual365 => "Annual(365)"
    case Annual252 => "Annual(252)"
    case Daily => "Daily"
    case TimeDelta(seconds) => "Duration " + MinutesLabel(seconds) + " (minutes)"
  }

  /** The `interval` property, in seconds. */
  function IntervalSeconds(t: TimeInterval): (r: int)
    ensures t == Annual365 ==> r == 365 * SecondsPerDay
    ensures t == Annual252 ==> r == 252 * SecondsPerDay
    ensures t == Daily ==> r == SecondsPerDay
    ensures t.TimeDelta? ==> r == t.seconds
  {
    match t
    case Annual365 => 365 * SecondsPerDay
    case Annual252 => 252 * SecondsPerDay
    case Daily => SecondsPerDay
    case TimeDelta(seconds) => seconds
  }

  /** A delta of whole minutes is named by its exact minute count. */
  lemma WholeMinutesName(minutes: int)
    ensures Name(TimeDelta(60 * minutes)) == "Duration " + Text.IntToString(minutes) + " (minutes)"
  {
    var q := RoundHalfEven(60 * minutes, 60);
    assert -60 <= 2 * (60 * minutes - q * 60) <= 60;
    assert -60 <= 120 * (minutes - q) <= 60;
    assert q == minutes;
  }

  /** The name of a custom interval is within half a minute of its length:
      `N` minutes with `|60 N - seconds| <= 30`. */
  lemma DeltaNameNearest(seconds: int)
    ensures var m := RoundHalfEven(seconds, 60);
      && -30 <= seconds - 60 * m <= 30
      && Name(TimeDelta(seconds)) == "Duration " + MinutesLabel(seconds) + " (minutes)"
  {
  }

  /** The three named intervals have distinct names and distinct lengths,
      and two whole-minute deltas share a name only when they are equal. */
  lemma NamesIdentifyIntervals(a: int, b: int)
    requires Name(TimeDelta(60 * a)) == Name(TimeDelta(60 * b))
    ensures a == b
    ensures Name(Annual365) != Name(Annual252) && Name(Annual252) != Name(Daily) && Name(Daily) != Name(Annual365)
  {
    WholeMinutesName(a);
    WholeMinutesName(b);
    var pa := Text.IntToString(a);
    var pb := Text.IntToString(b);
    var prefix := "Duration ";
    var suffix := " (minutes)";
    assert prefix + pa + suffix == prefix + pb + suffix;
    assert pa == (prefix + pa + suffix)[|prefix|..|prefix| + |pa|];
    assert |pa| == |pb|;
    assert pb == (prefix + pb + suffix)[|prefix|..|prefix| + |pb|];
    IntToStringInjective(a, b);
  }

  /** Distinct integers print differently. */
  lemma IntToStringInjective(a: int, b: int)
    requires Text.IntToString(a) == Text.IntToString(b)
    ensures a == b
  {
    IntToStringSign(a);
    IntToStringSign(b);
    if a < 0 && b < 0 {
      assert Text.NatToString(-a) == Text.IntToString(a)[1..];
      Text.NatToStringInjective(-a, -b);
    } else if a >= 0 && b >= 0 {
      Text.NatToStringInjective(a, b);
    }
  }

  /** A printed integer starts with a minus sign exactly when it is negative. */
  lemma IntToStringSign(i: int)
    ensures |Text.IntToString(i)| > 0
    ensures Text.IntToString(i)[0] == '-' <==> i < 0
  {
    if i >= 0 {
      assert Text.IsAsciiDigit(Text.NatToString(i)[0]);
    }
  }
}

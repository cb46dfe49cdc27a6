/** The input side of the analytics bindings: interval identifiers, the
    checks `calculate_win_rate` makes before computing, equity points read
    from Python, and the way the drawdown series and its summaries are
    collected. The metric formulas and the drawdown, max-drawdown and
    mean-drawdown generators belong to the statistic crate and are
    parameters here. */
module Analytics {
  import opened Wrappers
  import opened Errors
  import Text
  import Floats
  import Command
  import Loops
  import opened PyObjects

  /** The interval a metric is computed over; a custom duration is kept in
      microseconds. */
  datatype IntervalChoice = Daily | Annual252 | Annual365 | Duration(micros: int)

  /** An identifier trimmed and lowercased, as `parse_interval_from_str`
      compares it. */
  function NormaliseLabel(identifier: string): string {
    Text.ToAsciiLower(Text.Trim(identifier))
  }

  /** The four spellings of each named year. */
  const Annual252Spellings: set<string> := {"annual(252)", "annual_252", "annual-252", "annual252"}
  const Annual365Spellings: set<string> := {"annual(365)", "annual_365", "annual-365", "annual365"}

  /** "daily" and the spellings of the two years are all different. */
  lemma SpellingsDistinct()
    ensures "daily" !in Annual252Spellings && "daily" !in Annual365Spellings
    ensures forall x | x in Annual252Spellings :: x !in Annual365Spellings
  {
  }

  /** `parse_interval_from_str`: "daily" and the four spellings of each
      named year, ignoring surrounding whitespace and ASCII case; the error
      quotes the normalised identifier. */
  function ParseIntervalFromStr(identifier: string): (r: Result<IntervalChoice, PyErr>)
    ensures r == Success(Daily) <==> NormaliseLabel(identifier) == "daily"
    ensures r == Success(Annual252) <==> NormaliseLabel(identifier) in Annual252Spellings
    ensures r == Success(Annual365) <==> NormaliseLabel(identifier) in Annual365Spellings
    ensures r.Success? ==> !r.value.Duration?
    ensures r.Failure? ==> r.error == ValueError("unsupported interval identifier: " + NormaliseLabel(identifier))
  {
    SpellingsDistinct();
    var normalised := NormaliseLabel(identifier);
    if normalised == "daily" then Success(Daily)
    else if normalised in Annual252Spellings then Success(Annual252)
    else if normalised in Annual365Spellings then Success(Annual365)
    else Failure(ValueError("unsupported interval identifier: " + normalised))
  }

  /** The case of an identifier does not matter. */
  lemma LabelCaseIgnored(identifier: string)
    ensures ParseIntervalFromStr(Text.ToAsciiLower(identifier)) == ParseIntervalFromStr(identifier)
  {
    Text.TrimLower(identifier);
    Text.ToAsciiLowerIdempotent(Text.Trim(identifier));
  }

  /** Whitespace around an identifier does not matter. */
  lemma LabelPaddingIgnored(before: string, identifier: string, after: string)
    requires Text.AllWhitespace(before) && Text.AllWhitespace(after)
    requires |identifier| > 0 ==> !Text.IsWhitespace(identifier[0]) && !Text.IsWhitespace(identifier[|identifier| - 1])
    ensures ParseIntervalFromStr(before + identifier + after) == ParseIntervalFromStr(identifier)
  {
    Text.TrimPadded(before, identifier, after);
    Text.TrimPadded("", identifier, "");
    assert "" + identifier + "" == identifier;
    SameNormalFormSameResult(before + identifier + after, identifier);
  }

  lemma SameNormalFormSameResult(a: string, b: string)
    requires NormaliseLabel(a) == NormaliseLabel(b)
    ensures ParseIntervalFromStr(a) == ParseIntervalFromStr(b)
  {
  }

  /** No accepted identifier contains a space. */
  lemma SpellingsHaveNoSpace()
    ensures forall x | x in Annual252Spellings :: ' ' !in x
    ensures forall x | x in Annual365Spellings :: ' ' !in x
  {
    assert forall x | x in Annual252Spellings :: ' ' !in x;
  }

  /** An identifier with a space left inside it after trimming ("annual
      252") is refused, although the summary-interval parser drops such
      separators: the two normalisations differ. */
  lemma InnerSpaceRefused(identifier: string)
    requires ' ' in NormaliseLabel(identifier)
    ensures ParseIntervalFromStr(identifier).Failure?
  {
    SpellingsHaveNoSpace();
    assert ' ' !in "daily";
  }

  /** `calculate_win_rate`: wins, then total, must be finite; then a
      negative total, then negative wins, is refused. Only then is the rate
      computed, by `winRate` (the statistic crate's formula). */
  function CalculateWinRate(wins: Floats.Float, total: Floats.Float, winRate: (real, real) -> Option<real>)
    : (r: Result<Option<real>, PyErr>)
    ensures !wins.Finite? ==> r == Failure(ValueError("wins" + " must be a finite numeric value"))
    ensures wins.Finite? && !total.Finite? ==> r == Failure(ValueError("total" + " must be a finite numeric value"))
    ensures wins.Finite? && total.Finite? && total.value < 0.0 ==> r == Failure(ValueError("total must be non-negative"))
    ensures wins.Finite? && total.Finite? && total.value >= 0.0 && wins.value < 0.0 ==>
      r == Failure(ValueError("wins must be non-negative"))
    ensures r.Success? <==> wins.Finite? && total.Finite? && wins.value >= 0.0 && total.value >= 0.0
    ensures r.Success? ==> r.value == winRate(wins.value, total.value)
  {
    var w :- Command.ParseDecimal(wins, "wins");
    var t :- Command.ParseDecimal(total, "total");
    if t < 0.0 then Failure(ValueError("total must be non-negative"))
    else if w < 0.0 then Failure(ValueError("wins must be non-negative"))
    else Success(winRate(w, t))
  }

  /** A point of an equity curve. */
  datatype Timed = Timed(value: real, time: int)

  /** `downcast::<PySequence>()`: lists and tuples give their items, a `str`
      its one-character strings and `bytes` their integers; dicts and every
      other object are not sequences. */
  function AsSequence(o: PyObj): (r: Option<seq<PyObj>>)
    ensures r.Some? <==> o.PyList? || o.PyTuple? || o.PyStr? || o.PyBytes?
    ensures o.PyList? || o.PyTuple? ==> r == Some(o.items)
    ensures o.PyStr? ==> r.Some? && |r.value| == |o.s| && forall i :: 0 <= i < |o.s| ==> r.value[i] == PyStr([o.s[i]])
    ensures o.PyBytes? ==> r.Some? && |r.value| == |o.bytes| && forall i :: 0 <= i < |o.bytes| ==> r.value[i] == PyInt(o.bytes[i])
  {
    match o
    case PyList(items) => Some(items)
    case PyTuple(items) => Some(items)
    case PyStr(s) => Some(seq(|s|, i requires 0 <= i < |s| => PyStr([s[i]])))
    case PyBytes(bytes) => Some(seq(|bytes|, i requires 0 <= i < |bytes| => PyInt(bytes[i])))
    case _ => None
  }

  /** `str(value)` and `Decimal::from_str`, the fallback for values that are
      not numbers; both can fail. */
  datatype TextNumbers = TextNumbers(str: PyObj -> Option<string>, decimalFromStr: string -> Option<real>)

  /** `parse_numeric_value`: a number is read as an `f64` and must be
      finite; anything else goes through its `str()` text and must parse as
      a decimal. */
  function ParseNumericValue(value: PyObj, field: string, numbers: TextNumbers): (r: Result<real, PyErr>)
    ensures AsFloat(value).Some? ==> r == Command.ParseDecimal(AsFloat(value).value, field)
    ensures AsFloat(value).None? && numbers.str(value).None? ==> r == Failure(ValueError(field + " must be numeric"))
    ensures AsFloat(value).None? && numbers.str(value).Some? ==>
      (r.Success? <==> numbers.decimalFromStr(numbers.str(value).value).Some?)
    ensures AsFloat(value).None? && numbers.str(value).Some? && r.Success? ==>
      r.value == numbers.decimalFromStr(numbers.str(value).value).value
    ensures AsFloat(value).None? && r.Failure? && numbers.str(value).Some? ==>
      r.error == ValueError(field + " must be a finite numeric value")
  {
    match AsFloat(value)
    case Some(f) => Command.ParseDecimal(f, field)
    case None =>
      match numbers.str(value)
      case None => Failure(ValueError(field + " must be numeric"))
      case Some(text) =>
        match numbers.decimalFromStr(text)
        case Some(d) => Success(d)
        case None => Failure(ValueError(field + " must be a finite numeric value"))
  }

  /** The prefix of every error about the point at `index`. */
  function PointLabel(index: nat): string {
    "points[" + Text.NatToString(index) + "]"
  }

  /** One element of `points`: a sequence of exactly two elements, a
      `datetime` and then a value. */
  function ParsePoint(index: nat, item: PyObj, numbers: TextNumbers): (r: Result<Timed, PyErr>)
    ensures AsSequence(item).None? ==>
      r == Failure(ValueError(PointLabel(index) + " must be an iterable of length 2 (datetime, value)"))
    ensures AsSequence(item).Some? && |AsSequence(item).value| != 2 ==>
      r == Failure(ValueError(PointLabel(index) + " must contain exactly two elements (datetime, value)"))
    ensures AsSequence(item).Some? && |AsSequence(item).value| == 2 && !AsSequence(item).value[0].PyDateTime? ==>
      r == Failure(ValueError(PointLabel(index) + ".time must be a datetime.datetime instance"))
    ensures r.Success? <==>
      && AsSequence(item).Some? && |AsSequence(item).value| == 2
      && AsSequence(item).value[0].PyDateTime?
      && ParseNumericValue(AsSequence(item).value[1], PointLabel(index) + ".value", numbers).Success?
    ensures r.Success? ==>
      && AsSequence(item).value[0] == PyDateTime(r.value.time)
      && ParseNumericValue(AsSequence(item).value[1], PointLabel(index) + ".value", numbers) == Success(r.value.value)
  {
    match AsSequence(item)
    case None => Failure(ValueError(PointLabel(index) + " must be an iterable of length 2 (datetime, value)"))
    case Some(pair) =>
      if |pair| != 2 then Failure(ValueError(PointLabel(index) + " must contain exactly two elements (datetime, value)"))
      else if !pair[0].PyDateTime? then Failure(ValueError(PointLabel(index) + ".time must be a datetime.datetime instance"))
      else
        var value :- ParseNumericValue(pair[1], PointLabel(index) + ".value", numbers);
        Success(Timed(value, pair[0].micros))
  }

  /** `parse_equity_points`: `points` must be a sequence; its elements are
      read in order and the first bad one raises. */
  function ParseEquityPoints(points: PyObj, numbers: TextNumbers): (r: Result<seq<Timed>, PyErr>)
    ensures AsSequence(points).None? ==>
      r == Failure(ValueError("points must be an iterable of (datetime, value) pairs"))
    ensures AsSequence(points).Some? ==>
      r == Loops.TryEach(AsSequence(points).value, (k: nat, o: PyObj) => ParsePoint(k, o, numbers))
  {
    match AsSequence(points)
    case None => Failure(ValueError("points must be an iterable of (datetime, value) pairs"))
    case Some(items) => Loops.TryEach(items, (k: nat, o: PyObj) => ParsePoint(k, o, numbers))
  }

  /** A list of points parses exactly when every element does, into one
      point per element, in order. */
  lemma EquityPointsInOrder(items: seq<PyObj>, numbers: TextNumbers)
    ensures var r := ParseEquityPoints(PyList(items), numbers);
      && (r.Success? <==> forall k :: 0 <= k < |items| ==> ParsePoint(k, items[k], numbers).Success?)
      && (r.Success? ==> (|r.value| == |items|
            && forall k :: 0 <= k < |items| ==> ParsePoint(k, items[k], numbers) == Success(r.value[k])))
  {
    var parse := (k: nat, o: PyObj) => ParsePoint(k, o, numbers);
    Loops.TryEachPositions(items, parse);
    var r := ParseEquityPoints(PyList(items), numbers);
    assert r == Loops.TryEach(items, parse);
    if r.Success? {
      forall k | 0 <= k < |items|
        ensures ParsePoint(k, items[k], numbers) == Success(r.value[k])
      {
        assert parse(k, items[k]) == ParsePoint(k, items[k], numbers);
      }
    }
  }

  /** A list with an element that is not a pair of exactly two elements is
      refused, with the error of the first bad element. */
  lemma PairsRequired(items: seq<PyObj>, numbers: TextNumbers, k: nat)
    requires k < |items|
    requires AsSequence(items[k]).None? || |AsSequence(items[k]).value| != 2
    ensures ParseEquityPoints(PyList(items), numbers).Failure?
    ensures exists j :: (0 <= j < |items| && ParsePoint(j, items[j], numbers).Failure?
      && ParseEquityPoints(PyList(items), numbers) == Failure(ParsePoint(j, items[j], numbers).error))
  {
    EquityPointsInOrder(items, numbers);
    var parse := (k: nat, o: PyObj) => ParsePoint(k, o, numbers);
    assert parse(k, items[k]).Failure?;
    Loops.TryEachFirstError(items, parse);
    var j :| 0 <= j < |items| && parse(j, items[j]) == Failure(Loops.TryEach(items, parse).error);
    assert parse(j, items[j]) == ParsePoint(j, items[j], numbers);
  }

  /** The drawdown generator: a start state, an update that may complete a
      drawdown at each point, and a final step that may emit the drawdown
      still open. */
  datatype SeriesGenerator<!S, D> = SeriesGenerator(start: S, update: (S, Timed) -> (S, Option<D>), finish: S -> Option<D>)

  function Emitted<D>(d: Option<D>): seq<D> {
    if d.Some? then [d.value] else []
  }

  /** The generator's state after `points`, with the drawdowns it completed
      on the way, in order. */
  function Run<S, D>(g: SeriesGenerator<S, D>, points: seq<Timed>): (r: (S, seq<D>))
    ensures |r.1| <= |points|
  {
    if |points| == 0 then (g.start, [])
    else
      var before := Run(g, points[..|points| - 1]);
      var step := g.update(before.0, points[|points| - 1]);
      (step.0, before.1 + Emitted(step.1))
  }

  /** The drawdown series of a list of points: every drawdown the updates
      complete, then the one the final step emits. */
  function DrawdownSeries<S, D>(g: SeriesGenerator<S, D>, points: seq<Timed>): (r: seq<D>)
    ensures |r| <= |points| + 1
  {
    var run := Run(g, points);
    run.1 + Emitted(g.finish(run.0))
  }

  /** `build_drawdown_series`: one update per point, in order, collecting
      what each update emits, then the final step. */
  method BuildDrawdownSeries<S, D>(points: seq<Timed>, g: SeriesGenerator<S, D>) returns (drawdowns: seq<D>)
    ensures drawdowns == DrawdownSeries(g, points)
    ensures |drawdowns| <= |points| + 1
  {
    var state := g.start;
    drawdowns := [];
    var n := 0;
    while n < |points|
      invariant 0 <= n <= |points|
      invariant state == Run(g, points[..n]).0 && drawdowns == Run(g, points[..n]).1
    {
      var step := g.update(state, points[n]);
      assert points[..n + 1][..n] == points[..n] && points[..n + 1][n] == points[n];
      assert Run(g, points[..n + 1]) == (step.0, drawdowns + Emitted(step.1));
      state := step.0;
      if step.1.Some? {
        drawdowns := drawdowns + [step.1.value];
      }
      n := n + 1;
    }
    assert points[..n] == points;
    var last := g.finish(state);
    if last.Some? {
      drawdowns := drawdowns + [last.value];
    }
  }

  /** `drawdown_series_from_py`: no points means no drawdowns, whatever the
      generator's final step would emit. */
  function DrawdownSeriesFromPy<S, D>(points: PyObj, numbers: TextNumbers, g: SeriesGenerator<S, D>)
    : (r: Result<seq<D>, PyErr>)
    ensures ParseEquityPoints(points, numbers).Failure? ==> r == Failure(ParseEquityPoints(points, numbers).error)
    ensures ParseEquityPoints(points, numbers) == Success([]) ==> r == Success([])
    ensures ParseEquityPoints(points, numbers).Success? && |ParseEquityPoints(points, numbers).value| > 0 ==>
      r == Success(DrawdownSeries(g, ParseEquityPoints(points, numbers).value))
  {
    var parsed :- ParseEquityPoints(points, numbers);
    if |parsed| == 0 then Success([]) else Success(DrawdownSeries(g, parsed))
  }

  /** A summary of a drawdown series (the maximum, or the mean): started
      from the first drawdown, updated with each later one, then read out. */
  datatype Summariser<!D, !M, R> = Summariser(init: D -> M, update: (M, D) -> M, generate: M -> Option<R>)

  function Fold<D, M, R>(s: Summariser<D, M, R>, first: D, rest: seq<D>): M {
    if |rest| == 0 then s.init(first)
    else s.update(Fold(s, first, rest[..|rest| - 1]), rest[|rest| - 1])
  }

  /** The summary of a series; an empty series has none. */
  function Summarise<D, M, R>(s: Summariser<D, M, R>, series: seq<D>): (r: Option<R>)
    ensures |series| == 0 ==> r.None?
    ensures |series| > 0 ==> r == s.generate(Fold(s, series[0], series[1..]))
  {
    if |series| == 0 then None else s.generate(Fold(s, series[0], series[1..]))
  }

  /** The loop of `calculate_max_drawdown` and `calculate_mean_drawdown`:
      the generator is absent until the first drawdown starts it, and each
      later drawdown updates it. */
  method SummariseLoop<D, M, R>(s: Summariser<D, M, R>, series: seq<D>) returns (r: Option<R>)
    ensures r == Summarise(s, series)
    ensures |series| == 0 ==> r.None?
  {
    if |series| == 0 {
      return None;
    }
    var generator: Option<M> := None;
    var n := 0;
    while n < |series|
      invariant 0 <= n <= |series|
      invariant n == 0 <==> generator.None?
      invariant n > 0 ==> generator == Some(Fold(s, series[0], series[1..n]))
    {
      match generator {
        case Some(existing) =>
          assert series[1..n + 1][..n - 1] == series[1..n];
          generator := Some(s.update(existing, series[n]));
        case None =>
          generator := Some(s.init(series[n]));
      }
      n := n + 1;
    }
    assert series[1..n] == series[1..];
    r := s.generate(generator.value);
  }

  /** `calculate_max_drawdown` and `calculate_mean_drawdown`, which differ
      only in their summariser: no drawdowns, and in particular no points,
      mean no summary. */
  function CalculateDrawdownSummary<S, D, M, R>(points: PyObj, numbers: TextNumbers, g: SeriesGenerator<S, D>,
                                                s: Summariser<D, M, R>)
    : (r: Result<Option<R>, PyErr>)
    ensures DrawdownSeriesFromPy(points, numbers, g).Failure? ==>
      r == Failure(DrawdownSeriesFromPy(points, numbers, g).error)
    ensures ParseEquityPoints(points, numbers) == Success([]) ==> r == Success(None)
    ensures DrawdownSeriesFromPy(points, numbers, g) == Success([]) ==> r == Success(None)
    ensures r.Success? && r.value.Some? ==>
      && DrawdownSeriesFromPy(points, numbers, g).Success?
      && var series := DrawdownSeriesFromPy(points, numbers, g).value;
      && |series| > 0 && r.value == s.generate(Fold(s, series[0], series[1..]))
    ensures DrawdownSeriesFromPy(points, numbers, g).Success? ==>
      r == Success(Summarise(s, DrawdownSeriesFromPy(points, numbers, g).value))
  {
    var series :- DrawdownSeriesFromPy(points, numbers, g);
    Success(Summarise(s, series))
  }
  /** `calculate_max_drawdown` and `calculate_mean_drawdown` as written:
      the series is built, an empty one returns `None` at once, and the
      generator loop summarises the rest. */
  method CalculateDrawdownSummaryLoop<S, D, M, R>(points: PyObj, numbers: TextNumbers, g: SeriesGenerator<S, D>,
                                                   s: Summariser<D, M, R>)
    returns (r: Result<Option<R>, PyErr>)
    ensures r == CalculateDrawdownSummary(points, numbers, g, s)
  {
    var built := DrawdownSeriesFromPy(points, numbers, g);
    if built.Failure? {
      return Failure(built.error);
    }
    if |built.value| == 0 {
      return Success(None);
    }
    var summary := SummariseLoop(s, built.value);
    return Success(summary);
  }


  /** An empty list of points gives an empty series and no summary. */
  lemma NoPointsNoDrawdowns<S, D, M, R>(numbers: TextNumbers, g: SeriesGenerator<S, D>, s: Summariser<D, M, R>)
    ensures DrawdownSeriesFromPy(PyList([]), numbers, g) == Success([])
    ensures CalculateDrawdownSummary(PyList([]), numbers, g, s) == Success(None)
  {
    assert ParseEquityPoints(PyList([]), numbers) == Success([]);
  }
}

/** Risk-limit configuration of a trading system: global limits, per-instrument
    overrides kept sorted by instrument index, validation of every limit
    before it is stored, and the bounds check `SystemConfig` adds against its
    list of instruments. Updates are pure: an operation that fails returns
    the error and no configuration, because the source validates before it
    mutates anything. */
module RiskConfig {
  import opened Wrappers
  import Seqs

  datatype RiskLimits = RiskLimits(
    maxPositionNotional: Option<real>,
    maxPositionQuantity: Option<real>,
    maxLeverage: Option<real>,
    maxExposurePercent: Option<real>)

  datatype RiskLimitsError =
    | NonPositive(field: string, value: real)
    | ExposurePercentOutOfRange(exposure: real)
    | InstrumentIndexOutOfBounds(index: nat, total: nat)

  datatype RiskInstrumentLimits = RiskInstrumentLimits(index: nat, limits: RiskLimits)

  datatype RiskConfiguration = RiskConfiguration(
    global: Option<RiskLimits>,
    instruments: seq<RiskInstrumentLimits>)

  /** An absent threshold, or one strictly above zero. */
  predicate PositiveOrAbsent(v: Option<real>) {
    v.None? || v.value > 0.0
  }

  /** An absent exposure, or one in the half-open interval (0, 1]. */
  predicate ExposureInRange(v: Option<real>) {
    v.None? || (0.0 < v.value <= 1.0)
  }

  /** The limits `validate` accepts. */
  predicate AcceptableLimits(l: RiskLimits) {
    PositiveOrAbsent(l.maxPositionNotional)
    && PositiveOrAbsent(l.maxPositionQuantity)
    && PositiveOrAbsent(l.maxLeverage)
    && ExposureInRange(l.maxExposurePercent)
  }

  function EnsurePositive(value: Option<real>, field: string): (r: Outcome<RiskLimitsError>)
    ensures r.Pass? <==> PositiveOrAbsent(value)
    ensures r.Fail? ==> r.error == NonPositive(field, value.value)
  {
    if value.Some? && value.value <= 0.0 then Fail(NonPositive(field, value.value)) else Pass
  }

  /** `RiskLimits::validate`: passes exactly on acceptable limits; a failure
      reports the first offending threshold in the order notional, quantity,
      leverage, exposure. */
  function Validate(l: RiskLimits): (r: Outcome<RiskLimitsError>)
    ensures r.Pass? <==> AcceptableLimits(l)
    ensures !PositiveOrAbsent(l.maxPositionNotional) ==>
      r == Fail(NonPositive("max_position_notional", l.maxPositionNotional.value))
    ensures PositiveOrAbsent(l.maxPositionNotional) && !PositiveOrAbsent(l.maxPositionQuantity) ==>
      r == Fail(NonPositive("max_position_quantity", l.maxPositionQuantity.value))
    ensures (PositiveOrAbsent(l.maxPositionNotional) && PositiveOrAbsent(l.maxPositionQuantity)
             && !PositiveOrAbsent(l.maxLeverage)) ==>
      r == Fail(NonPositive("max_leverage", l.maxLeverage.value))
    ensures (PositiveOrAbsent(l.maxPositionNotional) && PositiveOrAbsent(l.maxPositionQuantity)
             && PositiveOrAbsent(l.maxLeverage) && !ExposureInRange(l.maxExposurePercent)) ==>
      r == Fail(ExposurePercentOutOfRange(l.maxExposurePercent.value))
  {
    var notional := EnsurePositive(l.maxPositionNotional, "max_position_notional");
    if notional.Fail? then notional
    else
      var quantity := EnsurePositive(l.maxPositionQuantity, "max_position_quantity");
      if quantity.Fail? then quantity
      else
        var leverage := EnsurePositive(l.maxLeverage, "max_leverage");
        if leverage.Fail? then leverage
        else if l.maxExposurePercent.Some?
             && (l.maxExposurePercent.value <= 0.0 || l.maxExposurePercent.value > 1.0) then
          Fail(ExposurePercentOutOfRange(l.maxExposurePercent.value))
        else Pass
  }

  /** Limits that are absent, or present and acceptable. */
  predicate AcceptableUpdate(limits: Option<RiskLimits>) {
    limits.None? || AcceptableLimits(limits.value)
  }

  /** `RiskConfiguration::set_global`. */
  function SetGlobal(c: RiskConfiguration, limits: Option<RiskLimits>): (r: Result<RiskConfiguration, RiskLimitsError>)
    ensures r.Success? <==> AcceptableUpdate(limits)
    ensures r.Success? ==> r.value.global == limits && r.value.instruments == c.instruments
    ensures r.Failure? ==> Fail(r.error) == Validate(limits.value)
  {
    if limits.Some? && Validate(limits.value).Fail? then Failure(Validate(limits.value).error)
    else Success(c.(global := limits))
  }

  /** Entries for instrument `k`, in list order. */
  function WithIndex(s: seq<RiskInstrumentLimits>, k: nat): (r: seq<RiskInstrumentLimits>)
    ensures forall i :: 0 <= i < |r| ==> r[i].index == k && r[i] in s
    ensures (exists i :: 0 <= i < |s| && s[i].index == k) <==> |r| > 0
  {
    if |s| == 0 then []
    else if s[0].index == k then [s[0]] + WithIndex(s[1..], k)
    else
      assert forall i :: 1 <= i < |s| ==> s[i] == s[1..][i - 1];
      WithIndex(s[1..], k)
  }

  /** `Iterator::find` on the index: the limits of the first entry for `k`. */
  function Lookup(s: seq<RiskInstrumentLimits>, k: nat): (r: Option<RiskLimits>)
    ensures r == if |WithIndex(s, k)| == 0 then None else Some(WithIndex(s, k)[0].limits)
  {
    if |s| == 0 then None
    else if s[0].index == k then Some(s[0].limits)
    else Lookup(s[1..], k)
  }

  /** `RiskConfiguration::instrument_limits`: the limits of the first entry
      for `index`, or nothing when no entry has that index. */
  function InstrumentLimits(c: RiskConfiguration, index: nat): (r: Option<RiskLimits>)
    ensures r.Some? <==> exists i :: 0 <= i < |c.instruments| && c.instruments[i].index == index
    ensures r.Some? ==>
      exists i :: (0 <= i < |c.instruments| && c.instruments[i] == RiskInstrumentLimits(index, r.value)
                   && forall j :: 0 <= j < i ==> c.instruments[j].index != index)
  {
    FirstMatch(c.instruments, index);
    Lookup(c.instruments, index)
  }

  lemma {:induction false} FirstMatch(s: seq<RiskInstrumentLimits>, k: nat)
    ensures Lookup(s, k).Some? ==>
      exists i :: (0 <= i < |s| && s[i] == RiskInstrumentLimits(k, Lookup(s, k).value)
                   && forall j :: 0 <= j < i ==> s[j].index != k)
  {
    if |s| > 0 && s[0].index != k {
      FirstMatch(s[1..], k);
      if Lookup(s, k).Some? {
        var i :| 0 <= i < |s[1..]| && s[1..][i] == RiskInstrumentLimits(k, Lookup(s, k).value)
          && forall j :: 0 <= j < i ==> s[1..][j].index != k;
        assert s[i + 1] == s[1..][i];
        assert forall j :: 1 <= j < i + 1 ==> s[j] == s[1..][j - 1];
      }
    }
  }

  /** Replace the limits of the first entry for `k`. */
  function ReplaceFirst(s: seq<RiskInstrumentLimits>, k: nat, l: RiskLimits): (r: seq<RiskInstrumentLimits>)
    ensures |r| == |s|
  {
    if |s| == 0 then []
    else if s[0].index == k then [s[0].(limits := l)] + s[1..]
    else [s[0]] + ReplaceFirst(s[1..], k, l)
  }

  lemma {:induction false} ReplaceFirstEntries(s: seq<RiskInstrumentLimits>, k: nat, l: RiskLimits, j: nat)
    requires |WithIndex(s, k)| > 0
    ensures j != k ==> WithIndex(ReplaceFirst(s, k, l), j) == WithIndex(s, j)
    ensures WithIndex(ReplaceFirst(s, k, l), k) == [RiskInstrumentLimits(k, l)] + WithIndex(s, k)[1..]
  {
    if s[0].index != k {
      ReplaceFirstEntries(s[1..], k, l, j);
      assert ReplaceFirst(s, k, l)[1..] == ReplaceFirst(s[1..], k, l);
    } else {
      assert ReplaceFirst(s, k, l)[1..] == s[1..];
    }
  }

  lemma {:induction false} WithIndexAppend(s: seq<RiskInstrumentLimits>, e: RiskInstrumentLimits, k: nat)
    ensures WithIndex(s + [e], k) == WithIndex(s, k) + (if e.index == k then [e] else [])
  {
    if |s| == 0 {
      assert [e][1..] == [];
    } else {
      assert (s + [e])[1..] == s[1..] + [e];
      WithIndexAppend(s[1..], e, k);
    }
  }

  predicate SortedByIndex(s: seq<RiskInstrumentLimits>) {
    forall i, j :: 0 <= i < j < |s| ==> s[i].index <= s[j].index
  }

  /** Insert `x` before the first entry whose index is not below its own. */
  function Insert(x: RiskInstrumentLimits, s: seq<RiskInstrumentLimits>): (r: seq<RiskInstrumentLimits>)
    ensures |r| == |s| + 1
  {
    if |s| == 0 || x.index <= s[0].index then [x] + s
    else [s[0]] + Insert(x, s[1..])
  }

  /** A lower bound of `x` and of every entry of `s` bounds every entry after
      the insertion. */
  lemma {:induction false} InsertBounded(x: RiskInstrumentLimits, s: seq<RiskInstrumentLimits>, b: nat)
    requires b <= x.index
    requires forall i :: 0 <= i < |s| ==> b <= s[i].index
    ensures forall i :: 0 <= i < |Insert(x, s)| ==> b <= Insert(x, s)[i].index
  {
    if |s| > 0 && s[0].index < x.index {
      InsertBounded(x, s[1..], b);
      assert Insert(x, s) == [s[0]] + Insert(x, s[1..]);
    }
  }

  lemma {:induction false} InsertSorted(x: RiskInstrumentLimits, s: seq<RiskInstrumentLimits>)
    requires SortedByIndex(s)
    ensures SortedByIndex(Insert(x, s))
  {
    if |s| > 0 && s[0].index < x.index {
      var rest := Insert(x, s[1..]);
      InsertSorted(x, s[1..]);
      InsertBounded(x, s[1..], s[0].index);
      assert Insert(x, s) == [s[0]] + rest;
    }
  }

  /** `slice::sort_by_key` on the instrument index: a stable sort. */
  function SortByIndex(s: seq<RiskInstrumentLimits>): (r: seq<RiskInstrumentLimits>)
    ensures |r| == |s|
  {
    if |s| == 0 then [] else Insert(s[0], SortByIndex(s[1..]))
  }

  /** The sorted list is ordered by index. */
  lemma {:induction false} SortByIndexSorted(s: seq<RiskInstrumentLimits>)
    ensures SortedByIndex(SortByIndex(s))
  {
    if |s| > 0 {
      SortByIndexSorted(s[1..]);
      InsertSorted(s[0], SortByIndex(s[1..]));
    }
  }

  lemma {:induction false} InsertEntries(x: RiskInstrumentLimits, s: seq<RiskInstrumentLimits>, k: nat)
    ensures WithIndex(Insert(x, s), k) == (if x.index == k then [x] else []) + WithIndex(s, k)
  {
    if |s| == 0 || x.index <= s[0].index {
      assert ([x] + s)[1..] == s;
    } else {
      var rest := Insert(x, s[1..]);
      InsertEntries(x, s[1..], k);
      assert Insert(x, s) == [s[0]] + rest;
      assert ([s[0]] + rest)[1..] == rest;
    }
  }

  /** Sorting only reorders: every entry occurs as often as before. */
  lemma {:induction false} SortByIndexPermutes(s: seq<RiskInstrumentLimits>)
    ensures multiset(SortByIndex(s)) == multiset(s)
  {
    if |s| > 0 {
      var rest := SortByIndex(s[1..]);
      assert SortByIndex(s) == Insert(s[0], rest);
      SortByIndexPermutes(s[1..]);
      InsertPermutes(s[0], rest);
      assert s == [s[0]] + s[1..];
      assert multiset(s) == multiset{s[0]} + multiset(s[1..]);
    }
  }

  lemma {:induction false} InsertPermutes(x: RiskInstrumentLimits, s: seq<RiskInstrumentLimits>)
    ensures multiset(Insert(x, s)) == multiset(s) + multiset{x}
  {
    if |s| > 0 && s[0].index < x.index {
      InsertPermutes(x, s[1..]);
      assert Insert(x, s) == [s[0]] + Insert(x, s[1..]);
      assert s == [s[0]] + s[1..];
      assert multiset(s) == multiset{s[0]} + multiset(s[1..]);
    }
  }

  /** Stability: sorting keeps, for every index, that index's entries in their
      original relative order. */
  lemma {:induction false} SortByIndexStable(s: seq<RiskInstrumentLimits>, k: nat)
    ensures WithIndex(SortByIndex(s), k) == WithIndex(s, k)
  {
    if |s| > 0 {
      SortByIndexStable(s[1..], k);
      InsertEntries(s[0], SortByIndex(s[1..]), k);
    }
  }

  /** `Vec::retain` dropping every entry for `k`. */
  function RemoveIndex(s: seq<RiskInstrumentLimits>, k: nat): (r: seq<RiskInstrumentLimits>)
    ensures forall i :: 0 <= i < |r| ==> r[i].index != k
    ensures forall j :: j != k ==> WithIndex(r, j) == WithIndex(s, j)
  {
    if |s| == 0 then []
    else if s[0].index == k then RemoveIndex(s[1..], k)
    else [s[0]] + RemoveIndex(s[1..], k)
  }

  /** Removing an index is `retain` with the predicate "another index": the
      entries of every other index stay, in their original order. */
  lemma {:induction false} RemoveIndexRetains(s: seq<RiskInstrumentLimits>, k: nat)
    ensures RemoveIndex(s, k) == Seqs.Filter(s, (e: RiskInstrumentLimits) => e.index != k)
  {
    if |s| > 0 {
      RemoveIndexRetains(s[1..], k);
    }
  }

  /** Replace the first entry for `k`, or append one when there is none. */
  function Upsert(s: seq<RiskInstrumentLimits>, k: nat, l: RiskLimits): (r: seq<RiskInstrumentLimits>)
    ensures |r| == |s| + (if |WithIndex(s, k)| > 0 then 0 else 1)
  {
    if |WithIndex(s, k)| > 0 then ReplaceFirst(s, k, l) else s + [RiskInstrumentLimits(k, l)]
  }

  /** After the upsert and the sort, `k` finds `l`, every other index finds
      what it found before, and the list is ordered by index. */
  lemma UpsertLookups(s: seq<RiskInstrumentLimits>, k: nat, l: RiskLimits)
    ensures var sorted := SortByIndex(Upsert(s, k, l));
      && Lookup(sorted, k) == Some(l)
      && (forall j :: j != k ==> Lookup(sorted, j) == Lookup(s, j))
      && SortedByIndex(sorted)
  {
    var updated := Upsert(s, k, l);
    var sorted := SortByIndex(updated);
    SortByIndexSorted(updated);
    forall j
      ensures WithIndex(sorted, j) == WithIndex(updated, j)
    {
      SortByIndexStable(updated, j);
    }
    forall j | j != k
      ensures WithIndex(updated, j) == WithIndex(s, j)
    {
      if |WithIndex(s, k)| > 0 {
        ReplaceFirstEntries(s, k, l, j);
      } else {
        WithIndexAppend(s, RiskInstrumentLimits(k, l), j);
      }
    }
    if |WithIndex(s, k)| > 0 {
      ReplaceFirstEntries(s, k, l, k);
    } else {
      WithIndexAppend(s, RiskInstrumentLimits(k, l), k);
    }
  }

  /** `RiskConfiguration::set_instrument_limits`: validated limits for `index`
      replace the first existing entry or are appended, and the list is
      re-sorted; `None` removes every entry for `index`. Lookups of every
      other index are unaffected. */
  function SetInstrumentLimits(c: RiskConfiguration, index: nat, limits: Option<RiskLimits>): (r: Result<RiskConfiguration, RiskLimitsError>)
    ensures r.Success? <==> AcceptableUpdate(limits)
    ensures r.Failure? ==> Fail(r.error) == Validate(limits.value)
    ensures r.Success? ==> r.value.global == c.global
    ensures r.Success? ==> InstrumentLimits(r.value, index) == limits
    ensures r.Success? ==> forall j :: j != index ==> InstrumentLimits(r.value, j) == InstrumentLimits(c, j)
    ensures r.Success? && limits.Some? ==> SortedByIndex(r.value.instruments)
    ensures r.Success? && limits.Some? ==>
      |r.value.instruments| == |c.instruments| + (if InstrumentLimits(c, index).None? then 1 else 0)
  {
    if limits.Some? && Validate(limits.value).Fail? then Failure(Validate(limits.value).error)
    else if limits.Some? then
      UpsertLookups(c.instruments, index, limits.value);
      Success(c.(instruments := SortByIndex(Upsert(c.instruments, index, limits.value))))
    else
      Success(c.(instruments := RemoveIndex(c.instruments, index)))
  }

  /** No two entries share an index. */
  ghost predicate UniqueIndices(s: seq<RiskInstrumentLimits>) {
    forall k :: |WithIndex(s, k)| <= 1
  }

  /** A sorted list with unique indices stays that way through every
      successful update. */
  lemma SetInstrumentLimitsKeepsUnique(c: RiskConfiguration, index: nat, limits: Option<RiskLimits>)
    requires UniqueIndices(c.instruments)
    requires SetInstrumentLimits(c, index, limits).Success?
    ensures UniqueIndices(SetInstrumentLimits(c, index, limits).value.instruments)
  {
    var r := SetInstrumentLimits(c, index, limits).value;
    if limits.Some? {
      var l := limits.value;
      var updated :=
        if |WithIndex(c.instruments, index)| > 0 then ReplaceFirst(c.instruments, index, l)
        else c.instruments + [RiskInstrumentLimits(index, l)];
      assert r.instruments == SortByIndex(updated);
      forall k
        ensures |WithIndex(r.instruments, k)| <= 1
      {
        SortByIndexStable(updated, k);
        if |WithIndex(c.instruments, index)| > 0 {
          ReplaceFirstEntries(c.instruments, index, l, k);
        } else {
          WithIndexAppend(c.instruments, RiskInstrumentLimits(index, l), k);
        }
      }
    } else {
      forall k
        ensures |WithIndex(r.instruments, k)| <= 1
      {
        if k == index {
          assert |WithIndex(r.instruments, k)| == 0;
        }
      }
    }
  }

  /** The whole-system configuration; the instruments and executions are
      carried unchanged and only their count matters here. */
  datatype SystemConfig<InstrumentConfig, ExecutionConfig> = SystemConfig(
    instruments: seq<InstrumentConfig>,
    executions: seq<ExecutionConfig>,
    risk: RiskConfiguration)

  /** `SystemConfig::set_global_risk_limits`. */
  function SetGlobalRiskLimits<I, E>(sc: SystemConfig<I, E>, limits: Option<RiskLimits>): (r: Result<SystemConfig<I, E>, RiskLimitsError>)
    ensures r.Success? <==> AcceptableUpdate(limits)
    ensures r.Success? ==>
      (r.value.risk.global == limits && r.value.risk.instruments == sc.risk.instruments
       && r.value.instruments == sc.instruments && r.value.executions == sc.executions)
  {
    var risk :- SetGlobal(sc.risk, limits);
    Success(sc.(risk := risk))
  }

  /** `SystemConfig::set_instrument_risk_limits`: an index outside the
      configured instruments is refused before anything else; otherwise the
      update behaves as `SetInstrumentLimits`. */
  function SetInstrumentRiskLimits<I, E>(sc: SystemConfig<I, E>, index: nat, limits: Option<RiskLimits>): (r: Result<SystemConfig<I, E>, RiskLimitsError>)
    ensures index >= |sc.instruments| ==>
      r == Failure(InstrumentIndexOutOfBounds(index, |sc.instruments|))
    ensures r.Success? <==> index < |sc.instruments| && AcceptableUpdate(limits)
    ensures r.Success? ==>
      (r.value.instruments == sc.instruments && r.value.executions == sc.executions
       && r.value.risk.global == sc.risk.global)
    ensures r.Success? ==> InstrumentRiskLimits(r.value, index) == limits
    ensures r.Success? ==> forall j :: j != index ==> InstrumentRiskLimits(r.value, j) == InstrumentRiskLimits(sc, j)
  {
    if index >= |sc.instruments| then
      Failure(InstrumentIndexOutOfBounds(index, |sc.instruments|))
    else
      var risk :- SetInstrumentLimits(sc.risk, index, limits);
      Success(sc.(risk := risk))
  }

  /** `SystemConfig::instrument_risk_limits`. */
  function InstrumentRiskLimits<I, E>(sc: SystemConfig<I, E>, index: nat): (r: Option<RiskLimits>)
    ensures r.Some? <==> exists i :: 0 <= i < |sc.risk.instruments| && sc.risk.instruments[i].index == index
  {
    InstrumentLimits(sc.risk, index)
  }

  /** Setting limits for a configured instrument and reading them back
      returns what was set; clearing them makes the read come back empty. */
  lemma SetThenGetRoundTrip<I, E>(sc: SystemConfig<I, E>, index: nat, limits: Option<RiskLimits>)
    requires index < |sc.instruments|
    requires AcceptableUpdate(limits)
    ensures SetInstrumentRiskLimits(sc, index, limits).Success?
    ensures InstrumentRiskLimits(SetInstrumentRiskLimits(sc, index, limits).value, index) == limits
  {
  }
}

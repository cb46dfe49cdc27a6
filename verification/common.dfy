/** Parsers shared by the Rust bindings: the summary interval name, and the
    `initial_balances` argument, a list of dicts each naming an exchange,
    an asset, a total and an optional free balance. */
module Common {
  import opened Wrappers
  import opened Errors
  import Text
  import Floats
  import Execution
  import Loops
  import opened PyObjects

  datatype SummaryInterval = Daily | Annual252 | Annual365

  predicate KeptInIntervalName(c: char) {
    Text.IsAsciiAlphanumeric(c)
  }

  /** The characters of an interval name the normalisation keeps, in order. */
  function IntervalChars(s: string): (r: string)
    ensures forall i :: 0 <= i < |r| ==> KeptInIntervalName(r[i])
  {
    if |s| == 0 then []
    else if KeptInIntervalName(s[0]) then [s[0]] + IntervalChars(s[1..])
    else IntervalChars(s[1..])
  }

  /** Keeping characters distributes over concatenation. */
  lemma {:induction false} IntervalCharsAppend(a: string, b: string)
    ensures IntervalChars(a + b) == IntervalChars(a) + IntervalChars(b)
  {
    if |a| > 0 {
      assert (a + b)[1..] == a[1..] + b;
      IntervalCharsAppend(a[1..], b);
    } else {
      assert a + b == b;
    }
  }

  /** The interval name reduced to its ASCII letters and digits, lowercased. */
  function NormaliseInterval(raw: string): (r: string)
    ensures forall i :: 0 <= i < |r| ==> Text.IsAsciiAlphanumeric(r[i]) && !Text.IsAsciiUpper(r[i])
  {
    Text.ToAsciiLower(IntervalChars(raw))
  }

  /** The interval a normalised name denotes, if any. */
  function IntervalOfNormalised(normalised: string): (r: Option<SummaryInterval>)
    ensures r == Some(Daily) <==> normalised == "" || normalised == "daily"
    ensures r == Some(Annual252) <==> normalised == "annual252"
    ensures r == Some(Annual365) <==> normalised == "annual365"
  {
    if normalised == "" || normalised == "daily" then Some(Daily)
    else if normalised == "annual252" then Some(Annual252)
    else if normalised == "annual365" then Some(Annual365)
    else None
  }

  /** `parse_summary_interval`: no value, an empty normalised name and
      "daily" are daily; the error quotes the trimmed input. */
  function ParseSummaryInterval(value: Option<string>): (r: Result<SummaryInterval, PyErr>)
    ensures value.None? ==> r == Success(Daily)
    ensures value.Some? ==> (r == Success(Daily) <==> NormaliseInterval(value.value) in {"", "daily"})
    ensures value.Some? ==> (r == Success(Annual252) <==> NormaliseInterval(value.value) == "annual252")
    ensures value.Some? ==> (r == Success(Annual365) <==> NormaliseInterval(value.value) == "annual365")
    ensures r.Failure? ==> value.Some? && r.error == ValueError(
      "invalid interval '" + Text.Trim(value.value) + "'. valid values are: daily, annual_252, annual_365")
  {
    match value
    case None => Success(Daily)
    case Some(raw) =>
      match IntervalOfNormalised(NormaliseInterval(raw))
      case Some(interval) => Success(interval)
      case None => Failure(ValueError("invalid interval '" + Text.Trim(raw) + "'. valid values are: daily, annual_252, annual_365"))
  }

  /** Only the normalised name matters for which interval is chosen: two
      names with the same normalisation succeed together, with the same
      interval. */
  lemma SameNormalisationSameInterval(a: string, b: string)
    requires NormaliseInterval(a) == NormaliseInterval(b)
    ensures ParseSummaryInterval(Some(a)).Success? <==> ParseSummaryInterval(Some(b)).Success?
    ensures ParseSummaryInterval(Some(a)).Success? ==> ParseSummaryInterval(Some(a)) == ParseSummaryInterval(Some(b))
  {
  }

  /** A character that is not an ASCII letter or digit, anywhere in the name,
      is dropped by the normalisation. */
  lemma SeparatorsIgnored(a: string, b: string, sep: char)
    requires !Text.IsAsciiAlphanumeric(sep)
    ensures NormaliseInterval(a + [sep] + b) == NormaliseInterval(a + b)
  {
    IntervalCharsAppend(a + [sep], b);
    IntervalCharsAppend(a, [sep]);
    IntervalCharsAppend(a, b);
    assert IntervalChars([sep]) == [] by {
      assert [sep][1..] == [];
    }
  }

  /** Lowering the case first changes nothing: a character is kept exactly
      when its lowercase form is. */
  lemma {:induction false} CaseIgnored(s: string)
    ensures NormaliseInterval(Text.ToAsciiLower(s)) == NormaliseInterval(s)
  {
    LowerThenKeep(s);
    Text.ToAsciiLowerIdempotent(IntervalChars(s));
  }

  lemma {:induction false} LowerThenKeep(s: string)
    ensures IntervalChars(Text.ToAsciiLower(s)) == Text.ToAsciiLower(IntervalChars(s))
  {
    if |s| > 0 {
      var lowered := Text.ToAsciiLower(s);
      assert lowered[1..] == Text.ToAsciiLower(s[1..]);
      LowerThenKeep(s[1..]);
      assert KeptInIntervalName(lowered[0]) == KeptInIntervalName(s[0]);
      if KeptInIntervalName(s[0]) {
        assert Text.ToAsciiLower([s[0]] + IntervalChars(s[1..]))
          == [Text.LowerChar(s[0])] + Text.ToAsciiLower(IntervalChars(s[1..]));
      }
    }
  }

  /** Names with no letter or digit at all, the empty name among them, mean
      daily. */
  lemma SeparatorsOnlyMeanDaily(s: string)
    requires forall i :: 0 <= i < |s| ==> !Text.IsAsciiAlphanumeric(s[i])
    ensures ParseSummaryInterval(Some(s)) == Success(Daily)
  {
    NoneKept(s);
  }

  lemma {:induction false} NoneKept(s: string)
    requires forall i :: 0 <= i < |s| ==> !Text.IsAsciiAlphanumeric(s[i])
    ensures IntervalChars(s) == []
  {
    if |s| > 0 {
      NoneKept(s[1..]);
    }
  }

  /** The prefix of every error about the entry at `index`. */
  function EntryLabel(index: nat): string {
    "initial_balances[" + Text.NatToString(index) + "]"
  }

  /** `parse_exchange_identifier`: a blank name is refused; otherwise the
      trimmed, lowercased name must be one `recognise` (the exchange id's
      serde names) knows, and the error quotes the name as given. */
  function ParseExchangeIdentifier<E>(index: nat, raw: string, recognise: string -> Option<E>): (r: Result<E, PyErr>)
    ensures Text.AllWhitespace(raw) ==> r == Failure(ValueError(EntryLabel(index) + ".exchange must not be empty"))
    ensures !Text.AllWhitespace(raw) ==> (r.Success? <==> recognise(Text.ToAsciiLower(Text.Trim(raw))).Some?)
    ensures r.Success? ==> Some(r.value) == recognise(Text.ToAsciiLower(Text.Trim(raw)))
    ensures !Text.AllWhitespace(raw) && r.Failure? ==>
      r.error == ValueError(EntryLabel(index) + ".exchange '" + raw + "' is not a recognised exchange")
  {
    var normalised := Text.Trim(raw);
    if normalised == [] then Failure(ValueError(EntryLabel(index) + ".exchange must not be empty"))
    else match recognise(Text.ToAsciiLower(normalised))
      case Some(e) => Success(e)
      case None => Failure(ValueError(EntryLabel(index) + ".exchange '" + raw + "' is not a recognised exchange"))
  }

  /** A numeric field of an entry: an `f64` (int and bool included) that is
      finite. */
  function ParseNumericField(field: string, value: PyObj): (r: Result<real, PyErr>)
    ensures AsFloat(value).None? ==> r == Failure(ValueError(field + " must be numeric"))
    ensures r.Success? <==> AsFloat(value).Some? && AsFloat(value).value.Finite?
    ensures r.Success? ==> r.value == AsFloat(value).value.value
    ensures AsFloat(value).Some? && r.Failure? ==> r.error == ValueError(field + " must be a finite numeric value")
  {
    match AsFloat(value)
    case None => Failure(ValueError(field + " must be numeric"))
    case Some(f) =>
      match Floats.ParseDecimal(f, field)
      case Success(d) => Success(d)
      case Failure(message) => Failure(ValueError(message))
  }

  /** The text of a string field; anything else is an error. */
  function StringField(value: PyObj, message: string): (r: Result<string, PyErr>)
    ensures r.Success? <==> value.PyStr?
    ensures r.Success? ==> r.value == value.s
    ensures r.Failure? ==> r.error == ValueError(message)
  {
    if value.PyStr? then Success(value.s) else Failure(ValueError(message))
  }

  /** A field that must be present. */
  function RequiredField(entries: seq<(string, PyObj)>, index: nat, name: string): (r: Result<PyObj, PyErr>)
    ensures r.Success? <==> DictGet(entries, name).Found?
    ensures r.Success? ==> r.value == DictGet(entries, name).value
    ensures r.Failure? ==> r.error == ValueError(EntryLabel(index) + " missing '" + name + "' field")
  {
    match DictGet(entries, name)
    case Found(v) => Success(v)
    case Missing => Failure(ValueError(EntryLabel(index) + " missing '" + name + "' field"))
  }

  /** The amounts of an entry: `total` is required and numeric, `free` is
      numeric when present and defaults to `total`, and may not exceed it.
      Neither is required to be non-negative. */
  function ParseEntryAmounts(index: nat, entries: seq<(string, PyObj)>): (r: Result<Execution.Balance, PyErr>)
    ensures DictGet(entries, "total").Missing? ==> r == Failure(ValueError(EntryLabel(index) + " missing '" + "total" + "' field"))
    ensures r.Success? ==>
      && DictGet(entries, "total").Found?
      && AsFloat(DictGet(entries, "total").value) == Some(Floats.Finite(r.value.total))
    ensures r.Success? ==> r.value.free <= r.value.total
    ensures r.Success? && DictGet(entries, "free").Missing? ==> r.value.free == r.value.total
    ensures r.Success? && DictGet(entries, "free").Found? ==>
      AsFloat(DictGet(entries, "free").value) == Some(Floats.Finite(r.value.free))
  {
    var totalValue :- RequiredField(entries, index, "total");
    var total :- ParseNumericField(EntryLabel(index) + ".total", totalValue);
    var free :- match DictGet(entries, "free")
      case Found(v) => ParseNumericField(EntryLabel(index) + ".free", v)
      case Missing => Success(total);
    if free > total then Failure(ValueError(EntryLabel(index) + " free balance cannot exceed total"))
    else Success(Execution.Balance(total, free))
  }

  /** One parsed `initial_balances` entry. The asset name is kept as given;
      its conversion to an internal asset name is not part of this model. */
  datatype InitialBalance<E> = InitialBalance(exchange: E, asset: string, balance: Execution.Balance)

  /** `parse_initial_balance_entry`: exchange, asset and total are required
      and checked in that order, then the amounts. */
  function ParseInitialBalanceEntry<E>(index: nat, entries: seq<(string, PyObj)>, recognise: string -> Option<E>)
    : (r: Result<InitialBalance<E>, PyErr>)
    ensures DictGet(entries, "exchange").Missing? ==> r == Failure(ValueError(EntryLabel(index) + " missing '" + "exchange" + "' field"))
    ensures DictGet(entries, "exchange").Found? && !DictGet(entries, "exchange").value.PyStr? ==>
      r == Failure(ValueError(EntryLabel(index) + ".exchange must be a string"))
    ensures r.Success? ==>
      && DictGet(entries, "exchange").Found? && DictGet(entries, "exchange").value.PyStr?
      && ParseExchangeIdentifier(index, DictGet(entries, "exchange").value.s, recognise) == Success(r.value.exchange)
      && DictGet(entries, "asset") == Found(PyStr(r.value.asset))
      && ParseEntryAmounts(index, entries) == Success(r.value.balance)
  {
    var exchangeValue :- RequiredField(entries, index, "exchange");
    var exchangeLabel :- StringField(exchangeValue, EntryLabel(index) + ".exchange must be a string");
    var exchange :- ParseExchangeIdentifier(index, exchangeLabel, recognise);
    var assetValue :- RequiredField(entries, index, "asset");
    var asset :- StringField(assetValue, EntryLabel(index) + ".asset must be a string");
    var balance :- ParseEntryAmounts(index, entries);
    Success(InitialBalance(exchange, asset, balance))
  }

  /** Amounts that are both present and finite are refused exactly when free
      exceeds total, and otherwise kept; a missing free balance is the
      total. */
  lemma FreeAboveTotalRefused(index: nat, entries: seq<(string, PyObj)>, total: real, free: Option<real>)
    requires DictGet(entries, "total") == Found(PyFloat(Floats.Finite(total)))
    requires DictGet(entries, "free") == if free.Some? then Found(PyFloat(Floats.Finite(free.value))) else Missing
    ensures free.Some? && free.value > total ==>
      ParseEntryAmounts(index, entries) == Failure(ValueError(EntryLabel(index) + " free balance cannot exceed total"))
    ensures free.None? || free.value <= total ==>
      ParseEntryAmounts(index, entries) == Success(Execution.Balance(total, free.GetOr(total)))
  {
    assert RequiredField(entries, index, "total") == Success(PyFloat(Floats.Finite(total)));
    assert ParseNumericField(EntryLabel(index) + ".total", PyFloat(Floats.Finite(total))) == Success(total);
    if free.Some? {
      assert ParseNumericField(EntryLabel(index) + ".free", PyFloat(Floats.Finite(free.value))) == Success(free.value);
    }
  }

  /** An entry whose exchange and asset parse has the amounts' outcome. */
  lemma EntryHasAmounts<E>(index: nat, entries: seq<(string, PyObj)>, exchange: string, asset: string,
                           recognise: string -> Option<E>)
    requires DictGet(entries, "exchange") == Found(PyStr(exchange))
    requires ParseExchangeIdentifier(index, exchange, recognise).Success?
    requires DictGet(entries, "asset") == Found(PyStr(asset))
    ensures ParseEntryAmounts(index, entries).Failure? ==>
      ParseInitialBalanceEntry(index, entries, recognise) == Failure(ParseEntryAmounts(index, entries).error)
    ensures ParseEntryAmounts(index, entries).Success? ==>
      ParseInitialBalanceEntry(index, entries, recognise)
        == Success(InitialBalance(ParseExchangeIdentifier(index, exchange, recognise).value, asset,
                                  ParseEntryAmounts(index, entries).value))
  {
    assert RequiredField(entries, index, "exchange") == Success(PyStr(exchange));
    assert RequiredField(entries, index, "asset") == Success(PyStr(asset));
  }

  /** One element of the list: it must be a dict. */
  function ParseInitialBalanceItem<E>(index: nat, item: PyObj, recognise: string -> Option<E>)
    : (r: Result<InitialBalance<E>, PyErr>)
    ensures !item.PyDict? ==> r == Failure(ValueError(EntryLabel(index) + " must be a mapping"))
    ensures item.PyDict? ==> r == ParseInitialBalanceEntry(index, item.entries, recognise)
  {
    if item.PyDict? then ParseInitialBalanceEntry(index, item.entries, recognise)
    else Failure(ValueError(EntryLabel(index) + " must be a mapping"))
  }

  /** The conversion the loop of `parse_initial_balances` applies to each
      element and its position. */
  function ItemParser<E>(recognise: string -> Option<E>): (nat, PyObj) -> Result<InitialBalance<E>, PyErr> {
    (k: nat, o: PyObj) => ParseInitialBalanceItem(k, o, recognise)
  }

  /** `values.extract::<Vec<PyObject>>()`: a list or tuple gives its items and
      bytes give their integers; `str` and non-sequences raise a TypeError
      (the message wording is PyO3's and only indicative here). */
  function ExtractVec(values: PyObj): (r: Result<seq<PyObj>, PyErr>)
    ensures values.PyList? || values.PyTuple? ==> r == Success(values.items)
    ensures values.PyBytes? ==> r.Success? && |r.value| == |values.bytes|
    ensures r.Success? <==> values.PyList? || values.PyTuple? || values.PyBytes?
    ensures r.Failure? ==> r.error.TypeError?
  {
    match values
    case PyList(items) => Success(items)
    case PyTuple(items) => Success(items)
    case PyBytes(bytes) => Success(seq(|bytes|, i requires 0 <= i < |bytes| => PyInt(bytes[i])))
    case PyStr(_) => Failure(TypeError("Can't extract `str` to `Vec`"))
    case _ => Failure(TypeError("object cannot be converted to 'Sequence'"))
  }

  /** `parse_initial_balances`: nothing, or `None`, is an empty list;
      otherwise one entry per element, in order. */
  function ParseInitialBalances<E>(values: Option<PyObj>, recognise: string -> Option<E>)
    : (r: Result<seq<InitialBalance<E>>, PyErr>)
    ensures values.None? || values == Some(PyNone) ==> r == Success([])
    ensures values.Some? && !values.value.PyNone? && ExtractVec(values.value).Failure? ==>
      r == Failure(ExtractVec(values.value).error)
    ensures values.Some? && !values.value.PyNone? && ExtractVec(values.value).Success? ==>
      r == Loops.TryEach(ExtractVec(values.value).value, ItemParser(recognise))
  {
    match values
    case None => Success([])
    case Some(v) =>
      if v.PyNone? then Success([])
      else
        var items :- ExtractVec(v);
        Loops.TryEach(items, ItemParser(recognise))
  }

  /** A parsed list holds exactly one balance per element, in input order:
      every element is a dict and its entry parses to the balance at its
      position. */
  lemma InitialBalancesInOrder<E>(items: seq<PyObj>, recognise: string -> Option<E>)
    requires ParseInitialBalances(Some(PyList(items)), recognise).Success?
    ensures var parsed := ParseInitialBalances(Some(PyList(items)), recognise).value;
      && |parsed| == |items|
      && forall k :: 0 <= k < |items| ==>
           items[k].PyDict? && ParseInitialBalanceEntry(k, items[k].entries, recognise) == Success(parsed[k])
  {
    var r := Loops.TryEach(items, ItemParser(recognise));
    assert ParseInitialBalances(Some(PyList(items)), recognise) == r;
    forall k | 0 <= k < |items|
      ensures items[k].PyDict? && ParseInitialBalanceEntry(k, items[k].entries, recognise) == Success(r.value[k])
    {
      ParsedAt(items, recognise, k);
    }
  }

  lemma ParsedAt<E>(items: seq<PyObj>, recognise: string -> Option<E>, k: nat)
    requires k < |items|
    requires Loops.TryEach(items, ItemParser(recognise)).Success?
    ensures items[k].PyDict?
    ensures ParseInitialBalanceEntry(k, items[k].entries, recognise)
      == Success(Loops.TryEach(items, ItemParser(recognise)).value[k])
  {
    var v := Loops.TryEach(items, ItemParser(recognise)).value[k];
    Loops.TryEachAt(items, ItemParser(recognise), k);
    ItemIsEntry(k, items[k], recognise, v);
  }

  lemma ItemIsEntry<E>(index: nat, item: PyObj, recognise: string -> Option<E>, b: InitialBalance<E>)
    requires ItemParser(recognise)(index, item) == Success(b)
    ensures item.PyDict? && ParseInitialBalanceEntry(index, item.entries, recognise) == Success(b)
  {
    assert ItemParser(recognise)(index, item) == ParseInitialBalanceItem(index, item, recognise);
  }

  /** Every balance of a parsed list has free at most total. */
  lemma InitialBalancesBounded<E>(items: seq<PyObj>, recognise: string -> Option<E>)
    requires ParseInitialBalances(Some(PyList(items)), recognise).Success?
    ensures var parsed := ParseInitialBalances(Some(PyList(items)), recognise).value;
      forall k :: 0 <= k < |parsed| ==> parsed[k].balance.free <= parsed[k].balance.total
  {
    InitialBalancesInOrder(items, recognise);
    var parsed := ParseInitialBalances(Some(PyList(items)), recognise).value;
    forall k | 0 <= k < |parsed|
      ensures parsed[k].balance.free <= parsed[k].balance.total
    {
      assert ParseInitialBalanceEntry(k, items[k].entries, recognise) == Success(parsed[k]);
    }
  }
}

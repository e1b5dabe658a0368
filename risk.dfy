/**
 OptionDataProcessor: implied volatility and delta for the Future Option rows,
 signed position deltas, the bc_delta product, the currency code and the
 bc_delta summary by currency.
 */
module Risk {
  import opened Wrappers
  import opened Values
  import opened Strings
  import opened Tables
  import opened Positions
  import opened QuoteJoin
  import opened Bsm

  /**
   A risk row: the quoted inventory row and the columns this stage adds. T, the
   volatility (in percent), delta and pos_delta exist only on processed rows and
   read as missing on rows taken from the original table.
   */
  datatype RiskRow = RiskRow(
    row: MarketRow,
    t: Option<real>,
    impliedVolatility: Option<real>,
    delta: Option<real>,
    posDelta: Option<real>,
    bcDelta: Option<real>,
    ccy: Option<string>)

  function Lift(m: MarketRow): RiskRow
  {
    RiskRow(m, None, None, None, None, None, None)
  }

  function SymbolOfRow(r: RiskRow): string { r.row.pos.symbol }

  function InstrumentType(r: RiskRow): string { r.row.pos.instrumentType }

  function Direction(r: RiskRow): string { r.row.pos.quantityDirection }

  const FutureOption: string := "Future Option"
  const Future: string := "Future"

  // ---------------------------------------------------------------------------
  // Call or put from the symbol

  /** `'call' if 'C' in symbol[-10:] else 'put'`. */
  function OptionTypeOf(symbol: string): OptionType
  {
    if 'C' in LastChars(symbol, 10) then Call else Put
  }

  /** Position i holds a 'C' and is among the last ten. */
  predicate CallMarkAt(symbol: string, i: int)
  {
    0 <= i < |symbol| && |symbol| - 10 <= i && symbol[i] == 'C'
  }

  /** Call exactly when one of the last ten characters (all of them, if fewer) is a 'C'. */
  lemma OptionTypeOfSpec(symbol: string)
    ensures OptionTypeOf(symbol) == Call <==> exists i :: CallMarkAt(symbol, i)
  {
    var tail := LastChars(symbol, 10);
    var start := |symbol| - |tail|;
    assert forall j :: 0 <= j < |tail| ==> tail[j] == symbol[start + j];
    if 'C' in tail {
      var j :| 0 <= j < |tail| && tail[j] == 'C';
      assert CallMarkAt(symbol, start + j);
    }
    if exists i :: CallMarkAt(symbol, i) {
      var i :| CallMarkAt(symbol, i);
      assert tail[i - start] == 'C';
    }
  }

  // ---------------------------------------------------------------------------
  // The per-row columns

  /** `(expires-at - now) / year`, from a clock the caller supplies. */
  function WithTimeToExpiry(years: Value -> Option<real>, r: RiskRow): RiskRow
  {
    r.(t := years(r.row.pos.expiresAt))
  }

  /**
   implied_volatility(float(mid_option), float(mid_future), float(strike-price), T)
   times 100; a missing input gives a missing volatility (NaN propagates).
   */
  function VolatilityOf(num: Numerics, r: RiskRow): Option<real>
  {
    match (FloatOf(r.row.midOption), FloatOf(r.row.midFuture), FloatOf(r.row.pos.strikePrice), r.t)
    case (Some(price), Some(s), Some(k), Some(t)) =>
      (match ImpliedVolatility(num, price, s, k, t, OptionTypeOf(r.row.pos.symbol))
       case Some(v) => Some(v * 100.0)
       case None => None)
    case _ => None
  }

  function WithImpliedVolatility(num: Numerics, r: RiskRow): RiskRow
  {
    r.(impliedVolatility := VolatilityOf(num, r))
  }

  /** delta(float(mid_future), float(strike-price), T, volatility / 100). */
  function DeltaOf(num: Numerics, r: RiskRow): Option<real>
  {
    match (FloatOf(r.row.midFuture), FloatOf(r.row.pos.strikePrice), r.t, r.impliedVolatility)
    case (Some(s), Some(k), Some(t), Some(v)) => Some(Delta(num, s, k, t, v / 100.0, OptionTypeOf(r.row.pos.symbol)))
    case _ => None
  }

  function WithDelta(num: Numerics, r: RiskRow): RiskRow
  {
    r.(delta := DeltaOf(num, r))
  }

  function Negate(x: Option<real>): Option<real>
  {
    match x
    case Some(v) => Some(-v)
    case None => None
  }

  /** delta for Long Future Options, -delta for Short ones, 0 for every other row. */
  function PosDeltaOf(r: RiskRow): Option<real>
  {
    if InstrumentType(r) == FutureOption && Direction(r) == "Long" then r.delta
    else if InstrumentType(r) == FutureOption && Direction(r) == "Short" then Negate(r.delta)
    else Some(0.0)
  }

  function WithPosDelta(r: RiskRow): RiskRow
  {
    r.(posDelta := PosDeltaOf(r))
  }

  /** assign_pos_delta_for_futures on one row: Futures get +1 if Long and -1 otherwise. */
  function FuturePosDelta(r: RiskRow): RiskRow
  {
    if InstrumentType(r) == Future then r.(posDelta := Some(if Direction(r) == "Long" then 1.0 else -1.0)) else r
  }

  function Product3(a: Option<real>, b: Option<real>, c: Option<real>): Option<real>
  {
    if a.Some? && b.Some? && c.Some? then Some(a.value * b.value * c.value) else None
  }

  /** Coerce quantity and contract-size, then bc_delta = pos_delta * quantity * contract-size. */
  function WithBcDelta(r: RiskRow): RiskRow
  {
    var p := r.row.pos;
    var quantity := ToNumeric(p.quantity);
    var size := ToNumeric(p.contractSize);
    r.(row := r.row.(pos := p.(quantity := quantity, contractSize := size)),
       bcDelta := Product3(r.posDelta, NumberOf(quantity), NumberOf(size)))
  }

  /** bc_delta is missing exactly when a factor is missing or fails coercion; otherwise it is the product. */
  lemma BcDeltaSpec(r: RiskRow)
    ensures var b := WithBcDelta(r);
            var q := NumberOf(ToNumeric(r.row.pos.quantity));
            var c := NumberOf(ToNumeric(r.row.pos.contractSize));
            && (b.bcDelta.Some? <==> r.posDelta.Some? && q.Some? && c.Some?)
            && (b.bcDelta.Some? ==> b.bcDelta.value == r.posDelta.value * q.value * c.value)
            && b.posDelta == r.posDelta && b.ccy == r.ccy && SymbolOfRow(b) == SymbolOfRow(r)
  {
  }

  // ---------------------------------------------------------------------------
  // The currency code: the first match of (6\w{1})

  predicate CcyAt(s: string, i: int)
  {
    0 <= i && i + 1 < |s| && s[i] == '6' && IsWordChar(s[i + 1])
  }

  /** The index of the leftmost match. */
  function CcyMatch(s: string): (r: Option<nat>)
    ensures r.Some? ==> CcyAt(s, r.value) && forall j :: 0 <= j < r.value ==> !CcyAt(s, j)
    ensures r.None? ==> forall j :: !CcyAt(s, j)
  {
    if |s| < 2 then None
    else if s[0] == '6' && IsWordChar(s[1]) then Some(0)
    else
      match CcyMatch(s[1..])
      case Some(i) =>
        assert forall j :: 1 <= j <= i ==> (CcyAt(s, j) <==> CcyAt(s[1..], j - 1));
        Some(i + 1)
      case None =>
        assert forall j :: 1 <= j ==> (CcyAt(s, j) <==> CcyAt(s[1..], j - 1));
        None
  }

  /** `underlying-symbol.str.extract(r'(6\w{1})')[0]`: the two matched characters, or missing. */
  function Ccy(underlying: string): Option<string>
  {
    match CcyMatch(underlying)
    case Some(i) => Some(underlying[i..i + 2])
    case None => None
  }

  /** The currency is the first '6' followed by a word character, taken with that character; missing if none. */
  lemma CcySpec(underlying: string)
    ensures Ccy(underlying).None? <==> forall j :: !CcyAt(underlying, j)
    ensures Ccy(underlying).Some? ==>
              exists i :: CcyAt(underlying, i) && Ccy(underlying).value == underlying[i..i + 2]
                          && forall j :: 0 <= j < i ==> !CcyAt(underlying, j)
  {
    if CcyMatch(underlying).Some? {
      var i := CcyMatch(underlying).value;
      assert CcyAt(underlying, i);
    } else {
      assert !CcyAt(underlying, 0);
    }
  }

  function WithCcy(r: RiskRow): RiskRow
  {
    r.(ccy := Ccy(r.row.pos.underlyingSymbol))
  }

  // ---------------------------------------------------------------------------
  // groupby('CCY')['bc_delta'].sum()

  /** The rows' bc_delta summed by currency: NaN values add nothing, rows without a currency are dropped. */
  function Summarize(rows: seq<RiskRow>): map<string, real>
  {
    if rows == [] then map[]
    else
      var m := Summarize(rows[..|rows| - 1]);
      var last := rows[|rows| - 1];
      match last.ccy
      case None => m
      case Some(c) =>
        var add := if last.bcDelta.Some? then last.bcDelta.value else 0.0;
        m[c := (if c in m then m[c] else 0.0) + add]
  }

  function Ccys(rows: seq<RiskRow>): set<string>
  {
    set r | r in rows && r.ccy.Some? :: r.ccy.value
  }

  /** The reference total of one currency: the sum of its rows' present bc_delta values. */
  function GroupTotal(rows: seq<RiskRow>, c: string): real
  {
    if rows == [] then 0.0
    else
      var last := rows[|rows| - 1];
      GroupTotal(rows[..|rows| - 1], c) + (if last.ccy == Some(c) && last.bcDelta.Some? then last.bcDelta.value else 0.0)
  }

  /** One entry per distinct present currency, holding that currency's total. */
  lemma {:induction false} SummarizeSpec(rows: seq<RiskRow>)
    ensures Summarize(rows).Keys == Ccys(rows)
    ensures forall c :: c in Summarize(rows) ==> Summarize(rows)[c] == GroupTotal(rows, c)
  {
    if rows != [] {
      var init := rows[..|rows| - 1];
      var last := rows[|rows| - 1];
      SummarizeSpec(init);
      assert rows == init + [last];
      assert forall r :: r in rows <==> r in init || r == last;
      forall c | c !in Summarize(init)
        ensures GroupTotal(init, c) == 0.0
      {
        GroupTotalAbsent(init, c);
      }
    }
  }

  lemma {:induction false} GroupTotalAbsent(rows: seq<RiskRow>, c: string)
    requires c !in Ccys(rows)
    ensures GroupTotal(rows, c) == 0.0
  {
    if rows != [] {
      var init := rows[..|rows| - 1];
      assert forall r :: r in init ==> r in rows;
      GroupTotalAbsent(init, c);
      assert rows[|rows| - 1] in rows;
    }
  }

  /** A row without a currency does not move the summary. */
  lemma SummarizeIgnoresNoCurrency(rows: seq<RiskRow>, r: RiskRow)
    requires r.ccy.None?
    ensures Summarize(rows + [r]) == Summarize(rows)
  {
    assert (rows + [r])[..|rows + [r]| - 1] == rows;
  }

  /**
   A row with a missing bc_delta adds nothing to any currency's total; its
   currency, if it has one, still gets an entry (0 when it had none).
   */
  lemma MissingBcDeltaAddsNothing(rows: seq<RiskRow>, x: RiskRow)
    requires x.bcDelta.None?
    ensures forall c :: GroupTotal(rows + [x], c) == GroupTotal(rows, c)
    ensures x.ccy.Some? ==>
              var c := x.ccy.value;
              Summarize(rows + [x]) == Summarize(rows)[c := if c in Summarize(rows) then Summarize(rows)[c] else 0.0]
  {
    assert (rows + [x])[..|rows + [x]| - 1] == rows;
  }

  // ---------------------------------------------------------------------------
  // merge_with_original

  /** `pd.concat([processed, original]).drop_duplicates(subset=['symbol'])`. */
  function MergeWithOriginal(processed: seq<RiskRow>, original: seq<RiskRow>): seq<RiskRow>
  {
    KeepFirst(processed + original, SymbolOfRow)
  }

  /**
   Each symbol of either table appears once; its row is the first processed row
   with that symbol when there is one, and the first original row otherwise.
   */
  lemma MergeWithOriginalSpec(processed: seq<RiskRow>, original: seq<RiskRow>)
    ensures var m := MergeWithOriginal(processed, original);
            && Keys(m, SymbolOfRow) == Keys(processed, SymbolOfRow) + Keys(original, SymbolOfRow)
            && DistinctKeys(m, SymbolOfRow)
            && forall x :: x in m ==>
                 Some(x) == if SymbolOfRow(x) in Keys(processed, SymbolOfRow)
                            then FirstWithKey(processed, SymbolOfRow(x), SymbolOfRow)
                            else FirstWithKey(original, SymbolOfRow(x), SymbolOfRow)
  {
    var m := MergeWithOriginal(processed, original);
    KeepFirstSpec(processed + original, SymbolOfRow);
    KeysAppend(processed, original, SymbolOfRow);
    forall x | x in m
      ensures Some(x) == if SymbolOfRow(x) in Keys(processed, SymbolOfRow)
                         then FirstWithKey(processed, SymbolOfRow(x), SymbolOfRow)
                         else FirstWithKey(original, SymbolOfRow(x), SymbolOfRow)
    {
      FirstWithKeyAppend(processed, original, SymbolOfRow(x), SymbolOfRow);
    }
  }

  // ---------------------------------------------------------------------------
  // assign_pos_delta_for_futures, in place

  method AssignPosDeltaForFutures(rows: array<RiskRow>)
    modifies rows
    ensures forall i :: 0 <= i < rows.Length ==> rows[i] == FuturePosDelta(old(rows[i]))
  {
    for i := 0 to rows.Length
      invariant forall j :: 0 <= j < i ==> rows[j] == FuturePosDelta(old(rows[j]))
      invariant forall j :: i <= j < rows.Length ==> rows[j] == old(rows[j])
    {
      if InstrumentType(rows[i]) == Future {
        rows[i] := rows[i].(posDelta := Some(if Direction(rows[i]) == "Long" then 1.0 else -1.0));
      }
    }
  }

  /** The merged table copied into a frame, the Futures' pos_delta set in place, and read back. */
  method SetFuturesPosDelta(merged: seq<RiskRow>) returns (rows: seq<RiskRow>)
    ensures rows == MapRows(merged, FuturePosDelta)
  {
    var table := new RiskRow[|merged|](i requires 0 <= i < |merged| => merged[i]);
    AssignPosDeltaForFutures(table);
    rows := table[..];
  }

  // ---------------------------------------------------------------------------
  // The steps of process()

  /** The mask `df['instrument-type'] == t`. */
  function OfType(t: string): RiskRow -> bool
  {
    r => InstrumentType(r) == t
  }

  /** Steps 1 and 2 on one Future Option row. */
  function Derived(num: Numerics, years: Value -> Option<real>, r: RiskRow): RiskRow
  {
    WithPosDelta(WithDelta(num, WithImpliedVolatility(num, WithTimeToExpiry(years, r))))
  }

  /** The Future Option rows after steps 1 and 2. */
  function DerivedOptions(num: Numerics, years: Value -> Option<real>, original: seq<RiskRow>): seq<RiskRow>
  {
    MapRows(Filter(original, OfType(FutureOption)), r => Derived(num, years, r))
  }

  /** The rows process() returns, as a function of the rows it was given. */
  function ProcessedRows(num: Numerics, years: Value -> Option<real>, original: seq<RiskRow>): seq<RiskRow>
  {
    var merged := MapRows(MergeWithOriginal(DerivedOptions(num, years, original), original), FuturePosDelta);
    MapRows(MapRows(merged, WithBcDelta), WithCcy)
  }

  /**
   NaN propagates: a Long or Short Future Option whose option or future mid is
   missing (or does not parse) gets no volatility, no delta, no pos_delta and,
   after the bc_delta step, no bc_delta.
   */
  lemma MissingQuotePropagates(num: Numerics, years: Value -> Option<real>, r: RiskRow)
    requires FloatOf(r.row.midOption).None? || FloatOf(r.row.midFuture).None?
    requires InstrumentType(r) == FutureOption && (Direction(r) == "Long" || Direction(r) == "Short")
    ensures var d := Derived(num, years, r);
            && d.impliedVolatility.None? && d.delta.None? && d.posDelta.None?
            && WithBcDelta(FuturePosDelta(d)).bcDelta.None?
  {
  }

  /** The pos_delta a processed row ends with, by instrument type and direction. */
  function ExpectedPosDelta(r: RiskRow): Option<real>
  {
    if InstrumentType(r) == FutureOption then
      if Direction(r) == "Long" then r.delta
      else if Direction(r) == "Short" then Negate(r.delta)
      else Some(0.0)
    else if InstrumentType(r) == Future then Some(if Direction(r) == "Long" then 1.0 else -1.0)
    else None  // the original table has no pos_delta column
  }

  class OptionDataProcessor {
    var df: seq<RiskRow>

    constructor (rows: seq<MarketRow>)
      ensures df == MapRows(rows, Lift)
    {
      df := MapRows(rows, Lift);
    }

    method FilterInstrumentType(instrumentType: string)
      modifies this
      ensures df == Filter(old(df), OfType(instrumentType))
    {
      df := Filter(df, OfType(instrumentType));
    }

    method CalculateTimeToExpiry(years: Value -> Option<real>)
      modifies this
      ensures df == MapRows(old(df), r => WithTimeToExpiry(years, r))
    {
      df := MapRows(df, r => WithTimeToExpiry(years, r));
    }

    /**
     The row-wise `apply` fails on an empty table: pandas probes the lambda with a
     row of NaN, `row['symbol'][-10:]` raises TypeError, `apply` returns an empty
     frame, and assigning a frame with several columns to one column raises ValueError.
     */
    method CalculateImpliedVolatility(num: Numerics) returns (ok: bool)
      modifies this
      ensures ok <==> old(df) != []
      ensures ok ==> df == MapRows(old(df), r => WithImpliedVolatility(num, r))
      ensures !ok ==> df == old(df)
    {
      if df == [] {
        return false;
      }
      df := MapRows(df, r => WithImpliedVolatility(num, r));
      ok := true;
    }

    /** The same lambda probe makes this `apply` fail on an empty table too. */
    method CalculateDelta(num: Numerics) returns (ok: bool)
      modifies this
      ensures ok <==> old(df) != []
      ensures ok ==> df == MapRows(old(df), r => WithDelta(num, r))
      ensures !ok ==> df == old(df)
    {
      if df == [] {
        return false;
      }
      df := MapRows(df, r => WithDelta(num, r));
      ok := true;
    }

    method CalculatePosDelta()
      modifies this
      ensures df == MapRows(old(df), WithPosDelta)
    {
      df := MapRows(df, WithPosDelta);
    }

    method CalculateBcDelta()
      modifies this
      ensures df == MapRows(old(df), WithBcDelta)
    {
      df := MapRows(df, WithBcDelta);
    }

    method AssignCcy()
      modifies this
      ensures df == MapRows(old(df), WithCcy)
    {
      df := MapRows(df, WithCcy);
    }

    method SummarizeBcDeltaByCcy() returns (summary: map<string, real>)
      ensures summary.Keys == Ccys(df)
      ensures forall c :: c in summary ==> summary[c] == GroupTotal(df, c)
    {
      summary := Summarize(df);
      SummarizeSpec(df);
    }

    /**
     process(): derive the Future Option rows, merge them over the original
     table, set the Futures' pos_delta in place, then add bc_delta and CCY to
     that merged table, which is both returned and kept as df, and summarise it.
     With no Future Option row the implied-volatility step raises (`ok` false):
     df is then the empty filtered table and nothing is returned.
     */
    method Process(num: Numerics, years: Value -> Option<real>)
      returns (ok: bool, processed: seq<RiskRow>, summary: map<string, real>)
      modifies this
      ensures ok <==> Filter(old(df), OfType(FutureOption)) != []
      ensures !ok ==> df == [] && processed == [] && summary == map[]
      ensures ok ==> processed == df == ProcessedRows(num, years, old(df))
      ensures ok ==> summary.Keys == Ccys(processed)
      ensures ok ==> forall c :: c in summary ==> summary[c] == GroupTotal(processed, c)
    {
      var original := df;
      FilterInstrumentType(FutureOption);
      CalculateTimeToExpiry(years);
      ok := CalculateImpliedVolatility(num);
      if ok {
        ok := CalculateDelta(num);
      }
      if !ok {
        processed := [];
        summary := map[];
        return;
      }
      CalculatePosDelta();
      OptionsStepsCompose(num, years, original);
      df := SetFuturesPosDelta(MergeWithOriginal(df, original));
      CalculateBcDelta();
      AssignCcy();
      processed := df;
      summary := SummarizeBcDeltaByCcy();
    }
  }

  /** The five per-row steps applied one after another are Derived on the filtered rows. */
  lemma OptionsStepsCompose(num: Numerics, years: Value -> Option<real>, original: seq<RiskRow>)
    ensures var f := Filter(original, OfType(FutureOption));
            MapRows(MapRows(MapRows(MapRows(f, r => WithTimeToExpiry(years, r)), r => WithImpliedVolatility(num, r)),
                            r => WithDelta(num, r)), WithPosDelta)
            == MapRows(f, r => Derived(num, years, r))
  {
  }

  /** Every Future Option symbol of the original table has a processed row. */
  lemma OptionSymbolsDerived(num: Numerics, years: Value -> Option<real>, original: seq<RiskRow>)
    ensures forall x :: x in original && OfType(FutureOption)(x) ==>
              SymbolOfRow(x) in Keys(DerivedOptions(num, years, original), SymbolOfRow)
  {
    var f := Filter(original, OfType(FutureOption));
    var options := DerivedOptions(num, years, original);
    FilterMembers(original, OfType(FutureOption));
    forall x | x in original && OfType(FutureOption)(x)
      ensures SymbolOfRow(x) in Keys(options, SymbolOfRow)
    {
      var j :| 0 <= j < |f| && f[j] == x;
      assert options[j] == Derived(num, years, x);
      assert SymbolOfRow(options[j]) == SymbolOfRow(x);
    }
  }

  /** One row of the merged table after the Futures' pos_delta is set. */
  lemma KeptRowPosDelta(num: Numerics, years: Value -> Option<real>, rows: seq<MarketRow>, x: RiskRow)
    requires x in MergeWithOriginal(DerivedOptions(num, years, MapRows(rows, Lift)), MapRows(rows, Lift))
    ensures FuturePosDelta(x).posDelta == ExpectedPosDelta(FuturePosDelta(x))
  {
    var original := MapRows(rows, Lift);
    var options := DerivedOptions(num, years, original);
    MergeWithOriginalSpec(options, original);
    if SymbolOfRow(x) in Keys(options, SymbolOfRow) {
      DerivedRowPosDelta(num, years, original, x);
    } else {
      OriginalRowPosDelta(num, years, rows, x);
    }
  }

  /** A processed option row keeps the pos_delta its direction gives. */
  lemma DerivedRowPosDelta(num: Numerics, years: Value -> Option<real>, original: seq<RiskRow>, x: RiskRow)
    requires x in DerivedOptions(num, years, original)
    ensures FuturePosDelta(x).posDelta == ExpectedPosDelta(FuturePosDelta(x))
  {
    var f := Filter(original, OfType(FutureOption));
    var options := DerivedOptions(num, years, original);
    var i :| 0 <= i < |options| && options[i] == x;
    FilterAt(original, OfType(FutureOption), i);
    assert x == Derived(num, years, f[i]);
  }

  /** A row taken from the original table is no Future Option, and carries no pos_delta unless it is a Future. */
  lemma OriginalRowPosDelta(num: Numerics, years: Value -> Option<real>, rows: seq<MarketRow>, x: RiskRow)
    requires x in MapRows(rows, Lift)
    requires SymbolOfRow(x) !in Keys(DerivedOptions(num, years, MapRows(rows, Lift)), SymbolOfRow)
    ensures FuturePosDelta(x).posDelta == ExpectedPosDelta(FuturePosDelta(x))
  {
    var original := MapRows(rows, Lift);
    OptionSymbolsDerived(num, years, original);
    var i :| 0 <= i < |original| && original[i] == x;
    assert x == Lift(rows[i]);
  }

  /**
   The pos_delta table: Long and Short Future Options carry their delta signed by
   direction and other Future Options 0; Futures carry +1 when Long and -1
   otherwise; every other row keeps the missing pos_delta of the original table.
   */
  lemma ProcessedPosDelta(num: Numerics, years: Value -> Option<real>, rows: seq<MarketRow>)
    ensures forall x :: x in ProcessedRows(num, years, MapRows(rows, Lift)) ==> x.posDelta == ExpectedPosDelta(x)
  {
    var original := MapRows(rows, Lift);
    var kept := MergeWithOriginal(DerivedOptions(num, years, original), original);
    var merged := MapRows(kept, FuturePosDelta);
    var result := ProcessedRows(num, years, original);
    forall y | y in result ensures y.posDelta == ExpectedPosDelta(y) {
      var i :| 0 <= i < |result| && result[i] == y;
      assert y == WithCcy(WithBcDelta(merged[i]));
      assert merged[i] == FuturePosDelta(kept[i]);
      KeptRowPosDelta(num, years, rows, kept[i]);
    }
  }
}

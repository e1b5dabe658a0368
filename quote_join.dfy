/**
 MarketDataProcessor: the symbols to stream, the join of the decoded quotes
 onto the inventory, numeric coercion of the price columns, the mid prices and
 the column-list bookkeeping around them.
 */
module QuoteJoin {
  import opened Wrappers
  import opened Values
  import opened Tables
  import opened QuoteDecoder
  import opened Streamer
  import opened Positions

  /** The columns a previous run added, dropped before the merge. */
  const ColumnsToCheck: seq<string> := [
    "bidPrice", "askPrice", "bidSize", "askSize",
    "bidPrice_future", "askPrice_future", "bidSize_future", "askSize_future",
    "streamer-symbol-option", "mid_option", "mid_future"]

  /** The columns coerced to numbers, in coercion order. */
  const NumericColumns: seq<string> := ["bidPrice", "askPrice", "bidPrice_future", "askPrice_future"]

  /** The session's feed channel. */
  const ChannelNumber: int := 3

  // ---------------------------------------------------------------------------
  // get_streamer_symbols

  function OptionId(o: Option<string>): Option<string> { o }

  /** A database cell that names a symbol: present, non-empty and not the text 'None'. */
  predicate Usable(o: Option<string>)
  {
    o.Some? && o.value != "" && o.value != "None"
  }

  function UsableSymbols(s: seq<Option<string>>): seq<string>
  {
    if s == [] then [] else (if Usable(s[0]) then [s[0].value] else []) + UsableSymbols(s[1..])
  }

  lemma {:induction false} UsableSymbolsMembers(s: seq<Option<string>>)
    ensures forall x :: x in UsableSymbols(s) <==> Usable(Some(x)) && Some(x) in s
  {
    if s != [] {
      UsableSymbolsMembers(s[1..]);
      assert forall o :: o in s <==> o == s[0] || o in s[1..];
    }
  }

  /** `unique()` of the streamer-symbol column followed by that of option-streamer-symbol, cleaned. */
  function StreamerSymbols(inventory: seq<Position>): seq<string>
  {
    var streamers := KeepFirst(MapRows(inventory, (p: Position) => p.streamerSymbol), OptionId);
    var options := KeepFirst(MapRows(inventory, (p: Position) => p.optionStreamerSymbol), OptionId);
    UsableSymbols(streamers + options)
  }

  lemma KeepFirstOptionMembers(s: seq<Option<string>>)
    ensures forall o :: o in KeepFirst(s, OptionId) <==> o in s
  {
    KeepFirstSpec(s, OptionId);
    forall o ensures o in KeepFirst(s, OptionId) <==> o in s {
      assert o in s <==> OptionId(o) in Keys(s, OptionId);
      assert o in KeepFirst(s, OptionId) <==> OptionId(o) in Keys(KeepFirst(s, OptionId), OptionId);
    }
  }

  /**
   The symbols to stream are exactly the usable streamer and option-streamer
   symbols of the inventory, each once per column.
   */
  lemma StreamerSymbolsSpec(inventory: seq<Position>)
    ensures forall x :: x in StreamerSymbols(inventory) <==>
              x != "" && x != "None" &&
              exists p :: p in inventory && (p.streamerSymbol == Some(x) || p.optionStreamerSymbol == Some(x))
  {
    var col1 := MapRows(inventory, (p: Position) => p.streamerSymbol);
    var col2 := MapRows(inventory, (p: Position) => p.optionStreamerSymbol);
    KeepFirstOptionMembers(col1);
    KeepFirstOptionMembers(col2);
    UsableSymbolsMembers(KeepFirst(col1, OptionId) + KeepFirst(col2, OptionId));
    forall x ensures x in StreamerSymbols(inventory) <==>
              x != "" && x != "None" &&
              exists p :: p in inventory && (p.streamerSymbol == Some(x) || p.optionStreamerSymbol == Some(x))
    {
      if exists p :: p in inventory && (p.streamerSymbol == Some(x) || p.optionStreamerSymbol == Some(x)) {
        var p :| p in inventory && (p.streamerSymbol == Some(x) || p.optionStreamerSymbol == Some(x));
        var i :| 0 <= i < |inventory| && inventory[i] == p;
        assert col1[i] == p.streamerSymbol && col2[i] == p.optionStreamerSymbol;
      }
      if Some(x) in col1 {
        var i :| 0 <= i < |col1| && col1[i] == Some(x);
        assert inventory[i] in inventory;
      }
      if Some(x) in col2 {
        var i :| 0 <= i < |col2| && col2[i] == Some(x);
        assert inventory[i] in inventory;
      }
    }
  }

  // ---------------------------------------------------------------------------
  // merge_data

  /** The four quote columns one leg of a row carries. */
  datatype Leg = Leg(bidPrice: Value, askPrice: Value, bidSize: Value, askSize: Value)

  const NoLeg: Leg := Leg(Missing, Missing, Missing, Missing)

  /**
   An inventory row with its quotes: the option leg (the unsuffixed quote
   columns), the future leg (the `_future` columns), the matched option streamer
   symbol (`streamer-symbol-option`) and the two mids.
   */
  datatype MarketRow = MarketRow(pos: Position, streamerSymbolOption: Value, option: Leg, future: Leg,
                                 midOption: Value, midFuture: Value)

  function LegOf(q: Option<QuoteRow>): Leg
  {
    match q
    case Some(r) => Leg(r.bidPrice, r.askPrice, r.bidSize, r.askSize)
    case None => NoLeg
  }

  /** A symbol cell as a join key: a missing cell matches nothing. */
  function StreamerKey(s: Option<string>): Option<Value>
  {
    match s
    case Some(x) => Some(Text(x))
    case None => None
  }

  function OptionKey(p: Position): Option<Value> { StreamerKey(p.optionStreamerSymbol) }

  function FutureKey(r: MarketRow): Option<Value> { StreamerKey(r.pos.streamerSymbol) }

  function WithOption(p: Position, q: Option<QuoteRow>): MarketRow
  {
    MarketRow(p, if q.Some? then q.value.streamerSymbol else Missing, LegOf(q), NoLeg, Missing, Missing)
  }

  function WithFuture(r: MarketRow, q: Option<QuoteRow>): MarketRow
  {
    r.(future := LegOf(q))
  }

  /** The option leg joined on option-streamer-symbol, then the future leg on streamer-symbol. */
  function MergeData(inventory: seq<Position>, parsed: seq<QuoteRow>): seq<MarketRow>
  {
    LeftJoin(LeftJoin(inventory, OptionKey, parsed, SymbolOf, WithOption), FutureKey, parsed, SymbolOf, WithFuture)
  }

  /** The quote a symbol cell selects from the decoded table. */
  function QuoteFor(s: Option<string>, parsed: seq<QuoteRow>): Option<QuoteRow>
  {
    Lookup(StreamerKey(s), parsed, SymbolOf)
  }

  /** The row merge_data gives an inventory row when the quote symbols are distinct. */
  function Merged(p: Position, parsed: seq<QuoteRow>): MarketRow
  {
    WithFuture(WithOption(p, QuoteFor(p.optionStreamerSymbol, parsed)), QuoteFor(p.streamerSymbol, parsed))
  }

  /**
   Against decoded quotes with distinct symbols, the merge keeps every inventory
   row once and in order; each leg carries the quote whose symbol is the row's
   option or future streamer symbol, and is entirely missing when there is none.
   */
  lemma MergeDataSpec(inventory: seq<Position>, parsed: seq<QuoteRow>)
    requires DistinctKeys(parsed, SymbolOf)
    ensures var r := MergeData(inventory, parsed);
            && |r| == |inventory|
            && forall i :: 0 <= i < |r| ==> r[i] == Merged(inventory[i], parsed)
  {
    var first := LeftJoin(inventory, OptionKey, parsed, SymbolOf, WithOption);
    LeftJoinUnique(inventory, OptionKey, parsed, SymbolOf, WithOption);
    LeftJoinUnique(first, FutureKey, parsed, SymbolOf, WithFuture);
  }

  /** A leg is missing exactly when no decoded quote has the symbol; otherwise it is that quote's columns. */
  lemma QuoteForSpec(s: Option<string>, parsed: seq<QuoteRow>)
    requires DistinctKeys(parsed, SymbolOf)
    ensures QuoteFor(s, parsed).None? <==> s.None? || Text(s.value) !in Keys(parsed, SymbolOf)
    ensures QuoteFor(s, parsed).Some? ==>
              QuoteFor(s, parsed).value in parsed && QuoteFor(s, parsed).value.streamerSymbol == Text(s.value)
  {
  }

  /** Without the distinctness, the merge still keeps every inventory row. */
  lemma MergeDataKeepsRows(inventory: seq<Position>, parsed: seq<QuoteRow>)
    ensures |MergeData(inventory, parsed)| >= |inventory|
  {
    var first := LeftJoin(inventory, OptionKey, parsed, SymbolOf, WithOption);
    LeftJoinKeepsRows(inventory, OptionKey, parsed, SymbolOf, WithOption);
    LeftJoinKeepsRows(first, FutureKey, parsed, SymbolOf, WithFuture);
  }

  // ---------------------------------------------------------------------------
  // convert_columns_to_numeric and calculate_mid_prices

  /** `pd.to_numeric(df[column], errors='coerce')` on one named column of a row. */
  function CoerceColumn(r: MarketRow, column: string): MarketRow
  {
    if column == "bidPrice" then r.(option := r.option.(bidPrice := ToNumeric(r.option.bidPrice)))
    else if column == "askPrice" then r.(option := r.option.(askPrice := ToNumeric(r.option.askPrice)))
    else if column == "bidPrice_future" then r.(future := r.future.(bidPrice := ToNumeric(r.future.bidPrice)))
    else if column == "askPrice_future" then r.(future := r.future.(askPrice := ToNumeric(r.future.askPrice)))
    else r
  }

  /** The first n numeric columns coerced. */
  function CoercedThrough(r: MarketRow, n: nat): MarketRow
    requires n <= |NumericColumns|
  {
    if n == 0 then r else CoerceColumn(CoercedThrough(r, n - 1), NumericColumns[n - 1])
  }

  /** What coercion does to a leg: both prices become numbers or missing; the sizes are left alone. */
  predicate CoercedLeg(before: Leg, after: Leg)
  {
    && after.bidPrice == ToNumeric(before.bidPrice) && after.askPrice == ToNumeric(before.askPrice)
    && after.bidSize == before.bidSize && after.askSize == before.askSize
  }

  /** After all four columns, both legs' prices are coerced and nothing else changed. */
  lemma CoercedThroughAll(r: MarketRow)
    ensures var c := CoercedThrough(r, |NumericColumns|);
            && CoercedLeg(r.option, c.option) && CoercedLeg(r.future, c.future)
            && c.pos == r.pos && c.streamerSymbolOption == r.streamerSymbolOption
            && c.midOption == r.midOption && c.midFuture == r.midFuture
            && !c.option.bidPrice.Text? && !c.option.askPrice.Text?
            && !c.future.bidPrice.Text? && !c.future.askPrice.Text?
  {
    CoercedThroughUnrolled(r);
  }

  lemma CoercedThroughUnrolled(r: MarketRow)
    ensures CoercedThrough(r, |NumericColumns|)
            == r.(option := r.option.(bidPrice := ToNumeric(r.option.bidPrice), askPrice := ToNumeric(r.option.askPrice)),
                  future := r.future.(bidPrice := ToNumeric(r.future.bidPrice), askPrice := ToNumeric(r.future.askPrice)))
  {
    var c1 := CoerceColumn(r, "bidPrice");
    var c2 := CoerceColumn(c1, "askPrice");
    var c3 := CoerceColumn(c2, "bidPrice_future");
    assert CoercedThrough(r, 1) == c1;
    assert CoercedThrough(r, 2) == c2;
    assert CoercedThrough(r, 3) == c3;
    assert CoercedThrough(r, 4) == CoerceColumn(c3, "askPrice_future");
  }

  /** Coercing the prices again changes nothing. */
  lemma CoercionIdempotent(r: MarketRow)
    ensures CoercedThrough(CoercedThrough(r, 4), 4) == CoercedThrough(r, 4)
  {
    CoercedThroughUnrolled(r);
    CoercedThroughUnrolled(CoercedThrough(r, 4));
    ToNumericIdempotent(r.option.bidPrice);
    ToNumericIdempotent(r.option.askPrice);
    ToNumericIdempotent(r.future.bidPrice);
    ToNumericIdempotent(r.future.askPrice);
  }

  /** Column by column, in place, as the loop over numeric_columns assigns them. */
  method ConvertColumnsToNumeric(rows: array<MarketRow>)
    modifies rows
    ensures forall i :: 0 <= i < rows.Length ==> rows[i] == CoercedThrough(old(rows[i]), |NumericColumns|)
  {
    for c := 0 to |NumericColumns|
      invariant forall i :: 0 <= i < rows.Length ==> rows[i] == CoercedThrough(old(rows[i]), c)
    {
      var column := NumericColumns[c];
      for i := 0 to rows.Length
        invariant forall j :: 0 <= j < i ==> rows[j] == CoercedThrough(old(rows[j]), c + 1)
        invariant forall j :: i <= j < rows.Length ==> rows[j] == CoercedThrough(old(rows[j]), c)
      {
        rows[i] := CoerceColumn(rows[i], column);
      }
    }
  }

  /** `(bid + ask) / 2`, missing when either side is not a number. */
  function Mid(bid: Value, ask: Value): Value
  {
    if bid.Number? && ask.Number? then Number((bid.x + ask.x) / 2.0) else Missing
  }

  /** A mid is a number exactly when both sides are, and then it lies between them. */
  lemma MidSpec(bid: Value, ask: Value)
    ensures Mid(bid, ask).Number? <==> NumberOf(bid).Some? && NumberOf(ask).Some?
    ensures Mid(bid, ask).Number? ==>
              (bid.x <= Mid(bid, ask).x <= ask.x) || (ask.x <= Mid(bid, ask).x <= bid.x)
    ensures Mid(bid, ask).Number? ==> Mid(bid, ask).x - bid.x == ask.x - Mid(bid, ask).x
  {
  }

  function WithMids(r: MarketRow): MarketRow
  {
    r.(midOption := Mid(r.option.bidPrice, r.option.askPrice), midFuture := Mid(r.future.bidPrice, r.future.askPrice))
  }

  method CalculateMidPrices(rows: array<MarketRow>)
    modifies rows
    ensures forall i :: 0 <= i < rows.Length ==> rows[i] == WithMids(old(rows[i]))
  {
    for i := 0 to rows.Length
      invariant forall j :: 0 <= j < i ==> rows[j] == WithMids(old(rows[j]))
      invariant forall j :: i <= j < rows.Length ==> rows[j] == old(rows[j])
    {
      rows[i] := WithMids(rows[i]);
    }
  }

  /** The row process_market_data produces for one inventory row. */
  function QuotedRow(p: Position, parsed: seq<QuoteRow>): MarketRow
  {
    WithMids(CoercedThrough(Merged(p, parsed), |NumericColumns|))
  }

  /**
   The option mid is missing when the row has no option quote or either option
   price fails coercion; otherwise it is the midpoint of the coerced prices.
   The same holds for the future leg.
   */
  lemma QuotedRowSpec(p: Position, parsed: seq<QuoteRow>)
    ensures var r := QuotedRow(p, parsed);
            var o := QuoteFor(p.optionStreamerSymbol, parsed);
            var f := QuoteFor(p.streamerSymbol, parsed);
            && r.pos == p
            && (r.midOption.Number? <==>
                  o.Some? && ToNumeric(o.value.bidPrice).Number? && ToNumeric(o.value.askPrice).Number?)
            && (r.midFuture.Number? <==>
                  f.Some? && ToNumeric(f.value.bidPrice).Number? && ToNumeric(f.value.askPrice).Number?)
            && (r.midOption.Number? ==>
                  r.midOption.x == (ToNumeric(o.value.bidPrice).x + ToNumeric(o.value.askPrice).x) / 2.0)
            && (r.midFuture.Number? ==>
                  r.midFuture.x == (ToNumeric(f.value.bidPrice).x + ToNumeric(f.value.askPrice).x) / 2.0)
  {
    CoercedThroughAll(Merged(p, parsed));
  }

  // ---------------------------------------------------------------------------
  // drop_existing_columns and reorder_columns, on the list of column names

  function NotIn(cols: seq<string>): string -> bool
  {
    c => c !in cols
  }

  function IsIn(cols: seq<string>): string -> bool
  {
    c => c in cols
  }

  function DropExistingColumns(columns: seq<string>): seq<string>
  {
    Filter(columns, NotIn(ColumnsToCheck))
  }

  /** The result keeps exactly the columns not in ColumnsToCheck, and dropping twice drops nothing more. */
  lemma DropExistingColumnsSpec(columns: seq<string>)
    ensures forall c :: c in DropExistingColumns(columns) <==> c in columns && c !in ColumnsToCheck
    ensures DropExistingColumns(DropExistingColumns(columns)) == DropExistingColumns(columns)
  {
    FilterMembers(columns, NotIn(ColumnsToCheck));
    FilterIdempotent(columns, NotIn(ColumnsToCheck));
  }

  lemma {:induction false} FilterIdempotent(s: seq<string>, p: string -> bool)
    ensures Filter(Filter(s, p), p) == Filter(s, p)
  {
    if s != [] {
      FilterIdempotent(s[1..], p);
      if p(s[0]) {
        var t := [s[0]] + Filter(s[1..], p);
        assert Filter(s, p) == t;
        assert t[0] == s[0] && t[1..] == Filter(s[1..], p);
        assert Filter(t, p) == [s[0]] + Filter(t[1..], p);
      } else {
        assert Filter(s, p) == [] + Filter(s[1..], p) == Filter(s[1..], p);
      }
    }
  }

  /** `df[existing + new]`: None when a new column is absent (pandas raises KeyError). */
  function ReorderColumns(columns: seq<string>, newColumns: seq<string>): Option<seq<string>>
  {
    if forall c :: c in newColumns ==> c in columns then
      Some(Filter(columns, NotIn(newColumns)) + newColumns)
    else None
  }

  /**
   On distinct column names, reordering succeeds exactly when every new column
   exists, and then gives a permutation of the columns ending with the new ones.
   */
  lemma ReorderColumnsSpec(columns: seq<string>, newColumns: seq<string>)
    requires NoRepeats(columns) && NoRepeats(newColumns)
    ensures ReorderColumns(columns, newColumns).Some? <==> forall c :: c in newColumns ==> c in columns
    ensures ReorderColumns(columns, newColumns).Some? ==>
              var r := ReorderColumns(columns, newColumns).value;
              && multiset(r) == multiset(columns)
              && r[|r| - |newColumns|..] == newColumns
              && r[..|r| - |newColumns|] == Filter(columns, NotIn(newColumns))
  {
    if forall c :: c in newColumns ==> c in columns {
      NewColumnsKept(columns, newColumns);
      FilterPartition(columns, IsIn(newColumns), NotIn(newColumns));
      var r := Filter(columns, NotIn(newColumns)) + newColumns;
      assert r[|r| - |newColumns|..] == newColumns;
      assert r[..|r| - |newColumns|] == Filter(columns, NotIn(newColumns));
    }
  }

  /** When every new column exists, the columns the mask selects are the new columns, as a multiset. */
  lemma NewColumnsKept(columns: seq<string>, newColumns: seq<string>)
    requires NoRepeats(columns) && NoRepeats(newColumns)
    requires forall c :: c in newColumns ==> c in columns
    ensures multiset(Filter(columns, IsIn(newColumns))) == multiset(newColumns)
  {
    var kept := Filter(columns, IsIn(newColumns));
    FilterDistinct(columns, IsIn(newColumns));
    FilterMembers(columns, IsIn(newColumns));
    forall c ensures multiset(kept)[c] == multiset(newColumns)[c] {
      DistinctCount(kept, c);
      DistinctCount(newColumns, c);
    }
  }

  // ---------------------------------------------------------------------------
  // process_market_data

  /**
   The steps of process_market_data on the inventory read from the database:
   track the usable streamer symbols, run the session on the inbound messages,
   decode what arrived, merge it onto the inventory, coerce the prices and add
   the mids. Returns the rows and the payloads the session received.
   */
  method ProcessMarketData(token: string, inventory: seq<Position>, inbound: seq<Inbound>)
    returns (rows: seq<MarketRow>, received: seq<FeedData>)
    ensures received == Run(Opened(map s | s in StreamerSymbols(inventory) :: false, []), inbound,
                            token, ChannelNumber, KeepFirst(StreamerSymbols(inventory), Id)).received
    ensures |rows| == |inventory|
    ensures forall i :: 0 <= i < |rows| ==>
              rows[i] == QuotedRow(inventory[i], KeepLast(DecodeAll(received), SymbolOf))
  {
    var ws := new MarketDataWebSocket(token, ChannelNumber);
    ws.SetSymbolsToTrack(StreamerSymbols(inventory));
    var sent, closed := RunSession(ws, inbound);
    received := ws.receivedData;
    var parsed := ParseMarketData(received);
    var merged := MergeData(inventory, parsed);
    MergeDataSpec(inventory, parsed);
    rows := CoerceAndAddMids(merged);
  }

  /** The merged frame, coerced column by column and given its mids, in place. */
  method CoerceAndAddMids(merged: seq<MarketRow>) returns (rows: seq<MarketRow>)
    ensures |rows| == |merged|
    ensures forall i :: 0 <= i < |rows| ==> rows[i] == WithMids(CoercedThrough(merged[i], |NumericColumns|))
  {
    var table := new MarketRow[|merged|](i requires 0 <= i < |merged| => merged[i]);
    ConvertColumnsToNumeric(table);
    CalculateMidPrices(table);
    rows := table[..];
  }
}

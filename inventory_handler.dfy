/**
 FXInventoryProcessor: the FX-position filter and the enrichment of the FX
 inventory with streamer symbols, option-chain data and contract sizes.
 */
module Inventory {
  import opened Wrappers
  import opened Values
  import opened Strings
  import opened Tables
  import opened Positions

  /** A row of masterdatafutures: symbol, streamer-symbol, contract-size. */
  datatype FutureRow = FutureRow(symbol: string, streamerSymbol: Option<string>, contractSize: Value)

  /** A row of fxoptchain: symbol, streamer-symbol, strike-price. */
  datatype ChainRow = ChainRow(symbol: string, streamerSymbol: Option<string>, strikePrice: Value)

  function FutureSymbol(f: FutureRow): string { f.symbol }

  function ChainSymbol(c: ChainRow): string { c.symbol }

  // ---------------------------------------------------------------------------
  // filter_fx_positions

  /** `symbol.str[2] == '6'`; a symbol of fewer than three characters gives NaN, which is not '6'. */
  predicate IsFx(p: Position)
  {
    |p.symbol| > 2 && p.symbol[2] == '6'
  }

  function FilterFxPositions(positions: seq<Position>): seq<Position>
  {
    Filter(positions, IsFx)
  }

  /** Exactly the positions whose third symbol character is '6' are kept, in their order. */
  lemma FilterFxPositionsSpec(positions: seq<Position>, more: seq<Position>)
    ensures forall p :: p in FilterFxPositions(positions) <==> p in positions && |p.symbol| > 2 && p.symbol[2] == '6'
    ensures |FilterFxPositions(positions)| <= |positions|
    ensures FilterFxPositions(positions + more) == FilterFxPositions(positions) + FilterFxPositions(more)
  {
    FilterMembers(positions, IsFx);
    FilterAppend(positions, more, IsFx);
    FilterLength(positions, IsFx);
  }

  lemma {:induction false} FilterLength(s: seq<Position>, p: Position -> bool)
    ensures |Filter(s, p)| <= |s|
  {
    if s != [] {
      FilterLength(s[1..], p);
    }
  }

  // ---------------------------------------------------------------------------
  // map_symbols_to_streamers

  /** The streamer of the last futures row with symbol k: what `dict(zip(symbols, streamers))[k]` holds. */
  function StreamerOfLast(futures: seq<FutureRow>, k: string): Option<string>
  {
    match LastWithKey(futures, k, FutureSymbol)
    case Some(f) => f.streamerSymbol
    case None => None
  }

  /** A later row for the same symbol overrides every earlier one. */
  lemma StreamerOfLastWins(futures: seq<FutureRow>, f: FutureRow)
    ensures StreamerOfLast(futures + [f], f.symbol) == f.streamerSymbol
    ensures forall k :: k != f.symbol ==> StreamerOfLast(futures + [f], k) == StreamerOfLast(futures, k)
  {
    assert LastWithKey([f], f.symbol, FutureSymbol) == Some(f);
    LastWithKeyAppend(futures, [f], f.symbol, FutureSymbol);
    forall k | k != f.symbol ensures StreamerOfLast(futures + [f], k) == StreamerOfLast(futures, k) {
      LastWithKeyAppend(futures, [f], k, FutureSymbol);
    }
  }

  /** `dict(zip(df_futures['symbol'], df_futures['streamer-symbol']))`, built row by row. */
  method BuildStreamerMap(futures: seq<FutureRow>) returns (m: map<string, Option<string>>)
    ensures m.Keys == Keys(futures, FutureSymbol)
    ensures forall k :: k in m ==> m[k] == StreamerOfLast(futures, k)
  {
    m := map[];
    var i := 0;
    while i < |futures|
      invariant 0 <= i <= |futures|
      invariant m.Keys == Keys(futures[..i], FutureSymbol)
      invariant forall k :: k in m ==> m[k] == StreamerOfLast(futures[..i], k)
    {
      var f := futures[i];
      assert futures[..i + 1] == futures[..i] + [f];
      KeysAppend(futures[..i], [f], FutureSymbol);
      assert Keys([f], FutureSymbol) == {f.symbol} by {
        assert f in [f] && FutureSymbol(f) == f.symbol;
        assert forall x :: x in [f] ==> x == f;
      }
      StreamerOfLastWins(futures[..i], f);
      m := m[f.symbol := f.streamerSymbol];
      i := i + 1;
    }
    assert futures[..i] == futures;
  }

  /** The streamer-symbol column `underlying-symbol.map(...)` gives a row: missing when there is no entry. */
  function WithStreamer(futures: seq<FutureRow>, p: Position): Position
  {
    p.(streamerSymbol := StreamerOfLast(futures, p.underlyingSymbol))
  }

  /** Assigns the streamer-symbol column of the FX table in place. */
  method MapSymbolsToStreamers(fx: array<Position>, futures: seq<FutureRow>)
    modifies fx
    ensures forall i :: 0 <= i < fx.Length ==> fx[i] == WithStreamer(futures, old(fx[i]))
  {
    var m := BuildStreamerMap(futures);
    for i := 0 to fx.Length
      invariant forall j :: 0 <= j < i ==> fx[j] == WithStreamer(futures, old(fx[j]))
      invariant forall j :: i <= j < fx.Length ==> fx[j] == old(fx[j])
    {
      var u := fx[i].underlyingSymbol;
      var streamer := if u in m then m[u] else None;
      assert u !in m ==> LastWithKey(futures, u, FutureSymbol).None?;
      fx[i] := fx[i].(streamerSymbol := streamer);
    }
  }

  // ---------------------------------------------------------------------------
  // The option-chain join

  /** The chain columns a position takes; the chain's streamer-symbol is renamed option-streamer-symbol. */
  function WithChain(p: Position, c: Option<ChainRow>): Position
  {
    match c
    case Some(row) => p.(optionStreamerSymbol := row.streamerSymbol, strikePrice := row.strikePrice)
    case None => p.(optionStreamerSymbol := None, strikePrice := Missing)
  }

  function PositionKey(p: Position): Option<string> { Some(p.symbol) }

  /** `fx.merge(chain[['symbol', 'streamer-symbol', 'strike-price']], on='symbol', how='left')`. */
  function ChainJoin(fx: seq<Position>, chain: seq<ChainRow>): seq<Position>
  {
    LeftJoin(fx, PositionKey, chain, ChainSymbol, WithChain)
  }

  /**
   Every position survives the join: joined with each chain row of its symbol,
   or with a missing option streamer and strike when the chain has none.
   */
  lemma ChainJoinSpec(fx: seq<Position>, chain: seq<ChainRow>)
    ensures |ChainJoin(fx, chain)| >= |fx|
    ensures forall i, c :: 0 <= i < |fx| && c in chain && c.symbol == fx[i].symbol ==>
              WithChain(fx[i], Some(c)) in ChainJoin(fx, chain)
    ensures forall i :: 0 <= i < |fx| && fx[i].symbol !in Keys(chain, ChainSymbol) ==>
              WithChain(fx[i], None) in ChainJoin(fx, chain)
  {
    LeftJoinKeepsRows(fx, PositionKey, chain, ChainSymbol, WithChain);
    LeftJoinMembers(fx, PositionKey, chain, ChainSymbol, WithChain);
    forall i | 0 <= i < |fx| ensures
      && (forall c :: c in chain && c.symbol == fx[i].symbol ==> c in Matches(PositionKey(fx[i]), chain, ChainSymbol))
      && (fx[i].symbol !in Keys(chain, ChainSymbol) ==> Matches(PositionKey(fx[i]), chain, ChainSymbol) == [])
    {
      MatchesMembers(PositionKey(fx[i]), chain, ChainSymbol);
    }
  }

  /** With one chain row per symbol the join is row for row: the chain row of the symbol, or none. */
  lemma ChainJoinUnique(fx: seq<Position>, chain: seq<ChainRow>)
    requires DistinctKeys(chain, ChainSymbol)
    ensures |ChainJoin(fx, chain)| == |fx|
    ensures forall i :: 0 <= i < |fx| ==>
              ChainJoin(fx, chain)[i] == WithChain(fx[i], FirstWithKey(chain, fx[i].symbol, ChainSymbol))
  {
    LeftJoinUnique(fx, PositionKey, chain, ChainSymbol, WithChain);
  }

  // ---------------------------------------------------------------------------
  // The minifuture fallback

  predicate IsMinifuture(p: Position) { StartsWith(p.symbol, "/M") }

  /** `fx[fx['symbol'].str.startswith('/M')]['symbol'].unique()`, as the set `isin` tests against. */
  function MinifutureSymbols(fx: seq<Position>): set<string>
  {
    set p | p in fx && IsMinifuture(p) :: p.symbol
  }

  /** The master rows whose symbol is one of the minifuture symbols. */
  function MinifutureStreamers(fx: seq<Position>, futures: seq<FutureRow>): seq<FutureRow>
  {
    Filter(futures, (f: FutureRow) => f.symbol in MinifutureSymbols(fx))
  }

  function CombineFirst(a: Option<string>, b: Option<string>): Option<string>
  {
    if a.Some? then a else b
  }

  /**
   The columns the minifuture merge gives a row: streamer-symbol combined with
   the master streamer where missing, and the master contract-size (a column the
   inventory does not have before this merge).
   */
  function WithMinifuture(p: Position, f: Option<FutureRow>): Position
  {
    match f
    case Some(row) => p.(streamerSymbol := CombineFirst(p.streamerSymbol, row.streamerSymbol), contractSize := row.contractSize)
    case None => p.(contractSize := Missing)
  }

  function MinifutureFallback(fx: seq<Position>, futures: seq<FutureRow>): seq<Position>
  {
    LeftJoin(fx, PositionKey, MinifutureStreamers(fx, futures), FutureSymbol, WithMinifuture)
  }

  /** The master row a position of this table takes in the fallback: its own symbol's, for '/M' symbols only. */
  function MinifutureRowFor(p: Position, futures: seq<FutureRow>): Option<FutureRow>
  {
    if IsMinifuture(p) then FirstWithKey(futures, p.symbol, FutureSymbol) else None
  }

  /**
   With one master row per symbol the fallback is row for row: a present
   streamer-symbol is kept, a missing one is taken from the master row of the
   same '/M' symbol, and every other row keeps its missing streamer.
   */
  lemma MinifutureFallbackSpec(fx: seq<Position>, futures: seq<FutureRow>)
    requires DistinctKeys(futures, FutureSymbol)
    ensures var r := MinifutureFallback(fx, futures);
            && |r| == |fx|
            && forall i :: 0 <= i < |fx| ==> r[i] == WithMinifuture(fx[i], MinifutureRowFor(fx[i], futures))
  {
    var mini := MinifutureStreamers(fx, futures);
    var inMini := (f: FutureRow) => f.symbol in MinifutureSymbols(fx);
    FilterKeepsDistinctKeys(futures, inMini, FutureSymbol);
    LeftJoinUnique(fx, PositionKey, mini, FutureSymbol, WithMinifuture);
    forall i | 0 <= i < |fx| ensures Lookup(PositionKey(fx[i]), mini, FutureSymbol) == MinifutureRowFor(fx[i], futures) {
      var p := fx[i];
      if IsMinifuture(p) {
        assert p.symbol in MinifutureSymbols(fx);
        FirstWithKeyFilter(futures, inMini, p.symbol, FutureSymbol);
      } else {
        MiniRowsNotFor(fx, futures, p);
      }
    }
  }

  /** Every row of the minifuture table has a '/M' symbol. */
  lemma MinifutureStreamersAreMinifutures(fx: seq<Position>, futures: seq<FutureRow>)
    ensures forall j :: 0 <= j < |MinifutureStreamers(fx, futures)| ==>
              StartsWith(MinifutureStreamers(fx, futures)[j].symbol, "/M")
  {
    var inMini := (f: FutureRow) => f.symbol in MinifutureSymbols(fx);
    forall j | 0 <= j < |MinifutureStreamers(fx, futures)|
      ensures StartsWith(MinifutureStreamers(fx, futures)[j].symbol, "/M")
    {
      FilterAt(futures, inMini, j);
      var f := MinifutureStreamers(fx, futures)[j];
      var q :| q in fx && IsMinifuture(q) && q.symbol == f.symbol;
    }
  }

  lemma MiniRowsNotFor(fx: seq<Position>, futures: seq<FutureRow>, p: Position)
    requires !IsMinifuture(p)
    ensures FirstWithKey(MinifutureStreamers(fx, futures), p.symbol, FutureSymbol).None?
  {
    var mini := MinifutureStreamers(fx, futures);
    MinifutureStreamersAreMinifutures(fx, futures);
    forall f | f in mini ensures FutureSymbol(f) != p.symbol {
      var j :| 0 <= j < |mini| && mini[j] == f;
    }
  }

  // ---------------------------------------------------------------------------
  // The contract-size fill

  /**
   A missing contract-size is taken from the first master row whose symbol is the
   underlying symbol; `.values[0]` on no such row raises IndexError (None here).
   */
  function FillRow(p: Position, futures: seq<FutureRow>): Option<Position>
  {
    if !p.contractSize.Missing? then Some(p)
    else match FirstWithKey(futures, p.underlyingSymbol, FutureSymbol)
      case Some(f) => Some(p.(contractSize := f.contractSize))
      case None => None
  }

  /** The row function applied to every row, or an error as soon as one row raises. */
  function FillRows(rows: seq<Position>, futures: seq<FutureRow>): Option<seq<Position>>
  {
    if rows == [] then Some([])
    else
      match (FillRow(rows[0], futures), FillRows(rows[1..], futures))
      case (Some(r), Some(rest)) => Some([r] + rest)
      case _ => None
  }

  /**
   The fill step: `df['contract-size'] = df.apply(..., axis=1)`. On an empty frame
   pandas probes the lambda with a row of NaN, which raises IndexError, so `apply`
   returns an empty frame, and assigning a frame with several columns to one
   column raises ValueError: the fill fails on no rows as well.
   */
  function FillContractSize(rows: seq<Position>, futures: seq<FutureRow>): Option<seq<Position>>
  {
    if rows == [] then None else FillRows(rows, futures)
  }

  /** The fill fails for a row exactly when its contract size is missing and no master row has its underlying. */
  predicate FillFails(p: Position, futures: seq<FutureRow>)
  {
    p.contractSize.Missing? && p.underlyingSymbol !in Keys(futures, FutureSymbol)
  }

  /** The row-wise part succeeds exactly when no row fails; then it is FillRow row for row. */
  lemma {:induction false} FillRowsSpec(rows: seq<Position>, futures: seq<FutureRow>)
    ensures FillRows(rows, futures).Some? <==> forall i :: 0 <= i < |rows| ==> !FillFails(rows[i], futures)
    ensures FillRows(rows, futures).Some? ==>
              var r := FillRows(rows, futures).value;
              && |r| == |rows|
              && forall i :: 0 <= i < |rows| ==> Some(r[i]) == FillRow(rows[i], futures)
  {
    if rows != [] {
      FillRowsSpec(rows[1..], futures);
      assert forall i :: 1 <= i < |rows| ==> rows[i] == rows[1..][i - 1];
      if FillRows(rows, futures).Some? {
        var r := FillRows(rows, futures).value;
        assert forall i :: 1 <= i < |rows| ==> r[i] == FillRows(rows[1..], futures).value[i - 1];
      }
      if !FillFails(rows[0], futures) && forall i :: 1 <= i < |rows| ==> !FillFails(rows[i], futures) {
        assert forall i :: 0 <= i < |rows[1..]| ==> !FillFails(rows[1..][i], futures) by {
          forall i | 0 <= i < |rows[1..]| ensures !FillFails(rows[1..][i], futures) {
            assert rows[1..][i] == rows[i + 1];
          }
        }
      }
    }
  }

  /**
   The fill succeeds exactly when there is a row and no row fails; then it is row
   for row, keeping an existing contract size and taking the first matching
   master row's otherwise.
   */
  lemma FillContractSizeSpec(rows: seq<Position>, futures: seq<FutureRow>)
    ensures FillContractSize(rows, futures).Some? <==>
              |rows| > 0 && forall i :: 0 <= i < |rows| ==> !FillFails(rows[i], futures)
    ensures FillContractSize(rows, futures).Some? ==>
              var r := FillContractSize(rows, futures).value;
              && |r| == |rows|
              && forall i :: 0 <= i < |rows| ==> Some(r[i]) == FillRow(rows[i], futures)
  {
    FillRowsSpec(rows, futures);
  }

  /** The fill as a total row function, equal to FillRow wherever that succeeds. */
  function FillOrKeep(futures: seq<FutureRow>, p: Position): Position
  {
    match FillRow(p, futures)
    case Some(q) => q
    case None => p
  }

  // ---------------------------------------------------------------------------
  // update_inventory

  /** The enriched rows before sorting (None when the fill raises, an empty table included). */
  function EnrichedRows(fx: seq<Position>, futures: seq<FutureRow>, chain: seq<ChainRow>): Option<seq<Position>>
  {
    var joined := ChainJoin(MapRows(fx, p => WithStreamer(futures, p)), chain);
    FillContractSize(MinifutureFallback(joined, futures), futures)
  }

  /** The table update_inventory saves: the enriched rows sorted by underlying-symbol. */
  function HandlerInventory(fx: seq<Position>, futures: seq<FutureRow>, chain: seq<ChainRow>): Option<seq<Position>>
  {
    match EnrichedRows(fx, futures, chain)
    case Some(rows) => Some(SortBy(rows, UnderlyingOf))
    case None => None
  }

  /** The saved table is a permutation of the enriched rows, sorted by underlying-symbol. */
  lemma HandlerInventorySorted(fx: seq<Position>, futures: seq<FutureRow>, chain: seq<ChainRow>)
    ensures HandlerInventory(fx, futures, chain).Some? <==> EnrichedRows(fx, futures, chain).Some?
    ensures HandlerInventory(fx, futures, chain).Some? ==>
              && SortedBy(HandlerInventory(fx, futures, chain).value, UnderlyingOf)
              && multiset(HandlerInventory(fx, futures, chain).value) == multiset(EnrichedRows(fx, futures, chain).value)
  {
    if EnrichedRows(fx, futures, chain).Some? {
      SortBySpec(EnrichedRows(fx, futures, chain).value, UnderlyingOf);
    }
  }

  /** update_inventory on the tables it reads: fx_positions, masterdatafutures and fxoptchain. */
  method UpdateInventory(fx: seq<Position>, futures: seq<FutureRow>, chain: seq<ChainRow>)
    returns (saved: Option<seq<Position>>)
    ensures saved == HandlerInventory(fx, futures, chain)
    ensures saved.Some? ==> SortedBy(saved.value, UnderlyingOf)
  {
    var table := new Position[|fx|](i requires 0 <= i < |fx| => fx[i]);
    MapSymbolsToStreamers(table, futures);
    var mapped := table[..];
    assert mapped == MapRows(fx, p => WithStreamer(futures, p));
    var joined := ChainJoin(mapped, chain);
    var withMinifutures := MinifutureFallback(joined, futures);
    var filled := FillContractSize(withMinifutures, futures);
    HandlerInventorySorted(fx, futures, chain);
    match filled {
      case Some(rows) => saved := Some(SortBy(rows, UnderlyingOf));
      case None => saved := None;
    }
  }
}

/**
 The standalone inventory script: the same filter, streamer map, chain join and
 minifuture fallback as FXInventoryProcessor, with the rows sorted by
 underlying-symbol before the contract-size fill rather than after it.
 */
module InventoryScript {
  import opened Wrappers
  import opened Tables
  import opened Positions
  import opened Inventory

  /** The table the script saves (None when the fill raises). */
  function ScriptInventory(fx: seq<Position>, futures: seq<FutureRow>, chain: seq<ChainRow>): Option<seq<Position>>
  {
    var joined := ChainJoin(MapRows(fx, p => WithStreamer(futures, p)), chain);
    FillContractSize(SortBy(MinifutureFallback(joined, futures), UnderlyingOf), futures)
  }

  /** The script's table logic on the tables it reads. */
  method EnrichFxInventory(fx: seq<Position>, futures: seq<FutureRow>, chain: seq<ChainRow>)
    returns (saved: Option<seq<Position>>)
    ensures saved == ScriptInventory(fx, futures, chain)
    ensures saved == HandlerInventory(fx, futures, chain)
  {
    var table := new Position[|fx|](i requires 0 <= i < |fx| => fx[i]);
    MapSymbolsToStreamers(table, futures);
    var mapped := table[..];
    assert mapped == MapRows(fx, p => WithStreamer(futures, p));
    var joined := ChainJoin(mapped, chain);
    var withMinifutures := MinifutureFallback(joined, futures);
    var sorted := SortBy(withMinifutures, UnderlyingOf);
    saved := FillContractSize(sorted, futures);
    ScriptAgreesWithHandler(fx, futures, chain);
  }

  function Filler(futures: seq<FutureRow>): Position -> Position
  {
    p => FillOrKeep(futures, p)
  }

  /** A successful fill is the total row function applied to every row. */
  lemma FillIsMap(rows: seq<Position>, futures: seq<FutureRow>)
    requires FillContractSize(rows, futures).Some?
    ensures FillContractSize(rows, futures).value == MapRows(rows, Filler(futures))
  {
    FillContractSizeSpec(rows, futures);
  }

  /** Whether the fill raises depends only on which rows there are, not on their order. */
  lemma FillSucceedsOnPermutation(a: seq<Position>, b: seq<Position>, futures: seq<FutureRow>)
    requires multiset(a) == multiset(b)
    ensures FillContractSize(a, futures).Some? <==> FillContractSize(b, futures).Some?
  {
    FillContractSizeSpec(a, futures);
    FillContractSizeSpec(b, futures);
    if FillContractSize(a, futures).Some? {
      forall i | 0 <= i < |b| ensures !FillFails(b[i], futures) {
        assert b[i] in multiset(a);
        var j :| 0 <= j < |a| && a[j] == b[i];
      }
    }
    if FillContractSize(b, futures).Some? {
      forall i | 0 <= i < |a| ensures !FillFails(a[i], futures) {
        assert a[i] in multiset(b);
        var j :| 0 <= j < |b| && b[j] == a[i];
      }
    }
  }

  /** Filling then sorting and sorting then filling save the same table. */
  lemma FillCommutesWithSort(rows: seq<Position>, futures: seq<FutureRow>)
    ensures FillContractSize(SortBy(rows, UnderlyingOf), futures)
            == match FillContractSize(rows, futures)
               case Some(filled) => Some(SortBy(filled, UnderlyingOf))
               case None => None
  {
    SortBySpec(rows, UnderlyingOf);
    FillSucceedsOnPermutation(rows, SortBy(rows, UnderlyingOf), futures);
    if FillContractSize(rows, futures).Some? {
      FillIsMap(rows, futures);
      FillIsMap(SortBy(rows, UnderlyingOf), futures);
      SortByMap(rows, UnderlyingOf, Filler(futures));
    }
  }

  /** The script and update_inventory save the same fx_positions table. */
  lemma ScriptAgreesWithHandler(fx: seq<Position>, futures: seq<FutureRow>, chain: seq<ChainRow>)
    ensures ScriptInventory(fx, futures, chain) == HandlerInventory(fx, futures, chain)
  {
    var joined := ChainJoin(MapRows(fx, p => WithStreamer(futures, p)), chain);
    FillCommutesWithSort(MinifutureFallback(joined, futures), futures);
  }
}

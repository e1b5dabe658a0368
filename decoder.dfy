/**
 Decoding of the quote feed's COMPACT data format (MarketDataProcessor.parse_market_data):
 each FEED_DATA payload is a feed tag and a flat list holding six fields per
 event; the decoder walks the list in strides of six, drops a trailing partial
 stride, and keeps the last decoded row of each streamer symbol.
 */
module QuoteDecoder {
  import opened Wrappers
  import opened Values
  import opened Tables

  /** One FEED_DATA payload, `[feed_type, market_data]`. */
  datatype FeedData = FeedData(feedType: Value, marketData: seq<Value>)

  /** Fields per event in the requested COMPACT format: eventType, eventSymbol, bidPrice, askPrice, bidSize, askSize. */
  const Stride: nat := 6

  /** A decoded row, columns eventType, eventType2, streamer-symbol, bidPrice, askPrice, bidSize, askSize. */
  datatype QuoteRow = QuoteRow(eventType: Value, eventType2: Value, streamerSymbol: Value,
                               bidPrice: Value, askPrice: Value, bidSize: Value, askSize: Value)

  function SymbolOf(q: QuoteRow): Value { q.streamerSymbol }

  /** The row for the stride that starts at the head of r. */
  function RowAt(feedType: Value, r: seq<Value>): QuoteRow
    requires |r| >= Stride
  {
    QuoteRow(feedType, r[0], r[1], r[2], r[3], r[4], r[5])
  }

  /** The rows of one payload: one per full stride, front to back. */
  function DecodeBatch(feedType: Value, md: seq<Value>): seq<QuoteRow>
    decreases |md|
  {
    if |md| < Stride then [] else [RowAt(feedType, md[..Stride])] + DecodeBatch(feedType, md[Stride..])
  }

  /** The rows of all payloads, in arrival order. */
  function DecodeAll(received: seq<FeedData>): seq<QuoteRow>
  {
    if received == [] then []
    else
      var last := received[|received| - 1];
      DecodeAll(received[..|received| - 1]) + DecodeBatch(last.feedType, last.marketData)
  }

  /** Cutting a payload at a stride boundary cuts its rows at the same place. */
  lemma {:induction false} DecodeBatchSplit(feedType: Value, md: seq<Value>, n: nat)
    requires n % Stride == 0 && n <= |md|
    ensures DecodeBatch(feedType, md) == DecodeBatch(feedType, md[..n]) + DecodeBatch(feedType, md[n..])
    decreases n
  {
    if n == 0 {
      assert md[..0] == [] && md[0..] == md;
    } else {
      DecodeBatchSplit(feedType, md[Stride..], n - Stride);
      assert md[Stride..][..n - Stride] == md[..n][Stride..];
      assert md[Stride..][n - Stride..] == md[n..];
      assert md[..n][..Stride] == md[..Stride];
    }
  }

  /** One row per full stride: a trailing partial stride gives no row. */
  lemma {:induction false} DecodeBatchLength(feedType: Value, md: seq<Value>)
    ensures |DecodeBatch(feedType, md)| == |md| / Stride
    decreases |md|
  {
    if |md| >= Stride { DecodeBatchLength(feedType, md[Stride..]); }
  }

  /**
   Row k is built from the stride at offset 6k, in field order, the streamer
   symbol being the second field of the stride; every offset with all six
   fields present gives a row.
   */
  lemma {:induction false} DecodeBatchAt(feedType: Value, md: seq<Value>, k: nat)
    requires Stride * k + 5 < |md|
    ensures k < |DecodeBatch(feedType, md)|
    ensures DecodeBatch(feedType, md)[k]
            == QuoteRow(feedType, md[6 * k], md[6 * k + 1], md[6 * k + 2], md[6 * k + 3], md[6 * k + 4], md[6 * k + 5])
    decreases k
  {
    DecodeBatchLength(feedType, md);
    if k > 0 {
      DecodeBatchAt(feedType, md[Stride..], k - 1);
    }
  }

  /** Bytes after the last full stride never change the decoded rows. */
  lemma DecodeBatchIgnoresPartialTail(feedType: Value, md: seq<Value>, tail: seq<Value>)
    requires |md| % Stride == 0 && |tail| < Stride
    ensures DecodeBatch(feedType, md + tail) == DecodeBatch(feedType, md)
  {
    DecodeBatchSplit(feedType, md + tail, |md|);
    assert (md + tail)[..|md|] == md && (md + tail)[|md|..] == tail;
  }

  // ---------------------------------------------------------------------------
  // The encoder the server side applies, as the partner of the decoder

  /** One event as the server writes it into the flat list. */
  datatype WireRecord = WireRecord(eventType: Value, symbol: Value, bidPrice: Value, askPrice: Value,
                                   bidSize: Value, askSize: Value)

  function Fields(r: WireRecord): seq<Value>
  {
    [r.eventType, r.symbol, r.bidPrice, r.askPrice, r.bidSize, r.askSize]
  }

  function Encode(rs: seq<WireRecord>): seq<Value>
  {
    if rs == [] then [] else Fields(rs[0]) + Encode(rs[1..])
  }

  function RowOfRecord(feedType: Value, r: WireRecord): QuoteRow
  {
    QuoteRow(feedType, r.eventType, r.symbol, r.bidPrice, r.askPrice, r.bidSize, r.askSize)
  }

  /**
   Round trip: decoding an encoded batch, even one truncated by fewer than six
   trailing fields, gives back exactly the encoded events, in order.
   */
  lemma {:induction false} DecodeEncode(feedType: Value, rs: seq<WireRecord>, tail: seq<Value>)
    requires |tail| < Stride
    ensures DecodeBatch(feedType, Encode(rs) + tail) == MapRows(rs, r => RowOfRecord(feedType, r))
  {
    if rs != [] {
      var md := Encode(rs) + tail;
      assert md == Fields(rs[0]) + (Encode(rs[1..]) + tail);
      assert md[..Stride] == Fields(rs[0]);
      assert md[Stride..] == Encode(rs[1..]) + tail;
      DecodeEncode(feedType, rs[1..], tail);
      assert MapRows(rs, r => RowOfRecord(feedType, r))
             == [RowOfRecord(feedType, rs[0])] + MapRows(rs[1..], r => RowOfRecord(feedType, r));
    }
  }

  // ---------------------------------------------------------------------------
  // parse_market_data

  /** The inner loop over one payload: a row for each stride start i with i + 5 inside the list. */
  method DecodePayload(feedType: Value, md: seq<Value>) returns (rows: seq<QuoteRow>)
    ensures rows == DecodeBatch(feedType, md)
  {
    rows := [];
    var i := 0;
    while i < |md|
      invariant i % Stride == 0
      invariant i <= |md| ==> rows == DecodeBatch(feedType, md[..i])
      invariant i > |md| ==> rows == DecodeBatch(feedType, md)
    {
      if i + 5 < |md| {
        StrideStep(feedType, md, i);
        rows := rows + [QuoteRow(feedType, md[i], md[i + 1], md[i + 2], md[i + 3], md[i + 4], md[i + 5])];
      } else {
        DecodeBatchSplit(feedType, md, i);
      }
      i := i + Stride;
    }
    if i == |md| { assert md[..i] == md; }
  }

  /** One full stride more decodes one row more. */
  lemma StrideStep(feedType: Value, md: seq<Value>, i: nat)
    requires i % Stride == 0 && i + 5 < |md|
    ensures DecodeBatch(feedType, md[..i + Stride])
            == DecodeBatch(feedType, md[..i]) + [QuoteRow(feedType, md[i], md[i + 1], md[i + 2], md[i + 3], md[i + 4], md[i + 5])]
  {
    DecodeBatchSplit(feedType, md[..i + Stride], i);
    assert md[..i + Stride][..i] == md[..i];
    assert md[..i + Stride][i..] == md[i..i + Stride];
    assert DecodeBatch(feedType, md[i..i + Stride]) == [RowAt(feedType, md[i..i + Stride])];
  }

  /**
   Decodes every full stride of every payload, in arrival order, and keeps the
   last row of each streamer symbol: the symbols are pairwise distinct, every
   decoded symbol is kept, and the row kept is the last one decoded for it.
   */
  method ParseMarketData(received: seq<FeedData>) returns (rows: seq<QuoteRow>)
    ensures rows == KeepLast(DecodeAll(received), SymbolOf)
    ensures DistinctKeys(rows, SymbolOf)
    ensures Keys(rows, SymbolOf) == Keys(DecodeAll(received), SymbolOf)
    ensures forall q :: q in rows ==> LastWithKey(DecodeAll(received), q.streamerSymbol, SymbolOf) == Some(q)
  {
    var parsed: seq<QuoteRow> := [];
    var b := 0;
    while b < |received|
      invariant 0 <= b <= |received|
      invariant parsed == DecodeAll(received[..b])
    {
      var batch := DecodePayload(received[b].feedType, received[b].marketData);
      assert received[..b + 1][..b] == received[..b];
      parsed := parsed + batch;
      b := b + 1;
    }
    assert received[..b] == received;
    rows := KeepLast(parsed, SymbolOf);
    KeepLastSpec(parsed, SymbolOf);
  }
}

/**
 The streaming client (MarketDataWebSocket): the handshake replies, the
 per-symbol completion flags and the buffer of received FEED_DATA payloads.
 The handler is one stateless if/elif chain on the message's type, state and
 channel; only FEED_DATA on the session's channel changes the client.
 */
module Streamer {
  import opened Wrappers
  import opened Values
  import opened Tables
  import opened QuoteDecoder

  /** The fields of an inbound message the handler reads: `type`, `state`, `channel`, `data`. */
  datatype Inbound = Inbound(msgType: Option<string>, state: Option<string>, channel: Option<int>,
                             data: Option<FeedData>)

  datatype Subscription = Subscription(eventType: string, symbol: string)

  datatype Outbound =
    | Setup(channel: int, version: string, keepaliveTimeout: int, acceptKeepaliveTimeout: int)
    | Auth(channel: int, token: string)
    | ChannelRequest(channel: int, service: string, contract: string)
    | FeedSetup(channel: int, acceptAggregationPeriod: real, acceptDataFormat: string,
                eventType: string, eventFields: seq<string>)
    | FeedSubscription(channel: int, reset: bool, add: seq<Subscription>)

  /** What one call of the handler does to the connection. */
  datatype Reaction =
    | NoReply
    | Reply(msg: Outbound)
    | CloseSocket
    | KeyError   // FEED_DATA without a `data` field: `data['data']` raises

  /** The Quote fields requested in FEED_SETUP, in the order the decoder expects them. */
  const QuoteFields: seq<string> := ["eventType", "eventSymbol", "bidPrice", "askPrice", "bidSize", "askSize"]

  /** The SETUP message sent on channel 0 when the connection opens. */
  function SetupMessage(): Outbound
  {
    Setup(0, "0.1-DXF-JS/0.3.0", 15, 20)
  }

  predicate IsType(m: Inbound, t: string) { m.msgType == Some(t) }

  predicate OnChannel(m: Inbound, channel: int) { m.channel == Some(channel) }

  predicate IsFeedData(m: Inbound, channel: int) { IsType(m, "FEED_DATA") && OnChannel(m, channel) }

  function QuoteSubscriptions(symbols: seq<string>): seq<Subscription>
  {
    MapRows(symbols, s => Subscription("Quote", s))
  }

  /**
   The reply to every message except FEED_DATA on the session's channel. Only
   AUTH_STATE is answered whatever its channel; every reply but AUTH is
   addressed to the session's channel.
   */
  function ControlReply(m: Inbound, token: string, channel: int, symbols: seq<string>): (r: Option<Outbound>)
    ensures r.Some? ==> IsType(m, "AUTH_STATE") || OnChannel(m, channel)
    ensures r.Some? ==> (r.value.Auth? <==> IsType(m, "AUTH_STATE") && m.state == Some("UNAUTHORIZED"))
    ensures r.Some? && !r.value.Auth? ==> r.value.channel == channel
  {
    if IsType(m, "AUTH_STATE") && m.state == Some("UNAUTHORIZED") then Some(Auth(0, token))
    else if IsType(m, "AUTH_STATE") && m.state == Some("AUTHORIZED") then Some(ChannelRequest(channel, "FEED", "AUTO"))
    else if IsType(m, "CHANNEL_OPENED") && OnChannel(m, channel) then
      Some(FeedSetup(channel, 0.1, "COMPACT", "Quote", QuoteFields))
    else if IsType(m, "FEED_CONFIG") && OnChannel(m, channel) then
      Some(FeedSubscription(channel, true, QuoteSubscriptions(symbols)))
    else None
  }

  /** No memory of earlier messages: AUTH goes out on every UNAUTHORIZED, whatever its channel. */
  lemma AuthOnEveryUnauthorized(m: Inbound, token: string, channel: int, symbols: seq<string>)
    requires IsType(m, "AUTH_STATE") && m.state == Some("UNAUTHORIZED")
    ensures ControlReply(m, token, channel, symbols) == Some(Auth(0, token))
  {
  }

  /** AUTHORIZED asks for the session's channel with the FEED service, whatever channel it came on. */
  lemma ChannelRequestOnAuthorized(m: Inbound, token: string, channel: int, symbols: seq<string>)
    requires IsType(m, "AUTH_STATE") && m.state == Some("AUTHORIZED")
    ensures ControlReply(m, token, channel, symbols) == Some(ChannelRequest(channel, "FEED", "AUTO"))
  {
  }

  /**
   Only AUTH_STATE is answered regardless of channel: CHANNEL_OPENED, FEED_CONFIG
   and every other message for another channel (or none) get no reply.
   */
  lemma OtherChannelsIgnored(m: Inbound, token: string, channel: int, symbols: seq<string>)
    requires !IsType(m, "AUTH_STATE") && !OnChannel(m, channel)
    ensures ControlReply(m, token, channel, symbols) == None
  {
  }

  /** FEED_CONFIG on the channel subscribes, with reset=true, exactly one Quote per tracked symbol, in order. */
  lemma SubscriptionOnFeedConfig(m: Inbound, token: string, channel: int, symbols: seq<string>)
    requires IsType(m, "FEED_CONFIG") && OnChannel(m, channel)
    ensures ControlReply(m, token, channel, symbols).Some?
    ensures var r := ControlReply(m, token, channel, symbols).value;
            r.FeedSubscription? && r.channel == channel && r.reset && |r.add| == |symbols|
            && forall i :: 0 <= i < |symbols| ==> r.add[i] == Subscription("Quote", symbols[i])
  {
  }

  /** CHANNEL_OPENED on the channel sets up the COMPACT Quote feed with the six fields the decoder reads. */
  lemma FeedSetupOnChannelOpened(m: Inbound, token: string, channel: int, symbols: seq<string>)
    requires IsType(m, "CHANNEL_OPENED") && OnChannel(m, channel)
    ensures ControlReply(m, token, channel, symbols)
            == Some(FeedSetup(channel, 0.1, "COMPACT", "Quote", QuoteFields))
    ensures |QuoteFields| == Stride && QuoteFields[1] == "eventSymbol"
  {
  }

  // ---------------------------------------------------------------------------
  // Which symbols a payload reports

  /** Stride k of the flat list names s at the symbol offset 6k+1 (running past the end is allowed). */
  predicate Slot(md: seq<Value>, k: nat, s: string)
  {
    Stride * k + 1 < |md| && md[Stride * k + 1] == Text(s)
  }

  /** A Quote payload names s at one of the offsets 1, 7, 13, ... below its length. */
  ghost predicate QuoteReports(b: FeedData, s: string)
  {
    b.feedType == Text("Quote") && exists k: nat :: Slot(b.marketData, k, s)
  }

  /** Some payload from index `from` on reports s. */
  ghost predicate ReportedSince(received: seq<FeedData>, from: nat, s: string)
  {
    exists j :: from <= j < |received| && QuoteReports(received[j], s)
  }

  /** The flags after one payload: tracked symbols it reports become true, the rest keep their flag. */
  ghost function Marked(flags: map<string, bool>, b: FeedData): map<string, bool>
  {
    map s | s in flags :: flags[s] || QuoteReports(b, s)
  }

  predicate AllTrue(flags: map<string, bool>)
  {
    forall s :: s in flags ==> flags[s]
  }

  function Id(s: string): string { s }

  /**
   A symbol in a truncated trailing record is reported to the tracker, yet the
   decoder builds no row for it: the tracker's stride loop has no full-stride guard.
   */
  lemma TruncatedRecordReportedButNotDecoded()
    ensures QuoteReports(FeedData(Text("Quote"), [Text("Quote"), Text("6E")]), "6E")
    ensures DecodeBatch(Text("Quote"), [Text("Quote"), Text("6E")]) == []
  {
    assert Slot([Text("Quote"), Text("6E")], 0, "6E");
  }

  /** One more payload reports s since `from` iff the earlier ones did or the new one does. */
  lemma ReportedSinceSnoc(received: seq<FeedData>, from: nat, b: FeedData, s: string)
    requires from <= |received|
    ensures ReportedSince(received + [b], from, s) <==> ReportedSince(received, from, s) || QuoteReports(b, s)
  {
    var r := received + [b];
    if ReportedSince(received, from, s) {
      var j :| from <= j < |received| && QuoteReports(received[j], s);
      assert r[j] == received[j];
    }
    if QuoteReports(b, s) {
      assert r[|received|] == b;
    }
    if ReportedSince(r, from, s) {
      var j :| from <= j < |r| && QuoteReports(r[j], s);
      if j < |received| { assert r[j] == received[j]; }
    }
  }

  /** The dict comprehension's keys are the distinct symbols in first-occurrence order. */
  lemma TrackedSymbols(symbols: seq<string>)
    ensures DistinctKeys(KeepFirst(symbols, Id), Id)
    ensures Keys(KeepFirst(symbols, Id), Id) == (map s | s in symbols :: false).Keys
  {
    KeepFirstSpec(symbols, Id);
    assert forall s :: s in symbols <==> s in Keys(symbols, Id) by {
      forall s | s in symbols ensures s in Keys(symbols, Id) {
        assert Id(s) == s;
      }
    }
  }

  /** Marked, spelled out: a Quote payload marks its slots, any other payload marks nothing. */
  lemma MarkedQuote(flags: map<string, bool>, b: FeedData)
    ensures b.feedType == Text("Quote") ==>
              Marked(flags, b) == map s | s in flags :: flags[s] || exists k: nat :: Slot(b.marketData, k, s)
    ensures b.feedType != Text("Quote") ==> Marked(flags, b) == flags
  {
  }

  /** Flags that mirror the payloads since `from` still do after one more payload marks them. */
  lemma MarkedKeepsFlags(flags: map<string, bool>, received: seq<FeedData>, from: nat, b: FeedData)
    requires from <= |received|
    requires forall s :: s in flags ==> (flags[s] <==> ReportedSince(received, from, s))
    ensures forall s :: s in Marked(flags, b) ==> (Marked(flags, b)[s] <==> ReportedSince(received + [b], from, s))
  {
    forall s | s in Marked(flags, b) ensures Marked(flags, b)[s] <==> ReportedSince(received + [b], from, s) {
      ReportedSinceSnoc(received, from, b, s);
    }
  }

  class MarketDataWebSocket {
    const token: string
    const channelNumber: int
    /** The keys of symbols_to_track in insertion order (a Python dict keeps it). */
    var symbolOrder: seq<string>
    var symbolsToTrack: map<string, bool>
    var receivedData: seq<FeedData>
    /** The length of receivedData when the current symbols were set. */
    ghost var trackedFrom: nat

    /** The flags are keyed by the distinct symbols of symbolOrder; a flag is true iff a later payload reported it. */
    ghost predicate Valid()
      reads this
    {
      && DistinctKeys(symbolOrder, Id)
      && Keys(symbolOrder, Id) == symbolsToTrack.Keys
      && trackedFrom <= |receivedData|
      && forall s :: s in symbolsToTrack ==> (symbolsToTrack[s] <==> ReportedSince(receivedData, trackedFrom, s))
    }

    constructor (token: string, channelNumber: int)
      ensures Valid()
      ensures this.token == token && this.channelNumber == channelNumber
      ensures symbolOrder == [] && symbolsToTrack == map[] && receivedData == []
    {
      this.token := token;
      this.channelNumber := channelNumber;
      symbolOrder := [];
      symbolsToTrack := map[];
      receivedData := [];
      trackedFrom := 0;
    }

    /** Every given symbol, and nothing else, is tracked and not yet received; the payload buffer is kept. */
    method SetSymbolsToTrack(symbols: seq<string>)
      modifies this
      ensures Valid()
      ensures symbolsToTrack == map s | s in symbols :: false
      ensures symbolOrder == KeepFirst(symbols, Id)
      ensures receivedData == old(receivedData) && trackedFrom == |receivedData|
    {
      symbolOrder := KeepFirst(symbols, Id);
      symbolsToTrack := map s | s in symbols :: false;
      trackedFrom := |receivedData|;
      TrackedSymbols(symbols);
    }

    /** `all(symbols_to_track.values())`: true iff every tracked symbol was reported since tracking began. */
    method CheckAllDataReceived() returns (all: bool)
      requires Valid()
      ensures all <==> AllTrue(symbolsToTrack)
      ensures all <==> forall s :: s in symbolsToTrack ==> ReportedSince(receivedData, trackedFrom, s)
    {
      var i := 0;
      while i < |symbolOrder|
        invariant 0 <= i <= |symbolOrder|
        invariant forall j :: 0 <= j < i ==> symbolOrder[j] in symbolsToTrack && symbolsToTrack[symbolOrder[j]]
      {
        assert Id(symbolOrder[i]) in Keys(symbolOrder, Id);
        if !symbolsToTrack[symbolOrder[i]] {
          return false;
        }
        i := i + 1;
      }
      forall s | s in symbolsToTrack ensures symbolsToTrack[s] {
        var x :| x in symbolOrder && Id(x) == s;
        var j :| 0 <= j < |symbolOrder| && symbolOrder[j] == x;
      }
      return true;
    }

    /** The stride loop over a Quote payload: a tracked symbol at offset 6k+1 becomes true. */
    method MarkReported(md: seq<Value>)
      modifies this
      ensures symbolsToTrack == map s | s in old(symbolsToTrack) :: old(symbolsToTrack)[s] || exists k: nat :: Slot(md, k, s)
      ensures symbolOrder == old(symbolOrder) && receivedData == old(receivedData) && trackedFrom == old(trackedFrom)
    {
      var k := 0;
      while Stride * k + 1 < |md|
        invariant symbolOrder == old(symbolOrder) && receivedData == old(receivedData) && trackedFrom == old(trackedFrom)
        invariant symbolsToTrack.Keys == old(symbolsToTrack).Keys
        invariant forall s :: s in symbolsToTrack ==>
                    (symbolsToTrack[s] <==> old(symbolsToTrack)[s] || exists j: nat :: j < k && Slot(md, j, s))
        decreases |md| - Stride * k
      {
        var symbol := md[Stride * k + 1];
        ghost var prev := symbolsToTrack;
        if symbol.Text? && symbol.text in symbolsToTrack {
          symbolsToTrack := symbolsToTrack[symbol.text := true];
        }
        forall s | s in symbolsToTrack
          ensures symbolsToTrack[s] <==> old(symbolsToTrack)[s] || exists j: nat :: j < k + 1 && Slot(md, j, s)
        {
          assert symbolsToTrack[s] <==> prev[s] || Slot(md, k, s);
          if Slot(md, k, s) {
            assert k < k + 1;
          }
          if exists j: nat :: j < k + 1 && Slot(md, j, s) {
            var j: nat :| j < k + 1 && Slot(md, j, s);
            if j != k {
              assert j < k;
            }
          }
        }
        k := k + 1;
      }
    }

    /**
     The message handler. FEED_DATA on the session's channel appends its payload,
     marks the tracked symbols it reports and closes once every flag is true;
     every other message leaves the client unchanged and gets its ControlReply.
     */
    method OnMessage(m: Inbound) returns (reaction: Reaction)
      requires Valid()
      modifies this
      ensures Valid()
      ensures symbolOrder == old(symbolOrder) && trackedFrom == old(trackedFrom)
      ensures IsFeedData(m, channelNumber) && m.data.Some? ==>
                && receivedData == old(receivedData) + [m.data.value]
                && symbolsToTrack == Marked(old(symbolsToTrack), m.data.value)
                && reaction == if AllTrue(symbolsToTrack) then CloseSocket else NoReply
      ensures IsFeedData(m, channelNumber) && m.data.None? ==>
                && receivedData == old(receivedData) && symbolsToTrack == old(symbolsToTrack)
                && reaction == KeyError
      ensures !IsFeedData(m, channelNumber) ==>
                && receivedData == old(receivedData) && symbolsToTrack == old(symbolsToTrack)
                && reaction == match ControlReply(m, token, channelNumber, symbolOrder)
                               case Some(o) => Reply(o)
                               case None => NoReply
    {
      if !IsFeedData(m, channelNumber) {
        match ControlReply(m, token, channelNumber, symbolOrder) {
          case Some(o) => reaction := Reply(o);
          case None => reaction := NoReply;
        }
        return;
      }
      if m.data.None? {
        return KeyError;
      }
      var payload := m.data.value;
      ghost var flags := symbolsToTrack;
      receivedData := receivedData + [payload];
      if payload.feedType == Text("Quote") {
        MarkReported(payload.marketData);
      }
      MarkedQuote(flags, payload);
      MarkedKeepsFlags(flags, old(receivedData), trackedFrom, payload);
      var all := CheckAllDataReceived();
      reaction := if all then CloseSocket else NoReply;
    }
  }

  // ---------------------------------------------------------------------------
  // The session: the handler driven by the transport loop

  /** What the connection has done so far: the flags, the payload buffer, the messages sent, whether it closed. */
  datatype Session = Session(flags: map<string, bool>, received: seq<FeedData>, sent: seq<Outbound>, closed: bool)

  /** A connection just opened on the given flags and buffer: only SETUP has gone out. */
  function Opened(flags: map<string, bool>, received: seq<FeedData>): Session
  {
    Session(flags, received, [SetupMessage()], false)
  }

  /** One message through the handler, as OnMessage treats it (a KeyError is logged and the loop goes on). */
  ghost function Step(s: Session, m: Inbound, token: string, channel: int, order: seq<string>): Session
  {
    if IsFeedData(m, channel) then
      if m.data.None? then s
      else
        var flags := Marked(s.flags, m.data.value);
        Session(flags, s.received + [m.data.value], s.sent, AllTrue(flags))
    else
      match ControlReply(m, token, channel, order)
      case Some(o) => s.(sent := s.sent + [o])
      case None => s
  }

  /** The messages handled in arrival order; once the socket is closed the rest are never read. */
  ghost function Run(s: Session, msgs: seq<Inbound>, token: string, channel: int, order: seq<string>): Session
    decreases |msgs|
  {
    if msgs == [] then s
    else
      var before := Run(s, msgs[..|msgs| - 1], token, channel, order);
      if before.closed then before else Step(before, msgs[|msgs| - 1], token, channel, order)
  }

  /** The payloads of the FEED_DATA messages on the channel that carry data, in arrival order. */
  function FeedPayloads(msgs: seq<Inbound>, channel: int): (r: seq<FeedData>)
    ensures |r| <= |msgs|
    decreases |msgs|
  {
    if msgs == [] then []
    else
      var m := msgs[|msgs| - 1];
      FeedPayloads(msgs[..|msgs| - 1], channel) + if IsFeedData(m, channel) && m.data.Some? then [m.data.value] else []
  }

  /** The replies to the messages other than FEED_DATA on the channel, in arrival order. */
  function Replies(msgs: seq<Inbound>, token: string, channel: int, order: seq<string>): (r: seq<Outbound>)
    ensures |r| <= |msgs|
    decreases |msgs|
  {
    if msgs == [] then []
    else
      var m := msgs[|msgs| - 1];
      Replies(msgs[..|msgs| - 1], token, channel, order)
        + if IsFeedData(m, channel) then []
          else match ControlReply(m, token, channel, order)
               case Some(o) => [o]
               case None => []
  }

  /** The flags after the payloads mark them one after another. */
  ghost function MarkedAll(flags: map<string, bool>, payloads: seq<FeedData>): map<string, bool>
    decreases |payloads|
  {
    if payloads == [] then flags
    else Marked(MarkedAll(flags, payloads[..|payloads| - 1]), payloads[|payloads| - 1])
  }

  /** Messages after the close change nothing. */
  lemma {:induction false} RunAfterClose(s: Session, msgs: seq<Inbound>, more: seq<Inbound>,
                                         token: string, channel: int, order: seq<string>)
    requires Run(s, msgs, token, channel, order).closed
    ensures Run(s, msgs + more, token, channel, order) == Run(s, msgs, token, channel, order)
    decreases |more|
  {
    if more == [] {
      assert msgs + more == msgs;
    } else {
      var init := more[..|more| - 1];
      assert (msgs + more)[..|msgs + more| - 1] == msgs + init;
      RunAfterClose(s, msgs, init, token, channel, order);
    }
  }

  /**
   While the socket stays open, the buffer holds every FEED_DATA payload in
   order, the sent list every reply, and the flags are the payloads' marks.
   */
  lemma {:induction false} RunWhileOpen(s: Session, msgs: seq<Inbound>, token: string, channel: int, order: seq<string>)
    requires !s.closed
    ensures var r := Run(s, msgs, token, channel, order);
            !r.closed ==>
              && r.received == s.received + FeedPayloads(msgs, channel)
              && r.sent == s.sent + Replies(msgs, token, channel, order)
              && r.flags == MarkedAll(s.flags, FeedPayloads(msgs, channel))
    decreases |msgs|
  {
    if msgs != [] {
      var init := msgs[..|msgs| - 1];
      var m := msgs[|msgs| - 1];
      RunWhileOpen(s, init, token, channel, order);
      var before := Run(s, init, token, channel, order);
      if !before.closed && !Run(s, msgs, token, channel, order).closed {
        var p := FeedPayloads(init, channel);
        if IsFeedData(m, channel) && m.data.Some? {
          assert FeedPayloads(msgs, channel) == p + [m.data.value];
          assert (p + [m.data.value])[..|p|] == p;
        } else {
          assert FeedPayloads(msgs, channel) == p + [];
          assert p + [] == p;
        }
      }
    }
  }

  /**
   A session that closes does so on one FEED_DATA message with data: open just
   before it, closed just after it, and nothing after it counts.
   */
  lemma {:induction false} RunClosesOnce(s: Session, msgs: seq<Inbound>, token: string, channel: int, order: seq<string>)
    requires !s.closed && Run(s, msgs, token, channel, order).closed
    ensures exists j :: 0 <= j < |msgs| && IsFeedData(msgs[j], channel) && msgs[j].data.Some?
              && !Run(s, msgs[..j], token, channel, order).closed
              && Run(s, msgs, token, channel, order) == Run(s, msgs[..j + 1], token, channel, order)
    decreases |msgs|
  {
    var n := |msgs|;
    var init := msgs[..n - 1];
    var before := Run(s, init, token, channel, order);
    if before.closed {
      RunClosesOnce(s, init, token, channel, order);
      var j :| 0 <= j < |init| && IsFeedData(init[j], channel) && init[j].data.Some?
               && !Run(s, init[..j], token, channel, order).closed
               && before == Run(s, init[..j + 1], token, channel, order);
      assert init[..j] == msgs[..j] && init[..j + 1] == msgs[..j + 1];
      assert msgs[j] == init[j];
    } else {
      assert msgs[..n - 1] == init && msgs[..n] == msgs;
    }
  }

  /** A Quote payload with one record for symbol s. */
  function QuoteBatch(s: string): FeedData
  {
    FeedData(Text("Quote"), [Text("Quote"), Text(s), Number(1.0), Number(1.5), Number(10.0), Number(12.0)])
  }

  function FeedMessage(channel: int, b: FeedData): Inbound
  {
    Inbound(Some("FEED_DATA"), None, Some(channel), Some(b))
  }

  lemma QuoteBatchReports(s: string, t: string)
    ensures QuoteReports(QuoteBatch(s), t) <==> s == t
  {
    if s == t {
      assert Slot(QuoteBatch(s).marketData, 0, t);
    }
  }

  /**
   Two tracked symbols arriving in two batches: the socket stays open after the
   first, closes on the second, and a third batch is never buffered.
   */
  lemma TwoBatchSession(token: string, channel: int, order: seq<string>)
    ensures var s0 := Opened(map["6E" := false, "6B" := false], []);
            var msgs := [FeedMessage(channel, QuoteBatch("6E")), FeedMessage(channel, QuoteBatch("6B")),
                         FeedMessage(channel, QuoteBatch("6E"))];
            && !Run(s0, msgs[..1], token, channel, order).closed
            && Run(s0, msgs[..2], token, channel, order).closed
            && Run(s0, msgs, token, channel, order) == Run(s0, msgs[..2], token, channel, order)
            && Run(s0, msgs, token, channel, order).received == [QuoteBatch("6E"), QuoteBatch("6B")]
            && Run(s0, msgs, token, channel, order).sent == [SetupMessage()]
  {
    var s0 := Opened(map["6E" := false, "6B" := false], []);
    var a := FeedMessage(channel, QuoteBatch("6E"));
    var b := FeedMessage(channel, QuoteBatch("6B"));
    var msgs := [a, b, a];
    QuoteBatchReports("6E", "6E");
    QuoteBatchReports("6E", "6B");
    QuoteBatchReports("6B", "6E");
    QuoteBatchReports("6B", "6B");
    assert msgs[..1] == [a] && [a][..0] == [];
    assert Run(s0, [a][..0], token, channel, order) == s0;
    var s1 := Run(s0, msgs[..1], token, channel, order);
    assert s1 == Step(s0, a, token, channel, order);
    var f1 := Marked(s0.flags, QuoteBatch("6E"));
    assert f1.Keys == {"6E", "6B"} && f1["6E"] && !f1["6B"];
    assert s1.flags == f1;
    assert !s1.closed;
    assert msgs[..2][..1] == msgs[..1] && msgs[..2][1] == b;
    var s2 := Run(s0, msgs[..2], token, channel, order);
    assert s2 == Step(s1, b, token, channel, order);
    assert AllTrue(Marked(f1, QuoteBatch("6B")));
    assert s2.closed;
    assert msgs[..2] + [a] == msgs;
    RunAfterClose(s0, msgs[..2], [a], token, channel, order);
  }

  /**
   The transport loop (`run_forever`): SETUP goes out when the connection opens,
   then the inbound messages are handled one at a time, in arrival order, until
   the handler closes the socket or the messages run out.
   */
  method RunSession(ws: MarketDataWebSocket, inbound: seq<Inbound>) returns (sent: seq<Outbound>, closed: bool)
    requires ws.Valid()
    modifies ws
    ensures ws.Valid()
    ensures ws.symbolOrder == old(ws.symbolOrder)
    ensures Run(Opened(old(ws.symbolsToTrack), old(ws.receivedData)), inbound, ws.token, ws.channelNumber, old(ws.symbolOrder))
            == Session(ws.symbolsToTrack, ws.receivedData, sent, closed)
    ensures |sent| > 0 && sent[0] == SetupMessage()
    ensures closed ==> AllTrue(ws.symbolsToTrack)
  {
    ghost var s0 := Opened(ws.symbolsToTrack, ws.receivedData);
    sent := [SetupMessage()];
    closed := false;
    var i := 0;
    while i < |inbound| && !closed
      invariant 0 <= i <= |inbound|
      decreases |inbound| - i
      invariant ws.Valid()
      invariant ws.symbolOrder == old(ws.symbolOrder)
      invariant Run(s0, inbound[..i], ws.token, ws.channelNumber, ws.symbolOrder)
                == Session(ws.symbolsToTrack, ws.receivedData, sent, closed)
      invariant |sent| > 0 && sent[0] == SetupMessage()
      invariant closed ==> AllTrue(ws.symbolsToTrack)
    {
      assert inbound[..i + 1][..i] == inbound[..i];
      var reaction := ws.OnMessage(inbound[i]);
      match reaction {
        case Reply(o) => sent := sent + [o];
        case CloseSocket => closed := true;
        case _ =>
      }
      i := i + 1;
    }
    if i < |inbound| {
      RunAfterClose(s0, inbound[..i], inbound[i..], ws.token, ws.channelNumber, ws.symbolOrder);
      assert inbound[..i] + inbound[i..] == inbound;
    } else {
      assert inbound[..i] == inbound;
    }
  }
}

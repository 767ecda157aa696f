/** Two clients and the connection between them: frames sent one by one, read back one by one. */
module Transfers {
  import opened Results
  import opened Wire
  import opened Frames
  import opened FrameLaws
  import opened Streams
  import opened Hpack
  import opened HeaderBlocks
  import opened HeaderBlockLaws
  import opened Endpoints
  import opened EndpointLaws
  import opened Clients
  import opened EndToEnd

  lemma SendingSnoc(engine: Engine, ep: Endpoint, fs: seq<Frame>, f: Frame)
    ensures Sending(engine, ep, fs + [f])
         == var before := Sending(engine, ep, fs);
            var r := OnSend(engine, before.endpoint, f);
            History(r.endpoint, before.events + [r.event])
  {
    hide OnSend;
    assert (fs + [f])[..|fs|] == fs;
  }

  /** Under any schedule of partial writes. */
  method SendAll(h2c: Client, fs: seq<Frame>) returns (events: seq<FrameEvent>, ok: bool)
    requires h2c.Valid()
    modifies h2c.conn`sent, h2c.requestCodec, h2c.responseCodec, h2c.sentHeaderBlock
    ensures ok ==>
      && h2c.conn.sent == old(h2c.conn.sent) + AllOctets(fs)
      && History(h2c.View(), events) == Sending(h2c.requestCodec.engine, old(h2c.View()), fs)
    ensures h2c.Dependable() && AllSendable(fs) ==> ok
  {
    hide Marshal, Octets, OnSend, Sendable, Client.View;
    ghost var start := h2c.View();
    events := [];
    for i := 0 to |fs|
      invariant h2c.conn.sent == old(h2c.conn.sent) + AllOctets(fs[..i])
      invariant History(h2c.View(), events) == Sending(h2c.requestCodec.engine, start, fs[..i])
    {
      assert fs[..i + 1] == fs[..i] + [fs[i]];
      AllOctetsSnoc(fs[..i], fs[i]);
      SendingSnoc(h2c.requestCodec.engine, start, fs[..i], fs[i]);
      var event := h2c.SendFrame(fs[i]);
      if event.None? {
        if h2c.Dependable() && AllSendable(fs) { OneFrame(fs[i], []); }
        return events, false;
      }
      events := events + [event.value];
    }
    assert fs[..|fs|] == fs;
    ok := true;
  }

  /** Under any chunking of reads. */
  method ReceiveAll(h2c: Client, n: nat) returns (events: seq<FrameEvent>, ok: bool, ghost fs: seq<Frame>)
    requires h2c.Valid()
    modifies h2c.conn`incoming, h2c.requestCodec, h2c.responseCodec, h2c.receivedHeaderBlock
    ensures ok ==>
      && Delivered(old(h2c.conn.incoming), n) == Some(Batch(fs, h2c.conn.incoming))
      && History(h2c.View(), events) == Receiving(h2c.responseCodec.engine, old(h2c.View()), fs)
    ensures h2c.Dependable() ==> (ok <==> Delivered(old(h2c.conn.incoming), n).Some?)
  {
    hide TakeFrame, OnReceive, Delivered, Receiving, Client.View;
    ghost var start, octets := h2c.View(), h2c.conn.incoming;
    events, fs := [], [];
    NothingReceived(h2c.responseCodec.engine, start, octets);
    for i := 0 to n
      invariant |fs| == i && Delivered(octets, i) == Some(Batch(fs, h2c.conn.incoming))
      invariant History(h2c.View(), events) == Receiving(h2c.responseCodec.engine, start, fs)
    {
      ghost var rest := h2c.conn.incoming;
      var receipt := h2c.ReceiveFrame();
      if !receipt.Event? {
        if Delivered(octets, n).Some? { DeliveredPrefix(octets, i, n); }
        return events, false, fs;
      }
      ghost var f := receipt.event.frame;
      DeliveredSnoc(octets, fs, rest, f, h2c.conn.incoming);
      ReceivingSnoc(h2c.responseCodec.engine, start, fs, f);
      events := events + [receipt.event];
      fs := fs + [f];
    }
    ok := true;
  }

  lemma NothingReceived(engine: Engine, ep: Endpoint, s: bytes)
    ensures Delivered(s, 0) == Some(Batch([], s)) && Receiving(engine, ep, []) == History(ep, [])
  {
  }

  /**
    The whole-stream round trip on clients: what one sends in pieces another, reading in pieces, receives
    as exactly the canonical frames in order, with no octet left. Both report the same blocks, streams
    and faults if the frames are seen alike by both trackers.
   */
  method Transfer(sender: Client, engine: Engine, maxTable: uint32, fs: seq<Frame>)
    returns (sent: seq<FrameEvent>, received: seq<FrameEvent>, left: bytes, ghost frames: seq<Frame>)
    requires sender.Valid() && sender.Dependable() && AllSendable(fs)
    modifies sender.conn`sent, sender.requestCodec, sender.responseCodec, sender.sentHeaderBlock
    ensures sender.conn.sent == old(sender.conn.sent) + AllOctets(fs)
    ensures frames == AllCanon(fs) && left == []
    ensures received == Receiving(engine, NewEndpoint(maxTable), frames).events
    ensures old(sender.View()).sent == Idle && RunSeenAlike(Idle, fs) ==> Outlines(sent) == Outlines(received)
  {
    hide AllSendable, Receiving, Sending, RunSeenAlike, Outlines, AllOctets, Delivered, AllCanon;
    ghost var before, ep := sender.conn.sent, sender.View();
    var offset := |sender.conn.sent|;
    var ok;
    sent, ok := SendAll(sender, fs);
    var wire := new Conn(true, sender.conn.sent[offset..]);
    var receiver := new Client(engine, wire, true, maxTable);
    StreamOfSendable(fs);
    assert wire.incoming == AllOctets(fs);
    received, ok, frames := ReceiveAll(receiver, |fs|);
    left := wire.incoming;
    if ep.sent == Idle && RunSeenAlike(Idle, fs) {
      PeerEventsMatch(sender.requestCodec.engine, ep, engine, NewEndpoint(maxTable), fs);
    }
  }

  lemma StreamOfSendable(fs: seq<Frame>)
    requires AllSendable(fs)
    ensures Delivered(AllOctets(fs), |fs|) == Some(Batch(AllCanon(fs), []))
  {
    hide Delivered, AllOctets, AllCanon, Sendable;
    StreamRoundTrip(fs, []);
    assert AllOctets(fs) + [] == AllOctets(fs);
  }
}

/** The low-level client over a byte connection that chops reads and writes as it likes (client/client.go). */
module Clients {
  import opened Results
  import opened Wire
  import opened Frames
  import opened FrameCodec
  import opened Streams
  import opened Hpack
  import opened HeaderBlocks
  import opened Endpoints

  /**
    A connection: `incoming` holds the peer's octets not read yet, `sent` everything written so far.
    A write takes at least one octet or fails, possibly after taking some; a read yields at least one
    octet or fails. A reliable connection fails only on reading past the last octet.
   */
  class Conn {
    const reliable: bool
    var incoming: bytes
    var sent: bytes

    constructor (reliable: bool, incoming: bytes)
      ensures this.reliable == reliable && this.incoming == incoming && sent == []
    {
      this.reliable, this.incoming, this.sent := reliable, incoming, [];
    }

    method Write(data: bytes) returns (n: nat, ok: bool)
      requires |data| > 0
      modifies this`sent
      ensures n <= |data| && sent == old(sent) + data[..n]
      ensures ok ==> n > 0
      ensures reliable ==> ok
    {
      n :| 0 < n <= |data|;
      ok := true;
      var breaks: bool := *;
      if breaks && !reliable {
        n :| 0 <= n <= |data|;
        ok := false;
      }
      sent := sent + data[..n];
    }

    method Read(max: nat) returns (chunk: bytes, ok: bool)
      requires max > 0
      modifies this`incoming
      ensures old(incoming) == chunk + incoming
      ensures if ok then 0 < |chunk| <= max else chunk == []
      ensures reliable && |old(incoming)| > 0 ==> ok
    {
      var breaks: bool := *;
      if (breaks && !reliable) || |incoming| == 0 {
        return [], false;
      }
      var n :| 0 < n <= max && n <= |incoming|;
      chunk, incoming, ok := incoming[..n], incoming[n..], true;
    }
  }

  predicate Suffix(rest: bytes, s: bytes) {
    |rest| <= |s| && rest == s[|s| - |rest|..]
  }

  datatype Receipt = Event(event: FrameEvent) | BadPayload | Broken

  class Client {
    const connected: bool
    const conn: Conn
    const requestCodec: Codec
    const responseCodec: Codec
    const sentHeaderBlock: HeaderBlockTracker
    const receivedHeaderBlock: HeaderBlockTracker

    ghost predicate Valid() {
      requestCodec != responseCodec && sentHeaderBlock != receivedHeaderBlock
    }

    ghost function Footprint(): set<object> {
      {conn, requestCodec, responseCodec, sentHeaderBlock, receivedHeaderBlock}
    }

    ghost function View(): Endpoint
      reads requestCodec, responseCodec, sentHeaderBlock, receivedHeaderBlock
    {
      Endpoint(requestCodec.State(), responseCodec.State(), sentHeaderBlock.Pending(), receivedHeaderBlock.Pending())
    }

    /** Nothing but the end of the input can make a call fail. */
    ghost predicate Dependable() {
      connected && conn.reliable
    }

    /** `connected` is false for a client built around a nil connection. */
    constructor (engine: Engine, conn: Conn, connected: bool, maxTable: uint32)
      ensures Valid() && View() == NewEndpoint(maxTable)
      ensures this.conn == conn && this.connected == connected
      ensures requestCodec.engine == engine && responseCodec.engine == engine
      ensures fresh(Footprint() - {conn})
    {
      this.connected, this.conn := connected, conn;
      var initial := INITIAL_HEADER_TABLE_SIZE;
      requestCodec := new Codec(engine, initial, initial, initial);
      responseCodec := new Codec(engine, initial, initial, maxTable);
      sentHeaderBlock := new HeaderBlockTracker();
      receivedHeaderBlock := new HeaderBlockTracker();
    }

    method SendRaw(data: bytes) returns (ok: bool)
      modifies conn`sent
      ensures ok ==> conn.sent == old(conn.sent) + data
      ensures old(conn.sent) <= conn.sent <= old(conn.sent) + data
      ensures Dependable() ==> ok
    {
      if !connected { return false; }
      var rest := data;
      while |rest| > 0
        invariant old(conn.sent) <= conn.sent && conn.sent + rest == old(conn.sent) + data
      {
        var n, written := conn.Write(rest);
        if !written { return false; }
        rest := rest[n..];
      }
      ok := true;
    }

    /** `io.ReadFull`: keeps reading until `n` octets have come. */
    method ReceiveRaw(n: nat) returns (buf: bytes, ok: bool)
      modifies conn`incoming
      ensures old(conn.incoming) == buf + conn.incoming
      ensures ok ==> |buf| == n
      ensures !ok && Dependable() ==> |old(conn.incoming)| < n
    {
      buf := [];
      if !connected { return buf, false; }
      while |buf| < n
        invariant |buf| <= n && old(conn.incoming) == buf + conn.incoming
        decreases n - |buf|
      {
        var chunk, some := conn.Read(n - |buf|);
        if !some { return buf, false; }
        buf := buf + chunk;
      }
      ok := true;
    }

    method SendFrame(f: Frame) returns (event: Option<FrameEvent>)
      requires Valid()
      modifies conn`sent, requestCodec, responseCodec, sentHeaderBlock
      ensures event.Some? ==>
        && Marshal(f).Some?
        && conn.sent == old(conn.sent) + Octets(f)
        && Reaction(View(), event.value) == OnSend(requestCodec.engine, old(View()), f)
      ensures event.None? ==>
        && View() == old(View())
        && old(conn.sent) <= conn.sent <= old(conn.sent) + Octets(f)
        && (Dependable() ==> Marshal(f).None?)
    {
      hide Marshal;
      var raw := MarshalBinary(f);
      if raw.None? { return None; }
      var ok := SendRaw(raw.value);
      if !ok { return None; }
      ApplySentFrame(f);
      var e := sentHeaderBlock.Consume(f, requestCodec);
      event := Some(e);
    }

    method SendRawFrame(header: Header, payload: bytes) returns (ok: bool)
      modifies conn`sent
      ensures ok ==> conn.sent == old(conn.sent) + Octets(RawFrameFromParts(header, payload))
      ensures old(conn.sent) <= conn.sent <= old(conn.sent) + Octets(RawFrameFromParts(header, payload))
      ensures ok ==> Marshal(RawFrameFromParts(header, payload)).Some?
      ensures Dependable() ==> (ok <==> ToUint32(|payload|) <= MAX_UINT24)
    {
      hide MarshalHeader, ToUint32;
      var h := header;
      if ToUint32(|payload|) != h.length {
        h := h.(length := ToUint32(|payload|));
      }
      ok := SendRawFrameExact(h, payload);
    }

    method SendRawFrameExact(header: Header, payload: bytes) returns (ok: bool)
      modifies conn`sent
      ensures ok ==> conn.sent == old(conn.sent) + Octets(RawFrame(header, payload))
      ensures old(conn.sent) <= conn.sent <= old(conn.sent) + Octets(RawFrame(header, payload))
      ensures ok ==> header.length <= MAX_UINT24
      ensures Dependable() ==> (ok <==> header.length <= MAX_UINT24)
    {
      hide MarshalHeader;
      var head := MarshalHeaderBinary(header);
      if head.None? { return false; }
      ok := SendRaw(head.value + payload);
    }

    /**
      Takes one frame off the connection. A payload that does not parse is consumed whole and changes
      neither codecs nor trackers.
     */
    method ReceiveFrame() returns (r: Receipt)
      requires Valid()
      modifies conn`incoming, requestCodec, responseCodec, receivedHeaderBlock
      ensures r.Event? ==>
        && TakeFrame(old(conn.incoming)) == Got(r.event.frame, conn.incoming)
        && Reaction(View(), r.event) == OnReceive(responseCodec.engine, old(View()), r.event.frame)
      ensures r.BadPayload? ==> TakeFrame(old(conn.incoming)) == Malformed(conn.incoming) && View() == old(View())
      ensures r.Broken? ==> View() == old(View()) && (Dependable() ==> TakeFrame(old(conn.incoming)).Short?)
      ensures Suffix(conn.incoming, old(conn.incoming))
    {
      hide ParseFrame, ReadUint24, ReadUint32, Low31;
      ghost var s := conn.incoming;
      var headBytes, gotHead := ReceiveRaw(FRAME_HEADER_LENGTH);
      if !gotHead { return Broken; }
      assert s[..FRAME_HEADER_LENGTH] == headBytes;
      var header := ParseHeader(headBytes).value;
      var payload, gotPayload := ReceiveRaw(header.length);
      if !gotPayload { return Broken; }
      ghost var end := FRAME_HEADER_LENGTH + header.length;
      assert s == headBytes + payload + conn.incoming;
      assert s[FRAME_HEADER_LENGTH..end] == payload && s[end..] == conn.incoming;
      var f := Unmarshal(header, payload);
      if f.None? { return BadPayload; }
      ApplyFrame(f.value);
      var event := receivedHeaderBlock.Consume(f.value, responseCodec);
      r := Event(event);
    }

    method EncodeHeaders(fields: seq<HeaderField>) returns (block: Option<bytes>)
      requires Valid()
      modifies requestCodec
      ensures block == requestCodec.engine.encode(old(requestCodec.encoderOps), fields)
      ensures requestCodec.State()
           == old(requestCodec.State()).(encoderOps := old(requestCodec.encoderOps) + [Encode(fields)])
    {
      block := requestCodec.EncodeFields(fields);
    }

    method ApplyFrame(f: Frame)
      requires Valid()
      modifies requestCodec
      ensures requestCodec.State() == WithReceivedSettings(old(requestCodec.State()), SettingsIn(f))
    {
      if f.SettingsFrame? {
        for i := 0 to |f.settings|
          invariant requestCodec.State() == WithReceivedSettings(old(requestCodec.State()), f.settings[..i])
        {
          assert f.settings[..i + 1][..i] == f.settings[..i];
          if f.settings[i].id == SETTING_HEADER_TABLE_SIZE {
            requestCodec.SetMaxDynamicTableSize(f.settings[i].value);
          }
        }
        assert f.settings[..|f.settings|] == f.settings;
      }
    }

    method ApplySentFrame(f: Frame)
      requires Valid()
      modifies responseCodec
      ensures responseCodec.State() == WithSentSettings(old(responseCodec.State()), SettingsIn(f))
    {
      if f.SettingsFrame? {
        for i := 0 to |f.settings|
          invariant responseCodec.State() == WithSentSettings(old(responseCodec.State()), f.settings[..i])
        {
          assert f.settings[..i + 1][..i] == f.settings[..i];
          if f.settings[i].id == SETTING_HEADER_TABLE_SIZE {
            responseCodec.SetDecoderAllowedMaxDynamicTableSize(f.settings[i].value);
          }
        }
        assert f.settings[..|f.settings|] == f.settings;
      }
    }
  }
}

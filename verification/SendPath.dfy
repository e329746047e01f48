/** The sending half of a Go channel (channel.go): the lazily written header and the chunking loop
    of `WriteData`. Stream writes succeed. */
module SendPath {
  import opened Wire
  import opened Messages
  import opened InPlaceEncoder

  const MIN_PACKET_SIZE: nat := 64

  /** `validatePacketSize`. */
  predicate ValidPacketSize(size: nat) { MIN_PACKET_SIZE <= size <= MAX_SSH_STRING_LEN }

  /** The reserved header of a data message: the empty message plus the rest of the longest
      length prefix. */
  function Overhead(dataType: nat): nat
    requires dataType <= MAX_VARINT_8
  {
    EncodedLen(Data(dataType, [])) + 7
  }

  /** The payload room of one message. */
  function Room(size: nat, dataType: nat): (r: nat)
    requires ValidPacketSize(size) && dataType <= MAX_VARINT_8
    ensures r > 0
  {
    size - Overhead(dataType)
  }

  function Min(a: nat, b: nat): nat { if a <= b then a else b }

  /** The messages one `WriteData` call sends. */
  function ChunkMessages(data: Bytes, dataType: nat, room: nat): seq<Message>
    requires room > 0
  {
    if data == [] then []
    else
      var n := Min(room, |data|);
      [Data(dataType, data[..n])] + ChunkMessages(data[n..], dataType, room)
  }

  function Payloads(ms: seq<Message>): Bytes
    requires forall i :: 0 <= i < |ms| ==> ms[i].Data?
  {
    if ms == [] then [] else ms[0].data + Payloads(ms[1..])
  }

  /** What the peer's packet size allows in one message. */
  predicate GoodChunk(m: Message, dataType: nat, size: nat) {
    && m.Data? && m.dataType == dataType && m.data != []
    && WellFormed(m)
    && EncodedLen(m) <= size
  }

  lemma ChunkFits(data: Bytes, dataType: nat, size: nat)
    requires ValidPacketSize(size) && dataType <= MAX_VARINT_8
    requires 0 < |data| <= Room(size, dataType)
    ensures GoodChunk(Data(dataType, data), dataType, size)
  {
  }

  /** Chunking bound: every message is within the packet size and well formed, no chunk is
      empty, and the payloads are the input, in order. */
  lemma {:induction false} ChunkingBound(data: Bytes, dataType: nat, size: nat)
    requires ValidPacketSize(size) && dataType <= MAX_VARINT_8
    ensures var ms := ChunkMessages(data, dataType, Room(size, dataType));
            && (forall i :: 0 <= i < |ms| ==> GoodChunk(ms[i], dataType, size))
            && AllWellFormed(ms)
            && Payloads(ms) == data
  {
    hide Room, EncodedLen;
    if data != [] {
      var n := Min(Room(size, dataType), |data|);
      ChunkFits(data[..n], dataType, size);
      ChunkingBound(data[n..], dataType, size);
      assert data == data[..n] + data[n..];
    }
  }

  /** The chunk that starts after `i` full ones, at `start`. */
  predicate ChunkAt(m: Message, data: Bytes, dataType: nat, room: nat, start: nat, last: bool) {
    && start < |data|
    && m == Data(dataType, data[start..Min(start + room, |data|)])
    && (last <==> |data| <= start + room)
  }

  lemma {:induction false} ChunkPlaces(data: Bytes, dataType: nat, room: nat, i: nat, start: nat)
    requires room > 0 && i < |ChunkMessages(data, dataType, room)| && start == i * room
    ensures var ms := ChunkMessages(data, dataType, room); ChunkAt(ms[i], data, dataType, room, start, i == |ms| - 1)
  {
    hide ChunkAt;
    var ms := ChunkMessages(data, dataType, room);
    if i == 0 {
      FirstChunk(data, dataType, room);
    } else {
      var n := Min(room, |data|);
      assert start - room == (i - 1) * room >= 0;
      ChunkPlaces(data[n..], dataType, room, i - 1, start - room);
      LaterChunk(ms[i], data, dataType, room, start, i == |ms| - 1);
    }
  }

  lemma FirstChunk(data: Bytes, dataType: nat, room: nat)
    requires room > 0 && data != []
    ensures var ms := ChunkMessages(data, dataType, room);
            |ms| > 0 && ChunkAt(ms[0], data, dataType, room, 0, |ms| == 1)
  {
    assert data[Min(room, |data|)..] == [] <==> |data| <= room;
  }

  lemma LaterChunk(m: Message, data: Bytes, dataType: nat, room: nat, start: nat, last: bool)
    requires 0 < room <= start && data != []
    requires ChunkAt(m, data[Min(room, |data|)..], dataType, room, start - room, last)
    ensures ChunkAt(m, data, dataType, room, start, last)
  {
    assert |data| > room;
    SliceOfRest(data, room, start, Min(start + room, |data|));
  }

  lemma SliceOfRest(data: Bytes, room: nat, start: nat, end: nat)
    requires room <= start <= end <= |data|
    ensures data[room..][start - room..end - room] == data[start..end]
  {
  }

  /** With a one-byte data type, as plain data and stderr have, a message carries ten bytes less than the
      packet size, or eleven less when the type is on the wire: every chunk but the last is that long, and
      there are no more chunks than that takes. */
  lemma ChunkSizes(data: Bytes, dataType: nat, size: nat, i: nat)
    requires ValidPacketSize(size) && dataType <= MAX_VARINT_1
    requires i < |ChunkMessages(data, dataType, Room(size, dataType))|
    ensures var ms := ChunkMessages(data, dataType, Room(size, dataType));
            var room := size - if dataType == 0 then 10 else 11;
            ChunkAt(ms[i], data, dataType, room, i * room, i == |ms| - 1)
  {
    hide ChunkMessages;
    assert Room(size, dataType) == size - if dataType == 0 then 10 else 11;
    ChunkPlaces(data, dataType, Room(size, dataType), i, i * Room(size, dataType));
  }

  /** What one `WriteData` call puts on the stream. */
  ghost function ChunkBytes(data: Bytes, dataType: nat, size: nat): Bytes
    requires ValidPacketSize(size) && dataType <= MAX_VARINT_8
  {
    ChunkingBound(data, dataType, size);
    EncodeAll(ChunkMessages(data, dataType, Room(size, dataType)))
  }

  lemma NoChunks(dataType: nat, size: nat)
    requires ValidPacketSize(size) && dataType <= MAX_VARINT_8
    ensures ChunkBytes([], dataType, size) == []
  {
  }

  lemma OneChunk(data: Bytes, dataType: nat, size: nat)
    requires ValidPacketSize(size) && dataType <= MAX_VARINT_8 && data != []
    ensures var n := Min(Room(size, dataType), |data|);
            && Encodable(Data(dataType, data[..n]))
            && ChunkBytes(data, dataType, size)
               == Encode(Data(dataType, data[..n])) + ChunkBytes(data[n..], dataType, size)
  {
    hide Encode, Room;
    var n := Min(Room(size, dataType), |data|);
    ChunkFits(data[..n], dataType, size);
    ChunkingBound(data, dataType, size);
    ChunkingBound(data[n..], dataType, size);
    var ms := ChunkMessages(data, dataType, Room(size, dataType));
    var rest := ChunkMessages(data[n..], dataType, Room(size, dataType));
    assert ms[0] == Data(dataType, data[..n]) && ms[1..] == rest;
    WellFormedEncodable(ms[0]);
  }

  class Channel {
    const maxPacketSize: nat
    /** The part of the header not written yet. */
    var header: Bytes
    /** Everything written to the stream so far. */
    var sent: Bytes

    constructor (size: nat, h: Bytes)
      ensures maxPacketSize == size && header == h && sent == []
    {
      maxPacketSize, header, sent := size, h, [];
    }

    method MaybeSendHeader()
      modifies this
      ensures header == [] && sent == old(sent) + old(header)
    {
      if |header| > 0 {
        sent := sent + header;
        header := [];
      }
    }

    /** One iteration's write: a buffer of the message's exact length. */
    method WriteBuffer(m: Message)
      requires Encodable(m) && !(m.Request? && m.request.ForwardPort?)
      modifies this
      ensures header == old(header) && sent == old(sent) + Encode(m)
    {
      hide Encode, Encodable;
      var buf, _, _ := ToBuffer(m);
      sent := sent + buf[..];
    }

    /** Sends `data` in chunks behind the header. The source's `MaxPacketSize` is fixed when the
        channel is made, so an invalid one is reported before the first chunk. */
    method WriteData(data: Bytes, dataType: nat) returns (written: nat, ok: bool)
      requires dataType <= MAX_VARINT_8
      modifies this
      ensures header == []
      ensures ok <==> data == [] || ValidPacketSize(maxPacketSize)
      ensures !ok ==> written == 0 && sent == old(sent) + old(header)
      ensures ok && data == [] ==> written == 0 && sent == old(sent) + old(header)
      ensures ok && data != [] ==>
                written == |data| && sent == old(sent) + old(header) + ChunkBytes(data, dataType, maxPacketSize)
    {
      hide Encode, ChunkBytes, ChunkMessages, Room, EncodedLen;
      MaybeSendHeader();
      ghost var start := sent;
      written, ok := 0, true;
      var rest := data;
      if ValidPacketSize(maxPacketSize) {
        NoChunks(dataType, maxPacketSize);
      }
      while |rest| > 0
        invariant header == [] && ok && written + |rest| == |data|
        invariant rest == data || ValidPacketSize(maxPacketSize)
        invariant rest == data ==> sent == start
        invariant ValidPacketSize(maxPacketSize) ==>
                    sent + ChunkBytes(rest, dataType, maxPacketSize)
                    == start + ChunkBytes(data, dataType, maxPacketSize)
      {
        if !ValidPacketSize(maxPacketSize) {
          return written, false;
        }
        var n := Min(Room(maxPacketSize, dataType), |rest|);
        OneChunk(rest, dataType, maxPacketSize);
        WriteBuffer(Data(dataType, rest[..n]));
        rest := rest[n..];
        written := written + n;
      }
    }

    /** `sendMessage`. */
    method SendMessage(m: Message)
      requires Encodable(m) && !(m.Request? && m.request.ForwardPort?)
      modifies this
      ensures header == [] && sent == old(sent) + old(header) + Encode(m)
    {
      hide Encode, Encodable;
      MaybeSendHeader();
      WriteBuffer(m);
    }
  }
}

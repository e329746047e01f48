/** The channel object of crates/ssh3-core: the header taken once, chunked writes, and the reader
    that skips confirmations. Each call is atomic; stream writes succeed. */
module CoreChannel {
  import opened Wire
  import opened Messages
  import opened StreamReader
  import opened SendPath

  /** What `next_message` returns. */
  datatype Outcome =
    | Got(message: Message)
    | OpenFailed(reasonCode: nat, text: Bytes)
    | NonConfirmed(early: Message)
    | ReadError(error: Error)

  /** A result of `next_message`: whether it met a confirmation, and what it left unread. */
  datatype Next = Next(outcome: Outcome, confirmed: bool, rest: Bytes)

  /** The result of handing one message that is not a confirmation to the caller. */
  function OutcomeOf(confirmSent: bool, m: Message): Outcome {
    if m.OpenFailure? then OpenFailed(m.reasonCode, m.failureMessage)
    else if !confirmSent then NonConfirmed(m)
    else Got(m)
  }

  lemma ParseShrinks(s: Bytes)
    ensures Parse(s).Done? ==> |Parse(s).rest| < |s|
  {
    hide Parse;
    if Parse(s).Done? {
      ParseCanonical(s, Parse(s).value, Parse(s).rest, []);
    }
  }

  /** `next_message` on the bytes that will ever arrive: confirmations are skipped, and every one
      skipped leaves fewer bytes. */
  function ReadNext(confirmSent: bool, s: Bytes): Next
    decreases |s|
  {
    ParseShrinks(s);
    match Parse(s)
    case Fail(e) => Next(ReadError(e), false, s)
    case Done(m, rest) =>
      if m.OpenConfirmation? then ReadNext(confirmSent, rest).(confirmed := true)
      else Next(OutcomeOf(confirmSent, m), false, rest)
  }

  /** The first message that is not a confirmation. */
  function FirstAnswer(s: Bytes): Option<Message>
    decreases |s|
  {
    ParseShrinks(s);
    match Parse(s)
    case Fail(_) => None
    case Done(m, rest) => if m.OpenConfirmation? then FirstAnswer(rest) else Some(m)
  }

  /** `o` is what a caller should get for message `m`: an open failure's code and text, the message
      itself, or the message as one that came too early. */
  predicate Answers(o: Outcome, m: Message, confirmSent: bool) {
    if m.OpenFailure? then o == OpenFailed(m.reasonCode, m.failureMessage)
    else if confirmSent then o == Got(m)
    else o == NonConfirmed(m)
  }

  lemma {:induction false} ReadNextAnswers(confirmSent: bool, s: Bytes)
    ensures match FirstAnswer(s) {
      case None => ReadNext(confirmSent, s).outcome.ReadError?
      case Some(m) => Answers(ReadNext(confirmSent, s).outcome, m, confirmSent)
    }
    decreases |s|
  {
    hide Parse;
    ParseShrinks(s);
    if Parse(s).Done? && Parse(s).value.OpenConfirmation? {
      ReadNextAnswers(confirmSent, Parse(s).rest);
    }
  }

  class Channel {
    const maxPacketSize: nat
    var confirmSent: bool
    var confirmReceived: bool
    var header: Option<Bytes>
    /** Everything written to the send stream. */
    var sent: Bytes
    const recv: ReceiveStream

    constructor (size: nat, confirmSent: bool, confirmReceived: bool, header: Option<Bytes>, recv: ReceiveStream)
      ensures this.maxPacketSize == size && this.confirmSent == confirmSent && this.confirmReceived == confirmReceived
      ensures this.header == header && this.sent == [] && this.recv == recv
    {
      this.maxPacketSize, this.confirmSent, this.confirmReceived := size, confirmSent, confirmReceived;
      this.header, this.sent, this.recv := header, [], recv;
    }

    /** The part of the header not written yet. */
    ghost function Pending(): Bytes
      reads this
    {
      if header.Some? then header.value else []
    }

    method MaybeSendHeader()
      modifies this`header, this`sent
      ensures header == None && sent == old(sent) + old(Pending())
    {
      if header.Some? {
        sent := sent + header.value;
        header := None;
      }
    }

    method SendMessage(m: Message)
      requires Encodable(m)
      modifies this`header, this`sent
      ensures header == None && sent == old(sent) + old(Pending()) + Encode(m)
    {
      hide Encode, Encodable;
      MaybeSendHeader();
      sent := sent + Encode(m);
    }

    method ConfirmChannel(size: nat)
      requires size <= MAX_VARINT_8
      modifies this`header, this`sent, this`confirmSent
      ensures confirmSent && header == None
      ensures sent == old(sent) + old(Pending()) + Encode(OpenConfirmation(size))
    {
      hide Encode;
      SendMessage(OpenConfirmation(size));
      confirmSent := true;
    }

    /** The loop over `data_buf.chunks(room)`. */
    method WriteChunks(data: Bytes, dataType: nat, room: nat) returns (written: nat)
      requires dataType <= MAX_VARINT_8 && |data| <= MAX_VARINT_8 && room > 0
      modifies this`sent
      ensures var encoded := Chunked(data, dataType, room);
              sent == old(sent) + encoded && written == |encoded|
    {
      hide Encode;
      written := 0;
      var rest := data;
      while rest != []
        invariant |rest| <= |data|
        invariant sent + Chunked(rest, dataType, room) == old(sent) + Chunked(data, dataType, room)
        invariant written + |Chunked(rest, dataType, room)| == |Chunked(data, dataType, room)|
        decreases |rest|
      {
        var n := Min(room, |rest|);
        var m := Data(dataType, rest[..n]);
        sent := sent + Encode(m);
        written := written + |Encode(m)|;
        rest := rest[n..];
      }
    }

    /** Chunks of what is left of the packet size behind the empty message's header (at least one
        byte); the returned count is that of the encoded bytes. The size is not validated, unlike on
        the Go side. */
    method WriteData(data: Bytes, dataType: nat) returns (written: nat, ok: bool)
      requires dataType <= MAX_VARINT_8 && |data| <= MAX_VARINT_8
      modifies this`header, this`sent
      ensures header == None
      ensures ok <==> EncodedLen(Data(dataType, [])) <= maxPacketSize
      ensures !ok ==> written == 0 && sent == old(sent) + old(Pending())
      ensures ok ==>
                var encoded := Chunked(data, dataType, CoreRoom(dataType, maxPacketSize));
                sent == old(sent) + old(Pending()) + encoded && written == |encoded|
    {
      hide EncodedLen, Chunked;
      MaybeSendHeader();
      var overhead := EncodedLen(Data(dataType, []));
      if maxPacketSize < overhead {
        return 0, false;
      }
      var room := maxPacketSize - overhead;
      written := WriteChunks(data, dataType, if room == 0 then 1 else room);
      ok := true;
    }

    /** `next_message`: the loop that skips confirmations. */
    method NextMessage() returns (outcome: Outcome)
      modifies this`confirmReceived, recv
      ensures var n := ReadNext(confirmSent, old(recv.unread));
              && outcome == n.outcome
              && confirmReceived == (old(confirmReceived) || n.confirmed)
              && (!n.outcome.ReadError? ==> recv.unread == n.rest)
      ensures match FirstAnswer(old(recv.unread)) {
        case None => outcome.ReadError?
        case Some(m) => Answers(outcome, m, confirmSent)
      }
    {
      hide Parse, FirstAnswer;
      ReadNextAnswers(confirmSent, recv.unread);
      while true
        invariant ReadNext(confirmSent, old(recv.unread)).outcome == ReadNext(confirmSent, recv.unread).outcome
        invariant ReadNext(confirmSent, old(recv.unread)).rest == ReadNext(confirmSent, recv.unread).rest
        invariant old(confirmReceived) || ReadNext(confirmSent, old(recv.unread)).confirmed
                  <==> confirmReceived || ReadNext(confirmSent, recv.unread).confirmed
        decreases |recv.unread|
      {
        ParseShrinks(recv.unread);
        var r := recv.ParseMessage();
        match r
        case Err(e) => return ReadError(e);
        case Ok(m) =>
          if m.OpenConfirmation? {
            confirmReceived := true;
          } else {
            return OutcomeOf(confirmSent, m);
          }
      }
    }

    /** `wait_for_confirmation` without interference: succeeds if and only if a confirmation was seen
        before, or is the next message; otherwise the failure tells what came instead. */
    method WaitForConfirmation() returns (failure: Option<Outcome>)
      modifies this`confirmReceived, recv
      ensures failure == if old(confirmReceived) then None else Refusal(Parse(old(recv.unread)))
      ensures confirmReceived == (old(confirmReceived) || failure.None?)
      ensures old(confirmReceived) ==> recv.unread == old(recv.unread)
      ensures !old(confirmReceived) && Parse(old(recv.unread)).Done? ==> recv.unread == Parse(old(recv.unread)).rest
    {
      hide Parse;
      if confirmReceived {
        return None;
      }
      var r := recv.ParseMessage();
      match r
      case Err(e) => failure := Some(ReadError(e));
      case Ok(m) =>
        if m.OpenConfirmation? {
          confirmReceived := true;
          failure := None;
        } else if m.OpenFailure? {
          failure := Some(OpenFailed(m.reasonCode, m.failureMessage));
        } else {
          failure := Some(NonConfirmed(m));
        }
    }
  }

  /** Why an answer is not the confirmation waited for. */
  function Refusal(p: Parsed<Message>): Option<Outcome> {
    match p
    case Fail(e) => Some(ReadError(e))
    case Done(m, _) => if m.OpenConfirmation? then None else Some(OutcomeOf(false, m))
  }

  function CoreRoom(dataType: nat, size: nat): (room: nat)
    requires dataType <= MAX_VARINT_8 && EncodedLen(Data(dataType, [])) <= size
    ensures room > 0
  {
    var room := size - EncodedLen(Data(dataType, []));
    if room == 0 then 1 else room
  }

  /** The encodings of the chunks, one after the other. */
  function Chunked(data: Bytes, dataType: nat, room: nat): Bytes
    requires dataType <= MAX_VARINT_8 && |data| <= MAX_VARINT_8 && room > 0
    decreases |data|
  {
    if data == [] then []
    else
      var n := Min(room, |data|);
      Encode(Data(dataType, data[..n])) + Chunked(data[n..], dataType, room)
  }

  /** What `write_data` sends are messages of the given type, none of them empty, whose payloads are
      the data in order; they are well formed, so that the peer reads them back, whenever the data or
      the packet size is within the string limit. */
  lemma {:induction false} ChunksGood(data: Bytes, dataType: nat, room: nat)
    requires dataType <= MAX_VARINT_8 && |data| <= MAX_VARINT_8 && room > 0
    ensures var ms := ChunkMessages(data, dataType, room);
            && (forall i :: 0 <= i < |ms| ==> ms[i].Data? && ms[i].dataType == dataType && ms[i].data != [])
            && Payloads(ms) == data
            && (|data| <= MAX_SSH_STRING_LEN || room <= MAX_SSH_STRING_LEN ==>
                  AllWellFormed(ms) && Chunked(data, dataType, room) == EncodeAll(ms))
  {
    hide Encode, Encodable, Fits;
    if data != [] {
      var n := Min(room, |data|);
      ChunksGood(data[n..], dataType, room);
      assert data == data[..n] + data[n..];
      var ms := ChunkMessages(data, dataType, room);
      assert ms[1..] == ChunkMessages(data[n..], dataType, room);
      assert n <= MAX_SSH_STRING_LEN ==> WellFormed(ms[0]) by { DataFits(ms[0]); }
    }
  }

  lemma DataFits(m: Message)
    requires m.Data? && m.dataType <= MAX_VARINT_8
    ensures |m.data| <= MAX_SSH_STRING_LEN ==> WellFormed(m)
  {
  }

  // ----- How far a chunk can exceed the packet size -----

  /** What the packet size leaves for the payload behind the empty message. */
  function Spare(dataType: nat, size: nat): nat
    requires dataType <= MAX_VARINT_8 && EncodedLen(Data(dataType, [])) <= size
  {
    size - EncodedLen(Data(dataType, []))
  }

  /** The bytes of a length prefix beyond the one that is reserved. */
  function ExtraPrefix(n: nat): nat
    requires n <= MAX_VARINT_8
  {
    VarIntLen(n) - 1
  }

  lemma {:induction false} ChunkSizes(data: Bytes, dataType: nat, room: nat, i: nat)
    requires room > 0 && i < |ChunkMessages(data, dataType, room)|
    ensures var m := ChunkMessages(data, dataType, room)[i];
            m.Data? && m.dataType == dataType && 1 <= |m.data| <= room && |m.data| <= |data|
  {
    if i > 0 {
      ChunkSizes(data[Min(room, |data|)..], dataType, room, i - 1);
    }
  }

  /** A chunk exceeds the packet size if and only if nothing is left for a payload, or its length
      prefix is longer than the one byte reserved and the payload comes closer to the room than
      that; the excess is then at most those extra bytes, or the one byte of a room of none. */
  lemma ChunkExcess(data: Bytes, dataType: nat, size: nat, i: nat)
    requires dataType <= MAX_VARINT_8 && |data| <= MAX_VARINT_8 && EncodedLen(Data(dataType, [])) <= size
    requires i < |ChunkMessages(data, dataType, CoreRoom(dataType, size))|
    ensures var m, spare := ChunkMessages(data, dataType, CoreRoom(dataType, size))[i], Spare(dataType, size);
            && m.Data? && m.dataType == dataType && |m.data| <= |data|
            && var extra := ExtraPrefix(|m.data|);
               && (EncodedLen(m) > size <==> spare == 0 || (extra > 0 && spare - |m.data| < extra))
               && EncodedLen(m) <= size + (if spare == 0 then 1 else extra)
               && (|m.data| <= MAX_VARINT_4 ==> extra <= 3)
  {
    ChunkSizes(data, dataType, CoreRoom(dataType, size), i);
  }

  predicate AllWithin(ms: seq<Message>, size: nat) {
    forall i :: 0 <= i < |ms| ==> Encodable(ms[i]) && EncodedLen(ms[i]) <= size
  }

  lemma SmallRoomsFit(data: Bytes, dataType: nat, size: nat)
    requires dataType <= MAX_VARINT_8 && |data| <= MAX_VARINT_8 && EncodedLen(Data(dataType, [])) <= size
    requires 1 <= Spare(dataType, size) <= MAX_VARINT_1
    ensures AllWithin(ChunkMessages(data, dataType, CoreRoom(dataType, size)), size)
  {
    hide ChunkMessages, EncodedLen;
    var ms := ChunkMessages(data, dataType, CoreRoom(dataType, size));
    forall i | 0 <= i < |ms| ensures Encodable(ms[i]) && EncodedLen(ms[i]) <= size {
      ChunkExcess(data, dataType, size, i);
      ChunkSizes(data, dataType, CoreRoom(dataType, size), i);
    }
  }

  /** Data that fills the room of any other packet size exceeds it. */
  lemma FullRoomExceeds(dataType: nat, size: nat) returns (data: Bytes)
    requires dataType <= MAX_VARINT_8 && EncodedLen(Data(dataType, [])) <= size <= MAX_VARINT_8
    requires !(1 <= Spare(dataType, size) <= MAX_VARINT_1)
    ensures |data| <= MAX_VARINT_8 && !AllWithin(ChunkMessages(data, dataType, CoreRoom(dataType, size)), size)
  {
    var room := CoreRoom(dataType, size);
    data := seq(room, _ => 0);
    assert data[..room] == data;
    var ms := ChunkMessages(data, dataType, room);
    assert ms[0] == Data(dataType, data);
    ChunkExcess(data, dataType, size, 0);
  }

  /** `write_data` keeps to the packet size for all data if and only if the size leaves between 1 and
      63 bytes for the payload. */
  lemma WithinSizeIff(dataType: nat, size: nat)
    requires dataType <= MAX_VARINT_8 && EncodedLen(Data(dataType, [])) <= size <= MAX_VARINT_8
    ensures (forall data: Bytes | |data| <= MAX_VARINT_8 ::
               AllWithin(ChunkMessages(data, dataType, CoreRoom(dataType, size)), size))
            <==> 1 <= Spare(dataType, size) <= MAX_VARINT_1
  {
    hide AllWithin, ChunkMessages, EncodedLen;
    if 1 <= Spare(dataType, size) <= MAX_VARINT_1 {
      forall data: Bytes | |data| <= MAX_VARINT_8
        ensures AllWithin(ChunkMessages(data, dataType, CoreRoom(dataType, size)), size)
      {
        SmallRoomsFit(data, dataType, size);
      }
    } else {
      var data := FullRoomExceeds(dataType, size);
    }
  }

  /** One failing size: with 67 bytes, 64 bytes of ordinary data go into one message of 68. */
  lemma ExceedingSize()
    ensures var data := seq(64, _ => 0);
            && ChunkMessages(data, DATA_NONE, CoreRoom(DATA_NONE, 67)) == [Data(DATA_NONE, data)]
            && EncodedLen(Data(DATA_NONE, data)) == 68
  {
    var data: Bytes := seq(64, _ => 0);
    assert CoreRoom(DATA_NONE, 67) == 64 && data[..64] == data && data[64..] == [];
  }
}

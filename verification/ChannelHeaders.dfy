/** The header that opens every channel stream, with the target of a forwarding channel. */
module ChannelHeaders {
  import opened Wire
  import opened Messages

  const SSH_FRAME_TYPE: nat := 0xaf36_27e6
  const DIRECT_UDP: Bytes := [0x64, 0x69, 0x72, 0x65, 0x63, 0x74, 0x2d, 0x75, 0x64, 0x70]
  const DIRECT_TCP: Bytes := [0x64, 0x69, 0x72, 0x65, 0x63, 0x74, 0x2d, 0x74, 0x63, 0x70]

  datatype Header = Header(conversationId: nat, channelType: Bytes, maxPacketSize: nat) {
    predicate WellFormed() {
      && conversationId <= MAX_VARINT_8
      && |channelType| <= MAX_SSH_STRING_LEN
      && maxPacketSize <= MAX_VARINT_8
    }
  }

  predicate IsForwarding(channelType: Bytes) { channelType == DIRECT_UDP || channelType == DIRECT_TCP }

  /** What the accepting side learns before the first message. */
  datatype IncomingChannel = IncomingChannel(header: Header, target: Option<Target>) {
    /** What the open functions send: a target exactly on the two forwarding types. */
    predicate WellFormed() {
      && header.WellFormed()
      && (target.Some? <==> IsForwarding(header.channelType))
      && (target.Some? ==> target.value.Valid())
    }
  }

  /** `ChannelHeader::encode`. */
  function EncodeHeader(h: Header, additional: Bytes): Bytes
    requires h.WellFormed()
  {
    VarInt(SSH_FRAME_TYPE)
    + (VarInt(h.conversationId) + (SshString(h.channelType) + (VarInt(h.maxPacketSize) + additional)))
  }

  function EncodeIncoming(c: IncomingChannel): Bytes
    requires c.WellFormed()
  {
    EncodeHeader(c.header, if c.target.Some? then EncodeTarget(c.target.value) else [])
  }

  /** `ChannelHeader::parse_payload`: what follows the frame type. */
  function ParseHeader(s: Bytes): Parsed<Header> {
    var (conversation, s1) :- ReadVarInt(s);
    var (channelType, s2) :- ReadSshString(s1);
    var (size, s3) :- ReadVarInt(s2);
    Done(Header(conversation, channelType, size), s3)
  }

  /** The frame type, then `ChannelHeader::parse_payload`, then, on a forwarding channel,
      `parse_forwarding_payload`. */
  function ParseIncoming(s: Bytes): Parsed<IncomingChannel> {
    var (frameType, s1) :- ReadVarInt(s);
    if frameType != SSH_FRAME_TYPE then Fail(UnexpectedFrameType(frameType)) else
    var (header, s2) :- ParseHeader(s1);
    if !IsForwarding(header.channelType) then Done(IncomingChannel(header, None), s2) else
    var (target, s3) :- ParseTarget(s2);
    Done(IncomingChannel(header, Some(target)), s3)
  }

  lemma HeaderRoundTrip(h: Header, tail: Bytes)
    requires h.WellFormed()
    ensures ParseHeader(VarInt(h.conversationId) + (SshString(h.channelType) + (VarInt(h.maxPacketSize) + tail)))
            == Done(h, tail)
  {
    hide Wire.ReadVarInt, Wire.VarInt, Wire.ReadSshString, Wire.SshString;
    var t2 := VarInt(h.maxPacketSize) + tail;
    var t1 := SshString(h.channelType) + t2;
    VarIntRoundTrip(h.conversationId, t1);
    SshStringRoundTrip(h.channelType, t2);
    VarIntRoundTrip(h.maxPacketSize, tail);
  }

  /** The accepting side reads back the type, sizes and target that the opener sent, and
      leaves the stream at the first message. */
  lemma IncomingRoundTrip(c: IncomingChannel, tail: Bytes)
    requires c.WellFormed()
    ensures ParseIncoming(EncodeIncoming(c) + tail) == Done(c, tail)
  {
    hide Wire.ReadVarInt, Wire.VarInt, Wire.SshString, ParseHeader, ParseTarget, EncodeTarget;
    var h := c.header;
    var additional := if c.target.Some? then EncodeTarget(c.target.value) else [];
    var payload :=
      VarInt(h.conversationId) + (SshString(h.channelType) + (VarInt(h.maxPacketSize) + (additional + tail)));
    assert EncodeIncoming(c) + tail == VarInt(SSH_FRAME_TYPE) + payload;
    VarIntRoundTrip(SSH_FRAME_TYPE, payload);
    HeaderRoundTrip(h, additional + tail);
    if c.target.Some? {
      TargetRoundTrip(c.target.value, tail);
    } else {
      assert additional + tail == tail;
    }
  }
}

/** The bytes of the wire format, written out: message numbers, request and channel type names and the
    layout of every message whose integers and string lengths fit one byte each, and the limits. */
module WireFormat {
  import opened Wire
  import opened Messages
  import opened ChannelHeaders
  import opened SendPath
  import SessionMachine

  /** The bytes of an ASCII text. */
  function Ascii(text: string): Bytes
    requires forall i :: 0 <= i < |text| ==> text[i] as int < 128
  {
    seq(|text|, i requires 0 <= i < |text| => text[i] as int)
  }

  lemma Names()
    ensures PTY_REQ == Ascii("pty-req") && X11_REQ == Ascii("x11-req") && SHELL == Ascii("shell")
    ensures EXEC == Ascii("exec") && SUBSYSTEM == Ascii("subsystem") && WINDOW_CHANGE == Ascii("window-change")
    ensures SIGNAL == Ascii("signal") && EXIT_STATUS == Ascii("exit-status") && EXIT_SIGNAL == Ascii("exit-signal")
    ensures FORWARD_PORT == Ascii("forward-port") && SessionMachine.FORWARD_AGENT == Ascii("forward-agent")
    ensures DIRECT_UDP == Ascii("direct-udp") && DIRECT_TCP == Ascii("direct-tcp")
  {
  }

  /** An integer of one byte. */
  predicate Short(n: nat) { n <= 63 }

  predicate ShortRequest(r: ChannelRequest) {
    match r
    case Pty(term, w, h, pw, ph, modes) =>
      Short(|term|) && Short(w) && Short(h) && Short(pw) && Short(ph) && Short(|modes|)
    case X11(_, protocol, cookie, screen) => Short(|protocol|) && Short(|cookie|) && Short(screen)
    case Shell => true
    case Exec(command) => Short(|command|)
    case Subsystem(name) => Short(|name|)
    case WindowChange(w, h, pw, ph) => Short(w) && Short(h) && Short(pw) && Short(ph)
    case Signal(name) => Short(|name|)
    case ExitStatus(status) => Short(status)
    case ExitSignal(name, _, message, language) => Short(|name|) && Short(|message|) && Short(|language|)
    case ForwardPort(_, target) => target.Valid()
  }

  predicate ShortMessage(m: Message) {
    match m
    case Request(_, r) => ShortRequest(r)
    case OpenConfirmation(n) => Short(n)
    case OpenFailure(reason, message, language) => Short(reason) && Short(|message|) && Short(|language|)
    case Data(kind, data) => Short(kind) && Short(|data|)
  }

  function Bit(b: bool): byte { if b then 1 else 0 }

  function TargetBytes(t: Target): Bytes
    requires t.Valid()
  {
    [if t.address.V4? then 4 else 6] + t.address.octets + [t.port / 256, t.port % 256]
  }

  function RequestName(r: ChannelRequest): (name: string)
    ensures |name| <= 63 && forall i :: 0 <= i < |name| ==> name[i] as int < 128
  {
    match r
    case Pty(_, _, _, _, _, _) => "pty-req"
    case X11(_, _, _, _) => "x11-req"
    case Shell => "shell"
    case Exec(_) => "exec"
    case Subsystem(_) => "subsystem"
    case WindowChange(_, _, _, _) => "window-change"
    case Signal(_) => "signal"
    case ExitStatus(_) => "exit-status"
    case ExitSignal(_, _, _, _) => "exit-signal"
    case ForwardPort(_, _) => "forward-port"
  }

  /** A string after its length. */
  function Text(s: Bytes): Bytes
    requires Short(|s|)
  {
    [|s|] + s
  }

  function FieldBytes(r: ChannelRequest): Bytes
    requires ShortRequest(r)
  {
    match r
    case Pty(term, w, h, pw, ph, modes) => Text(term) + [w, h, pw, ph] + Text(modes)
    case X11(single, protocol, cookie, screen) => [Bit(single)] + Text(protocol) + Text(cookie) + [screen]
    case Shell => []
    case Exec(command) => Text(command)
    case Subsystem(name) => Text(name)
    case WindowChange(w, h, pw, ph) => [w, h, pw, ph]
    case Signal(name) => Text(name)
    case ExitStatus(status) => [status]
    case ExitSignal(name, core, message, language) => Text(name) + [Bit(core)] + Text(message) + Text(language)
    case ForwardPort(protocol, target) => [if protocol.Udp? then 0 else 1] + TargetBytes(target)
  }

  /** A message's number takes the two-byte form. */
  function MessageBytes(m: Message): Bytes
    requires ShortMessage(m)
  {
    match m
    case Request(reply, r) => [0x40, 98] + Text(Ascii(RequestName(r))) + [Bit(reply)] + FieldBytes(r)
    case OpenConfirmation(n) => [0x40, 91, n]
    case OpenFailure(reason, message, language) => [0x40, 92, reason] + Text(message) + Text(language)
    case Data(kind, data) => if kind == 0 then [0x40, 94] + Text(data) else [0x40, 95, kind] + Text(data)
  }

  lemma ShortString(s: Bytes)
    requires Short(|s|)
    ensures |s| <= MAX_VARINT_8 && SshString(s) == Text(s)
  {
  }

  lemma RequestTypeIs(r: ChannelRequest)
    ensures RequestType(r) == Ascii(RequestName(r))
  {
    Names();
    hide Ascii;
  }

  lemma ShortInt(n: nat)
    requires Short(n)
    ensures n <= MAX_VARINT_8 && VarInt(n) == [n]
  {
  }

  lemma ShortDimensions(w: nat, h: nat, pw: nat, ph: nat)
    requires Short(w) && Short(h) && Short(pw) && Short(ph)
    ensures Dimensions(w, h, pw, ph) == [w, h, pw, ph]
  {
  }

  lemma TargetIs(t: Target)
    requires t.Valid()
    ensures EncodeTarget(t) == TargetBytes(t)
  {
  }

  lemma FieldsAre(r: ChannelRequest)
    requires ShortRequest(r)
    ensures RequestFits(r, MAX_VARINT_8) && EncodePayload(r) == FieldBytes(r)
  {
    hide VarInt, SshString, Text, Dimensions, EncodeTarget, TargetBytes;
    match r
    case Pty(term, w, h, pw, ph, modes) =>
      ShortString(term);
      ShortDimensions(w, h, pw, ph);
      ShortString(modes);
    case X11(single, protocol, cookie, screen) =>
      ShortString(protocol);
      ShortString(cookie);
      ShortInt(screen);
    case Shell =>
    case Exec(command) => ShortString(command);
    case Subsystem(name) => ShortString(name);
    case WindowChange(w, h, pw, ph) => ShortDimensions(w, h, pw, ph);
    case Signal(name) => ShortString(name);
    case ExitStatus(status) => ShortInt(status);
    case ExitSignal(name, core, message, language) =>
      ShortString(name);
      ShortString(message);
      ShortString(language);
    case ForwardPort(protocol, target) =>
      ShortInt(ProtocolNumber(protocol));
      TargetIs(target);
  }

  /** What the encoder writes for a message. */
  lemma MessageOnTheWire(m: Message)
    requires ShortMessage(m)
    ensures Encodable(m) && Encode(m) == MessageBytes(m)
  {
    hide SshString, Text, EncodePayload, FieldBytes, RequestType, RequestName, Ascii, ShortRequest, RequestFits;
    match m
    case Request(reply, r) =>
      RequestTypeIs(r);
      ShortString(RequestType(r));
      FieldsAre(r);
    case OpenFailure(_, message, language) =>
      ShortString(message);
      ShortString(language);
    case Data(_, data) => ShortString(data);
    case OpenConfirmation(_) =>
  }

  /** The channel header: the frame type takes the eight-byte form. */
  lemma HeaderOnTheWire(c: IncomingChannel)
    requires c.WellFormed()
    requires Short(c.header.conversationId) && Short(|c.header.channelType|) && Short(c.header.maxPacketSize)
    ensures EncodeIncoming(c) ==
            [0xc0, 0, 0, 0, 0xaf, 0x36, 0x27, 0xe6] + [c.header.conversationId]
            + Text(c.header.channelType) + [c.header.maxPacketSize]
            + if c.target.Some? then TargetBytes(c.target.value) else []
  {
  }

  /** A string of up to 16 MiB is read, a longer one is refused by its length alone. */
  lemma StringLimit(n: nat, s: Bytes)
    requires n <= MAX_VARINT_8 && (n <= 16_777_216 ==> n <= |s|)
    ensures ReadSshString(VarInt(n) + s) ==
            if n <= 16_777_216 then Done(s[..n], s[n..]) else Fail(InvalidLength(n))
  {
    hide Wire.ReadVarInt, Wire.VarInt;
    VarIntRoundTrip(n, s);
  }

  /** The packet sizes a channel can have. */
  lemma PacketSizes(size: nat)
    ensures ValidPacketSize(size) <==> 64 <= size <= 16_777_216
  {
  }
}

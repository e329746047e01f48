/** The SSH3 channel messages: their values, the append encoder, `encoded_len` and the parser
    of crates/ssh3-proto, with the round trips between them. */
module Messages {
  import opened Wire

  const MSG_OPEN_CONFIRMATION: nat := 91
  const MSG_OPEN_FAILURE: nat := 92
  const MSG_DATA: nat := 94
  const MSG_EXTENDED_DATA: nat := 95
  const MSG_REQUEST: nat := 98

  const DATA_NONE: nat := 0

  // The request type names, in ASCII.
  const PTY_REQ: Bytes := [0x70, 0x74, 0x79, 0x2d, 0x72, 0x65, 0x71]
  const X11_REQ: Bytes := [0x78, 0x31, 0x31, 0x2d, 0x72, 0x65, 0x71]
  const SHELL: Bytes := [0x73, 0x68, 0x65, 0x6c, 0x6c]
  const EXEC: Bytes := [0x65, 0x78, 0x65, 0x63]
  const SUBSYSTEM: Bytes := [0x73, 0x75, 0x62, 0x73, 0x79, 0x73, 0x74, 0x65, 0x6d]
  const WINDOW_CHANGE: Bytes := [0x77, 0x69, 0x6e, 0x64, 0x6f, 0x77, 0x2d, 0x63, 0x68, 0x61, 0x6e, 0x67, 0x65]
  const SIGNAL: Bytes := [0x73, 0x69, 0x67, 0x6e, 0x61, 0x6c]
  const EXIT_STATUS: Bytes := [0x65, 0x78, 0x69, 0x74, 0x2d, 0x73, 0x74, 0x61, 0x74, 0x75, 0x73]
  const EXIT_SIGNAL: Bytes := [0x65, 0x78, 0x69, 0x74, 0x2d, 0x73, 0x69, 0x67, 0x6e, 0x61, 0x6c]
  const FORWARD_PORT: Bytes := [0x66, 0x6f, 0x72, 0x77, 0x61, 0x72, 0x64, 0x2d, 0x70, 0x6f, 0x72, 0x74]

  datatype ForwardingProtocol = Udp | Tcp

  datatype IpAddr = V4(octets: Bytes) | V6(octets: Bytes) {
    predicate Valid() { |octets| == if V4? then 4 else 16 }

    function Family(): nat { if V4? then 4 else 6 }
  }

  datatype Target = Target(address: IpAddr, port: nat) {
    predicate Valid() { address.Valid() && port < 0x1_0000 }
  }

  datatype ChannelRequest =
    | Pty(term: Bytes, charWidth: nat, charHeight: nat, pixelWidth: nat, pixelHeight: nat, modes: Bytes)
    | X11(singleConnection: bool, authProtocol: Bytes, authCookie: Bytes, screenNumber: nat)
    | Shell
    | Exec(command: Bytes)
    | Subsystem(subsystem: Bytes)
    | WindowChange(newCharWidth: nat, newCharHeight: nat, newPixelWidth: nat, newPixelHeight: nat)
    | Signal(signalName: Bytes)
    | ExitStatus(status: nat)
    | ExitSignal(exitSignalName: Bytes, coreDumped: bool, errorMessage: Bytes, languageTag: Bytes)
    | ForwardPort(protocol: ForwardingProtocol, target: Target)

  datatype Message =
    | Request(wantReply: bool, request: ChannelRequest)
    | OpenConfirmation(maxPacketSize: nat)
    | OpenFailure(reasonCode: nat, failureMessage: Bytes, failureLanguage: Bytes)
    | Data(dataType: nat, data: Bytes)

  /** Every integer fits a varint and no string is longer than `limit`. */
  predicate RequestFits(r: ChannelRequest, limit: nat) {
    match r
    case Pty(term, w, h, pw, ph, modes) =>
      && |term| <= limit && |modes| <= limit
      && w <= MAX_VARINT_8 && h <= MAX_VARINT_8 && pw <= MAX_VARINT_8 && ph <= MAX_VARINT_8
    case X11(_, protocol, cookie, screen) => |protocol| <= limit && |cookie| <= limit && screen <= MAX_VARINT_8
    case Shell => true
    case Exec(command) => |command| <= limit
    case Subsystem(name) => |name| <= limit
    case WindowChange(w, h, pw, ph) =>
      w <= MAX_VARINT_8 && h <= MAX_VARINT_8 && pw <= MAX_VARINT_8 && ph <= MAX_VARINT_8
    case Signal(name) => |name| <= limit
    case ExitStatus(status) => status <= MAX_VARINT_8
    case ExitSignal(name, _, message, language) => |name| <= limit && |message| <= limit && |language| <= limit
    case ForwardPort(_, target) => target.Valid()
  }

  predicate Fits(m: Message, limit: nat) {
    match m
    case Request(_, r) => RequestFits(r, limit)
    case OpenConfirmation(n) => n <= MAX_VARINT_8
    case OpenFailure(reason, message, language) => reason <= MAX_VARINT_8 && |message| <= limit && |language| <= limit
    case Data(kind, data) => kind <= MAX_VARINT_8 && |data| <= limit
  }

  /** The encoder does not panic. */
  predicate Encodable(m: Message) { Fits(m, MAX_VARINT_8) }

  /** Encodable, and accepted by the peer's string limit. */
  predicate WellFormed(m: Message) { Fits(m, MAX_SSH_STRING_LEN) }

  // ----- The append encoder -----

  function RequestType(r: ChannelRequest): (name: Bytes)
    ensures |name| <= 63
  {
    match r
    case Pty(_, _, _, _, _, _) => PTY_REQ
    case X11(_, _, _, _) => X11_REQ
    case Shell => SHELL
    case Exec(_) => EXEC
    case Subsystem(_) => SUBSYSTEM
    case WindowChange(_, _, _, _) => WINDOW_CHANGE
    case Signal(_) => SIGNAL
    case ExitStatus(_) => EXIT_STATUS
    case ExitSignal(_, _, _, _) => EXIT_SIGNAL
    case ForwardPort(_, _) => FORWARD_PORT
  }

  function Dimensions(w: nat, h: nat, pw: nat, ph: nat): Bytes
    requires w <= MAX_VARINT_8 && h <= MAX_VARINT_8 && pw <= MAX_VARINT_8 && ph <= MAX_VARINT_8
  {
    VarInt(w) + (VarInt(h) + (VarInt(pw) + VarInt(ph)))
  }

  function EncodePort(port: nat): Bytes
    requires port < 0x1_0000
  {
    [port / 0x100, port % 0x100]
  }

  /** The target of a forwarding channel or request. */
  function EncodeTarget(t: Target): Bytes
    requires t.Valid()
  {
    VarInt(t.address.Family()) + (t.address.octets + EncodePort(t.port))
  }

  function ProtocolNumber(p: ForwardingProtocol): nat { if p.Udp? then 0 else 1 }

  function EncodePayload(r: ChannelRequest): Bytes
    requires RequestFits(r, MAX_VARINT_8)
  {
    match r
    case Pty(term, w, h, pw, ph, modes) => SshString(term) + (Dimensions(w, h, pw, ph) + SshString(modes))
    case X11(single, protocol, cookie, screen) =>
      [Flag(single)] + (SshString(protocol) + (SshString(cookie) + VarInt(screen)))
    case Shell => []
    case Exec(command) => SshString(command)
    case Subsystem(name) => SshString(name)
    case WindowChange(w, h, pw, ph) => Dimensions(w, h, pw, ph)
    case Signal(name) => SshString(name)
    case ExitStatus(status) => VarInt(status)
    case ExitSignal(name, core, message, language) =>
      SshString(name) + ([Flag(core)] + (SshString(message) + SshString(language)))
    case ForwardPort(protocol, target) => VarInt(ProtocolNumber(protocol)) + EncodeTarget(target)
  }

  function Encode(m: Message): Bytes
    requires Encodable(m)
  {
    match m
    case Request(reply, r) =>
      VarInt(MSG_REQUEST) + (SshString(RequestType(r)) + ([Flag(reply)] + EncodePayload(r)))
    case OpenConfirmation(n) => VarInt(MSG_OPEN_CONFIRMATION) + VarInt(n)
    case OpenFailure(reason, message, language) =>
      VarInt(MSG_OPEN_FAILURE) + (VarInt(reason) + (SshString(message) + SshString(language)))
    case Data(kind, data) =>
      if kind == DATA_NONE then VarInt(MSG_DATA) + SshString(data)
      else VarInt(MSG_EXTENDED_DATA) + (VarInt(kind) + SshString(data))
  }

  // ----- encoded_len -----

  function PayloadLen(r: ChannelRequest): nat
    requires RequestFits(r, MAX_VARINT_8)
  {
    match r
    case Pty(term, w, h, pw, ph, modes) =>
      SshStringLen(term) + VarIntLen(w) + VarIntLen(h) + VarIntLen(pw) + VarIntLen(ph) + SshStringLen(modes)
    case X11(_, protocol, cookie, screen) => 1 + SshStringLen(protocol) + SshStringLen(cookie) + VarIntLen(screen)
    case Shell => 0
    case Exec(command) => SshStringLen(command)
    case Subsystem(name) => SshStringLen(name)
    case WindowChange(w, h, pw, ph) => VarIntLen(w) + VarIntLen(h) + VarIntLen(pw) + VarIntLen(ph)
    case Signal(name) => SshStringLen(name)
    case ExitStatus(status) => VarIntLen(status)
    case ExitSignal(name, _, message, language) =>
      SshStringLen(name) + 1 + SshStringLen(message) + SshStringLen(language)
    case ForwardPort(protocol, target) =>
      VarIntLen(ProtocolNumber(protocol)) + VarIntLen(target.address.Family()) + |target.address.octets| + 2
  }

  function EncodedLen(m: Message): nat
    requires Encodable(m)
  {
    match m
    case Request(_, r) => VarIntLen(MSG_REQUEST) + SshStringLen(RequestType(r)) + 1 + PayloadLen(r)
    case OpenConfirmation(n) => VarIntLen(MSG_OPEN_CONFIRMATION) + VarIntLen(n)
    case OpenFailure(reason, message, language) =>
      VarIntLen(MSG_OPEN_FAILURE) + VarIntLen(reason) + SshStringLen(message) + SshStringLen(language)
    case Data(kind, data) =>
      if kind == DATA_NONE then VarIntLen(MSG_DATA) + SshStringLen(data)
      else VarIntLen(MSG_EXTENDED_DATA) + VarIntLen(kind) + SshStringLen(data)
  }

  lemma PayloadLenExact(r: ChannelRequest)
    requires RequestFits(r, MAX_VARINT_8)
    ensures |EncodePayload(r)| == PayloadLen(r)
  {
    hide Wire.VarInt, Wire.SshString;
  }

  /** `encoded_len` is the exact length of the encoding. */
  lemma EncodedLenExact(m: Message)
    requires Encodable(m)
    ensures |Encode(m)| == EncodedLen(m)
    ensures |Encode(m)| > 0
  {
    hide Wire.VarInt, Wire.SshString;
    if m.Request? {
      PayloadLenExact(m.request);
    }
  }

  // ----- The parser -----

  function ParsePty(s: Bytes): Parsed<ChannelRequest> {
    var (term, s1) :- ReadSshString(s);
    var (w, s2) :- ReadVarInt(s1);
    var (h, s3) :- ReadVarInt(s2);
    var (pw, s4) :- ReadVarInt(s3);
    var (ph, s5) :- ReadVarInt(s4);
    var (modes, s6) :- ReadSshString(s5);
    Done(Pty(term, w, h, pw, ph, modes), s6)
  }

  function ParseX11(s: Bytes): Parsed<ChannelRequest> {
    var (single, s1) :- ReadBool(s);
    var (protocol, s2) :- ReadSshString(s1);
    var (cookie, s3) :- ReadSshString(s2);
    var (screen, s4) :- ReadVarInt(s3);
    Done(X11(single, protocol, cookie, screen), s4)
  }

  function ParseWindowChange(s: Bytes): Parsed<ChannelRequest> {
    var (w, s1) :- ReadVarInt(s);
    var (h, s2) :- ReadVarInt(s1);
    var (pw, s3) :- ReadVarInt(s2);
    var (ph, s4) :- ReadVarInt(s3);
    Done(WindowChange(w, h, pw, ph), s4)
  }

  function ParseExitSignal(s: Bytes): Parsed<ChannelRequest> {
    var (name, s1) :- ReadSshString(s);
    var (core, s2) :- ReadBool(s1);
    var (message, s3) :- ReadSshString(s2);
    var (language, s4) :- ReadSshString(s3);
    Done(ExitSignal(name, core, message, language), s4)
  }

  /** `parse_forwarding_payload`, and the tail of a forward-port request. */
  function ParseTarget(s: Bytes): Parsed<Target> {
    var (family, s1) :- ReadVarInt(s);
    if family != 4 && family != 6 then Fail(InvalidAddressFamily(family)) else
    var (octets, s2) :- ReadExact(s1, if family == 4 then 4 else 16);
    var (port, s3) :- ReadExact(s2, 2);
    Done(Target(if family == 4 then V4(octets) else V6(octets), port[0] as int * 0x100 + port[1]), s3)
  }

  function ParseForwardPort(s: Bytes): Parsed<ChannelRequest> {
    var (protocol, s1) :- ReadVarInt(s);
    if protocol > 1 then Fail(InvalidForwardingProtocol(protocol)) else
    var (target, s2) :- ParseTarget(s1);
    Done(ForwardPort(if protocol == 0 then Udp else Tcp, target), s2)
  }

  function ParseRequest(name: Bytes, s: Bytes): Parsed<ChannelRequest> {
    if name == PTY_REQ then ParsePty(s)
    else if name == X11_REQ then ParseX11(s)
    else if name == SHELL then Done(Shell, s)
    else if name == EXEC then var (command, s1) :- ReadSshString(s); Done(Exec(command), s1)
    else if name == SUBSYSTEM then var (subsystem, s1) :- ReadSshString(s); Done(Subsystem(subsystem), s1)
    else if name == WINDOW_CHANGE then ParseWindowChange(s)
    else if name == SIGNAL then var (signal, s1) :- ReadSshString(s); Done(Signal(signal), s1)
    else if name == EXIT_STATUS then var (status, s1) :- ReadVarInt(s); Done(ExitStatus(status), s1)
    else if name == EXIT_SIGNAL then ParseExitSignal(s)
    else if name == FORWARD_PORT then ParseForwardPort(s)
    else Fail(UnknownRequestType(name))
  }

  function ParseRequestMessage(s: Bytes): Parsed<Message> {
    var (name, s1) :- ReadSshString(s);
    var (reply, s2) :- ReadBool(s1);
    var (request, s3) :- ParseRequest(name, s2);
    Done(Request(reply, request), s3)
  }

  function ParseOpenFailure(s: Bytes): Parsed<Message> {
    var (reason, s1) :- ReadVarInt(s);
    var (message, s2) :- ReadSshString(s1);
    var (language, s3) :- ReadSshString(s2);
    Done(OpenFailure(reason, message, language), s3)
  }

  function ParseExtendedData(s: Bytes): Parsed<Message> {
    var (kind, s1) :- ReadVarInt(s);
    var (data, s2) :- ReadSshString(s1);
    Done(Data(kind, data), s2)
  }

  /** `Message::parse`. */
  function Parse(s: Bytes): Parsed<Message> {
    var (kind, s1) :- ReadVarInt(s);
    if kind == MSG_REQUEST then ParseRequestMessage(s1)
    else if kind == MSG_OPEN_CONFIRMATION then var (n, s2) :- ReadVarInt(s1); Done(OpenConfirmation(n), s2)
    else if kind == MSG_OPEN_FAILURE then ParseOpenFailure(s1)
    else if kind == MSG_DATA then var (data, s2) :- ReadSshString(s1); Done(Data(DATA_NONE, data), s2)
    else if kind == MSG_EXTENDED_DATA then ParseExtendedData(s1)
    else Fail(UnknownMessageType(kind))
  }

  // ----- Parsing undoes encoding -----

  lemma PtyRoundTrip(r: ChannelRequest, tail: Bytes)
    requires r.Pty? && RequestFits(r, MAX_SSH_STRING_LEN)
    ensures ParsePty(EncodePayload(r) + tail) == Done(r, tail)
  {
    hide Wire.ReadVarInt, Wire.VarInt, Wire.ReadSshString, Wire.SshString;
    var t5 := SshString(r.modes) + tail;
    var t4 := VarInt(r.pixelHeight) + t5;
    var t3 := VarInt(r.pixelWidth) + t4;
    var t2 := VarInt(r.charHeight) + t3;
    var t1 := VarInt(r.charWidth) + t2;
    assert EncodePayload(r) + tail == SshString(r.term) + t1;
    SshStringRoundTrip(r.term, t1);
    VarIntRoundTrip(r.charWidth, t2);
    VarIntRoundTrip(r.charHeight, t3);
    VarIntRoundTrip(r.pixelWidth, t4);
    VarIntRoundTrip(r.pixelHeight, t5);
    SshStringRoundTrip(r.modes, tail);
  }

  lemma WindowChangeRoundTrip(r: ChannelRequest, tail: Bytes)
    requires r.WindowChange? && RequestFits(r, MAX_SSH_STRING_LEN)
    ensures ParseWindowChange(EncodePayload(r) + tail) == Done(r, tail)
  {
    hide Wire.ReadVarInt, Wire.VarInt;
    var t3 := VarInt(r.newPixelHeight) + tail;
    var t2 := VarInt(r.newPixelWidth) + t3;
    var t1 := VarInt(r.newCharHeight) + t2;
    assert EncodePayload(r) + tail == VarInt(r.newCharWidth) + t1;
    VarIntRoundTrip(r.newCharWidth, t1);
    VarIntRoundTrip(r.newCharHeight, t2);
    VarIntRoundTrip(r.newPixelWidth, t3);
    VarIntRoundTrip(r.newPixelHeight, tail);
  }

  lemma FlagRoundTrip(b: bool, tail: Bytes)
    ensures ReadBool([Flag(b)] + tail) == Done(b, tail)
  {
    assert ([Flag(b)] + tail)[1..] == tail;
  }

  lemma X11RoundTrip(r: ChannelRequest, tail: Bytes)
    requires r.X11? && RequestFits(r, MAX_SSH_STRING_LEN)
    ensures ParseX11(EncodePayload(r) + tail) == Done(r, tail)
  {
    hide Wire.ReadVarInt, Wire.VarInt, Wire.ReadSshString, Wire.SshString, Wire.ReadBool;
    var t3 := VarInt(r.screenNumber) + tail;
    var t2 := SshString(r.authCookie) + t3;
    var t1 := SshString(r.authProtocol) + t2;
    assert EncodePayload(r) + tail == [Flag(r.singleConnection)] + t1;
    FlagRoundTrip(r.singleConnection, t1);
    SshStringRoundTrip(r.authProtocol, t2);
    SshStringRoundTrip(r.authCookie, t3);
    VarIntRoundTrip(r.screenNumber, tail);
  }

  lemma ExitSignalRoundTrip(r: ChannelRequest, tail: Bytes)
    requires r.ExitSignal? && RequestFits(r, MAX_SSH_STRING_LEN)
    ensures ParseExitSignal(EncodePayload(r) + tail) == Done(r, tail)
  {
    hide Wire.ReadVarInt, Wire.VarInt, Wire.ReadSshString, Wire.SshString, Wire.ReadBool;
    var t3 := SshString(r.languageTag) + tail;
    var t2 := SshString(r.errorMessage) + t3;
    var t1 := [Flag(r.coreDumped)] + t2;
    assert EncodePayload(r) + tail == SshString(r.exitSignalName) + t1;
    SshStringRoundTrip(r.exitSignalName, t1);
    FlagRoundTrip(r.coreDumped, t2);
    SshStringRoundTrip(r.errorMessage, t3);
    SshStringRoundTrip(r.languageTag, tail);
  }

  lemma TargetRoundTrip(t: Target, tail: Bytes)
    requires t.Valid()
    ensures ParseTarget(EncodeTarget(t) + tail) == Done(t, tail)
  {
    hide Wire.ReadVarInt, Wire.VarInt;
    var t2 := EncodePort(t.port) + tail;
    var t1 := t.address.octets + t2;
    assert EncodeTarget(t) + tail == VarInt(t.address.Family()) + t1;
    VarIntRoundTrip(t.address.Family(), t1);
    assert t1[..|t.address.octets|] == t.address.octets && t1[|t.address.octets|..] == t2;
    assert t2[..2] == EncodePort(t.port) && t2[2..] == tail;
  }

  lemma ForwardPortRoundTrip(r: ChannelRequest, tail: Bytes)
    requires r.ForwardPort? && RequestFits(r, MAX_SSH_STRING_LEN)
    ensures ParseForwardPort(EncodePayload(r) + tail) == Done(r, tail)
  {
    hide Wire.ReadVarInt, Wire.VarInt, EncodeTarget, ParseTarget;
    var t1 := EncodeTarget(r.target) + tail;
    assert EncodePayload(r) + tail == VarInt(ProtocolNumber(r.protocol)) + t1;
    VarIntRoundTrip(ProtocolNumber(r.protocol), t1);
    TargetRoundTrip(r.target, tail);
  }

  /** Each request type name selects the parser of its own payload. */
  lemma RequestRoundTrip(r: ChannelRequest, tail: Bytes)
    requires RequestFits(r, MAX_SSH_STRING_LEN)
    ensures ParseRequest(RequestType(r), EncodePayload(r) + tail) == Done(r, tail)
  {
    hide Wire.ReadVarInt, Wire.VarInt, Wire.ReadSshString, Wire.SshString;
    hide ParsePty, ParseX11, ParseWindowChange, ParseExitSignal, ParseForwardPort;
    match r
    case Pty(_, _, _, _, _, _) => PtyRoundTrip(r, tail);
    case X11(_, _, _, _) => X11RoundTrip(r, tail);
    case Shell => assert EncodePayload(r) + tail == tail;
    case Exec(command) => SshStringRoundTrip(command, tail);
    case Subsystem(name) => SshStringRoundTrip(name, tail);
    case WindowChange(_, _, _, _) => WindowChangeRoundTrip(r, tail);
    case Signal(name) => SshStringRoundTrip(name, tail);
    case ExitStatus(status) => VarIntRoundTrip(status, tail);
    case ExitSignal(_, _, _, _) => ExitSignalRoundTrip(r, tail);
    case ForwardPort(_, _) => ForwardPortRoundTrip(r, tail);
  }

  lemma RequestMessageRoundTrip(m: Message, tail: Bytes)
    requires m.Request? && WellFormed(m)
    ensures ParseRequestMessage(
              SshString(RequestType(m.request)) + ([Flag(m.wantReply)] + (EncodePayload(m.request) + tail)))
            == Done(m, tail)
  {
    hide Wire.ReadSshString, Wire.SshString, Wire.ReadBool, ParseRequest, EncodePayload;
    var t2 := EncodePayload(m.request) + tail;
    var t1 := [Flag(m.wantReply)] + t2;
    SshStringRoundTrip(RequestType(m.request), t1);
    FlagRoundTrip(m.wantReply, t2);
    RequestRoundTrip(m.request, tail);
  }

  lemma OpenFailureRoundTrip(m: Message, tail: Bytes)
    requires m.OpenFailure? && WellFormed(m)
    ensures ParseOpenFailure(
              VarInt(m.reasonCode) + (SshString(m.failureMessage) + (SshString(m.failureLanguage) + tail)))
            == Done(m, tail)
  {
    hide Wire.ReadVarInt, Wire.VarInt, Wire.ReadSshString, Wire.SshString;
    var t2 := SshString(m.failureLanguage) + tail;
    var t1 := SshString(m.failureMessage) + t2;
    VarIntRoundTrip(m.reasonCode, t1);
    SshStringRoundTrip(m.failureMessage, t2);
    SshStringRoundTrip(m.failureLanguage, tail);
  }

  lemma ExtendedDataRoundTrip(kind: nat, data: Bytes, tail: Bytes)
    requires kind <= MAX_VARINT_8 && |data| <= MAX_SSH_STRING_LEN
    ensures ParseExtendedData(VarInt(kind) + (SshString(data) + tail)) == Done(Data(kind, data), tail)
  {
    hide Wire.ReadVarInt, Wire.VarInt, Wire.ReadSshString, Wire.SshString;
    VarIntRoundTrip(kind, SshString(data) + tail);
    SshStringRoundTrip(data, tail);
  }

  function MessageKind(m: Message): (k: nat)
    ensures k <= MAX_VARINT_8
  {
    match m
    case Request(_, _) => MSG_REQUEST
    case OpenConfirmation(_) => MSG_OPEN_CONFIRMATION
    case OpenFailure(_, _, _) => MSG_OPEN_FAILURE
    case Data(kind, _) => if kind == DATA_NONE then MSG_DATA else MSG_EXTENDED_DATA
  }

  /** What follows the message type in an encoding followed by `tail`. */
  function EncodeBody(m: Message, tail: Bytes): Bytes
    requires Encodable(m)
  {
    match m
    case Request(reply, r) => SshString(RequestType(r)) + ([Flag(reply)] + (EncodePayload(r) + tail))
    case OpenConfirmation(n) => VarInt(n) + tail
    case OpenFailure(reason, message, language) => VarInt(reason) + (SshString(message) + (SshString(language) + tail))
    case Data(kind, data) =>
      if kind == DATA_NONE then SshString(data) + tail else VarInt(kind) + (SshString(data) + tail)
  }

  lemma EncodeSplit(m: Message, tail: Bytes)
    requires Encodable(m)
    ensures Encode(m) + tail == VarInt(MessageKind(m)) + EncodeBody(m, tail)
  {
    hide Wire.VarInt, Wire.SshString, EncodePayload, RequestType;
    var kind := VarInt(MessageKind(m));
    match m
    case Request(reply, r) => Regroup4(kind, SshString(RequestType(r)), [Flag(reply)], EncodePayload(r), tail);
    case OpenConfirmation(n) => Regroup2(kind, VarInt(n), tail);
    case OpenFailure(reason, message, language) =>
      Regroup4(kind, VarInt(reason), SshString(message), SshString(language), tail);
    case Data(k, data) =>
      if k == DATA_NONE {
        Regroup2(kind, SshString(data), tail);
      } else {
        Regroup2(VarInt(k), SshString(data), tail);
        Regroup2(kind, VarInt(k) + SshString(data), tail);
      }
  }

  lemma Regroup2(a: Bytes, b: Bytes, tail: Bytes)
    ensures (a + b) + tail == a + (b + tail)
  {
  }

  lemma Regroup4(a: Bytes, b: Bytes, c: Bytes, d: Bytes, tail: Bytes)
    ensures (a + (b + (c + d))) + tail == a + (b + (c + (d + tail)))
  {
    Regroup2(c, d, tail);
    Regroup2(b, c + d, tail);
    Regroup2(a, b + (c + d), tail);
  }

  /** `Message::parse` undoes `Message::encode`, whatever follows on the stream. */
  lemma RoundTrip(m: Message, tail: Bytes)
    requires WellFormed(m)
    ensures Parse(Encode(m) + tail) == Done(m, tail)
  {
    hide Wire.ReadVarInt, Wire.VarInt, Wire.ReadSshString, Wire.SshString, Encode;
    hide ParseRequestMessage, ParseOpenFailure, ParseExtendedData, EncodePayload;
    EncodeSplit(m, tail);
    VarIntRoundTrip(MessageKind(m), EncodeBody(m, tail));
    match m
    case Request(_, _) => RequestMessageRoundTrip(m, tail);
    case OpenConfirmation(n) => VarIntRoundTrip(n, tail);
    case OpenFailure(_, _, _) => OpenFailureRoundTrip(m, tail);
    case Data(kind, data) =>
      if kind == DATA_NONE {
        SshStringRoundTrip(data, tail);
      } else {
        ExtendedDataRoundTrip(kind, data, tail);
      }
  }

  // ----- Streams of messages -----

  predicate AllWellFormed(ms: seq<Message>) { forall i :: 0 <= i < |ms| ==> WellFormed(ms[i]) }

  function EncodeAll(ms: seq<Message>): Bytes
    requires AllWellFormed(ms)
  {
    if ms == [] then [] else Encode(ms[0]) + EncodeAll(ms[1..])
  }

  function ParseMany(s: Bytes, n: nat): Parsed<seq<Message>>
    decreases n
  {
    if n == 0 then Done([], s)
    else
      match Parse(s)
      case Fail(e) => Fail(e)
      case Done(m, s1) =>
        match ParseMany(s1, n - 1)
        case Fail(e) => Fail(e)
        case Done(ms, s2) => Done([m] + ms, s2)
  }

  /** Repeated parsing of concatenated encodings returns exactly the messages and leaves
      whatever followed them. */
  lemma {:induction false} StreamRoundTrip(ms: seq<Message>, tail: Bytes)
    requires AllWellFormed(ms)
    ensures ParseMany(EncodeAll(ms) + tail, |ms|) == Done(ms, tail)
  {
    hide Parse, Encode;
    if ms == [] {
      assert EncodeAll(ms) + tail == tail;
    } else {
      var rest := EncodeAll(ms[1..]) + tail;
      assert EncodeAll(ms) + tail == Encode(ms[0]) + rest;
      RoundTrip(ms[0], rest);
      StreamRoundTrip(ms[1..], tail);
      assert ms == [ms[0]] + ms[1..];
    }
  }

  lemma {:induction false} EncodeAllConcat(a: seq<Message>, b: seq<Message>)
    requires AllWellFormed(a) && AllWellFormed(b)
    ensures AllWellFormed(a + b)
    ensures EncodeAll(a + b) == EncodeAll(a) + EncodeAll(b)
  {
    hide Encode;
    if a == [] {
      assert a + b == b;
    } else {
      assert (a + b)[1..] == a[1..] + b;
      EncodeAllConcat(a[1..], b);
    }
  }

  lemma EncodeAllSnoc(ms: seq<Message>, m: Message)
    requires AllWellFormed(ms) && WellFormed(m)
    ensures AllWellFormed(ms + [m])
    ensures EncodeAll(ms + [m]) == EncodeAll(ms) + Encode(m)
  {
    hide Encode;
    EncodeAllConcat(ms, [m]);
    assert EncodeAll([m]) == Encode(m) + EncodeAll([]);
  }

  lemma WellFormedEncodable(m: Message)
    requires WellFormed(m)
    ensures Encodable(m)
  {
  }

  /** No encoding is a proper prefix of another. */
  lemma PrefixFree(m: Message, n: Message)
    requires WellFormed(m) && WellFormed(n)
    requires Encode(m) <= Encode(n)
    ensures m == n
  {
    hide Parse, Encode;
    var tail := Encode(n)[|Encode(m)|..];
    assert Encode(n) == Encode(m) + tail;
    assert Encode(n) + [] == Encode(n);
    RoundTrip(m, tail);
    RoundTrip(n, []);
  }

  // ----- Whatever is accepted has a canonical form -----

  lemma ParseTargetCanonical(s: Bytes)
    ensures var r := ParseTarget(s);
            r.Done? ==> r.value.Valid() && IsSuffix(r.rest, s) && |EncodeTarget(r.value)| + |r.rest| <= |s|
  {
    hide Wire.ReadVarInt, Wire.VarInt;
  }

  /** `r` is a well-formed request of that type, and its minimal encoding is no longer than
      what was read from `s`. */
  predicate CanonicalRequest(name: Bytes, r: Parsed<ChannelRequest>, s: Bytes) {
    r.Done? ==>
      && RequestType(r.value) == name
      && RequestFits(r.value, MAX_SSH_STRING_LEN)
      && IsSuffix(r.rest, s)
      && PayloadLen(r.value) + |r.rest| <= |s|
  }

  lemma ParsePtyCanonical(s: Bytes)
    ensures CanonicalRequest(PTY_REQ, ParsePty(s), s)
  {
    hide Wire.ReadVarInt, Wire.ReadSshString;
  }

  lemma ParseX11Canonical(s: Bytes)
    ensures CanonicalRequest(X11_REQ, ParseX11(s), s)
  {
    hide Wire.ReadVarInt, Wire.ReadSshString;
  }

  lemma ParseWindowChangeCanonical(s: Bytes)
    ensures CanonicalRequest(WINDOW_CHANGE, ParseWindowChange(s), s)
  {
    hide Wire.ReadVarInt, Wire.ReadSshString;
  }

  lemma ParseExitSignalCanonical(s: Bytes)
    ensures CanonicalRequest(EXIT_SIGNAL, ParseExitSignal(s), s)
  {
    hide Wire.ReadVarInt, Wire.ReadSshString;
  }

  lemma ParseForwardPortCanonical(s: Bytes)
    ensures CanonicalRequest(FORWARD_PORT, ParseForwardPort(s), s)
  {
    hide Wire.ReadVarInt, Wire.VarInt, ParseTarget;
    if ReadVarInt(s).Done? {
      ParseTargetCanonical(ReadVarInt(s).rest);
    }
  }

  lemma ParseRequestCanonical(name: Bytes, s: Bytes)
    ensures CanonicalRequest(name, ParseRequest(name, s), s)
  {
    hide Wire.ReadVarInt, Wire.ReadSshString;
    hide ParsePty, ParseX11, ParseWindowChange, ParseExitSignal, ParseForwardPort;
    if name == PTY_REQ {
      ParsePtyCanonical(s);
    } else if name == X11_REQ {
      ParseX11Canonical(s);
    } else if name == WINDOW_CHANGE {
      ParseWindowChangeCanonical(s);
    } else if name == EXIT_SIGNAL {
      ParseExitSignalCanonical(s);
    } else if name == FORWARD_PORT {
      ParseForwardPortCanonical(s);
    }
  }

  /** As CanonicalRequest, for a message of which `n` bytes had been read before `s`. */
  predicate CanonicalMessage(r: Parsed<Message>, n: nat, s: Bytes) {
    r.Done? ==>
      && WellFormed(r.value)
      && IsSuffix(r.rest, s)
      && EncodedLen(r.value) + |r.rest| <= n + |s|
  }

  lemma ParseRequestMessageCanonical(s: Bytes)
    ensures CanonicalMessage(ParseRequestMessage(s), 2, s)
  {
    hide Wire.ReadSshString, ParseRequest, PayloadLen, RequestType, RequestFits;
    if ReadSshString(s).Done? && ReadBool(ReadSshString(s).rest).Done? {
      ParseRequestCanonical(ReadSshString(s).value, ReadBool(ReadSshString(s).rest).rest);
    }
  }

  lemma ParseOpenFailureCanonical(s: Bytes)
    ensures CanonicalMessage(ParseOpenFailure(s), 2, s)
  {
    hide Wire.ReadVarInt, Wire.ReadSshString;
  }

  lemma ParseExtendedDataCanonical(s: Bytes)
    ensures CanonicalMessage(ParseExtendedData(s), 2, s)
  {
    hide Wire.ReadVarInt, Wire.ReadSshString;
  }

  lemma ParseLength(s: Bytes)
    ensures CanonicalMessage(Parse(s), 0, s)
  {
    hide Wire.ReadVarInt, Wire.ReadSshString;
    hide ParseRequestMessage, ParseOpenFailure, ParseExtendedData, PayloadLen, RequestType, RequestFits;
    if ReadVarInt(s).Done? {
      var s1 := ReadVarInt(s).rest;
      ParseRequestMessageCanonical(s1);
      ParseOpenFailureCanonical(s1);
      ParseExtendedDataCanonical(s1);
    }
  }

  /** `m`, read from `s` with `rest` left, has an encoding no longer than what was read, which
      parses to `m` again in front of `tail`. */
  predicate Canonical(s: Bytes, m: Message, rest: Bytes, tail: Bytes) {
    && WellFormed(m)
    && IsSuffix(rest, s)
    && 0 < |Encode(m)| <= |s| - |rest|
    && Parse(Encode(m) + tail) == Done(m, tail)
  }

  /** Whatever bytes are accepted, non-minimal integers and extended data of type 0 included,
      re-encoding the result is no longer than what was consumed and parses to the same
      message. */
  lemma ParseCanonical(s: Bytes, m: Message, rest: Bytes, tail: Bytes)
    requires Parse(s) == Done(m, rest)
    ensures Canonical(s, m, rest, tail)
  {
    hide Parse, Encode, EncodedLen;
    ParseLength(s);
    EncodedLenExact(m);
    RoundTrip(m, tail);
  }
}

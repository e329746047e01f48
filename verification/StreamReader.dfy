/** The asynchronous readers of crates/ssh3-core and crates/ssh3-quinn, which consume a
    receive stream byte by byte. Every method is proved to agree with the parser of
    crates/ssh3-proto on every byte string: same value, same bytes consumed, same error. */
module StreamReader {
  import opened Wire
  import opened Messages
  import opened ChannelHeaders

  /** The reader's result `r`, with `unread` left on the stream, is the parser's outcome. */
  predicate Agrees<T(==)>(p: Parsed<T>, r: Result<T, Error>, unread: Bytes) {
    match p
    case Done(v, rest) => r == Ok(v) && unread == rest
    case Fail(e) => r == Err(e)
  }

  class ReceiveStream {
    /** What the peer sent before closing and this side has not read yet. */
    var unread: Bytes

    constructor (data: Bytes)
      ensures unread == data
    {
      unread := data;
    }

    method ReadExact(n: nat) returns (r: Result<Bytes, Error>)
      modifies this
      ensures Agrees(Wire.ReadExact(old(unread), n), r, unread)
    {
      if |unread| < n {
        unread := [];
        return Err(UnexpectedEof);
      }
      r := Ok(unread[..n]);
      unread := unread[n..];
    }

    method ReadByte() returns (r: Result<byte, Error>)
      modifies this
      ensures Agrees(Wire.ReadByte(old(unread)), r, unread)
    {
      var bytes :- ReadExact(1);
      return Ok(bytes[0]);
    }

    method ReadLongTail(high: nat) returns (r: Result<nat, Error>)
      modifies this
      ensures Agrees(Wire.ReadLongTail(high, old(unread)), r, unread)
    {
      var b5: int :- ReadByte();
      var b6: int :- ReadByte();
      var b7: int :- ReadByte();
      var b8: int :- ReadByte();
      return Ok(b8 + b7 * 0x100 + b6 * 0x1_0000 + b5 * 0x100_0000 + high * 0x1_0000_0000);
    }

    method ReadVarInt() returns (r: Result<nat, Error>)
      modifies this
      ensures Agrees(Wire.ReadVarInt(old(unread)), r, unread)
    {
      hide Wire.ReadLongTail;
      var first: int :- ReadByte();
      var tag, b1 := first / 64, first % 64;
      if tag == 0 { return Ok(b1); }
      var b2: int :- ReadByte();
      if tag == 1 { return Ok(b2 + b1 * 0x100); }
      var b3: int :- ReadByte();
      var b4: int :- ReadByte();
      var high := b4 + b3 * 0x100 + b2 * 0x1_0000 + b1 * 0x100_0000;
      if tag == 2 { return Ok(high); }
      r := ReadLongTail(high);
    }

    method ReadSshBytes() returns (r: Result<Bytes, Error>)
      modifies this
      ensures Agrees(Wire.ReadSshString(old(unread)), r, unread)
    {
      hide Wire.ReadVarInt;
      var length :- ReadVarInt();
      if length > MAX_SSH_STRING_LEN { return Err(InvalidLength(length)); }
      r := ReadExact(length);
    }

    method ReadBool() returns (r: Result<bool, Error>)
      modifies this
      ensures Agrees(Wire.ReadBool(old(unread)), r, unread)
    {
      var b :- ReadByte();
      match b
      case 0 => return Ok(false);
      case 1 => return Ok(true);
      case _ => return Err(InvalidBool(b));
    }

    method ReadPty() returns (r: Result<ChannelRequest, Error>)
      modifies this
      ensures Agrees(ParsePty(old(unread)), r, unread)
    {
      hide Wire.ReadVarInt, Wire.ReadSshString;
      var term :- ReadSshBytes();
      var w :- ReadVarInt();
      var h :- ReadVarInt();
      var pw :- ReadVarInt();
      var ph :- ReadVarInt();
      var modes :- ReadSshBytes();
      return Ok(Pty(term, w, h, pw, ph, modes));
    }

    method ReadX11() returns (r: Result<ChannelRequest, Error>)
      modifies this
      ensures Agrees(ParseX11(old(unread)), r, unread)
    {
      hide Wire.ReadVarInt, Wire.ReadSshString, Wire.ReadBool;
      var single :- ReadBool();
      var protocol :- ReadSshBytes();
      var cookie :- ReadSshBytes();
      var screen :- ReadVarInt();
      return Ok(X11(single, protocol, cookie, screen));
    }

    method ReadWindowChange() returns (r: Result<ChannelRequest, Error>)
      modifies this
      ensures Agrees(ParseWindowChange(old(unread)), r, unread)
    {
      hide Wire.ReadVarInt;
      var w :- ReadVarInt();
      var h :- ReadVarInt();
      var pw :- ReadVarInt();
      var ph :- ReadVarInt();
      return Ok(WindowChange(w, h, pw, ph));
    }

    method ReadExitSignal() returns (r: Result<ChannelRequest, Error>)
      modifies this
      ensures Agrees(ParseExitSignal(old(unread)), r, unread)
    {
      hide Wire.ReadSshString, Wire.ReadBool;
      var name :- ReadSshBytes();
      var core :- ReadBool();
      var message :- ReadSshBytes();
      var language :- ReadSshBytes();
      return Ok(ExitSignal(name, core, message, language));
    }

    /** `read_forwarding_target` of crates/ssh3-quinn, and the same steps inside
        `read_channel_request` of crates/ssh3-core. */
    method ReadForwardingTarget() returns (r: Result<Target, Error>)
      modifies this
      ensures Agrees(ParseTarget(old(unread)), r, unread)
    {
      hide Wire.ReadVarInt;
      var family :- ReadVarInt();
      if family != 4 && family != 6 { return Err(InvalidAddressFamily(family)); }
      var octets :- ReadExact(if family == 4 then 4 else 16);
      var port :- ReadExact(2);
      return Ok(Target(if family == 4 then V4(octets) else V6(octets), port[0] as int * 0x100 + port[1]));
    }

    method ReadForwardPort() returns (r: Result<ChannelRequest, Error>)
      modifies this
      ensures Agrees(ParseForwardPort(old(unread)), r, unread)
    {
      hide Wire.ReadVarInt, ParseTarget;
      var protocol :- ReadVarInt();
      if protocol > 1 { return Err(InvalidForwardingProtocol(protocol)); }
      var target :- ReadForwardingTarget();
      return Ok(ForwardPort(if protocol == 0 then Udp else Tcp, target));
    }

    method ReadRequestPayload(name: Bytes) returns (r: Result<ChannelRequest, Error>)
      modifies this
      ensures Agrees(ParseRequest(name, old(unread)), r, unread)
    {
      hide Wire.ReadVarInt, Wire.ReadSshString;
      hide ParsePty, ParseX11, ParseWindowChange, ParseExitSignal, ParseForwardPort;
      if name == PTY_REQ {
        r := ReadPty();
      } else if name == X11_REQ {
        r := ReadX11();
      } else if name == SHELL {
        r := Ok(Shell);
      } else if name == EXEC {
        var command :- ReadSshBytes();
        r := Ok(Exec(command));
      } else if name == SUBSYSTEM {
        var subsystem :- ReadSshBytes();
        r := Ok(Subsystem(subsystem));
      } else if name == WINDOW_CHANGE {
        r := ReadWindowChange();
      } else if name == SIGNAL {
        var signal :- ReadSshBytes();
        r := Ok(Signal(signal));
      } else if name == EXIT_STATUS {
        var status :- ReadVarInt();
        r := Ok(ExitStatus(status));
      } else if name == EXIT_SIGNAL {
        r := ReadExitSignal();
      } else if name == FORWARD_PORT {
        r := ReadForwardPort();
      } else {
        r := Err(UnknownRequestType(name));
      }
    }

    /** `read_channel_request`. */
    method ReadChannelRequest() returns (r: Result<Message, Error>)
      modifies this
      ensures Agrees(ParseRequestMessage(old(unread)), r, unread)
    {
      hide Wire.ReadSshString, Wire.ReadBool, ParseRequest;
      var name :- ReadSshBytes();
      var reply :- ReadBool();
      var request :- ReadRequestPayload(name);
      return Ok(Request(reply, request));
    }

    method ReadOpenFailure() returns (r: Result<Message, Error>)
      modifies this
      ensures Agrees(ParseOpenFailure(old(unread)), r, unread)
    {
      hide Wire.ReadVarInt, Wire.ReadSshString;
      var reason :- ReadVarInt();
      var message :- ReadSshBytes();
      var language :- ReadSshBytes();
      return Ok(OpenFailure(reason, message, language));
    }

    /** `parse_message`: reads one message from the stream exactly as `Message::parse` does. */
    method ParseMessage() returns (r: Result<Message, Error>)
      modifies this
      ensures Agrees(Parse(old(unread)), r, unread)
    {
      hide Wire.ReadVarInt, Wire.ReadSshString, ParseRequestMessage, ParseOpenFailure;
      var kind :- ReadVarInt();
      if kind == MSG_REQUEST {
        r := ReadChannelRequest();
      } else if kind == MSG_OPEN_CONFIRMATION {
        var n :- ReadVarInt();
        r := Ok(OpenConfirmation(n));
      } else if kind == MSG_OPEN_FAILURE {
        r := ReadOpenFailure();
      } else if kind == MSG_DATA {
        var data :- ReadSshBytes();
        r := Ok(Data(DATA_NONE, data));
      } else if kind == MSG_EXTENDED_DATA {
        var dataType :- ReadVarInt();
        var data :- ReadSshBytes();
        r := Ok(Data(dataType, data));
      } else {
        r := Err(UnknownMessageType(kind));
      }
    }

    /** `read_incoming_channel` of crates/ssh3-quinn: reads the opening of a stream exactly as
        the header and forwarding parsers of crates/ssh3-proto do. */
    method ReadIncomingChannel() returns (r: Result<IncomingChannel, Error>)
      modifies this
      ensures Agrees(ParseIncoming(old(unread)), r, unread)
    {
      hide Wire.ReadVarInt, Wire.ReadSshString, ParseTarget;
      var frameType :- ReadVarInt();
      if frameType != SSH_FRAME_TYPE { return Err(UnexpectedFrameType(frameType)); }
      var conversation :- ReadVarInt();
      var channelType :- ReadSshBytes();
      var size :- ReadVarInt();
      var header := Header(conversation, channelType, size);
      if !IsForwarding(channelType) { return Ok(IncomingChannel(header, None)); }
      var target :- ReadForwardingTarget();
      return Ok(IncomingChannel(header, Some(target)));
    }
  }
}

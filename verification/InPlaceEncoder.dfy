/** The Go encoder: every `Write` fills a caller-supplied buffer at a running offset. A Go slice
    `buf[off:]` is the array together with the offset. The methods are proved to leave exactly
    the bytes of the append encoder, and to leave everything around them alone. */
module InPlaceEncoder {
  import opened Wire
  import opened Messages

  /** `b` with the bytes from `off` on overwritten by `x`. */
  ghost function Splice(b: Bytes, off: nat, x: Bytes): (r: Bytes)
    requires off + |x| <= |b|
    ensures |r| == |b|
  {
    b[..off] + x + b[off + |x|..]
  }

  lemma SpliceTwice(b: Bytes, off: nat, x: Bytes, y: Bytes)
    requires off + |x| + |y| <= |b|
    ensures Splice(Splice(b, off, x), off + |x|, y) == Splice(b, off, x + y)
  {
    var r := Splice(b, off, x);
    assert r[..off + |x|] == b[..off] + x;
    assert r[off + |x| + |y|..] == b[off + |x| + |y|..];
  }

  lemma SpliceNothing(b: Bytes, off: nat)
    requires off <= |b|
    ensures Splice(b, off, []) == b
  {
  }

  /** Go's built-in `copy`: as much as fits. */
  method Copy(buf: array<byte>, off: nat, src: Bytes) returns (n: nat)
    requires off <= buf.Length
    modifies buf
    ensures n == if |src| <= buf.Length - off then |src| else buf.Length - off
    ensures buf[..] == Splice(old(buf[..]), off, src[..n])
  {
    n := 0;
    while n < |src| && off + n < buf.Length
      invariant 0 <= n <= |src| && off + n <= buf.Length
      invariant forall k :: 0 <= k < n ==> buf[off + k] == src[k]
      invariant forall k :: 0 <= k < off || off + n <= k < buf.Length ==> buf[k] == old(buf[k])
    {
      buf[off + n] := src[n];
      n := n + 1;
    }
    assert buf[..] == Splice(old(buf[..]), off, src[..n]);
  }

  /** `util.WriteSSHString`: refuses a buffer that is too small, untouched. */
  method WriteSshString(buf: array<byte>, off: nat, s: Bytes) returns (n: nat, ok: bool)
    requires off <= buf.Length && |s| <= MAX_VARINT_8
    modifies buf
    ensures ok <==> SshStringLen(s) <= buf.Length - off
    ensures !ok ==> n == 0 && buf[..] == old(buf[..])
    ensures ok ==> n == SshStringLen(s) && buf[..] == Splice(old(buf[..]), off, SshString(s))
  {
    hide Wire.VarInt;
    if buf.Length - off < SshStringLen(s) {
      return 0, false;
    }
    var prefix := VarInt(|s|);
    n := Copy(buf, off, prefix);
    assert prefix[..n] == prefix;
    var copied := Copy(buf, off + n, s);
    assert s[..copied] == s;
    SpliceTwice(old(buf[..]), off, prefix, s);
    n, ok := n + copied, true;
  }

  /** A varint copied into the buffer, which has room for it. */
  method WriteVarInt(buf: array<byte>, off: nat, v: nat) returns (n: nat)
    requires v <= MAX_VARINT_8 && off + VarIntLen(v) <= buf.Length
    modifies buf
    ensures n == VarIntLen(v)
    ensures buf[..] == Splice(old(buf[..]), off, VarInt(v))
  {
    hide Wire.VarInt;
    n := Copy(buf, off, VarInt(v));
    assert VarInt(v)[..n] == VarInt(v);
  }

  method WriteFlag(buf: array<byte>, off: nat, b: bool)
    requires off < buf.Length
    modifies buf
    ensures buf[..] == Splice(old(buf[..]), off, [Flag(b)])
  {
    buf[off] := if b then 1 else 0;
  }

  predicate AllVarInts(vs: seq<nat>) { forall i :: 0 <= i < |vs| ==> vs[i] <= MAX_VARINT_8 }

  function VarInts(vs: seq<nat>): Bytes
    requires AllVarInts(vs)
  {
    if vs == [] then [] else VarInts(vs[..|vs| - 1]) + VarInt(vs[|vs| - 1])
  }

  /** The loop of the window-size writers over the four dimensions. */
  method AppendAttributes(attrs: seq<nat>) returns (r: Bytes)
    requires AllVarInts(attrs)
    ensures r == VarInts(attrs)
  {
    hide Wire.VarInt;
    r := [];
    for i := 0 to |attrs|
      invariant r == VarInts(attrs[..i])
    {
      assert attrs[..i + 1][..i] == attrs[..i];
      r := r + VarInt(attrs[i]);
    }
    assert attrs[..|attrs|] == attrs;
  }

  lemma DimensionsAreVarInts(w: nat, h: nat, pw: nat, ph: nat)
    requires w <= MAX_VARINT_8 && h <= MAX_VARINT_8 && pw <= MAX_VARINT_8 && ph <= MAX_VARINT_8
    ensures VarInts([w, h, pw, ph]) == Dimensions(w, h, pw, ph)
    ensures |Dimensions(w, h, pw, ph)| == VarIntLen(w) + VarIntLen(h) + VarIntLen(pw) + VarIntLen(ph)
  {
    hide Wire.VarInt;
    assert [w, h, pw, ph][..3] == [w, h, pw];
    assert [w, h, pw][..2] == [w, h];
    assert [w, h][..1] == [w];
    assert VarInts([w]) == VarInt(w) by { assert [w][..0] == []; }
    assert VarInts([w, h]) == VarInt(w) + VarInt(h);
    assert VarInts([w, h, pw]) == VarInt(w) + VarInt(h) + VarInt(pw);
  }

  method WriteDimensions(buf: array<byte>, off: nat, w: nat, h: nat, pw: nat, ph: nat) returns (n: nat)
    requires w <= MAX_VARINT_8 && h <= MAX_VARINT_8 && pw <= MAX_VARINT_8 && ph <= MAX_VARINT_8
    requires off + VarIntLen(w) + VarIntLen(h) + VarIntLen(pw) + VarIntLen(ph) <= buf.Length
    modifies buf
    ensures n == |Dimensions(w, h, pw, ph)| == VarIntLen(w) + VarIntLen(h) + VarIntLen(pw) + VarIntLen(ph)
    ensures buf[..] == Splice(old(buf[..]), off, Dimensions(w, h, pw, ph))
  {
    hide Wire.VarInt, Dimensions;
    var attrs := AppendAttributes([w, h, pw, ph]);
    DimensionsAreVarInts(w, h, pw, ph);
    n := Copy(buf, off, attrs);
    assert attrs[..n] == attrs;
  }

  method WritePty(buf: array<byte>, off: nat, r: ChannelRequest) returns (n: nat, ok: bool)
    requires off <= buf.Length && r.Pty? && RequestFits(r, MAX_VARINT_8)
    modifies buf
    ensures ok <==> PayloadLen(r) <= buf.Length - off
    ensures !ok ==> n == 0 && buf[..] == old(buf[..])
    ensures ok ==> n == PayloadLen(r) == |EncodePayload(r)| && buf[..] == Splice(old(buf[..]), off, EncodePayload(r))
  {
    hide Splice, Wire.VarInt, Wire.SshString, Dimensions;
    if buf.Length - off < PayloadLen(r) {
      return 0, false;
    }
    ghost var before := buf[..];
    n, ok := WriteSshString(buf, off, r.term);
    var copied := WriteDimensions(buf, off + n, r.charWidth, r.charHeight, r.pixelWidth, r.pixelHeight);
    ghost var dimensions := Dimensions(r.charWidth, r.charHeight, r.pixelWidth, r.pixelHeight);
    SpliceTwice(before, off, SshString(r.term), dimensions);
    n := n + copied;
    copied, ok := WriteSshString(buf, off + n, r.modes);
    SpliceTwice(before, off, SshString(r.term) + dimensions, SshString(r.modes));
    assert EncodePayload(r) == SshString(r.term) + dimensions + SshString(r.modes);
    n := n + copied;
  }

  method WriteX11(buf: array<byte>, off: nat, r: ChannelRequest) returns (n: nat, ok: bool)
    requires off <= buf.Length && r.X11? && RequestFits(r, MAX_VARINT_8)
    modifies buf
    ensures ok <==> PayloadLen(r) <= buf.Length - off
    ensures !ok ==> n == 0 && buf[..] == old(buf[..])
    ensures ok ==> n == PayloadLen(r) == |EncodePayload(r)| && buf[..] == Splice(old(buf[..]), off, EncodePayload(r))
  {
    hide Splice, Wire.VarInt, Wire.SshString;
    if buf.Length - off < PayloadLen(r) {
      return 0, false;
    }
    ghost var before := buf[..];
    ghost var flag := [Flag(r.singleConnection)];
    WriteFlag(buf, off, r.singleConnection);
    n := 1;
    var copied;
    copied, ok := WriteSshString(buf, off + n, r.authProtocol);
    SpliceTwice(before, off, flag, SshString(r.authProtocol));
    n := n + copied;
    copied, ok := WriteSshString(buf, off + n, r.authCookie);
    SpliceTwice(before, off, flag + SshString(r.authProtocol), SshString(r.authCookie));
    n := n + copied;
    copied := WriteVarInt(buf, off + n, r.screenNumber);
    SpliceTwice(before, off, flag + SshString(r.authProtocol) + SshString(r.authCookie), VarInt(r.screenNumber));
    n := n + copied;
    assert EncodePayload(r) == flag + SshString(r.authProtocol) + SshString(r.authCookie) + VarInt(r.screenNumber);
  }

  method WriteExitSignal(buf: array<byte>, off: nat, r: ChannelRequest) returns (n: nat, ok: bool)
    requires off <= buf.Length && r.ExitSignal? && RequestFits(r, MAX_VARINT_8)
    modifies buf
    ensures ok <==> PayloadLen(r) <= buf.Length - off
    ensures !ok ==> n == 0 && buf[..] == old(buf[..])
    ensures ok ==> n == PayloadLen(r) == |EncodePayload(r)| && buf[..] == Splice(old(buf[..]), off, EncodePayload(r))
  {
    hide Splice, Wire.VarInt, Wire.SshString;
    if buf.Length - off < PayloadLen(r) {
      return 0, false;
    }
    ghost var before := buf[..];
    ghost var name, flag := SshString(r.exitSignalName), [Flag(r.coreDumped)];
    n, ok := WriteSshString(buf, off, r.exitSignalName);
    WriteFlag(buf, off + n, r.coreDumped);
    SpliceTwice(before, off, name, flag);
    n := n + 1;
    var copied;
    copied, ok := WriteSshString(buf, off + n, r.errorMessage);
    SpliceTwice(before, off, name + flag, SshString(r.errorMessage));
    n := n + copied;
    copied, ok := WriteSshString(buf, off + n, r.languageTag);
    SpliceTwice(before, off, name + flag + SshString(r.errorMessage), SshString(r.languageTag));
    n := n + copied;
    assert EncodePayload(r) == name + flag + SshString(r.errorMessage) + SshString(r.languageTag);
  }

  /** The `Write` of any of the nine registered request types. */
  method WritePayload(buf: array<byte>, off: nat, r: ChannelRequest) returns (n: nat, ok: bool)
    requires off <= buf.Length && !r.ForwardPort? && RequestFits(r, MAX_VARINT_8)
    modifies buf
    ensures ok <==> PayloadLen(r) <= buf.Length - off
    ensures !ok ==> n == 0 && buf[..] == old(buf[..])
    ensures ok ==> n == PayloadLen(r) == |EncodePayload(r)| && buf[..] == Splice(old(buf[..]), off, EncodePayload(r))
  {
    hide Splice, Wire.VarInt, Wire.SshString, Dimensions;
    match r
    case Pty(_, _, _, _, _, _) => n, ok := WritePty(buf, off, r);
    case X11(_, _, _, _) => n, ok := WriteX11(buf, off, r);
    case Shell =>
      SpliceNothing(buf[..], off);
      n, ok := 0, true;
    case Exec(command) => n, ok := WriteSshString(buf, off, command);
    case Subsystem(name) => n, ok := WriteSshString(buf, off, name);
    case WindowChange(w, h, pw, ph) =>
      if buf.Length - off < PayloadLen(r) {
        return 0, false;
      }
      n := WriteDimensions(buf, off, w, h, pw, ph);
      ok := true;
    case Signal(name) => n, ok := WriteSshString(buf, off, name);
    case ExitStatus(status) =>
      if buf.Length - off < PayloadLen(r) {
        return 0, false;
      }
      n := WriteVarInt(buf, off, status);
      ok := true;
    case ExitSignal(_, _, _, _) => n, ok := WriteExitSignal(buf, off, r);
  }

  /** `ChannelRequestMessage.Write`. */
  method WriteRequest(buf: array<byte>, m: Message) returns (n: nat, ok: bool)
    requires m.Request? && !m.request.ForwardPort? && Encodable(m)
    modifies buf
    ensures ok <==> EncodedLen(m) <= buf.Length
    ensures !ok ==> n == 0 && buf[..] == old(buf[..])
    ensures ok ==> n == EncodedLen(m) == |Encode(m)| && buf[..] == Splice(old(buf[..]), 0, Encode(m))
  {
    hide Splice, Wire.VarInt, Wire.SshString, EncodePayload, PayloadLen, RequestType, RequestFits;
    if buf.Length < EncodedLen(m) {
      return 0, false;
    }
    ghost var before := buf[..];
    ghost var kind, name, flag := VarInt(MSG_REQUEST), SshString(RequestType(m.request)), [Flag(m.wantReply)];
    n := WriteVarInt(buf, 0, MSG_REQUEST);
    var copied;
    copied, ok := WriteSshString(buf, n, RequestType(m.request));
    SpliceTwice(before, 0, kind, name);
    n := n + copied;
    WriteFlag(buf, n, m.wantReply);
    SpliceTwice(before, 0, kind + name, flag);
    n := n + 1;
    copied, ok := WritePayload(buf, n, m.request);
    SpliceTwice(before, 0, kind + name + flag, EncodePayload(m.request));
    n := n + copied;
    assert Encode(m) == kind + name + flag + EncodePayload(m.request);
  }

  /** `ChannelOpenConfirmationMessage.Write` copies without checking: a short buffer silently
      receives a prefix. */
  method WriteOpenConfirmation(buf: array<byte>, m: Message) returns (n: nat)
    requires m.OpenConfirmation? && Encodable(m)
    modifies buf
    ensures n == if |Encode(m)| <= buf.Length then |Encode(m)| else buf.Length
    ensures buf[..] == Splice(old(buf[..]), 0, Encode(m)[..n])
  {
    hide Wire.VarInt;
    n := Copy(buf, 0, VarInt(MSG_OPEN_CONFIRMATION) + VarInt(m.maxPacketSize));
  }

  /** `ChannelOpenFailureMessage.Write`. */
  method WriteOpenFailure(buf: array<byte>, m: Message) returns (n: nat, ok: bool)
    requires m.OpenFailure? && Encodable(m)
    modifies buf
    ensures ok <==> EncodedLen(m) <= buf.Length
    ensures !ok ==> n == 0 && buf[..] == old(buf[..])
    ensures ok ==> n == EncodedLen(m) == |Encode(m)| && buf[..] == Splice(old(buf[..]), 0, Encode(m))
  {
    hide Splice, Wire.VarInt, Wire.SshString;
    if buf.Length < EncodedLen(m) {
      return 0, false;
    }
    ghost var before := buf[..];
    ghost var head, message := VarInt(MSG_OPEN_FAILURE) + VarInt(m.reasonCode), SshString(m.failureMessage);
    n := Copy(buf, 0, VarInt(MSG_OPEN_FAILURE) + VarInt(m.reasonCode));
    assert head[..n] == head;
    var copied;
    copied, ok := WriteSshString(buf, n, m.failureMessage);
    SpliceTwice(before, 0, head, message);
    n := n + copied;
    copied, ok := WriteSshString(buf, n, m.failureLanguage);
    SpliceTwice(before, 0, head + message, SshString(m.failureLanguage));
    n := n + copied;
    assert Encode(m) == head + message + SshString(m.failureLanguage);
  }

  /** `DataOrExtendedDataMessage.Write` has no size check of its own; it fails exactly when the
      payload no longer fits behind what it has copied. */
  method WriteData(buf: array<byte>, m: Message) returns (n: nat, ok: bool)
    requires m.Data? && Encodable(m)
    modifies buf
    ensures ok <==> EncodedLen(m) <= buf.Length
    ensures !ok ==> n == 0
    ensures ok ==> n == EncodedLen(m) == |Encode(m)| && buf[..] == Splice(old(buf[..]), 0, Encode(m))
  {
    hide Splice, Wire.VarInt, Wire.SshString;
    ghost var before := buf[..];
    ghost var head := VarInt(MSG_DATA);
    if m.dataType == DATA_NONE {
      n := Copy(buf, 0, VarInt(MSG_DATA));
    } else {
      head := VarInt(MSG_EXTENDED_DATA) + VarInt(m.dataType);
      n := Copy(buf, 0, VarInt(MSG_EXTENDED_DATA));
      var copied := Copy(buf, n, VarInt(m.dataType));
      if |head| <= buf.Length {
        assert VarInt(MSG_EXTENDED_DATA)[..n] == VarInt(MSG_EXTENDED_DATA);
        assert VarInt(m.dataType)[..copied] == VarInt(m.dataType);
        SpliceTwice(before, 0, VarInt(MSG_EXTENDED_DATA), VarInt(m.dataType));
      }
      n := n + copied;
    }
    assert |head| <= buf.Length ==> n == |head| && buf[..] == Splice(before, 0, head) by {
      assert m.dataType == DATA_NONE && |head| <= buf.Length ==> VarInt(MSG_DATA)[..n] == VarInt(MSG_DATA);
    }
    var copied;
    copied, ok := WriteSshString(buf, n, m.data);
    if !ok {
      return 0, false;
    }
    SpliceTwice(before, 0, head, SshString(m.data));
    n := n + copied;
    assert Encode(m) == head + SshString(m.data);
  }

  /** `make([]byte, m.Length())` followed by `m.Write`, as in `sendMessage` and `WriteData`: the
      buffer is exactly the append encoder's output, with nothing left over and no error. */
  method ToBuffer(m: Message) returns (buf: array<byte>, n: nat, ok: bool)
    requires Encodable(m) && !(m.Request? && m.request.ForwardPort?)
    ensures fresh(buf)
    ensures ok && n == buf.Length == EncodedLen(m)
    ensures buf[..] == Encode(m)
  {
    hide Encode, EncodedLen, Encodable;
    buf := new byte[EncodedLen(m)](_ => 0);
    EncodedLenExact(m);
    match m
    case Request(_, _) => n, ok := WriteRequest(buf, m);
    case OpenConfirmation(_) =>
      n := WriteOpenConfirmation(buf, m);
      ok := true;
    case OpenFailure(_, _, _) => n, ok := WriteOpenFailure(buf, m);
    case Data(_, _) => n, ok := WriteData(buf, m);
  }
}

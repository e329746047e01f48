/** The client's version negotiation: one request with this version and, when the server forbids it
    and speaks another known protocol version, one more with that version. */
module Negotiation {
  import opened Wire
  import opened Text
  import opened Versions

  /** What a request leads to: no response, or a status and the Server header. */
  datatype Reply = NoReply | Reply(status: nat, server: string)

  datatype Outcome =
    | RequestFailed
    | InvalidServer(text: string)
    | Established(peer: Version)
    | Unauthorized
    | OtherStatus(status: nat)

  /** The server's version; Go's zero value when the header does not parse. */
  function ServerVersion(reply: Reply): Version
    requires reply.Reply?
  {
    var v := Parse(reply.server);
    if v.Ok? then v.value else ZERO_VERSION
  }

  /** The errors of `doReq`. */
  function RequestError(reply: Reply): Option<Outcome> {
    if reply.NoReply? then Some(RequestFailed)
    else if Parse(reply.server).Err? && reply.status == 200 then Some(InvalidServer(reply.server))
    else None
  }

  /** What the client makes of its last reply. */
  function Conclusion(reply: Reply): Outcome {
    if RequestError(reply).Some? then RequestError(reply).value
    else if reply.status == 200 then Established(ServerVersion(reply))
    else if reply.status == 401 then Unauthorized
    else OtherStatus(reply.status)
  }

  predicate Forbidden(reply: Reply) {
    reply.Reply? && reply.status == 403 && ServerVersion(reply).protocol != THIS_VERSION.protocol
  }

  predicate Known(supported: seq<Version>, p: ProtocolVersion) {
    exists i :: 0 <= i < |supported| && supported[i].protocol == p
  }

  /** The version to retry with: the server's own, or the first one with its protocol version. */
  predicate Chosen(supported: seq<Version>, server: Version, i: nat) {
    && i < |supported|
    && (if server in supported then supported[i] == server
        else supported[i].protocol == server.protocol
             && forall j :: 0 <= j < i ==> supported[j].protocol != server.protocol)
  }

  // ----- The server's protocol version is free of white space -----

  lemma ParsedProtocol(s: string)
    requires NoSpace(s) && ParseProtocolVersion(s).Ok?
    ensures NoSpace(ParseProtocolVersion(s).value.spec)
  {
    hide Split, Atoi;
    if |Split(s, '_')| == 2 {
      SplitPieces(s, '_', 1);
    }
  }

  lemma ParsedSpec(s: string)
    requires Parse(s).Ok?
    ensures NoSpace(Parse(s).value.protocol.spec)
  {
    hide Fields, ParseProtocolVersion, ParseSoftwareVersion, SpecAfter, NoSpace;
    FieldsAreWords(s);
    var fields := Fields(s);
    ParsedProtocol(fields[1]);
    assert forall i :: 0 <= i < |fields[4..]| ==> fields[4..][i] == fields[i + 4];
    SpecAfterFree(ParseProtocolVersion(fields[1]).value.spec, fields[4..]);
  }

  lemma ServerSpec(reply: Reply)
    requires reply.Reply?
    ensures NoSpace(ServerVersion(reply).protocol.spec)
  {
    hide Parse;
    if Parse(reply.server).Ok? {
      ParsedSpec(reply.server);
    }
  }

  lemma NoSpaceConcat(a: string, b: string)
    requires NoSpace(a) && NoSpace(b)
    ensures NoSpace(a + b)
  {
  }

  lemma NameHasNoSpace()
    ensures NoSpace(SOFTWARE_NAME)
  {
    assert NoSpace("franco");
    assert NoSpace("ismich");
    assert NoSpace("el/ssh3");
    hide NoSpace;
    NoSpaceConcat("franco", "ismich");
    NoSpaceConcat("franco" + "ismich", "el/ssh3");
    assert "francoismichel/ssh3" == ("franco" + "ismich") + "el/ssh3";
  }

  lemma ThisIsPrintable()
    ensures Printable(THIS_VERSION) && forall patch :: Printable(OldVersion(patch))
  {
    NameHasNoSpace();
    assert NoSpace("SSH") && NoSpace("alpha-00") && NoSpace("") && '=' !in "alpha-00";
    hide NoSpace;
  }

  /** Every version the client can fall back to survives printing. */
  lemma AvailablePrintable(i: nat)
    requires i < |AVAILABLE_CLIENT_VERSIONS|
    ensures Printable(AVAILABLE_CLIENT_VERSIONS[i])
  {
    hide Printable;
    ThisIsPrintable();
  }

  /** The version string tells the peer this protocol version. */
  predicate Carries(text: string, p: ProtocolVersion) {
    Parse(text).Ok? && Parse(text).value.protocol == p
  }

  /** A version with another protocol version, if it is the server's, prints differently. */
  lemma RetryDiffers(reply: Reply, v: Version)
    requires Forbidden(reply) && v.protocol == ServerVersion(reply).protocol
    ensures Print(v) != Print(THIS_VERSION)
  {
    hide Print, Printable;
    ServerSpec(reply);
    ThisIsPrintable();
    if Print(v) == Print(THIS_VERSION) {
      PrintInjective(v, THIS_VERSION);
    }
  }

  // ----- The client -----

  method FindVersion(supported: seq<Version>, v: Version) returns (index: int)
    ensures index == -1 <==> v !in supported
    ensures index != -1 ==> 0 <= index < |supported| && supported[index] == v
  {
    for i := 0 to |supported|
      invariant v !in supported[..i]
    {
      if supported[i] == v {
        return i;
      }
    }
    return -1;
  }

  method FindProtocol(supported: seq<Version>, p: ProtocolVersion) returns (index: int)
    ensures index == -1 <==> !Known(supported, p)
    ensures index != -1 ==> 0 <= index < |supported| && supported[index].protocol == p
    ensures index != -1 ==> forall j :: 0 <= j < index ==> supported[j].protocol != p
  {
    for i := 0 to |supported|
      invariant forall j :: 0 <= j < i ==> supported[j].protocol != p
    {
      if supported[i].protocol == p {
        return i;
      }
    }
    return -1;
  }

  /** `doReq`: an unreadable Server header is an error only with a 200. */
  method DoRequest(reply: Reply) returns (server: Version, error: Option<Outcome>)
    ensures error == RequestError(reply)
    ensures reply.Reply? ==> server == ServerVersion(reply)
  {
    hide Parse;
    server := ZERO_VERSION;
    if reply.NoReply? {
      return server, Some(RequestFailed);
    }
    var parsed := Parse(reply.server);
    if parsed.Ok? {
      return parsed.value, None;
    }
    error := if reply.status == 200 then Some(InvalidServer(reply.server)) else None;
  }

  /** At most two requests; the second is sent exactly when the first was forbidden and the server's
      protocol version is known, it is the chosen version, and its string is never the first one. */
  method Establish(supported: seq<Version>, first: Reply, second: Reply) returns (sent: seq<string>, outcome: Outcome)
    ensures 1 <= |sent| <= 2 && sent[0] == Print(THIS_VERSION)
    ensures |sent| == 2 <==> Forbidden(first) && Known(supported, ServerVersion(first).protocol)
    ensures |sent| == 2 ==> sent[1] != sent[0]
    ensures |sent| == 2 ==> exists i: nat ::
      && Chosen(supported, ServerVersion(first), i) && supported[i].protocol == ServerVersion(first).protocol
      && sent[1] == Print(supported[i])
    ensures |sent| == 2 && (forall i :: 0 <= i < |supported| ==> Printable(supported[i])) ==>
      Carries(sent[1], ServerVersion(first).protocol)
    ensures outcome == Conclusion(if |sent| == 2 then second else first)
  {
    hide Print, Parse, Printable;
    sent := [Print(THIS_VERSION)];
    var reply := first;
    var server, error := DoRequest(reply);
    if error.Some? {
      return sent, error.value;
    }
    if reply.status == 403 && server.protocol != THIS_VERSION.protocol {
      var index := FindVersion(supported, server);
      if index == -1 {
        index := FindProtocol(supported, server.protocol);
      }
      if index != -1 {
        assert Chosen(supported, server, index);
        RetryDiffers(first, supported[index]);
        if Printable(supported[index]) {
          RoundTrip(supported[index]);
        }
        sent := sent + [Print(supported[index])];
        reply := second;
        server, error := DoRequest(reply);
        if error.Some? {
          return sent, error.value;
        }
      }
    }
    if reply.status == 200 {
      outcome := Established(server);
    } else if reply.status == 401 {
      outcome := Unauthorized;
    } else {
      outcome := OtherStatus(reply.status);
    }
  }

  /** With the client's own list a retry always tells the server its own protocol version. */
  lemma RetryCarriesProtocol(server: Version, i: nat)
    requires Chosen(AVAILABLE_CLIENT_VERSIONS, server, i)
    ensures Carries(Print(AVAILABLE_CLIENT_VERSIONS[i]), server.protocol)
  {
    hide Parse, Print, Printable;
    AvailablePrintable(i);
    RoundTrip(AVAILABLE_CLIENT_VERSIONS[i]);
  }
}

/** Concurrent `send_message`, `write_data` and `maybe_send_header` calls on one Rust channel. A call
    takes the header out of the channel before it waits for the send lock, writes the header under
    the lock, releases it, and takes the lock again for its own messages. A schedule names the call
    that moves next; what is written under one lock is one step. Stream writes succeed. */
module CoreSendInterleaving {
  import opened Wire
  import opened Messages
  import opened ChannelHeaders

  /** The opened channel, and for each call the messages it sends. */
  datatype Config = Config(channel: IncomingChannel, calls: map<nat, seq<Message>>) {
    predicate Valid() { channel.WellFormed() && forall t :: t in calls ==> AllWellFormed(calls[t]) }
  }

  datatype Pc = Idle | HasHeader | Ready | Finished

  datatype State = State(
    header: bool,        // still in the channel
    written: bool,       // on the stream
    pcs: map<nat, Pc>,   // Idle when absent
    stream: Bytes,
    log: seq<Message>,   // every message written
    early: nat)          // how many of them were written before the header
  {
    function Pc(t: nat): Pc { if t in pcs then pcs[t] else Idle }
  }

  function Init(): State { State(true, false, map[], [], [], 0) }

  function Step(c: Config, s: State, t: nat): State
    requires c.Valid()
  {
    if t !in c.calls then s
    else match s.Pc(t)
      case Idle => s.(header := false, pcs := s.pcs[t := if s.header then HasHeader else Ready])
      case HasHeader =>
        s.(stream := s.stream + EncodeIncoming(c.channel), written := true, early := |s.log|, pcs := s.pcs[t := Ready])
      case Ready =>
        s.(stream := s.stream + EncodeAll(c.calls[t]), log := s.log + c.calls[t], pcs := s.pcs[t := Finished])
      case Finished => s
  }

  function Run(c: Config, schedule: seq<nat>): State
    requires c.Valid()
  {
    if schedule == [] then Init() else Step(c, Run(c, schedule[..|schedule| - 1]), schedule[|schedule| - 1])
  }

  // ----- Where the header is -----

  /** The stream is the messages in the order of their calls, with the header after the early ones. */
  predicate StreamOk(c: Config, s: State)
    requires c.Valid()
  {
    && AllWellFormed(s.log) && s.early <= |s.log|
    && s.stream == if s.written
                   then EncodeAll(s.log[..s.early]) + (EncodeIncoming(c.channel) + EncodeAll(s.log[s.early..]))
                   else EncodeAll(s.log)
  }

  /** One call takes the header, and it is the one that writes it. */
  ghost predicate HeaderOk(s: State) {
    && (s.header ==> !s.written && s.log == [] && forall t: nat :: s.Pc(t).Idle?)
    && (forall t: nat :: s.Pc(t).HasHeader? ==> !s.written)
    && (forall t: nat, u: nat :: s.Pc(t).HasHeader? && s.Pc(u).HasHeader? ==> t == u)
  }

  lemma StepHeaderOk(c: Config, s: State, t: nat)
    requires c.Valid() && HeaderOk(s)
    ensures HeaderOk(Step(c, s, t))
  {
    hide EncodeIncoming, EncodeAll;
    var s' := Step(c, s, t);
    assert forall u: nat :: u != t ==> s'.Pc(u) == s.Pc(u);
  }

  lemma StepStreamOk(c: Config, s: State, t: nat)
    requires c.Valid() && HeaderOk(s) && StreamOk(c, s)
    ensures StreamOk(c, Step(c, s, t))
  {
    hide EncodeIncoming, EncodeAll, WellFormed;
    if t in c.calls {
      var ms, h := c.calls[t], EncodeIncoming(c.channel);
      match s.Pc(t)
      case HasHeader =>
        assert s.log[..|s.log|] == s.log && s.log[|s.log|..] == [];
        assert EncodeAll([]) == [] by { Nothing(); }
        assert EncodeAll(s.log) + h == EncodeAll(s.log) + (h + []);
      case Ready =>
        var k := s.early;
        EncodeAllConcat(s.log, ms);
        EncodeAllConcat(s.log[k..], ms);
        assert (s.log + ms)[..k] == s.log[..k] && (s.log + ms)[k..] == s.log[k..] + ms;
        var x, y, z := EncodeAll(s.log[..k]), EncodeAll(s.log[k..]), EncodeAll(ms);
        assert (x + (h + y)) + z == x + (h + (y + z));
      case _ =>
    }
  }

  lemma Nothing()
    ensures EncodeAll([]) == []
  {
  }

  lemma {:induction false} RunOk(c: Config, schedule: seq<nat>)
    requires c.Valid()
    ensures HeaderOk(Run(c, schedule)) && StreamOk(c, Run(c, schedule))
  {
    hide Step;
    if schedule == [] {
      Nothing();
    } else {
      var before, t := schedule[..|schedule| - 1], schedule[|schedule| - 1];
      RunOk(c, before);
      StepHeaderOk(c, Run(c, before), t);
      StepStreamOk(c, Run(c, before), t);
    }
  }

  // ----- What the peer makes of it -----

  /** A stream that begins with a message is refused: its type is not the frame type. */
  lemma MessageIsNoHeader(m: Message, tail: Bytes)
    requires WellFormed(m)
    ensures ParseIncoming(Encode(m) + tail) == Fail(UnexpectedFrameType(MessageKind(m)))
  {
    hide Wire.ReadVarInt, Wire.VarInt, Encode, EncodeBody, ParseHeader;
    WellFormedEncodable(m);
    EncodeSplit(m, tail);
    VarIntRoundTrip(MessageKind(m), EncodeBody(m, tail));
  }

  /** In every interleaving, once the header is written: the peer reads the channel and is left with
      all the messages if and only if none was written before the header; otherwise it takes the
      first message for a header and refuses the channel. */
  lemma HeaderFirstIff(c: Config, schedule: seq<nat>)
    requires c.Valid() && Run(c, schedule).written
    ensures var s := Run(c, schedule);
            && AllWellFormed(s.log) && s.early <= |s.log|
            && (s.early == 0 ==> ParseIncoming(s.stream) == Done(c.channel, EncodeAll(s.log)))
            && (s.early > 0 ==> ParseIncoming(s.stream) == Fail(UnexpectedFrameType(MessageKind(s.log[0]))))
  {
    hide Run, Step, ParseIncoming, EncodeIncoming, Encode, WellFormed;
    RunOk(c, schedule);
    var s := Run(c, schedule);
    if s.early == 0 {
      assert s.log[..0] == [] && s.log[0..] == s.log;
      assert s.stream == EncodeIncoming(c.channel) + EncodeAll(s.log) by { Nothing(); }
      IncomingRoundTrip(c.channel, EncodeAll(s.log));
    } else {
      var first, tail := s.log[..s.early], EncodeIncoming(c.channel) + EncodeAll(s.log[s.early..]);
      WellFormedEncodable(first[0]);
      assert EncodeAll(first) + tail == Encode(first[0]) + (EncodeAll(first[1..]) + tail);
      MessageIsNoHeader(first[0], EncodeAll(first[1..]) + tail);
    }
  }

  /** A call writes messages while another one holds the header. */
  predicate Overtakes(c: Config, s: State, t: nat) {
    t in c.calls && s.Pc(t).Ready? && c.calls[t] != [] && !s.written
  }

  ghost predicate SomeOvertakes(c: Config, schedule: seq<nat>)
    requires c.Valid()
  {
    exists i :: 0 <= i < |schedule| && Overtakes(c, Run(c, schedule[..i]), schedule[i])
  }

  /** Which schedules those are: a message comes before the header if and only if its call wrote it
      between another call's taking the header and writing it. */
  lemma {:induction false} EarlyIff(c: Config, schedule: seq<nat>)
    requires c.Valid()
    ensures var s := Run(c, schedule);
            SomeOvertakes(c, schedule) <==> if s.written then s.early > 0 else s.log != []
  {
    hide Run, EncodeIncoming, EncodeAll;
    if schedule == [] {
      RunStep(c, schedule);
    } else {
      var n := |schedule| - 1;
      var before := schedule[..n];
      EarlyIff(c, before);
      RunOk(c, before);
      SomeSnoc(c, schedule);
      assert Run(c, schedule) == Step(c, Run(c, before), schedule[n]) by { RunStep(c, schedule); }
    }
  }

  lemma RunStep(c: Config, schedule: seq<nat>)
    requires c.Valid()
    ensures Run(c, []) == Init()
    ensures schedule != [] ==> Run(c, schedule) == Step(c, Run(c, schedule[..|schedule| - 1]), schedule[|schedule| - 1])
  {
  }

  lemma SomeSnoc(c: Config, schedule: seq<nat>)
    requires c.Valid() && schedule != []
    ensures var n := |schedule| - 1;
      SomeOvertakes(c, schedule) <==>
        SomeOvertakes(c, schedule[..n]) || Overtakes(c, Run(c, schedule[..n]), schedule[n])
  {
    hide Run, Overtakes;
    var n := |schedule| - 1;
    var before := schedule[..n];
    assert forall i :: 0 <= i < n ==> before[..i] == schedule[..i] && before[i] == schedule[i];
    if SomeOvertakes(c, before) {
      var i :| 0 <= i < |before| && Overtakes(c, Run(c, before[..i]), before[i]);
      assert Overtakes(c, Run(c, schedule[..i]), schedule[i]);
    }
    if SomeOvertakes(c, schedule) {
      var i :| 0 <= i < |schedule| && Overtakes(c, Run(c, schedule[..i]), schedule[i]);
      assert i < n ==> Overtakes(c, Run(c, before[..i]), before[i]);
    }
  }

  /** The race: call `t` takes the header, call `u` finds none to send and writes its messages, and
      only then `t` writes the header. */
  lemma HeaderOvertaken(c: Config, t: nat, u: nat)
    requires c.Valid() && t in c.calls && u in c.calls && t != u && c.calls[u] != []
    ensures var s := Run(c, [t, u, u, t]); s.written && s.log == c.calls[u] && s.early == |c.calls[u]| > 0
  {
    hide EncodeIncoming, EncodeAll, Run;
    assert [t, u, u, t][..3] == [t, u, u] && [t, u, u][..2] == [t, u] && [t, u][..1] == [t] && [t][..0] == [];
    RunStep(c, [t, u, u, t]);
    RunStep(c, [t, u, u]);
    RunStep(c, [t, u]);
    RunStep(c, [t]);
  }

  lemma {:induction false} FirstCallFirst(c: Config, schedule: seq<nat>)
    requires c.Valid() && |schedule| >= 2 && schedule[0] == schedule[1] && schedule[0] in c.calls
    ensures Run(c, schedule).written && Run(c, schedule).early == 0
  {
    hide EncodeIncoming, EncodeAll, Run;
    var n := |schedule| - 1;
    var before := schedule[..n];
    RunStep(c, schedule);
    if n == 1 {
      RunStep(c, before);
      assert before == [schedule[0]] && before[..0] == [];
    } else {
      FirstCallFirst(c, before);
      RunOk(c, before);
    }
  }

  /** The caller's rule: if one call takes and writes the header before any other moves, as the
      forwarding open functions see to, the peer reads the channel and all the messages, whatever
      follows. */
  lemma HeaderSentFirst(c: Config, schedule: seq<nat>)
    requires c.Valid() && |schedule| >= 2 && schedule[0] == schedule[1] && schedule[0] in c.calls
    ensures AllWellFormed(Run(c, schedule).log)
    ensures ParseIncoming(Run(c, schedule).stream) == Done(c.channel, EncodeAll(Run(c, schedule).log))
  {
    hide Run, ParseIncoming, EncodeAll;
    FirstCallFirst(c, schedule);
    HeaderFirstIff(c, schedule);
  }

  // ----- What is written, and that calls finish -----

  /** The messages of the calls, one call after the other. */
  function CallsInOrder(c: Config, order: seq<nat>): seq<Message>
    requires forall t :: t in order ==> t in c.calls
  {
    if order == [] then [] else CallsInOrder(c, order[..|order| - 1]) + c.calls[order[|order| - 1]]
  }

  predicate Distinct(order: seq<nat>) {
    forall i, j :: 0 <= i < j < |order| ==> order[i] != order[j]
  }

  /** In every interleaving the messages on the stream are those of the finished calls, each call's
      exactly once and together, in the order the calls finished. */
  lemma {:induction false} LogOrder(c: Config, schedule: seq<nat>) returns (order: seq<nat>)
    requires c.Valid()
    ensures Distinct(order)
    ensures forall t: nat :: t in order <==> t in c.calls && Run(c, schedule).Pc(t).Finished?
    ensures Run(c, schedule).log == CallsInOrder(c, order)
  {
    hide EncodeIncoming, EncodeAll, Run;
    RunStep(c, schedule);
    order := [];
    if schedule != [] {
      var before, t := schedule[..|schedule| - 1], schedule[|schedule| - 1];
      order := LogOrder(c, before);
      var s, s' := Run(c, before), Run(c, schedule);
      assert forall u: nat :: u != t ==> s'.Pc(u) == s.Pc(u);
      if t in c.calls && s.Pc(t).Ready? {
        var longer := order + [t];
        assert longer[..|order|] == order;
        order := longer;
      }
    }
  }

  /** The header stays in the channel, is on the stream, or is with the call that took it. */
  lemma {:induction false} HeaderNotLost(c: Config, schedule: seq<nat>)
    requires c.Valid()
    ensures var s := Run(c, schedule);
            s.header || s.written || exists t :: t in c.calls && s.Pc(t).HasHeader?
  {
    hide EncodeIncoming, EncodeAll, Run;
    RunStep(c, schedule);
    if schedule != [] {
      var before, t := schedule[..|schedule| - 1], schedule[|schedule| - 1];
      HeaderNotLost(c, before);
      var s, s' := Run(c, before), Run(c, schedule);
      if !s.header && !s.written {
        var u :| u in c.calls && s.Pc(u).HasHeader?;
        assert u != t ==> s'.Pc(u).HasHeader?;
      } else if s.header && t in c.calls {
        RunOk(c, before);
        assert s'.Pc(t).HasHeader?;
      }
    }
  }

  /** From every reachable state a call returns after at most three moves of its own, whatever the
      other calls are at. */
  lemma CallFinishes(c: Config, schedule: seq<nat>, t: nat)
    requires c.Valid() && t in c.calls
    ensures Run(c, schedule + [t, t, t]).Pc(t).Finished?
  {
    hide EncodeIncoming, EncodeAll, Run;
    var one, two, three := schedule + [t], schedule + [t, t], schedule + [t, t, t];
    assert one[..|schedule|] == schedule && two[..|one|] == one && three[..|two|] == two;
    RunStep(c, one);
    RunStep(c, two);
    RunStep(c, three);
  }
}

/** Two endpoints of one channel in crates/ssh3-core, joined by two FIFO byte streams: an opener,
    and an accepter that reads the header and confirms through `accept_channel` before anyone can
    use it. Every send call is atomic; reads wait until a whole message has arrived.
    `wait_for_confirmation` tests its flag before it takes its turn to read, so any number of such
    calls can be between the two when another call reads. */
module Handshake {
  import opened Wire
  import opened Messages
  import opened ChannelHeaders
  import opened CoreChannel

  /** The opened channel, and the packet size the accepter confirms with. */
  datatype Config = Config(channel: IncomingChannel, confirmSize: nat) {
    predicate Valid() { channel.WellFormed() && confirmSize <= MAX_VARINT_8 }
  }

  datatype Stage = Unread | Refused | HeaderRead(seen: IncomingChannel) | Accepted(seen: IncomingChannel)

  datatype State = State(
    headerPending: bool,       // opener: the header has not been sent
    openerConfirmSent: bool,   // set when the channel is opened
    confirmReceived: bool,     // opener
    stage: Stage,              // accepter
    accepterConfirmSent: bool, // set by confirm_channel
    toAccepter: Bytes,         // sent by the opener and not read yet
    toOpener: Bytes,
    openerSent: seq<Message>,  // histories
    accepterSent: seq<Message>,
    openerRead: nat,           // how many of the other side's messages were consumed
    accepterRead: nat,
    openerGot: seq<Outcome>,   // results of next_message
    accepterGot: seq<Outcome>,
    waiting: nat,              // the opener's wait_for_confirmation calls that found the flag unset
    waits: seq<bool>)          // results of wait_for_confirmation

  datatype Event =
    | OpenerSends(messages: seq<Message>)   // send_message, write_data or maybe_send_header
    | AccepterReadsHeader
    | AccepterAccepts
    | AccepterSends(messages: seq<Message>)
    | OpenerNext
    | WaitTests                             // wait_for_confirmation tests the flag
    | WaitReads                             // one that found it unset reads a message
    | AccepterNext

  function Init(): State {
    State(true, true, false, Unread, false, [], [], [], [], 0, 0, [], [], 0, [])
  }

  /** How many messages `next_message` consumes: the confirmations and the one it returns. */
  function Consumed(ms: seq<Message>): nat {
    if ms == [] then 0 else if ms[0].OpenConfirmation? then 1 + Consumed(ms[1..]) else 1
  }

  function After(ms: seq<Message>, k: nat): seq<Message> { if k <= |ms| then ms[k..] else [] }

  /** An end of file is the wait for bytes that are still to come. */
  function Reports(o: Outcome): seq<Outcome> { if o == ReadError(UnexpectedEof) then [] else [o] }

  /** One call. A call that is not possible yet, or that would still be waiting, records no
      result; a waiting `next_message` has still consumed the confirmations it met. */
  function Step(c: Config, s: State, e: Event): State
    requires c.Valid()
  {
    match e
    case OpenerSends(ms) =>
      if !AllWellFormed(ms) then s
      else
        var header := if s.headerPending then EncodeIncoming(c.channel) else [];
        s.(headerPending := false, toAccepter := s.toAccepter + header + EncodeAll(ms), openerSent := s.openerSent + ms)
    case AccepterReadsHeader =>
      if !s.stage.Unread? then s
      else
        var p := ParseIncoming(s.toAccepter);
        if p == Fail(UnexpectedEof) then s
        else if p.Fail? then s.(stage := Refused)
        else s.(stage := HeaderRead(p.value), toAccepter := p.rest)
    case AccepterAccepts =>
      if !s.stage.HeaderRead? then s
      else
        var m := OpenConfirmation(c.confirmSize);
        s.(stage := Accepted(s.stage.seen), accepterConfirmSent := true,
           toOpener := s.toOpener + Encode(m), accepterSent := s.accepterSent + [m])
    case AccepterSends(ms) =>
      if !s.stage.Accepted? || !AllWellFormed(ms) then s
      else s.(toOpener := s.toOpener + EncodeAll(ms), accepterSent := s.accepterSent + ms)
    case OpenerNext =>
      var n := ReadNext(s.openerConfirmSent, s.toOpener);
      s.(confirmReceived := s.confirmReceived || n.confirmed,
         toOpener := n.rest,
         openerRead := s.openerRead + Consumed(After(s.accepterSent, s.openerRead)),
         openerGot := s.openerGot + Reports(n.outcome))
    case WaitTests =>
      if s.confirmReceived then s.(waits := s.waits + [true]) else s.(waiting := s.waiting + 1)
    case WaitReads =>
      var p := Parse(s.toOpener);
      if s.waiting == 0 || p == Fail(UnexpectedEof) then s
      else if p.Fail? then s.(waiting := s.waiting - 1, waits := s.waits + [false])
      else
        s.(confirmReceived := s.confirmReceived || p.value.OpenConfirmation?,
           toOpener := p.rest, openerRead := s.openerRead + 1,
           waiting := s.waiting - 1, waits := s.waits + [p.value.OpenConfirmation?])
    case AccepterNext =>
      if !s.stage.Accepted? then s
      else
        var n := ReadNext(s.accepterConfirmSent, s.toAccepter);
        s.(toAccepter := n.rest,
           accepterRead := s.accepterRead + Consumed(After(s.openerSent, s.accepterRead)),
           accepterGot := s.accepterGot + Reports(n.outcome))
  }

  function Run(c: Config, events: seq<Event>): State
    requires c.Valid()
  {
    if events == [] then Init() else Step(c, Run(c, events[..|events| - 1]), events[|events| - 1])
  }

  // ----- Reading an encoded list -----

  /** What a reader reports for a list of messages: confirmations are invisible. */
  function Visible(ms: seq<Message>): seq<Outcome> {
    if ms == [] then []
    else
      var last := ms[|ms| - 1];
      Visible(ms[..|ms| - 1]) + if last.OpenConfirmation? then [] else [OutcomeOf(true, last)]
  }

  lemma {:induction false} VisibleConcat(a: seq<Message>, b: seq<Message>)
    ensures Visible(a + b) == Visible(a) + Visible(b)
  {
    if b == [] {
      assert a + b == a;
    } else {
      var init := b[..|b| - 1];
      VisibleConcat(a, init);
      assert (a + b)[..|a + b| - 1] == a + init;
    }
  }

  /** `next_message` over encoded messages consumes the leading confirmations and one more
      message, reports that one, and leaves the rest of the encoding. */
  lemma {:induction false} ReadNextEncoded(ms: seq<Message>)
    requires AllWellFormed(ms)
    ensures var n, k := ReadNext(true, EncodeAll(ms)), Consumed(ms);
            && k <= |ms|
            && n.rest == EncodeAll(ms[k..])
            && (n.confirmed <==> ms != [] && ms[0].OpenConfirmation?)
            && Visible(ms[..k]) == Reports(n.outcome)
            && (k > 0 && !ms[k - 1].OpenConfirmation? ==> Answers(n.outcome, ms[k - 1], true))
            && (k == 0 || ms[k - 1].OpenConfirmation? ==> n.outcome == ReadError(UnexpectedEof))
  {
    hide Parse, Encode, WellFormed;
    if ms == [] {
      assert Parse([]) == Fail(UnexpectedEof) by { ParseNothing(); }
    } else {
      var rest := ms[1..];
      RoundTrip(ms[0], EncodeAll(rest));
      assert Visible([ms[0]]) == if ms[0].OpenConfirmation? then [] else [OutcomeOf(true, ms[0])] by {
        assert [ms[0]][..0] == [];
      }
      if ms[0].OpenConfirmation? {
        ReadNextEncoded(rest);
        var k := Consumed(rest);
        assert ms[..k + 1] == [ms[0]] + rest[..k];
        VisibleConcat([ms[0]], rest[..k]);
        assert ms[k + 1..] == rest[k..];
      } else {
        assert ms[..1] == [ms[0]];
      }
    }
  }

  lemma ParseNothing()
    ensures Parse([]) == Fail(UnexpectedEof)
  {
  }

  // ----- The invariant -----

  predicate OpenerStreamOk(c: Config, s: State)
    requires c.Valid()
  {
    && AllWellFormed(s.openerSent)
    && s.accepterRead <= |s.openerSent|
    && s.accepterGot == Visible(s.openerSent[..s.accepterRead])
    && (s.stage.Accepted? ==> s.accepterConfirmSent)
    && (s.headerPending ==> s.openerSent == [] && s.toAccepter == [] && s.stage.Unread?)
    && (!s.headerPending ==>
          if s.stage.Unread? then
            s.accepterRead == 0 && s.toAccepter == EncodeIncoming(c.channel) + EncodeAll(s.openerSent)
          else
            && !s.stage.Refused? && s.stage.seen == c.channel
            && s.toAccepter == EncodeAll(s.openerSent[s.accepterRead..]))
  }

  /** The encodings of the messages from the k-th on. */
  function EncodedFrom(sent: seq<Message>, k: nat): Bytes
    requires AllWellFormed(sent) && k <= |sent|
  {
    EncodeAll(sent[k..])
  }

  predicate Reported(os: seq<Outcome>) { forall i :: 0 <= i < |os| ==> os[i].Got? || os[i].OpenFailed? }

  predicate AllTrue(bs: seq<bool>) { forall i :: 0 <= i < |bs| ==> bs[i] }

  function Failures(bs: seq<bool>): nat {
    if bs == [] then 0 else Failures(bs[..|bs| - 1]) + if bs[|bs| - 1] then 0 else 1
  }

  predicate AccepterStreamOk(s: State) {
    && s.openerConfirmSent
    && AllWellFormed(s.accepterSent)
    && s.openerRead <= |s.accepterSent|
    && Reported(s.openerGot)
    && (AllTrue(s.waits) ==> s.openerGot == Visible(s.accepterSent[..s.openerRead]))
    && |s.openerGot| + Failures(s.waits) == |Visible(s.accepterSent[..s.openerRead])|
    && s.toOpener == EncodedFrom(s.accepterSent, s.openerRead)
    && (s.stage.Accepted? <==> s.accepterSent != [])
    && (s.accepterSent != [] ==> s.accepterSent[0].OpenConfirmation?)
    && (s.confirmReceived <==> s.openerRead > 0)
  }

  /** Appending `ms` to a stream of which `k` messages were read. */
  lemma SentMore(sent: seq<Message>, k: nat, ms: seq<Message>)
    requires AllWellFormed(sent) && AllWellFormed(ms) && k <= |sent|
    ensures AllWellFormed(sent + ms)
    ensures EncodeAll(sent[k..]) + EncodeAll(ms) == EncodeAll((sent + ms)[k..])
    ensures (sent + ms)[..k] == sent[..k]
  {
    hide Encode, WellFormed;
    EncodeAllConcat(sent[k..], ms);
    assert (sent + ms)[k..] == sent[k..] + ms;
  }

  /** Reading on: the results so far are what the messages consumed so far show. */
  lemma ReadMore(sent: seq<Message>, k: nat)
    requires AllWellFormed(sent) && k <= |sent|
    ensures var n, j := ReadNext(true, EncodeAll(sent[k..])), k + Consumed(sent[k..]);
            && j <= |sent|
            && n.rest == EncodeAll(sent[j..])
            && Visible(sent[..j]) == Visible(sent[..k]) + Reports(n.outcome)
            && (j > k <==> k < |sent|)
            && (n.confirmed <==> k < |sent| && sent[k].OpenConfirmation?)
  {
    hide Encode, WellFormed, ReadNext;
    var rest := sent[k..];
    ReadNextEncoded(rest);
    var j := Consumed(rest);
    assert sent[..k + j] == sent[..k] + rest[..j];
    VisibleConcat(sent[..k], rest[..j]);
    assert rest[j..] == sent[k + j..];
  }

  lemma OpenerSendsOk(c: Config, s: State, ms: seq<Message>)
    requires c.Valid() && OpenerStreamOk(c, s) && AllWellFormed(ms)
    ensures OpenerStreamOk(c, Step(c, s, OpenerSends(ms)))
  {
    hide Encode, WellFormed, EncodeIncoming, Visible, EncodeAll;
    SentMore(s.openerSent, s.accepterRead, ms);
    SentMore(s.openerSent, 0, ms);
    assert s.openerSent[0..] == s.openerSent;
    assert (s.openerSent + ms)[0..] == s.openerSent + ms;
    var h := EncodeIncoming(c.channel);
    assert (h + EncodeAll(s.openerSent)) + [] + EncodeAll(ms) == h + (EncodeAll(s.openerSent) + EncodeAll(ms));
    if s.headerPending {
      assert s.openerSent + ms == ms;
      assert [] + h + EncodeAll(ms) == h + EncodeAll(ms);
    }
  }

  lemma ReadsHeaderOk(c: Config, s: State)
    requires c.Valid() && OpenerStreamOk(c, s) && s.stage.Unread?
    ensures OpenerStreamOk(c, Step(c, s, AccepterReadsHeader))
  {
    hide Encode, WellFormed, EncodeIncoming, ParseIncoming, Visible, EncodeAll;
    if s.headerPending {
      NoHeaderYet();
    } else {
      IncomingRoundTrip(c.channel, EncodeAll(s.openerSent));
      assert s.openerSent[0..] == s.openerSent;
    }
  }

  lemma NoHeaderYet()
    ensures ParseIncoming([]) == Fail(UnexpectedEof)
  {
  }

  lemma StepOpenerStream(c: Config, s: State, e: Event)
    requires c.Valid() && OpenerStreamOk(c, s)
    ensures OpenerStreamOk(c, Step(c, s, e))
  {
    hide Encode, WellFormed, EncodeIncoming, ParseIncoming, Visible, EncodeAll, ReadNext, Parse, Consumed;
    match e
    case OpenerSends(ms) =>
      if AllWellFormed(ms) {
        OpenerSendsOk(c, s, ms);
      }
    case AccepterReadsHeader =>
      if s.stage.Unread? {
        ReadsHeaderOk(c, s);
      }
    case AccepterNext => ReadMore(s.openerSent, s.accepterRead);
    case AccepterAccepts =>
    case AccepterSends(_) =>
    case OpenerNext =>
    case WaitTests =>
    case WaitReads =>
  }

  lemma AccepterSendsOk(s: State, ms: seq<Message>)
    requires AccepterStreamOk(s) && AllWellFormed(ms)
    ensures AllWellFormed(s.accepterSent + ms)
    ensures s.toOpener + EncodeAll(ms) == EncodeAll((s.accepterSent + ms)[s.openerRead..])
    ensures (s.accepterSent + ms)[..s.openerRead] == s.accepterSent[..s.openerRead]
  {
    hide Encode, WellFormed, Visible, EncodeAll;
    SentMore(s.accepterSent, s.openerRead, ms);
  }

  lemma OpenerNextOk(c: Config, s: State)
    requires c.Valid() && AccepterStreamOk(s)
    ensures AccepterStreamOk(Step(c, s, OpenerNext))
  {
    hide Encode, WellFormed, Visible, EncodeAll, ReadNext, Parse, Consumed, Failures;
    ReadMore(s.accepterSent, s.openerRead);
    var j := s.openerRead + Consumed(s.accepterSent[s.openerRead..]);
    VisibleReported(s.accepterSent[..j]);
    var n := ReadNext(true, s.toOpener);
    assert Reported(Reports(n.outcome)) by {
      var all, seen := Visible(s.accepterSent[..j]), Visible(s.accepterSent[..s.openerRead]);
      assert Reports(n.outcome) == all[|seen|..];
    }
  }

  /** What the next message is when a wait reads. */
  lemma NextMessage(s: State)
    requires AccepterStreamOk(s)
    ensures s.openerRead == |s.accepterSent| ==> Parse(s.toOpener) == Fail(UnexpectedEof)
    ensures s.openerRead < |s.accepterSent| ==>
      Parse(s.toOpener) == Done(s.accepterSent[s.openerRead], EncodedFrom(s.accepterSent, s.openerRead + 1))
  {
    hide Encode, WellFormed, Parse, Visible, Failures;
    var rest := s.accepterSent[s.openerRead..];
    if rest == [] {
      ParseNothing();
    } else {
      RoundTrip(rest[0], EncodeAll(rest[1..]));
      assert rest[1..] == s.accepterSent[s.openerRead + 1..];
    }
  }

  lemma OneMoreVisible(ms: seq<Message>, k: nat)
    requires k < |ms|
    ensures Visible(ms[..k + 1]) == Visible(ms[..k]) + if ms[k].OpenConfirmation? then [] else [OutcomeOf(true, ms[k])]
  {
    assert ms[..k + 1][..k] == ms[..k];
  }

  lemma OneMoreWait(bs: seq<bool>, b: bool)
    ensures AllTrue(bs + [b]) <==> AllTrue(bs) && b
    ensures Failures(bs + [b]) == Failures(bs) + if b then 0 else 1
  {
    assert (bs + [b])[..|bs|] == bs && (bs + [b])[|bs|] == b;
    assert forall i :: 0 <= i < |bs| ==> (bs + [b])[i] == bs[i];
  }

  lemma WaitTestsOk(c: Config, s: State)
    requires c.Valid() && AccepterStreamOk(s)
    ensures AccepterStreamOk(Step(c, s, WaitTests))
  {
    hide Encode, WellFormed, EncodeAll, Visible, Failures, AllTrue;
    OneMoreWait(s.waits, true);
  }

  lemma WaitReadsOk(c: Config, s: State)
    requires c.Valid() && AccepterStreamOk(s)
    ensures AccepterStreamOk(Step(c, s, WaitReads))
  {
    hide Encode, WellFormed, Parse, EncodeAll, Visible, Failures, AllTrue;
    NextMessage(s);
    if s.openerRead < |s.accepterSent| {
      OneMoreVisible(s.accepterSent, s.openerRead);
      OneMoreWait(s.waits, s.accepterSent[s.openerRead].OpenConfirmation?);
    }
  }

  lemma StepAccepterStream(c: Config, s: State, e: Event)
    requires c.Valid() && AccepterStreamOk(s)
    ensures AccepterStreamOk(Step(c, s, e))
  {
    hide Encode, WellFormed, EncodeIncoming, ParseIncoming, Visible, EncodeAll, ReadNext, Parse, Consumed, Failures;
    match e
    case OpenerSends(_) =>
    case AccepterReadsHeader =>
    case AccepterAccepts =>
      var m := OpenConfirmation(c.confirmSize);
      assert WellFormed(m) by { ConfirmationWellFormed(c.confirmSize); }
      AccepterSendsOk(s, [m]);
      assert EncodeAll([m]) == Encode(m) by { EncodeAllOne(m); }
    case AccepterSends(ms) =>
      if AllWellFormed(ms) {
        AccepterSendsOk(s, ms);
      }
    case OpenerNext => OpenerNextOk(c, s);
    case WaitTests => WaitTestsOk(c, s);
    case WaitReads => WaitReadsOk(c, s);
    case AccepterNext =>
  }

  lemma ConfirmationWellFormed(n: nat)
    requires n <= MAX_VARINT_8
    ensures WellFormed(OpenConfirmation(n))
  {
  }

  lemma EncodeAllOne(m: Message)
    requires WellFormed(m)
    ensures EncodeAll([m]) == Encode(m)
  {
    hide Encode;
    assert [m][1..] == [];
  }

  lemma {:induction false} RunInv(c: Config, events: seq<Event>)
    requires c.Valid()
    ensures OpenerStreamOk(c, Run(c, events)) && AccepterStreamOk(Run(c, events))
  {
    hide Step;
    if events != [] {
      var before, e := Run(c, events[..|events| - 1]), events[|events| - 1];
      RunInv(c, events[..|events| - 1]);
      StepOpenerStream(c, before, e);
      StepAccepterStream(c, before, e);
    }
  }

  // ----- The theorem -----

  lemma {:induction false} VisiblePrefix(ms: seq<Message>, k: nat)
    requires k <= |ms|
    ensures Visible(ms[..k]) <= Visible(ms)
    ensures Reported(Visible(ms[..k]))
  {
    assert ms == ms[..k] + ms[k..];
    VisibleConcat(ms[..k], ms[k..]);
    VisibleReported(ms[..k]);
  }

  lemma {:induction false} VisibleReported(ms: seq<Message>)
    ensures Reported(Visible(ms))
  {
    if ms != [] {
      VisibleReported(ms[..|ms| - 1]);
    }
  }

  /** The messages without the confirmations. */
  function Plain(ms: seq<Message>): seq<Message> {
    if ms == [] then []
    else
      var last := ms[|ms| - 1];
      Plain(ms[..|ms| - 1]) + if last.OpenConfirmation? then [] else [last]
  }

  /** The results are those of the first messages, one by one. */
  predicate ResultsAre(os: seq<Outcome>, ms: seq<Message>) {
    |os| <= |ms| && forall i :: 0 <= i < |os| ==> Answers(os[i], ms[i], true)
  }

  lemma {:induction false} VisibleArePlain(ms: seq<Message>)
    ensures |Visible(ms)| == |Plain(ms)| && ResultsAre(Visible(ms), Plain(ms))
  {
    if ms != [] {
      VisibleArePlain(ms[..|ms| - 1]);
    }
  }

  lemma PrefixResults(os: seq<Outcome>, ms: seq<Message>)
    requires os <= Visible(ms)
    ensures ResultsAre(os, Plain(ms))
  {
    VisibleArePlain(ms);
    hide Visible, Plain;
  }

  /** What the opener's send calls were given. */
  function OpenerMessages(events: seq<Event>): seq<Message> {
    if events == [] then []
    else
      var e := events[|events| - 1];
      OpenerMessages(events[..|events| - 1]) + if e.OpenerSends? && AllWellFormed(e.messages) then e.messages else []
  }

  /** The confirmation, and what the accepter's send calls were given once it could make them. */
  function AccepterMessages(c: Config, events: seq<Event>): seq<Message>
    requires c.Valid()
  {
    if events == [] then []
    else
      var before, e := events[..|events| - 1], events[|events| - 1];
      AccepterMessages(c, before) +
      if e.AccepterAccepts? && Run(c, before).stage.HeaderRead? then [OpenConfirmation(c.confirmSize)]
      else if e.AccepterSends? && Run(c, before).stage.Accepted? && AllWellFormed(e.messages) then e.messages
      else []
  }

  lemma {:induction false} SentAreGiven(c: Config, events: seq<Event>)
    requires c.Valid()
    ensures Run(c, events).openerSent == OpenerMessages(events)
    ensures Run(c, events).accepterSent == AccepterMessages(c, events)
  {
    hide Step, WellFormed, AllWellFormed;
    if events != [] {
      var before, e := events[..|events| - 1], events[|events| - 1];
      SentAreGiven(c, before);
      StepSends(c, Run(c, before), e);
    }
  }

  lemma StepSends(c: Config, s: State, e: Event)
    requires c.Valid()
    ensures Step(c, s, e).openerSent == s.openerSent +
      if e.OpenerSends? && AllWellFormed(e.messages) then e.messages else []
    ensures Step(c, s, e).accepterSent == s.accepterSent +
      if e.AccepterAccepts? && s.stage.HeaderRead? then [OpenConfirmation(c.confirmSize)]
      else if e.AccepterSends? && s.stage.Accepted? && AllWellFormed(e.messages) then e.messages
      else []
  {
    hide Encode, WellFormed, EncodeIncoming, ParseIncoming, EncodeAll, ReadNext, Parse, Consumed;
    assert s.openerSent + [] == s.openerSent && s.accepterSent + [] == s.accepterSent;
    match e
    case OpenerSends(_) => hide AllWellFormed;
    case AccepterSends(_) => hide AllWellFormed;
    case _ =>
  }

  /** After any sequence of calls: the accepter's results are, one by one, the first messages that the
      opener was given to send other than confirmations; so are the opener's if no wait has failed,
      and otherwise exactly one message is missing for each that has. Neither side's `next_message`
      ever reports a message on a non-confirmed channel or an unreadable one, the accepter's first
      message is the confirmation, and the accepter learned the channel the opener opened. */
  lemma TwoPartySafety(c: Config, events: seq<Event>)
    requires c.Valid()
    ensures var s := Run(c, events);
            var fromOpener, fromAccepter := OpenerMessages(events), AccepterMessages(c, events);
            && ResultsAre(s.accepterGot, Plain(fromOpener)) && Reported(s.accepterGot)
            && (AllTrue(s.waits) ==> ResultsAre(s.openerGot, Plain(fromAccepter))) && Reported(s.openerGot)
            && s.openerRead <= |fromAccepter|
            && |s.openerGot| + Failures(s.waits) == |Plain(fromAccepter[..s.openerRead])|
            && (fromAccepter != [] ==> fromAccepter[0].OpenConfirmation?)
            && !s.stage.Refused? && (!s.stage.Unread? ==> s.stage.seen == c.channel)
  {
    hide Step, Visible, Plain, OpenerMessages, AccepterMessages, Run, Failures;
    var s := Run(c, events);
    RunInv(c, events);
    SentAreGiven(c, events);
    VisiblePrefix(s.accepterSent, s.openerRead);
    VisiblePrefix(s.openerSent, s.accepterRead);
    VisibleArePlain(s.accepterSent[..s.openerRead]);
    PrefixResults(s.accepterGot, s.openerSent);
    if AllTrue(s.waits) {
      PrefixResults(s.openerGot, s.accepterSent);
    }
  }

  /** A wait's read fails if and only if the confirmation was consumed by another call and what it finds
      instead is not one: that message is then lost. */
  lemma WaitFailsIff(c: Config, events: seq<Event>)
    requires c.Valid()
    ensures var s := Run(c, events);
            var t := Run(c, events + [WaitReads]);
            t.waits == s.waits + [false] <==>
              && s.waiting > 0 && s.confirmReceived
              && s.openerRead < |s.accepterSent| && !s.accepterSent[s.openerRead].OpenConfirmation?
  {
    hide Parse, Visible, Encode, WellFormed, EncodeAll, Failures, Run;
    var s := Run(c, events);
    RunSnoc(c, events, WaitReads);
    RunInv(c, events);
    NextMessage(s);
    assert s.openerRead <= |s.accepterSent| && (s.openerRead > 0 <==> s.confirmReceived);
    assert s.accepterSent != [] ==> s.accepterSent[0].OpenConfirmation?;
    hide AccepterStreamOk, EncodedFrom;
    var t := Step(c, s, WaitReads);
    assert t.waits == s.waits || |t.waits| == |s.waits| + 1;
    assert |t.waits| == |s.waits| + 1 ==> t.waits[|s.waits|] == s.accepterSent[s.openerRead].OpenConfirmation?;
  }

  /** No call of the opener reads between a wait's test and its read. */
  predicate Exclusive(c: Config, events: seq<Event>)
    requires c.Valid()
  {
    forall i :: 0 <= i < |events| && (events[i].OpenerNext? || events[i].WaitTests?) ==>
      Run(c, events[..i]).waiting == 0
  }

  lemma ExclusiveStep(c: Config, s: State, e: Event)
    requires c.Valid() && AccepterStreamOk(s) && AllTrue(s.waits)
    requires s.waiting > 0 ==> s.waiting == 1 && !s.confirmReceived && !e.OpenerNext? && !e.WaitTests?
    ensures AllTrue(Step(c, s, e).waits)
    ensures Step(c, s, e).waiting > 0 ==> Step(c, s, e).waiting == 1 && !Step(c, s, e).confirmReceived
  {
    hide Parse, Visible, Encode, WellFormed, EncodeAll, Failures, ReadNext, Consumed;
    hide EncodeIncoming, ParseIncoming, AllTrue;
    OneMoreWait(s.waits, true);
    match e
    case WaitReads => NextMessage(s);
    case WaitTests =>
    case _ =>
  }

  lemma {:induction false} WaitsSucceed(c: Config, events: seq<Event>)
    requires c.Valid() && Exclusive(c, events)
    ensures var s := Run(c, events); AllTrue(s.waits) && (s.waiting > 0 ==> s.waiting == 1 && !s.confirmReceived)
  {
    hide Step, Visible, AccepterStreamOk;
    if events != [] {
      var n := |events| - 1;
      var before := events[..n];
      assert forall i :: 0 <= i < n ==> before[..i] == events[..i] && before[i] == events[i];
      WaitsSucceed(c, before);
      RunInv(c, before);
      ExclusiveStep(c, Run(c, before), events[n]);
    }
  }

  /** Then every wait succeeds, and the opener misses nothing. */
  lemma ExclusiveWaits(c: Config, events: seq<Event>)
    requires c.Valid() && Exclusive(c, events)
    ensures var s := Run(c, events); AllTrue(s.waits) && (s.waiting > 0 ==> s.waiting == 1 && !s.confirmReceived)
    ensures ResultsAre(Run(c, events).openerGot, Plain(AccepterMessages(c, events)))
  {
    hide Run, Plain, ResultsAre, AccepterMessages, AllTrue, Exclusive;
    WaitsSucceed(c, events);
    TwoPartySafety(c, events);
  }

  lemma RunSnoc(c: Config, events: seq<Event>, e: Event)
    requires c.Valid()
    ensures Run(c, events + [e]) == Step(c, Run(c, events), e)
  {
    assert (events + [e])[..|events|] == events;
  }

  /** The channel is open and two messages follow the confirmation. */
  function Opened(first: Message, second: Message): seq<Event> {
    [OpenerSends([])] + [AccepterReadsHeader] + [AccepterAccepts] + [AccepterSends([first, second])]
  }

  lemma OpenedState(c: Config, first: Message, second: Message)
    requires c.Valid() && WellFormed(first) && WellFormed(second)
    ensures var s := Run(c, Opened(first, second));
            && s.accepterSent == [OpenConfirmation(c.confirmSize), first, second]
            && s.openerRead == 0 && s.waiting == 0 && s.waits == [] && s.openerGot == [] && !s.confirmReceived
  {
    hide Encode, WellFormed, EncodeIncoming, ParseIncoming;
    RunSnoc(c, [], OpenerSends([]));
    assert [] + [OpenerSends([])] == [OpenerSends([])];
    RunSnoc(c, [OpenerSends([])], AccepterReadsHeader);
    RunSnoc(c, [OpenerSends([])] + [AccepterReadsHeader], AccepterAccepts);
    RunSnoc(c, [OpenerSends([])] + [AccepterReadsHeader] + [AccepterAccepts], AccepterSends([first, second]));
    IncomingRoundTrip(c.channel, []);
    assert [] + EncodeIncoming(c.channel) + [] == EncodeIncoming(c.channel) + [];
  }

  lemma FlagUnset(c: Config, s: State)
    requires c.Valid() && !s.confirmReceived
    ensures Step(c, s, WaitTests) == s.(waiting := s.waiting + 1)
  {
  }

  /** `next_message` consumes the confirmation and reports the first message. */
  lemma NextTakesFirst(c: Config, s: State, first: Message, second: Message)
    requires c.Valid() && AccepterStreamOk(s)
    requires |s.accepterSent| == 3 && s.accepterSent[1..] == [first, second] && !first.OpenConfirmation?
    requires s.openerRead == 0 && s.openerGot == []
    ensures var t := Step(c, s, OpenerNext);
            t == s.(confirmReceived := true, toOpener := t.toOpener, openerRead := 2,
                    openerGot := [OutcomeOf(true, first)])
  {
    hide Encode, WellFormed, ReadNext, Visible, Failures, EncodeAll, AllTrue, Consumed;
    FirstIsNext(s.accepterSent, first, second);
    ReadMore(s.accepterSent, 0);
    var n := ReadNext(true, s.toOpener);
    assert s.toOpener == EncodeAll(s.accepterSent[0..]);
    assert [] + Reports(n.outcome) == [OutcomeOf(true, first)];
  }

  /** A wait that reads the last message takes it for an answer. */
  lemma WaitTakesSecond(c: Config, s: State)
    requires c.Valid() && AccepterStreamOk(s) && s.waiting > 0 && s.waits == []
    requires |s.accepterSent| == 3 && s.openerRead == 2 && !s.accepterSent[2].OpenConfirmation?
    ensures var t := Step(c, s, WaitReads);
            && t.waits == [false] && t.openerRead == 3 && t.openerGot == s.openerGot && t.accepterSent == s.accepterSent
  {
    hide Parse, Encode, EncodeAll, Visible, WellFormed, Failures, AccepterStreamOk;
    NextMessage(s);
    var sent := s.accepterSent;
    assert Parse(s.toOpener).Done? && Parse(s.toOpener).value == sent[2];
  }

  lemma FirstIsNext(sent: seq<Message>, first: Message, second: Message)
    requires |sent| == 3 && sent[0].OpenConfirmation? && sent[1..] == [first, second] && !first.OpenConfirmation?
    ensures Consumed(sent[0..]) == 2 && Visible(sent[..0]) == [] && Visible(sent[..2]) == [OutcomeOf(true, first)]
  {
    assert sent[0..] == sent && sent[1] == first;
    OneMoreVisible(sent, 0);
    OneMoreVisible(sent, 1);
  }

  /** The race: a wait tests the flag, `next_message` consumes the confirmation and the first message,
      and the wait then takes the second message for an answer. It fails, and the second message
      reaches nobody. */
  lemma WaitRace(c: Config, first: Message, second: Message)
    requires c.Valid() && WellFormed(first) && WellFormed(second)
    requires !first.OpenConfirmation? && !second.OpenConfirmation?
    ensures var s := Run(c, Opened(first, second) + [WaitTests] + [OpenerNext] + [WaitReads]);
            && s.waits == [false] && s.openerGot == [OutcomeOf(true, first)]
            && s.openerRead == |s.accepterSent| == 3
  {
    hide Encode, WellFormed, Opened, Step, AccepterStreamOk, Run;
    var events := Opened(first, second);
    OpenedState(c, first, second);
    RunSnoc(c, events, WaitTests);
    RunSnoc(c, events + [WaitTests], OpenerNext);
    RunSnoc(c, events + [WaitTests] + [OpenerNext], WaitReads);
    RunInv(c, events + [WaitTests]);
    RunInv(c, events + [WaitTests] + [OpenerNext]);
    var s := Run(c, events);
    assert Step(c, s, WaitTests) == s.(waiting := 1) by { FlagUnset(c, s); }
    assert s.accepterSent[1..] == [first, second];
    NextTakesFirst(c, s.(waiting := 1), first, second);
    WaitTakesSecond(c, Run(c, events + [WaitTests] + [OpenerNext]));
  }

  // ----- Everything that is sent can be read -----

  lemma AccepterReadsOn(c: Config, s: State)
    requires c.Valid() && OpenerStreamOk(c, s) && s.stage.Accepted?
    ensures var t := Step(c, s, AccepterNext);
            && t.openerSent == s.openerSent && t.stage == s.stage && t.accepterSent == s.accepterSent
            && t.openerRead == s.openerRead && t.waits == s.waits && t.waiting == s.waiting
            && (s.accepterRead < |s.openerSent| ==> t.accepterRead > s.accepterRead)
  {
    hide Encode, WellFormed, Visible, EncodeAll, ReadNext, Parse, Consumed, EncodeIncoming;
    ReadMore(s.openerSent, s.accepterRead);
  }

  lemma OpenerReadsOn(c: Config, s: State)
    requires c.Valid() && AccepterStreamOk(s)
    ensures var t := Step(c, s, OpenerNext);
            && t.openerSent == s.openerSent && t.stage == s.stage && t.accepterSent == s.accepterSent
            && t.accepterRead == s.accepterRead && t.waits == s.waits
            && (s.openerRead < |s.accepterSent| ==> t.openerRead > s.openerRead)
  {
    hide Encode, WellFormed, Visible, EncodeAll, ReadNext, Parse, Consumed, Failures;
    ReadMore(s.accepterSent, s.openerRead);
  }

  lemma {:induction false} AccepterCatchesUp(c: Config, events: seq<Event>) returns (more: seq<Event>)
    requires c.Valid() && Run(c, events).stage.Accepted?
    ensures var s, t := Run(c, events), Run(c, events + more);
            && t.accepterRead == |t.openerSent| && t.openerSent == s.openerSent && t.accepterSent == s.accepterSent
            && t.openerRead == s.openerRead && t.stage == s.stage
    decreases |Run(c, events).openerSent| - Run(c, events).accepterRead
  {
    hide Step, Run, Visible, EncodeAll;
    RunInv(c, events);
    var s := Run(c, events);
    if s.accepterRead == |s.openerSent| {
      more := [];
      assert events + [] == events;
    } else {
      AccepterReadsOn(c, s);
      RunSnoc(c, events, AccepterNext);
      RunInv(c, events + [AccepterNext]);
      var rest := AccepterCatchesUp(c, events + [AccepterNext]);
      more := [AccepterNext] + rest;
      assert events + more == (events + [AccepterNext]) + rest;
    }
  }

  lemma {:induction false} OpenerCatchesUp(c: Config, events: seq<Event>) returns (more: seq<Event>)
    requires c.Valid()
    ensures var s, t := Run(c, events), Run(c, events + more);
            && t.openerRead == |t.accepterSent| && t.openerSent == s.openerSent && t.accepterSent == s.accepterSent
            && t.accepterRead == s.accepterRead && t.stage == s.stage && t.waits == s.waits
    decreases |Run(c, events).accepterSent| - Run(c, events).openerRead
  {
    hide Step, Run, Visible, EncodeAll;
    RunInv(c, events);
    var s := Run(c, events);
    if s.openerRead == |s.accepterSent| {
      more := [];
      assert events + [] == events;
    } else {
      OpenerReadsOn(c, s);
      RunSnoc(c, events, OpenerNext);
      RunInv(c, events + [OpenerNext]);
      var rest := OpenerCatchesUp(c, events + [OpenerNext]);
      more := [OpenerNext] + rest;
      assert events + more == (events + [OpenerNext]) + rest;
    }
  }

  lemma AcceptStep(c: Config, s: State)
    requires c.Valid() && OpenerStreamOk(c, s)
    ensures var t := Step(c, s, OpenerSends([]));
            !t.headerPending && t.openerSent == s.openerSent && t.stage == s.stage
    ensures var t := Step(c, s, AccepterReadsHeader);
            t.openerSent == s.openerSent && (!s.headerPending ==> t.stage.HeaderRead? || t.stage.Accepted?)
    ensures var t := Step(c, s, AccepterAccepts);
            t.openerSent == s.openerSent && (s.stage.HeaderRead? || s.stage.Accepted? ==> t.stage.Accepted?)
  {
    hide Encode, WellFormed, Visible, EncodeAll, EncodeIncoming, ParseIncoming;
    if !s.headerPending && s.stage.Unread? {
      IncomingRoundTrip(c.channel, EncodeAll(s.openerSent));
    }
    assert s.openerSent + [] == s.openerSent;
  }

  /** From every reachable state the channel can be accepted and everything that was sent be read: the
      accepter then has a result for each of the opener's messages, and so has the opener for each of
      the accepter's if no wait has failed. */
  lemma EverythingRead(c: Config, events: seq<Event>) returns (more: seq<Event>)
    requires c.Valid()
    ensures var u := Run(c, events + more);
            && u.stage.Accepted? && OpenerMessages(events + more) == OpenerMessages(events)
            && |u.accepterGot| == |Plain(OpenerMessages(events))|
            && |u.openerGot| + Failures(u.waits) == |Plain(AccepterMessages(c, events + more))|
  {
    hide Step, Run, Visible, Plain, EncodeAll, OpenerMessages, AccepterMessages, Failures;
    var e1 := events + [OpenerSends([])];
    var e2 := e1 + [AccepterReadsHeader];
    var e3 := e2 + [AccepterAccepts];
    RunSnoc(c, events, OpenerSends([]));
    RunSnoc(c, e1, AccepterReadsHeader);
    RunSnoc(c, e2, AccepterAccepts);
    RunInv(c, events);
    RunInv(c, e1);
    RunInv(c, e2);
    AcceptStep(c, Run(c, events));
    AcceptStep(c, Run(c, e1));
    AcceptStep(c, Run(c, e2));
    var r1 := OpenerCatchesUp(c, e3);
    var r2 := AccepterCatchesUp(c, e3 + r1);
    more := [OpenerSends([])] + [AccepterReadsHeader] + [AccepterAccepts] + r1 + r2;
    assert events + more == (e3 + r1) + r2;
    var u := Run(c, events + more);
    RunInv(c, events + more);
    SentAreGiven(c, events);
    SentAreGiven(c, events + more);
    assert u.openerSent[..|u.openerSent|] == u.openerSent && u.accepterSent[..|u.accepterSent|] == u.accepterSent;
    VisibleArePlain(u.openerSent);
    VisibleArePlain(u.accepterSent);
  }
}

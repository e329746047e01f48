/** Datagram routing in the Rust implementation: the frame a `ConversationDatagramSender` builds, and
    the way of a datagram to the queue of its channel. One dispatcher, any number of `add_channel`
    calls and any number of receivers interleave.

    `add_channel` makes the channel visible in a critical section and replaces its queue by the one
    that dangled for it only afterwards; the dispatcher finds a channel, reads which queue it has and
    adds to that queue in three separate steps. A channel reaches its receivers when `add_channel`
    returns. Control stream ids and channel ids are QUIC stream ids: each is used once. */
module Routing {
  import opened Wire
  import opened Queues

  const DANGLING_DATAGRAM_QUEUE_SIZE: nat := 10

  datatype Address = Address(conversation: nat, channel: nat)

  datatype Packet = Packet(to: Address, payload: Bytes)

  /** What exists for one channel id. */
  datatype Slot =
    | Unopened(dangling: Option<Queue<Bytes>>)
    | Opening(own: Queue<Bytes>, pending: Queue<Bytes>)  // visible, its queue about to be replaced
    | Open(queue: Queue<Bytes>)
  {
    /** The queue the channel has now. */
    function Current(): Queue<Bytes>
      requires !Unopened?
    {
      if Opening? then own else queue
    }

    function WithCurrent(q: Queue<Bytes>): Slot
      requires !Unopened?
    {
      if Opening? then Opening(q, pending) else Open(q)
    }

    /** The critical section of `add_channel`. */
    function Insert(capacity: nat): Slot
      requires Unopened?
    {
      if dangling.Some? then Opening(Queue([], capacity), dangling.value) else Open(Queue([], capacity))
    }

    /** `set_datagram_queue`, after it. */
    function Swap(): Slot {
      if Opening? then Open(pending) else this
    }

    /** A non-blocking add. */
    function Add(payload: Bytes): Slot
      requires !Unopened?
    {
      WithCurrent(Current().Add(payload))
    }

    /** `add_dangling_datagrams_queue`: a miss replaces the queue that dangled before. */
    function Park(q: Queue<Bytes>): Slot {
      if Unopened? then Unopened(Some(q)) else WithCurrent(Current().AddAll(q.items))
    }

    function Dangling(): seq<Bytes> {
      if Unopened? && dangling.Some? then dangling.value.items else []
    }
  }

  datatype Dispatcher =
    | Ready
    | Looking(p: Packet)    // before get_channel
    | Found(p: Packet)      // before it reads which queue the channel has
    | Adding(p: Packet)     // in wait_add on the queue the channel has
    | Stranded(p: Packet, queue: Queue<Bytes>)  // in wait_add on a queue that was replaced since
    | Missed(p: Packet)     // before the critical section of add_dangling_datagrams_queue
    | Draining(p: Packet)   // that section found the channel after all
    | Stopped               // a malformed datagram ended its loop

  datatype State = State(registered: set<nat>, slots: map<Address, Slot>, dispatcher: Dispatcher) {
    function At(a: Address): Slot { if a in slots then slots[a] else Unopened(None) }

    function With(a: Address, slot: Slot): State { this.(slots := slots[a := slot]) }
  }

  datatype Event =
    | Register(conversation: nat)
    | Unregister(conversation: nat)
    | Arrive(datagram: Bytes)
    | Look
    | Take
    | Push
    | Park
    | Drain
    | Insert(a: Address, capacity: nat)
    | Swap(a: Address)
    | Receive(a: Address)

  // ----- The frame -----

  predicate Sendable(a: Address) { a.conversation <= MAX_VARINT_8 && a.channel <= MAX_VARINT_8 }

  function Frame(p: Packet): Bytes
    requires Sendable(p.to)
  {
    VarInt(p.to.conversation) + (VarInt(p.to.channel) + p.payload)
  }

  /** Where a datagram is addressed, if it has an address. */
  function Addressee(datagram: Bytes): Option<Packet> {
    match ReadVarInt(datagram)
    case Fail(_) => None
    case Done(conversation, rest) =>
      match ReadVarInt(rest)
      case Fail(_) => None
      case Done(channel, payload) => Some(Packet(Address(conversation, channel), payload))
  }

  /** Framing loses nothing, empty payloads included. */
  lemma FrameRoundTrip(p: Packet)
    requires Sendable(p.to)
    ensures Addressee(Frame(p)) == Some(p)
  {
    hide Wire.ReadVarInt, Wire.VarInt;
    VarIntRoundTrip(p.to.conversation, VarInt(p.to.channel) + p.payload);
    VarIntRoundTrip(p.to.channel, p.payload);
  }

  // ----- Steps -----

  function Init(): State { State({}, map[], Ready) }

  /** The packet a datagram brings to an idle dispatcher: its conversation must be registered. */
  function Accepted(s: State, datagram: Bytes): Option<Packet> {
    var p := Addressee(datagram);
    if s.dispatcher.Ready? && p.Some? && p.value.to.conversation in s.registered then p else None
  }

  /** Routing a datagram is an error if it has no conversation id, or no channel id and its conversation
      is registered. */
  predicate Unroutable(s: State, datagram: Bytes) {
    match ReadVarInt(datagram)
    case Fail(_) => true
    case Done(conversation, rest) => conversation in s.registered && ReadVarInt(rest).Fail?
  }

  function DispatcherStep(s: State, e: Event): State {
    var d := s.dispatcher;
    match e
    case Arrive(datagram) =>
      var p := Accepted(s, datagram);
      if p.Some? then s.(dispatcher := Looking(p.value))
      else if d.Ready? && Unroutable(s, datagram) then s.(dispatcher := Stopped)
      else s
    case Look =>
      if !d.Looking? then s
      else s.(dispatcher := if s.At(d.p.to).Unopened? then Missed(d.p) else Found(d.p))
    case Take => if d.Found? then s.(dispatcher := Adding(d.p)) else s
    case Push =>
      if d.Adding? && !s.At(d.p.to).Unopened? && !s.At(d.p.to).Current().Full() then
        s.With(d.p.to, s.At(d.p.to).Add(d.p.payload)).(dispatcher := Ready)
      else if d.Stranded? && !d.queue.Full() then s.(dispatcher := Ready)
      else s
    case Park =>
      if !d.Missed? then s
      else if s.At(d.p.to).Unopened? then
        var queue := Queue([d.p.payload], DANGLING_DATAGRAM_QUEUE_SIZE);
        s.With(d.p.to, s.At(d.p.to).Park(queue)).(dispatcher := Ready)
      else s.(dispatcher := Draining(d.p))
    case Drain =>
      if d.Draining? && !s.At(d.p.to).Unopened? then
        s.With(d.p.to, s.At(d.p.to).Add(d.p.payload)).(dispatcher := Ready)
      else s
    case _ => s
  }

  /** One atomic action; one that is not enabled changes nothing. */
  function Step(s: State, e: Event): State {
    match e
    case Register(c) => s.(registered := s.registered + {c})
    case Unregister(c) => s.(registered := s.registered - {c})
    case Insert(a, capacity) =>
      if s.At(a).Unopened? && capacity >= 1 then s.With(a, s.At(a).Insert(capacity)) else s
    case Swap(a) =>
      if !s.At(a).Opening? then s
      else if s.dispatcher.Adding? && s.dispatcher.p.to == a then
        s.With(a, s.At(a).Swap()).(dispatcher := Stranded(s.dispatcher.p, s.At(a).own))
      else s.With(a, s.At(a).Swap())
    case Receive(a) =>
      if s.At(a).Open? && s.At(a).queue.items != []
      then s.With(a, Open(s.At(a).queue.(items := s.At(a).queue.items[1..])))
      else s
    case _ => DispatcherStep(s, e)
  }

  function Run(s: State, events: seq<Event>): State {
    if events == [] then s else Step(Run(s, events[..|events| - 1]), events[|events| - 1])
  }

  // ----- What every reachable state satisfies -----

  predicate SlotOk(slot: Slot) {
    match slot
    case Unopened(None) => true
    case Unopened(Some(q)) => q.capacity == DANGLING_DATAGRAM_QUEUE_SIZE && |q.items| == 1
    case Opening(own, q) => own.capacity >= 1 && q.capacity == DANGLING_DATAGRAM_QUEUE_SIZE && |q.items| == 1
    case Open(q) => q.capacity >= 1
  }

  /** A channel that was found stays; one that was missed has room when it appears after all. */
  predicate DispatcherOk(s: State) {
    var d := s.dispatcher;
    && (d.Found? || d.Adding? || d.Draining? || d.Stranded? ==> !s.At(d.p.to).Unopened?)
    && (d.Missed? || d.Draining? ==> s.At(d.p.to).Unopened? || !s.At(d.p.to).Current().Full())
    && (d.Stranded? ==> s.At(d.p.to).Open?)
  }

  ghost predicate Inv(s: State) {
    DispatcherOk(s) && forall a :: SlotOk(s.At(a))
  }

  lemma StepSlotOk(s: State, e: Event, a: Address)
    requires SlotOk(s.At(a)) && DispatcherOk(s)
    ensures SlotOk(Step(s, e).At(a))
  {
    hide Addressee, Unroutable;
  }

  lemma StepDispatcherOk(s: State, e: Event)
    requires Inv(s)
    ensures DispatcherOk(Step(s, e))
  {
    hide Addressee, Unroutable;
    if !s.dispatcher.Ready? && !s.dispatcher.Stopped? {
      assert SlotOk(s.At(s.dispatcher.p.to));
    }
    match e
    case Insert(_, _) =>
    case Swap(_) =>
    case Receive(_) =>
    case _ =>
  }

  lemma StepInv(s: State, e: Event)
    requires Inv(s)
    ensures Inv(Step(s, e))
  {
    hide Step, SlotOk, DispatcherOk;
    StepDispatcherOk(s, e);
    forall a: Address ensures SlotOk(Step(s, e).At(a)) {
      StepSlotOk(s, e, a);
    }
  }

  lemma {:induction false} RunInv(s: State, events: seq<Event>)
    requires Inv(s)
    ensures Inv(Run(s, events))
  {
    hide Step;
    if events != [] {
      RunInv(s, events[..|events| - 1]);
      StepInv(Run(s, events[..|events| - 1]), events[|events| - 1]);
    }
  }

  /** Whatever has arrived for a channel that does not exist, one datagram waits for it, in a queue with
      room for ten. */
  lemma DanglingQueue(events: seq<Event>, a: Address)
    ensures var slot := Run(Init(), events).At(a);
            slot.Unopened? && slot.dangling.Some? ==>
              |slot.dangling.value.items| == 1 && slot.dangling.value.capacity == 10
  {
    hide Run, Step;
    assert Inv(Init());
    RunInv(Init(), events);
    assert SlotOk(Run(Init(), events).At(a));
  }

  // ----- Isolation -----

  /** The event is about this address: a call for it, or the dispatcher with a packet for it. */
  predicate Concerns(s: State, e: Event, a: Address) {
    match e
    case Insert(b, _) => a == b
    case Swap(b) => a == b
    case Receive(b) => a == b
    case Push => s.dispatcher.Adding? && s.dispatcher.p.to == a
    case Park => s.dispatcher.Missed? && s.dispatcher.p.to == a
    case Drain => s.dispatcher.Draining? && s.dispatcher.p.to == a
    case _ => false
  }

  /** Whatever happens for other channels and conversations leaves a channel alone. */
  lemma StepIsolated(s: State, e: Event, a: Address)
    requires !Concerns(s, e, a)
    ensures Step(s, e).At(a) == s.At(a)
  {
    hide Addressee, Unroutable;
  }

  /** `t` is `s` with the payload appended to the addressed queue, and nothing else changed. */
  ghost predicate OnlyGains(s: State, t: State, p: Packet) {
    && s.At(p.to).Open? && t.At(p.to).Open?
    && t.At(p.to).queue == s.At(p.to).queue.(items := s.At(p.to).queue.items + [p.payload])
    && t.registered == s.registered && t.dispatcher == s.dispatcher
    && forall a :: a != p.to ==> t.At(a) == s.At(a)
  }

  /** A framed datagram that is dispatched without interruption reaches the addressed channel's
      queue, unchanged, and nothing else changes. */
  lemma SentReachesChannel(s: State, p: Packet)
    requires Sendable(p.to) && s.dispatcher.Ready? && p.to.conversation in s.registered
    requires s.At(p.to).Open? && !s.At(p.to).queue.Full()
    ensures OnlyGains(s, Run(s, [Arrive(Frame(p)), Look, Take, Push]), p)
  {
    hide Addressee, Unroutable, Frame, Slot.Add;
    FrameRoundTrip(p);
    var s1 := s.(dispatcher := Looking(p));
    var s2 := s.(dispatcher := Found(p));
    var s3 := s.(dispatcher := Adding(p));
    assert Step(s, Arrive(Frame(p))) == s1;
    assert Step(s1, Look) == s2;
    assert Step(s2, Take) == s3;
    assert Step(s3, Push) == s.With(p.to, s.At(p.to).Add(p.payload));
    Run4(s, Arrive(Frame(p)), Look, Take, Push);
    AddGains(s, p);
  }

  lemma AddGains(s: State, p: Packet)
    requires s.At(p.to).Open? && !s.At(p.to).queue.Full()
    ensures OnlyGains(s, s.With(p.to, s.At(p.to).Add(p.payload)), p)
  {
  }

  lemma RunSnoc(s: State, events: seq<Event>, e: Event)
    ensures Run(s, events + [e]) == Step(Run(s, events), e)
  {
    assert (events + [e])[..|events|] == events;
  }

  /** Whether the last call about the conversation registered it. */
  predicate LastRegistered(events: seq<Event>, conversation: nat) {
    events != [] &&
      var e := events[|events| - 1];
      if e == Register(conversation) then true
      else if e == Unregister(conversation) then false
      else LastRegistered(events[..|events| - 1], conversation)
  }

  lemma StepRegisters(s: State, e: Event, conversation: nat)
    ensures conversation in Step(s, e).registered <==>
            e == Register(conversation) || (conversation in s.registered && e != Unregister(conversation))
  {
    hide Addressee, Unroutable;
    match e
    case Register(_) =>
    case Unregister(_) =>
    case _ =>
  }

  lemma {:induction false} RegisteredIff(events: seq<Event>, conversation: nat)
    ensures conversation in Run(Init(), events).registered <==> LastRegistered(events, conversation)
  {
    hide Step;
    if events != [] {
      var before := events[..|events| - 1];
      RegisteredIff(before, conversation);
      StepRegisters(Run(Init(), before), events[|events| - 1], conversation);
    }
  }

  /** In every reachable state with an idle dispatcher, a framed datagram is taken up if its conversation
      is registered at that moment and dropped without any effect if it is not. */
  lemma TakenUpIffRegistered(events: seq<Event>, p: Packet)
    requires Sendable(p.to) && Run(Init(), events).dispatcher.Ready?
    ensures var s := Run(Init(), events);
            Run(Init(), events + [Arrive(Frame(p))]) ==
              if LastRegistered(events, p.to.conversation) then s.(dispatcher := Looking(p)) else s
  {
    hide Run, LastRegistered, Frame, Addressee;
    RunSnoc(Init(), events, Arrive(Frame(p)));
    RegisteredIff(events, p.to.conversation);
    FrameRoundTrip(p);
    FrameRoutable(Run(Init(), events), p);
  }

  lemma FrameRoutable(s: State, p: Packet)
    requires Sendable(p.to)
    ensures !Unroutable(s, Frame(p))
  {
    hide Wire.ReadVarInt, Wire.VarInt;
    VarIntRoundTrip(p.to.conversation, VarInt(p.to.channel) + p.payload);
    VarIntRoundTrip(p.to.channel, p.payload);
  }

  lemma Run4(s: State, e1: Event, e2: Event, e3: Event, e4: Event)
    ensures Run(s, [e1, e2, e3, e4]) == Step(Step(Step(Step(s, e1), e2), e3), e4)
  {
    hide Step;
    assert [e1, e2, e3, e4] == [e1, e2, e3] + [e4] && [e1, e2, e3] == [e1, e2] + [e3];
    assert [e1, e2] == [e1] + [e2] && [e1] == [] + [e1];
    RunSnoc(s, [e1, e2, e3], e4);
    RunSnoc(s, [e1, e2], e3);
    RunSnoc(s, [e1], e2);
    RunSnoc(s, [], e1);
  }

  // ----- The history of one channel -----

  /** The packet of the dispatcher for the channel, unless it is on its way to a replaced queue. */
  function InHand(d: Dispatcher, a: Address): seq<Bytes> {
    if !d.Ready? && !d.Stopped? && !d.Stranded? && d.p.to == a then [d.p.payload] else []
  }

  /** Queued for the channel, then in the dispatcher's hand. */
  function Pending(s: State, a: Address): seq<Bytes>
    requires !s.At(a).Unopened?
  {
    s.At(a).Current().items + InHand(s.dispatcher, a)
  }

  /** The payload that an event brings for the channel. */
  function Brings(s: State, e: Event, a: Address): seq<Bytes> {
    if e.Arrive? && Accepted(s, e.datagram).Some? && Accepted(s, e.datagram).value.to == a
    then [Accepted(s, e.datagram).value.payload] else []
  }

  /** What a receiver of the channel gets at this event. */
  function Takes(s: State, e: Event, a: Address): seq<Bytes> {
    if e == Receive(a) && s.At(a).Open? && s.At(a).queue.items != [] then [s.At(a).queue.items[0]] else []
  }

  /** Between insertion and swap the dispatcher reads which queue the channel has, or adds to it. */
  predicate CommitsEarly(s: State, e: Event, a: Address) {
    var d := s.dispatcher;
    s.At(a).Opening? && ((e.Take? && d.Found?) || (e.Drain? && d.Draining?)) && d.p.to == a
  }

  /** The payload that this event commits to the queue about to be replaced. */
  function Strays(s: State, e: Event, a: Address): seq<Bytes> {
    if CommitsEarly(s, e, a) then [s.dispatcher.p.payload] else []
  }

  function Arrivals(s: State, events: seq<Event>, a: Address): seq<Bytes> {
    if events == [] then []
    else
      var before := events[..|events| - 1];
      Arrivals(s, before, a) + Brings(Run(s, before), events[|events| - 1], a)
  }

  function Received(s: State, events: seq<Event>, a: Address): seq<Bytes> {
    if events == [] then []
    else
      var before := events[..|events| - 1];
      Received(s, before, a) + Takes(Run(s, before), events[|events| - 1], a)
  }

  function Strayed(s: State, events: seq<Event>, a: Address): seq<Bytes> {
    if events == [] then []
    else
      var before := events[..|events| - 1];
      Strayed(s, before, a) + Strays(Run(s, before), events[|events| - 1], a)
  }

  /** One more step of a first-in first-out account: in the end `out` came out of `start + into`. */
  lemma Chain(out: seq<Bytes>, more: seq<Bytes>, start: seq<Bytes>, into: seq<Bytes>, brings: seq<Bytes>,
              held: seq<Bytes>, held': seq<Bytes>)
    requires out + held == start + into && more + held' == held + brings
    ensures (out + more) + held' == start + (into + brings)
  {
    assert (out + more) + held' == out + (more + held') == (out + held) + brings == start + (into + brings);
  }

  lemma ArriveFifo(s: State, datagram: Bytes, a: Address)
    requires !s.At(a).Unopened?
    ensures Pending(Step(s, Arrive(datagram)), a) == Pending(s, a) + Brings(s, Arrive(datagram), a)
  {
    hide Addressee, Unroutable;
  }

  lemma ReceiveFifo(s: State, b: Address, a: Address)
    requires !s.At(a).Unopened?
    ensures !Step(s, Receive(b)).At(a).Unopened?
    ensures Takes(s, Receive(b), a) + Pending(Step(s, Receive(b)), a) == Pending(s, a)
  {
  }

  /** A push or a drain puts the packet behind what is queued. */
  lemma AddFifo(s: State, e: Event, a: Address)
    requires DispatcherOk(s) && !s.At(a).Unopened? && (e.Push? || e.Drain?)
    ensures !Step(s, e).At(a).Unopened? && Pending(Step(s, e), a) == Pending(s, a)
  {
  }

  lemma OtherFifo(s: State, e: Event, a: Address)
    requires !s.At(a).Unopened? && !(e == Swap(a) && s.At(a).Opening?)
    requires !e.Arrive? && !e.Receive? && !e.Push? && !e.Drain?
    ensures !Step(s, e).At(a).Unopened? && Pending(Step(s, e), a) == Pending(s, a)
  {
    match e
    case Swap(_) =>
    case Insert(_, _) =>
    case _ =>
  }

  /** Except for the swap, a visible channel's queue is first-in first-out and loses nothing. */
  lemma StepFifo(s: State, e: Event, a: Address)
    requires Inv(s) && !s.At(a).Unopened? && !(e == Swap(a) && s.At(a).Opening?)
    ensures !Step(s, e).At(a).Unopened?
    ensures Takes(s, e, a) + Pending(Step(s, e), a) == Pending(s, a) + Brings(s, e, a)
  {
    hide Addressee, Unroutable, Pending, Accepted;
    match e
    case Arrive(datagram) => ArriveFifo(s, datagram, a);
    case Receive(b) => ReceiveFifo(s, b, a);
    case Push => AddFifo(s, e, a);
    case Drain => AddFifo(s, e, a);
    case _ => OtherFifo(s, e, a);
  }

  /** A channel whose queue is settled loses, repeats, reorders and mixes up nothing, over every run. */
  lemma {:induction false} RoutedFifo(s: State, events: seq<Event>, a: Address)
    requires Inv(s) && s.At(a).Open?
    ensures Run(s, events).At(a).Open?
    ensures Received(s, events, a) + Pending(Run(s, events), a) == Pending(s, a) + Arrivals(s, events, a)
  {
    hide Step, Brings, Takes, Pending;
    if events != [] {
      var before, e := events[..|events| - 1], events[|events| - 1];
      RoutedFifo(s, before, a);
      RunInv(s, before);
      var v := Run(s, before);
      StepFifo(v, e, a);
      OpenStays(v, e, a);
      Chain(Received(s, before, a), Takes(v, e, a), Pending(s, a), Arrivals(s, before, a), Brings(v, e, a),
            Pending(v, a), Pending(Step(v, e), a));
    }
  }

  lemma OpenStays(s: State, e: Event, a: Address)
    requires s.At(a).Open?
    ensures Step(s, e).At(a).Open?
  {
  }

  // ----- From before the channel exists -----

  /** What the dispatcher parks for the channel at this event. */
  function Parks(s: State, e: Event, a: Address): seq<Bytes> {
    if e.Park? && s.dispatcher.Missed? && s.dispatcher.p.to == a && s.At(a).Unopened?
    then [s.dispatcher.p.payload] else []
  }

  function Parked(s: State, events: seq<Event>, a: Address): seq<Bytes> {
    if events == [] then []
    else
      var before := events[..|events| - 1];
      Parked(s, before, a) + Parks(Run(s, before), events[|events| - 1], a)
  }

  lemma StepDangles(s: State, e: Event, a: Address)
    requires Step(s, e).At(a).Unopened?
    ensures s.At(a).Unopened?
    ensures InHand(s.dispatcher, a) + Brings(s, e, a) == Parks(s, e, a) + InHand(Step(s, e).dispatcher, a)
    ensures Step(s, e).At(a).Dangling() == if Parks(s, e, a) == [] then s.At(a).Dangling() else Parks(s, e, a)
  {
    hide Addressee, Unroutable;
    match e
    case Park =>
    case Arrive(_) =>
    case _ =>
  }

  /** Until a channel exists, every datagram for it is parked in order, and of those parked exactly the
      last is kept: each miss replaces the queue before. */
  lemma {:induction false} OnlyLastDangles(s: State, events: seq<Event>, a: Address)
    requires Run(s, events).At(a).Unopened?
    ensures s.At(a).Unopened?
    ensures InHand(s.dispatcher, a) + Arrivals(s, events, a)
            == Parked(s, events, a) + InHand(Run(s, events).dispatcher, a)
    ensures var parked := Parked(s, events, a);
            Run(s, events).At(a).Dangling() == if parked == [] then s.At(a).Dangling() else [parked[|parked| - 1]]
  {
    hide Step, Brings, Parks, InHand;
    if events != [] {
      var before, e := events[..|events| - 1], events[|events| - 1];
      var v := Run(s, before);
      StepDangles(v, e, a);
      OneParked(v, e, a);
      OnlyLastDangles(s, before, a);
      Chain(Parked(s, before, a), Parks(v, e, a), InHand(s.dispatcher, a), Arrivals(s, before, a), Brings(v, e, a),
            InHand(v.dispatcher, a), InHand(Step(v, e).dispatcher, a));
    }
  }

  lemma OneParked(s: State, e: Event, a: Address)
    ensures |Parks(s, e, a)| <= 1
  {
  }

  // ----- Across the swap -----

  /** What the dispatcher is adding to the channel's queue. */
  function Committed(d: Dispatcher, a: Address): seq<Bytes> {
    if d.Adding? && d.p.to == a then [d.p.payload] else []
  }

  /** `all` is what the dispatcher had in hand at the insertion and what arrived since. Until the swap
      the dangling queue waits and the strays are in the channel's own queue or on their way there;
      after it they are the first of `all`, and the others follow what had dangled. */
  predicate Account(s: State, a: Address,
                    dangled: seq<Bytes>, all: seq<Bytes>, received: seq<Bytes>, strayed: seq<Bytes>)
  {
    match s.At(a)
    case Unopened(_) => false
    case Opening(own, pending) =>
      && pending.items == dangled && received == []
      && own.items + InHand(s.dispatcher, a) == all
      && own.items + Committed(s.dispatcher, a) == strayed
    case Open(_) =>
      strayed <= all && received + Pending(s, a) == dangled + all[|strayed|..]
  }

  lemma InsertAccount(s: State, a: Address, capacity: nat)
    requires Inv(s) && s.At(a).Unopened? && capacity >= 1
    ensures Account(Step(s, Insert(a, capacity)), a, s.At(a).Dangling(), InHand(s.dispatcher, a), [], [])
  {
    assert SlotOk(s.At(a));
  }

  lemma SwapAccount(s: State, a: Address,
                    dangled: seq<Bytes>, all: seq<Bytes>, received: seq<Bytes>, strayed: seq<Bytes>)
    requires s.At(a).Opening? && Account(s, a, dangled, all, received, strayed)
    ensures Account(Step(s, Swap(a)), a, dangled, all, received, strayed)
  {
    var t := Step(s, Swap(a));
    if s.dispatcher.Adding? && s.dispatcher.p.to == a {
      assert all[|strayed|..] == [];
    } else {
      assert all[|strayed|..] == InHand(s.dispatcher, a);
    }
  }

  /** Until the swap the dangling queue waits, and what the dispatcher commits to the channel's own
      queue is what strays. */
  lemma StepStrays(s: State, e: Event, a: Address)
    requires DispatcherOk(s) && s.At(a).Opening? && e != Swap(a)
    ensures var t := Step(s, e);
            && t.At(a).Opening? && t.At(a).pending == s.At(a).pending
            && t.At(a).own.items + Committed(t.dispatcher, a)
               == s.At(a).own.items + Committed(s.dispatcher, a) + Strays(s, e, a)
            && Takes(s, e, a) == []
  {
    hide Addressee, Unroutable;
    match e
    case Take =>
    case Push =>
    case Drain =>
    case _ =>
  }

  lemma OpeningAccount(s: State, e: Event, a: Address, dangled: seq<Bytes>, all: seq<Bytes>, strayed: seq<Bytes>)
    requires Inv(s) && s.At(a).Opening? && e != Swap(a) && Account(s, a, dangled, all, [], strayed)
    ensures Takes(s, e, a) == []
    ensures Account(Step(s, e), a, dangled, all + Brings(s, e, a), [], strayed + Strays(s, e, a))
  {
    hide Step, Brings, Takes, Strays, Committed, InHand;
    StepFifo(s, e, a);
    StepStrays(s, e, a);
  }

  lemma OpenAccount(s: State, e: Event, a: Address,
                    dangled: seq<Bytes>, all: seq<Bytes>, received: seq<Bytes>, strayed: seq<Bytes>)
    requires Inv(s) && s.At(a).Open? && Account(s, a, dangled, all, received, strayed)
    ensures Strays(s, e, a) == []
    ensures Account(Step(s, e), a, dangled, all + Brings(s, e, a), received + Takes(s, e, a), strayed)
  {
    hide Step, Brings, Takes, Pending;
    StepFifo(s, e, a);
    OpenStays(s, e, a);
    var brings, takes := Brings(s, e, a), Takes(s, e, a);
    assert (all + brings)[|strayed|..] == all[|strayed|..] + brings;
    Chain(received, takes, dangled, all[|strayed|..], brings, Pending(s, a), Pending(Step(s, e), a));
  }

  lemma StepAccount(s: State, e: Event, a: Address,
                    dangled: seq<Bytes>, all: seq<Bytes>, received: seq<Bytes>, strayed: seq<Bytes>)
    requires Inv(s) && Account(s, a, dangled, all, received, strayed)
    ensures Account(Step(s, e), a, dangled, all + Brings(s, e, a), received + Takes(s, e, a), strayed + Strays(s, e, a))
  {
    if s.At(a).Open? {
      hide Step, Account, Brings, Takes, Strays;
      OpenAccount(s, e, a, dangled, all, received, strayed);
      assert strayed + [] == strayed;
    } else if e == Swap(a) {
      hide Step, Account;
      SwapAccount(s, a, dangled, all, received, strayed);
      assert all + [] == all && received + [] == received && strayed + [] == strayed;
    } else {
      OpeningAccount(s, e, a, dangled, all, strayed);
      hide Step, Account, Brings, Takes, Strays;
      assert received + [] == received;
    }
  }

  lemma {:induction false} RunAccount(s: State, a: Address, capacity: nat, events: seq<Event>)
    requires Inv(s) && s.At(a).Unopened? && capacity >= 1
    ensures var t := Step(s, Insert(a, capacity));
            Account(Run(t, events), a, s.At(a).Dangling(), InHand(s.dispatcher, a) + Arrivals(t, events, a),
                    Received(t, events, a), Strayed(t, events, a))
  {
    hide Step, Account, Brings, Takes, Strays, InHand;
    var t := Step(s, Insert(a, capacity));
    if events == [] {
      InsertAccount(s, a, capacity);
      assert InHand(s.dispatcher, a) + [] == InHand(s.dispatcher, a);
    } else {
      var before, e := events[..|events| - 1], events[|events| - 1];
      RunAccount(s, a, capacity, before);
      StepInv(s, Insert(a, capacity));
      RunInv(t, before);
      var hand, arrivals := InHand(s.dispatcher, a), Arrivals(t, before, a);
      StepAccount(Run(t, before), e, a,
                  s.At(a).Dangling(), hand + arrivals, Received(t, before, a), Strayed(t, before, a));
      assert (hand + arrivals) + Brings(Run(t, before), e, a) == hand + (arrivals + Brings(Run(t, before), e, a));
    }
  }

  /** The whole history of a channel, from any reachable state before it: once its queue is settled, what
      was received and what is pending is what dangled at its insertion and then everything that
      arrived since, without exactly the strays, which are the first of it. Nothing is lost if and
      only if nothing dangled or the dispatcher committed no packet between insertion and swap. */
  lemma ChannelHistory(history: seq<Event>, a: Address, capacity: nat, events: seq<Event>)
    requires var s := Run(Init(), history); s.At(a).Unopened? && capacity >= 1
    requires Run(Step(Run(Init(), history), Insert(a, capacity)), events).At(a).Open?
    ensures var s := Run(Init(), history);
            var t := Step(s, Insert(a, capacity));
            var u := Run(t, events);
            var dangled, strayed := s.At(a).Dangling(), Strayed(t, events, a);
            var all, got := InHand(s.dispatcher, a) + Arrivals(t, events, a), Received(t, events, a) + Pending(u, a);
            && strayed <= all && got == dangled + all[|strayed|..]
            && (got == dangled + all <==>
                  dangled == [] || forall i :: 0 <= i < |events| ==> !CommitsEarly(Run(t, events[..i]), events[i], a))
  {
    hide Step, Brings, Takes, Strays, InHand, Pending, Run, CommitsEarly;
    StrayedNone(Step(Run(Init(), history), Insert(a, capacity)), events, a);
    var s := Run(Init(), history);
    var t := Step(s, Insert(a, capacity));
    assert Inv(Init());
    RunInv(Init(), history);
    RunAccount(s, a, capacity, events);
    if s.At(a).Dangling() == [] {
      NothingStrays(s, a, capacity, events);
    }
  }

  lemma {:induction false} StrayedNone(t: State, events: seq<Event>, a: Address)
    ensures Strayed(t, events, a) == []
            <==> forall i :: 0 <= i < |events| ==> !CommitsEarly(Run(t, events[..i]), events[i], a)
  {
    hide Run, CommitsEarly;
    if events != [] {
      var n := |events| - 1;
      var before := events[..n];
      StrayedNone(t, before, a);
      assert forall i :: 0 <= i < n ==> before[..i] == events[..i] && before[i] == events[i];
      assert (forall i :: 0 <= i < n ==> !CommitsEarly(Run(t, before[..i]), before[i], a))
        <==> (forall i :: 0 <= i < n ==> !CommitsEarly(Run(t, events[..i]), events[i], a));
    }
  }

  lemma {:induction false} NothingStrays(s: State, a: Address, capacity: nat, events: seq<Event>)
    requires Inv(s) && s.At(a).Unopened? && s.At(a).Dangling() == [] && capacity >= 1
    ensures var t := Step(s, Insert(a, capacity)); Run(t, events).At(a).Open? && Strayed(t, events, a) == []
  {
    var t := Step(s, Insert(a, capacity));
    assert SlotOk(s.At(a));
    if events != [] {
      hide Step;
      var before := events[..|events| - 1];
      NothingStrays(s, a, capacity, before);
      OpenStays(Run(t, before), events[|events| - 1], a);
    }
  }

  // ----- The loss, and the dispatcher that never comes back -----

  /** A datagram dangles and its channel is inserted. */
  function Dangled(a: Address, x: Bytes, capacity: nat): State {
    State({a.conversation}, map[a := Opening(Queue([], capacity), Queue([x], DANGLING_DATAGRAM_QUEUE_SIZE))], Ready)
  }

  lemma DangledReached(a: Address, x: Bytes, capacity: nat)
    requires Sendable(a) && capacity >= 1
    ensures Run(Init(), [Register(a.conversation), Arrive(Frame(Packet(a, x))), Look, Park] + [Insert(a, capacity)])
            == Dangled(a, x, capacity)
  {
    hide Addressee, Unroutable, Frame;
    var p := Packet(a, x);
    FrameRoundTrip(p);
    var s1 := State({a.conversation}, map[], Ready);
    assert Step(Init(), Register(a.conversation)) == s1;
    assert Step(s1, Arrive(Frame(p))) == s1.(dispatcher := Looking(p));
    assert Step(s1.(dispatcher := Looking(p)), Look) == s1.(dispatcher := Missed(p));
    var s4 := s1.(slots := map[a := Unopened(Some(Queue([x], DANGLING_DATAGRAM_QUEUE_SIZE)))]);
    assert Step(s1.(dispatcher := Missed(p)), Park) == s4;
    assert Step(s4, Insert(a, capacity)) == Dangled(a, x, capacity);
    Run4(Init(), Register(a.conversation), Arrive(Frame(p)), Look, Park);
    RunSnoc(Init(), [Register(a.conversation), Arrive(Frame(p)), Look, Park], Insert(a, capacity));
  }

  /** The next datagram is added to the channel's own queue. */
  function WithStray(a: Address, x: Bytes, y: Bytes, capacity: nat): State {
    State({a.conversation}, map[a := Opening(Queue([y], capacity), Queue([x], DANGLING_DATAGRAM_QUEUE_SIZE))], Ready)
  }

  lemma StrayReached(a: Address, x: Bytes, y: Bytes, capacity: nat)
    requires Sendable(a) && capacity >= 1
    ensures Run(Dangled(a, x, capacity), [Arrive(Frame(Packet(a, y))), Look, Take, Push])
            == WithStray(a, x, y, capacity)
  {
    hide Addressee, Unroutable, Frame;
    var p, s := Packet(a, y), Dangled(a, x, capacity);
    FrameRoundTrip(p);
    assert Step(s, Arrive(Frame(p))) == s.(dispatcher := Looking(p));
    assert Step(s.(dispatcher := Looking(p)), Look) == s.(dispatcher := Found(p));
    assert Step(s.(dispatcher := Found(p)), Take) == s.(dispatcher := Adding(p));
    assert [] + [y] == [y];
    assert Step(s.(dispatcher := Adding(p)), Push).slots == WithStray(a, x, y, capacity).slots;
    Run4(s, Arrive(Frame(p)), Look, Take, Push);
  }

  /** The schedule that loses a datagram: `x` dangles, the channel is inserted, `y` is added before the
      swap. Afterwards the channel holds `x` alone and the dispatcher is idle: `y` is gone. */
  lemma WindowLosesDatagram(a: Address, x: Bytes, y: Bytes, capacity: nat)
    requires Sendable(a) && capacity >= 1
    ensures var dangles := [Register(a.conversation), Arrive(Frame(Packet(a, x))), Look, Park];
            var s := Run(Init(), dangles + [Insert(a, capacity)]);
            var t := Run(s, [Arrive(Frame(Packet(a, y))), Look, Take, Push] + [Swap(a)]);
            t.dispatcher.Ready? && t.At(a) == Open(Queue([x], DANGLING_DATAGRAM_QUEUE_SIZE))
  {
    hide Addressee, Unroutable, Frame, Run;
    DangledReached(a, x, capacity);
    StrayReached(a, x, y, capacity);
    RunSnoc(Dangled(a, x, capacity), [Arrive(Frame(Packet(a, y))), Look, Take, Push], Swap(a));
  }

  /** A dispatcher waiting on a full queue that was replaced waits for ever: nobody takes from it. */
  lemma {:induction false} StrandedForever(s: State, events: seq<Event>)
    requires s.dispatcher.Stranded? && s.dispatcher.queue.Full()
    ensures Run(s, events).dispatcher == s.dispatcher
  {
    if events != [] {
      StrandedForever(s, events[..|events| - 1]);
    }
  }

  /** Such a state is reachable: with a queue of one, `y` fills it and `z` waits on it when it is
      replaced. From then on no datagram of the connection is dispatched. */
  lemma DispatcherStops(a: Address, x: Bytes, y: Bytes, z: Bytes, later: seq<Event>)
    requires Sendable(a)
    ensures var s := Run(Init(), [Register(a.conversation), Arrive(Frame(Packet(a, x))), Look, Park] + [Insert(a, 1)]);
            var t := Run(s, [Arrive(Frame(Packet(a, y))), Look, Take, Push]);
            var u := Run(t, [Arrive(Frame(Packet(a, z))), Look, Take, Swap(a)]);
            Run(u, later).dispatcher == Stranded(Packet(a, z), Queue([y], 1))
  {
    hide Addressee, Unroutable, Frame;
    var p, s := Packet(a, z), WithStray(a, x, y, 1);
    DangledReached(a, x, 1);
    StrayReached(a, x, y, 1);
    FrameRoundTrip(p);
    assert Step(s, Arrive(Frame(p))) == s.(dispatcher := Looking(p));
    assert Step(s.(dispatcher := Looking(p)), Look) == s.(dispatcher := Found(p));
    assert Step(s.(dispatcher := Found(p)), Take) == s.(dispatcher := Adding(p));
    var u := Step(s.(dispatcher := Adding(p)), Swap(a));
    assert u.dispatcher == Stranded(p, Queue([y], 1));
    Run4(s, Arrive(Frame(p)), Look, Take, Swap(a));
    StrandedForever(u, later);
  }

  // ----- When the dispatcher comes back -----

  /** Its loop has ended, or it waits on a full queue from which nobody will ever take: one that was
      replaced, or one that is about to be. */
  predicate Doomed(s: State) {
    match s.dispatcher
    case Stopped => true
    case Stranded(_, queue) => queue.Full()
    case Adding(p) => s.At(p.to).Opening? && s.At(p.to).own.Full()
    case _ => false
  }

  /** The two ways in: a malformed datagram, or reading the reference of a full queue between insertion
      and swap. */
  predicate Dooms(s: State, e: Event) {
    var d := s.dispatcher;
    || (e.Arrive? && d.Ready? && Unroutable(s, e.datagram))
    || (e.Take? && d.Found? && s.At(d.p.to).Opening? && s.At(d.p.to).own.Full())
  }

  lemma AcceptedIsRoutable(s: State, datagram: Bytes)
    ensures Accepted(s, datagram).Some? ==> !Unroutable(s, datagram)
  {
    hide Wire.ReadVarInt;
  }

  /** There is no other way in, and none out. */
  lemma StepDoomed(s: State, e: Event)
    requires DispatcherOk(s)
    ensures Doomed(Step(s, e)) <==> Doomed(s) || Dooms(s, e)
  {
    hide Addressee, Unroutable;
    match e
    case Arrive(datagram) =>
      AcceptedIsRoutable(s, datagram);
      hide Accepted;
    case Swap(_) =>
    case Push =>
    case _ =>
  }

  ghost predicate SomeDooms(s: State, events: seq<Event>) {
    exists i :: 0 <= i < |events| && Dooms(Run(s, events[..i]), events[i])
  }

  lemma SomeDoomsSnoc(s: State, before: seq<Event>, e: Event)
    ensures SomeDooms(s, before + [e]) <==> SomeDooms(s, before) || Dooms(Run(s, before), e)
  {
    hide Run, Dooms;
    var events, n := before + [e], |before|;
    assert events[..n] == before && events[n] == e;
    if SomeDooms(s, before) {
      var i :| 0 <= i < n && Dooms(Run(s, before[..i]), before[i]);
      assert events[..i] == before[..i] && events[i] == before[i];
    }
    if SomeDooms(s, events) {
      var i :| 0 <= i < |events| && Dooms(Run(s, events[..i]), events[i]);
      assert i < n ==> events[..i] == before[..i] && events[i] == before[i];
    }
  }

  /** Over every run: the dispatcher is doomed if and only if it was, or one of the two happened. */
  lemma {:induction false} DoomedIff(s: State, events: seq<Event>)
    requires Inv(s)
    ensures Doomed(Run(s, events)) <==> Doomed(s) || SomeDooms(s, events)
  {
    if events != [] {
      hide Step, Run, Doomed, Dooms, SomeDooms, Inv;
      var before, e := events[..|events| - 1], events[|events| - 1];
      assert before + [e] == events;
      DoomedIff(s, before);
      RunInv(s, before);
      assert DispatcherOk(Run(s, before)) by { InvDispatcher(Run(s, before)); }
      StepDoomed(Run(s, before), e);
      RunSnoc(s, before, e);
      SomeDoomsSnoc(s, before, e);
    }
  }

  lemma InvDispatcher(s: State)
    requires Inv(s)
    ensures DispatcherOk(s)
  {
  }

  /** A move towards the end of the datagram in hand: the dispatcher's own, the swap of the channel
      that was found, or a receiver making room. */
  function NextMove(s: State): Event {
    match s.dispatcher
    case Looking(_) => Look
    case Found(p) => if s.At(p.to).Opening? then Swap(p.to) else Take
    case Adding(p) => if s.At(p.to).Open? && s.At(p.to).queue.Full() then Receive(p.to) else Push
    case Missed(_) => Park
    case Draining(_) => Drain
    case _ => Push
  }

  function Load(slot: Slot): nat {
    match slot
    case Unopened(_) => 0
    case Opening(own, pending) => |own.items| + |pending.items| + 1
    case Open(queue) => |queue.items|
  }

  /** An upper bound on those moves. */
  function Rank(s: State): nat {
    match s.dispatcher
    case Looking(p) => Load(s.At(p.to)) + 4
    case Found(p) => Load(s.At(p.to)) + 3
    case Adding(p) => Load(s.At(p.to)) + 2
    case Missed(p) => Load(s.At(p.to)) + 2
    case Draining(p) => Load(s.At(p.to)) + 1
    case Stranded(p, _) => Load(s.At(p.to)) + 1
    case Ready => 0
    case Stopped => 0
  }

  lemma NextMoveHelps(s: State)
    requires Inv(s) && !Doomed(s) && !s.dispatcher.Ready?
    ensures Rank(Step(s, NextMove(s))) < Rank(s) && !Doomed(Step(s, NextMove(s)))
  {
    hide Addressee, Unroutable;
    var d := s.dispatcher;
    assert !d.Stopped?;
    assert SlotOk(s.At(d.p.to));
    match d
    case Looking(_) =>
    case Found(_) =>
    case Adding(_) =>
    case _ =>
  }

  lemma {:induction false} RunCons(s: State, e: Event, events: seq<Event>)
    ensures Run(s, [e] + events) == Run(Step(s, e), events)
  {
    hide Step;
    if events == [] {
      assert [e] + events == [] + [e];
      RunSnoc(s, [], e);
    } else {
      var n := |events| - 1;
      RunCons(s, e, events[..n]);
      assert ([e] + events)[..n + 1] == [e] + events[..n];
    }
  }

  lemma {:induction false} Recovery(s: State) returns (events: seq<Event>)
    requires Inv(s) && !Doomed(s)
    ensures Run(s, events).dispatcher.Ready?
    decreases Rank(s)
  {
    hide Step, Doomed, Rank, NextMove;
    events := [];
    if !s.dispatcher.Ready? {
      var e := NextMove(s);
      NextMoveHelps(s);
      StepInv(s, e);
      var rest := Recovery(Step(s, e));
      RunCons(s, e, rest);
      events := [e] + rest;
    }
  }

  /** Exactly when the dispatcher of a connection can come back for the next datagram: if and only if it
      is not doomed. */
  lemma ComesBackIff(s: State)
    requires Inv(s)
    ensures (exists events :: Run(s, events).dispatcher.Ready?) <==> !Doomed(s)
  {
    hide Run;
    if Doomed(s) {
      forall events ensures !Run(s, events).dispatcher.Ready? {
        DoomedIff(s, events);
      }
    } else {
      var events := Recovery(s);
    }
  }

  /** The shortest malformed datagram: an empty one stops an idle dispatcher for good. */
  lemma EmptyDatagramStops(s: State, later: seq<Event>)
    requires Inv(s) && s.dispatcher.Ready?
    ensures !Run(Step(s, Arrive([])), later).dispatcher.Ready?
  {
    hide Run;
    assert Unroutable(s, []);
    StepInv(s, Arrive([]));
    StepDoomed(s, Arrive([]));
    DoomedIff(Step(s, Arrive([])), later);
  }
}

/** The bounded queue of crates/ssh3-core/src/queue.rs under every interleaving of one task in
    `wait_next`, one task in `wait_add`, and any number of `add` and `next` callers. Pushing and
    notifying are separate steps, so a check can fall between them.

    A `Notify` holds at most one permit: `notify_one` wakes the parked waiter or leaves the permit;
    awaiting takes the permit or parks. */
module NotifyQueue {
  import opened Wire

  /** Where a waiting task is in its loop. */
  datatype Task =
    | Idle
    | Checking   // about to lock the queue
    | Awaiting   // found it empty (or full): about to await the notification
    | Parked
    | Notifying  // moved a datagram: about to notify the other side

  datatype State = State(
    queue: seq<Bytes>,
    consumer: Task,
    producer: Task,
    offered: Bytes,        // what the producer is adding
    notEmptyPermit: bool,
    notFullPermit: bool,
    adders: nat,           // `add` callers that pushed and have not notified yet
    takers: nat,           // `next` callers that popped and have not notified yet
    pushed: seq<Bytes>,    // histories
    popped: seq<Bytes>)

  datatype Event =
    | WaitNext               // the consumer calls wait_next
    | ConsumerMoves
    | WaitAdd(datagram: Bytes)
    | ProducerMoves
    | Add(datagram: Bytes)
    | AdderNotifies
    | TryNext
    | TakerNotifies

  function Init(): State {
    State([], Idle, Idle, [], false, false, 0, 0, [], [])
  }

  /** `not_empty.notify_one()`. */
  function NotifyNotEmpty(s: State): State {
    if s.consumer.Parked? then s.(consumer := Checking) else s.(notEmptyPermit := true)
  }

  function NotifyNotFull(s: State): State {
    if s.producer.Parked? then s.(producer := Checking) else s.(notFullPermit := true)
  }

  function Push(s: State, d: Bytes): State {
    s.(queue := s.queue + [d], pushed := s.pushed + [d])
  }

  function Pop(s: State): State
    requires s.queue != []
  {
    s.(queue := s.queue[1..], popped := s.popped + [s.queue[0]])
  }

  function ConsumerStep(s: State): State {
    match s.consumer
    case Idle => s
    case Checking => if s.queue == [] then s.(consumer := Awaiting) else Pop(s).(consumer := Notifying)
    case Awaiting =>
      if s.notEmptyPermit then s.(notEmptyPermit := false, consumer := Checking) else s.(consumer := Parked)
    case Parked => s
    case Notifying => NotifyNotFull(s.(consumer := Idle))
  }

  function ProducerStep(s: State, capacity: nat): State {
    match s.producer
    case Idle => s
    case Checking =>
      if |s.queue| >= capacity then s.(producer := Awaiting) else Push(s, s.offered).(producer := Notifying)
    case Awaiting =>
      if s.notFullPermit then s.(notFullPermit := false, producer := Checking) else s.(producer := Parked)
    case Parked => s
    case Notifying => NotifyNotEmpty(s.(producer := Idle))
  }

  /** One atomic action; one that is not enabled changes nothing. */
  function Step(s: State, e: Event, capacity: nat): State {
    match e
    case WaitNext => if s.consumer.Idle? then s.(consumer := Checking) else s
    case ConsumerMoves => ConsumerStep(s)
    case WaitAdd(d) => if s.producer.Idle? then s.(producer := Checking, offered := d) else s
    case ProducerMoves => ProducerStep(s, capacity)
    case Add(d) => if |s.queue| >= capacity then s else Push(s, d).(adders := s.adders + 1)
    case AdderNotifies => if s.adders == 0 then s else NotifyNotEmpty(s.(adders := s.adders - 1))
    case TryNext => if s.queue == [] then s else Pop(s).(takers := s.takers + 1)
    case TakerNotifies => if s.takers == 0 then s else NotifyNotFull(s.(takers := s.takers - 1))
  }

  function Run(events: seq<Event>, capacity: nat): State {
    if events == [] then Init()
    else Step(Run(events[..|events| - 1], capacity), events[|events| - 1], capacity)
  }

  /** A consumer that has found the queue empty will hear of whatever was pushed since. */
  predicate ConsumerHears(s: State) {
    (s.consumer.Awaiting? || s.consumer.Parked?) && s.queue != [] ==>
      s.producer.Notifying? || s.adders > 0 || (s.consumer.Awaiting? && s.notEmptyPermit)
  }

  predicate ProducerHears(s: State, capacity: nat) {
    (s.producer.Awaiting? || s.producer.Parked?) && |s.queue| < capacity ==>
      s.consumer.Notifying? || s.takers > 0 || (s.producer.Awaiting? && s.notFullPermit)
  }

  predicate Inv(s: State, capacity: nat) {
    && Fifo(s, capacity)
    && ConsumerHears(s)
    && ProducerHears(s, capacity)
  }

  predicate Fifo(s: State, capacity: nat) {
    |s.queue| <= capacity && s.pushed == s.popped + s.queue
  }

  lemma PopFifo(s: State, capacity: nat)
    requires s.queue != [] && Fifo(s, capacity)
    ensures Fifo(Pop(s), capacity)
  {
    assert s.queue == [s.queue[0]] + s.queue[1..];
  }

  lemma PushFifo(s: State, d: Bytes, capacity: nat)
    requires |s.queue| < capacity && Fifo(s, capacity)
    ensures Fifo(Push(s, d), capacity)
  {
  }

  lemma StepFifo(s: State, e: Event, capacity: nat)
    requires Fifo(s, capacity)
    ensures Fifo(Step(s, e, capacity), capacity)
  {
    if s.queue != [] {
      PopFifo(s, capacity);
    }
    if |s.queue| < capacity {
      PushFifo(s, s.offered, capacity);
      if e.Add? {
        PushFifo(s, e.datagram, capacity);
      }
    }
    hide Pop, Push;
    match e
    case ConsumerMoves =>
    case ProducerMoves =>
    case _ =>
  }

  lemma StepConsumerHears(s: State, e: Event, capacity: nat)
    requires ConsumerHears(s)
    ensures ConsumerHears(Step(s, e, capacity))
  {
    match e
    case ConsumerMoves =>
    case ProducerMoves =>
    case _ =>
  }

  lemma StepProducerHears(s: State, e: Event, capacity: nat)
    requires ProducerHears(s, capacity)
    ensures ProducerHears(Step(s, e, capacity), capacity)
  {
    match e
    case ConsumerMoves =>
    case ProducerMoves =>
    case _ =>
  }

  lemma StepInv(s: State, e: Event, capacity: nat)
    requires Inv(s, capacity)
    ensures Inv(Step(s, e, capacity), capacity)
  {
    hide Step, ConsumerHears, ProducerHears;
    StepFifo(s, e, capacity);
    StepConsumerHears(s, e, capacity);
    StepProducerHears(s, e, capacity);
  }

  lemma {:induction false} RunInv(events: seq<Event>, capacity: nat)
    ensures Inv(Run(events, capacity), capacity)
  {
    hide Step, Inv;
    if events == [] {
      assert Inv(Init(), capacity) by { InitInv(capacity); }
    } else {
      RunInv(events[..|events| - 1], capacity);
      StepInv(Run(events[..|events| - 1], capacity), events[|events| - 1], capacity);
    }
  }

  lemma InitInv(capacity: nat)
    ensures Inv(Init(), capacity)
  {
  }

  /** Nobody is between moving a datagram and notifying. */
  predicate Quiet(s: State) {
    !s.consumer.Notifying? && !s.producer.Notifying? && s.adders == 0 && s.takers == 0
  }

  /** No lost wakeup: in every reachable state with no notification outstanding, a parked consumer
      faces an empty queue and a parked producer a full one, so the two are never parked
      together; the queue is first-in first-out and never exceeds its capacity. */
  lemma NoLostWakeup(events: seq<Event>, capacity: nat)
    requires capacity >= 1
    ensures var s := Run(events, capacity);
            && |s.queue| <= capacity
            && s.pushed == s.popped + s.queue
            && (Quiet(s) && s.consumer.Parked? ==> s.queue == [])
            && (Quiet(s) && s.producer.Parked? ==> |s.queue| == capacity)
            && !(Quiet(s) && s.consumer.Parked? && s.producer.Parked?)
  {
    hide Step;
    RunInv(events, capacity);
  }

  /** With room for one datagram at least, two tasks that both have a call under way never wait
      for each other: one of them can move, or a notification is outstanding. */
  lemma NoDeadlock(events: seq<Event>, capacity: nat)
    requires capacity >= 1
    requires !Run(events, capacity).consumer.Idle? && !Run(events, capacity).producer.Idle?
    ensures var s := Run(events, capacity);
            || ConsumerStep(s) != s
            || ProducerStep(s, capacity) != s
            || s.adders > 0
            || s.takers > 0
  {
    hide Step;
    RunInv(events, capacity);
  }

  // ----- What is pushed -----

  /** The datagram of the last `wait_add` call made while none was under way. */
  function Offered(events: seq<Event>, capacity: nat): Bytes {
    if events == [] then [] else
      var before, e := events[..|events| - 1], events[|events| - 1];
      if e.WaitAdd? && Run(before, capacity).producer.Idle? then e.datagram else Offered(before, capacity)
  }

  /** The datagrams of the calls that found room, in the order they found it. */
  function Added(events: seq<Event>, capacity: nat): seq<Bytes> {
    if events == [] then [] else
      var before, e := events[..|events| - 1], events[|events| - 1];
      var s := Run(before, capacity);
      Added(before, capacity) +
        if |s.queue| >= capacity then []
        else if e.Add? then [e.datagram]
        else if e.ProducerMoves? && s.producer.Checking? then [Offered(before, capacity)]
        else []
  }

  /** How many `next` calls and `wait_next` checks found a datagram. */
  function Taken(events: seq<Event>, capacity: nat): nat {
    if events == [] then 0 else
      var before, e := events[..|events| - 1], events[|events| - 1];
      var s := Run(before, capacity);
      Taken(before, capacity) +
        if s.queue != [] && (e.TryNext? || (e.ConsumerMoves? && s.consumer.Checking?)) then 1 else 0
  }

  /** In every interleaving, what came out followed by what is queued is what was added, and each call
      that found a datagram took one: nothing is lost, repeated, altered or reordered. */
  lemma QueueDelivers(events: seq<Event>, capacity: nat)
    ensures var s := Run(events, capacity);
            && s.offered == Offered(events, capacity)
            && s.popped + s.queue == Added(events, capacity)
            && |s.popped| == Taken(events, capacity)
  {
    hide Run, Added, Offered, Taken;
    RunInv(events, capacity);
    PushedIsAdded(events, capacity);
    PoppedIsTaken(events, capacity);
  }

  lemma StepPops(s: State, e: Event, capacity: nat)
    ensures |Step(s, e, capacity).popped| == |s.popped| +
            if s.queue != [] && (e.TryNext? || (e.ConsumerMoves? && s.consumer.Checking?)) then 1 else 0
  {
    match e
    case ConsumerMoves =>
    case ProducerMoves =>
    case _ =>
  }

  lemma {:induction false} PoppedIsTaken(events: seq<Event>, capacity: nat)
    ensures |Run(events, capacity).popped| == Taken(events, capacity)
  {
    hide Step;
    if events != [] {
      var before := events[..|events| - 1];
      PoppedIsTaken(before, capacity);
      StepPops(Run(before, capacity), events[|events| - 1], capacity);
    }
  }

  lemma StepPushes(s: State, e: Event, capacity: nat)
    ensures var s' := Step(s, e, capacity);
            && s'.offered == (if e.WaitAdd? && s.producer.Idle? then e.datagram else s.offered)
            && s'.pushed == s.pushed +
               if |s.queue| >= capacity then []
               else if e.Add? then [e.datagram]
               else if e.ProducerMoves? && s.producer.Checking? then [s.offered]
               else []
  {
    match e
    case ConsumerMoves =>
    case ProducerMoves =>
    case _ =>
  }

  lemma {:induction false} PushedIsAdded(events: seq<Event>, capacity: nat)
    ensures var s := Run(events, capacity);
            s.offered == Offered(events, capacity) && s.pushed == Added(events, capacity)
  {
    hide Step;
    if events != [] {
      var before := events[..|events| - 1];
      PushedIsAdded(before, capacity);
      StepPushes(Run(before, capacity), events[|events| - 1], capacity);
    }
  }

  // ----- Calls return -----

  /** What brings a consumer closer to the datagram at the front. */
  function ConsumerNext(s: State): Event {
    if s.consumer.Idle? then WaitNext
    else if s.consumer.Parked? || (s.consumer.Awaiting? && !s.notEmptyPermit) then
      if s.adders > 0 then AdderNotifies else ProducerMoves
    else ConsumerMoves
  }

  function ConsumerRank(s: State): nat {
    if s.consumer.Checking? then 0
    else if s.consumer.Notifying? || (s.consumer.Awaiting? && !s.notEmptyPermit) then 2
    else 1
  }

  lemma ConsumerNextHelps(s: State, capacity: nat)
    requires ConsumerHears(s) && s.queue != []
    ensures var s' := Step(s, ConsumerNext(s), capacity);
            if s.consumer.Checking? then s'.popped == s.popped + [s.queue[0]] && s'.consumer.Notifying?
            else s'.queue == s.queue && s'.popped == s.popped && ConsumerRank(s') < ConsumerRank(s)
  {
  }

  lemma RunSnoc(events: seq<Event>, e: Event, capacity: nat)
    ensures Run(events + [e], capacity) == Step(Run(events, capacity), e, capacity)
  {
    assert (events + [e])[..|events|] == events;
  }

  /** From every reachable state with a datagram queued, `wait_next` can return the front one. */
  lemma {:induction false} ConsumerGets(events: seq<Event>, capacity: nat) returns (more: seq<Event>)
    requires Run(events, capacity).queue != []
    ensures var s, s' := Run(events, capacity), Run(events + more, capacity);
            s'.popped == s.popped + [s.queue[0]] && s'.consumer.Notifying?
    decreases ConsumerRank(Run(events, capacity))
  {
    hide Run, Step;
    var s := Run(events, capacity);
    var e := ConsumerNext(s);
    RunInv(events, capacity);
    ConsumerNextHelps(s, capacity);
    RunSnoc(events, e, capacity);
    more := [e];
    if !s.consumer.Checking? {
      var rest := ConsumerGets(events + [e], capacity);
      assert events + ([e] + rest) == (events + [e]) + rest;
      more := [e] + rest;
    }
  }

  function ProducerNext(s: State): Event {
    if s.producer.Parked? || (s.producer.Awaiting? && !s.notFullPermit) then
      if s.takers > 0 then TakerNotifies else ConsumerMoves
    else ProducerMoves
  }

  function ProducerRank(s: State): nat {
    if s.producer.Checking? then 0 else if s.producer.Awaiting? && !s.notFullPermit then 2 else 1
  }

  lemma ProducerNextHelps(s: State, capacity: nat)
    requires ProducerHears(s, capacity) && |s.queue| < capacity
    requires s.producer.Checking? || s.producer.Awaiting? || s.producer.Parked?
    ensures var s' := Step(s, ProducerNext(s), capacity);
            if s.producer.Checking? then s'.queue == s.queue + [s.offered] && s'.producer.Notifying?
            else && s'.queue == s.queue && s'.offered == s.offered && ProducerRank(s') < ProducerRank(s)
                 && (s'.producer.Checking? || s'.producer.Awaiting? || s'.producer.Parked?)
  {
  }

  /** From every reachable state with room, a `wait_add` under way can add its datagram. */
  lemma {:induction false} ProducerAdds(events: seq<Event>, capacity: nat) returns (more: seq<Event>)
    requires var s := Run(events, capacity);
             |s.queue| < capacity && (s.producer.Checking? || s.producer.Awaiting? || s.producer.Parked?)
    ensures var s, s' := Run(events, capacity), Run(events + more, capacity);
            s'.queue == s.queue + [s.offered] && s'.producer.Notifying?
    decreases ProducerRank(Run(events, capacity))
  {
    hide Run, Step;
    var s := Run(events, capacity);
    var e := ProducerNext(s);
    RunInv(events, capacity);
    ProducerNextHelps(s, capacity);
    RunSnoc(events, e, capacity);
    more := [e];
    if !s.producer.Checking? {
      var rest := ProducerAdds(events + [e], capacity);
      assert events + ([e] + rest) == (events + [e]) + rest;
      more := [e] + rest;
    }
  }
}

/** Delivery of datagrams to channels that may not exist yet (conversation.go, `AddDatagram`).
    One dispatcher, any number of openers and accepters, and any number of receivers interleave.
    Between finding no channel and parking the datagram the dispatcher holds no lock, so the
    channel may be registered, and may even be read, in that window. */
module DatagramDemux {
  import opened Wire
  import opened Queues
  import opened ChannelsManager

  datatype Arrival = Arrival(id: nat, payload: Bytes)

  /** Where the dispatcher is with the datagram it took from the connection. */
  datatype Dispatcher =
    | Ready
    | Looking(id: nat, item: Item)  // before getChannel
    | Missed(id: nat, item: Item)   // no channel was found: about to park it
    | Waiting(id: nat, item: Item)  // a channel was found: blocked until its queue has room

  datatype State = State(
    manager: Manager,
    dispatcher: Dispatcher,
    arrivals: seq<Arrival>,         // everything taken from the connection
    received: map<nat, seq<Item>>,  // what each channel's receivers got
    dropped: set<nat>)              // the indices of lost arrivals

  datatype Event =
    | Arrive(id: nat, payload: Bytes)
    | Look
    | Park
    | Deliver
    | Register(id: nat, capacity: nat)
    | Receive(id: nat)

  function Init(): State {
    State(Manager(map[], map[]), Ready, [], map[], {})
  }

  function Received(s: State, id: nat): seq<Item> {
    if id in s.received then s.received[id] else []
  }

  function Queued(m: Manager, id: nat): seq<Item> {
    if id in m.channels then m.channels[id].items
    else if id in m.dangling then m.dangling[id].items
    else []
  }

  function InFlight(d: Dispatcher, id: nat): seq<Item> {
    if !d.Ready? && d.id == id then [d.item] else []
  }

  /** Parking `id` loses the datagram: its queue is full, or 128 other channels are pending. */
  predicate Overflows(m: Manager, id: nat) {
    if id in m.channels then m.channels[id].Full()
    else if id in m.dangling then m.dangling[id].Full()
    else |m.dangling| >= MAX_DANGLING
  }

  /** One atomic action; an action that is not enabled changes nothing. A channel id is
      registered once, with room for at least one datagram. */
  function Step(s: State, e: Event): State {
    match e
    case Arrive(id, payload) =>
      if s.dispatcher.Ready? then
        s.(dispatcher := Looking(id, Item(|s.arrivals|, payload)), arrivals := s.arrivals + [Arrival(id, payload)])
      else s
    case Look =>
      if s.dispatcher.Looking? then
        var d := s.dispatcher;
        s.(dispatcher := if d.id in s.manager.channels then Waiting(d.id, d.item) else Missed(d.id, d.item))
      else s
    case Park =>
      if s.dispatcher.Missed? then
        var d := s.dispatcher;
        s.(dispatcher := Ready,
           manager := s.manager.Park(d.id, Queue([d.item], DANGLING_CAPACITY)),
           dropped := if Overflows(s.manager, d.id) then s.dropped + {d.item.index} else s.dropped)
      else s
    case Deliver =>
      var d := s.dispatcher;
      if d.Waiting? && d.id in s.manager.channels && !s.manager.channels[d.id].Full() then
        s.(dispatcher := Ready,
           manager := s.manager.(channels := s.manager.channels[d.id := s.manager.channels[d.id].Add(d.item)]))
      else s
    case Register(id, capacity) =>
      if id !in s.manager.channels && capacity >= 1 then
        s.(manager := s.manager.Register(id, Queue([], capacity)))
      else s
    case Receive(id) =>
      if id in s.manager.channels && s.manager.channels[id].items != [] then
        var q := s.manager.channels[id];
        s.(manager := s.manager.(channels := s.manager.channels[id := q.(items := q.items[1..])]),
           received := s.received[id := Received(s, id) + [q.items[0]]])
      else s
  }

  function Run(events: seq<Event>): State {
    if events == [] then Init() else Step(Run(events[..|events| - 1]), events[|events| - 1])
  }

  /** The arrivals for `id` that were not dropped, in order of arrival. */
  function Kept(arrivals: seq<Arrival>, dropped: set<nat>, id: nat): seq<Item> {
    if arrivals == [] then []
    else
      var n := |arrivals| - 1;
      Kept(arrivals[..n], dropped, id)
      + if arrivals[n].id == id && n !in dropped then [Item(n, arrivals[n].payload)] else []
  }

  /** Nothing for `id` is lost beyond `dropped`, duplicated or reordered. */
  predicate Accounted(s: State, id: nat) {
    Received(s, id) + Queued(s.manager, id) + InFlight(s.dispatcher, id) == Kept(s.arrivals, s.dropped, id)
  }

  predicate ManagerOk(m: Manager) {
    && m.channels.Keys !! m.dangling.Keys
    && |m.dangling| <= MAX_DANGLING
    && (forall id :: id in m.dangling ==>
          m.dangling[id].capacity == DANGLING_CAPACITY && |m.dangling[id].items| <= DANGLING_CAPACITY)
    && (forall id :: id in m.channels ==> |m.channels[id].items| <= m.channels[id].capacity)
  }

  /** The dispatcher holds the last arrival, which is not dropped, and nothing has been received
      from a channel that is not registered. */
  predicate Consistent(s: State) {
    && ManagerOk(s.manager)
    && s.received.Keys <= s.manager.channels.Keys
    && (forall i :: i in s.dropped ==> i < |s.arrivals|)
    && (s.dispatcher.Waiting? ==> s.dispatcher.id in s.manager.channels)
    && (!s.dispatcher.Ready? ==>
          && s.arrivals != []
          && s.dispatcher.item.index == |s.arrivals| - 1
          && s.dispatcher.item.index !in s.dropped
          && s.arrivals[|s.arrivals| - 1] == Arrival(s.dispatcher.id, s.dispatcher.item.payload))
  }

  lemma AddAllOne(q: Queue<Item>, item: Item)
    ensures q.AddAll([item]) == q.Add(item)
  {
    assert [item][1..] == [];
    assert q.Add(item).AddAll([]) == q.Add(item);
  }

  lemma ParkManagerOk(m: Manager, id: nat, item: Item)
    requires ManagerOk(m)
    ensures ManagerOk(m.Park(id, Queue([item], DANGLING_CAPACITY)))
  {
    hide Queue.AddAll;
    var m' := m.Park(id, Queue([item], DANGLING_CAPACITY));
    if id in m.channels {
      AddAllOne(m.channels[id], item);
    } else if id in m.dangling {
      AddAllOne(m.dangling[id], item);
      assert m'.dangling.Keys == m.dangling.Keys;
      assert |m'.dangling.Keys| == |m.dangling.Keys|;
    }
  }

  lemma RegisterManagerOk(m: Manager, id: nat, capacity: nat)
    requires ManagerOk(m) && id !in m.channels
    ensures ManagerOk(m.Register(id, Queue([], capacity)))
  {
    var m' := m.Register(id, Queue([], capacity));
    assert m'.dangling.Keys == m.dangling.Keys - {id};
    assert |m'.dangling.Keys| <= |m.dangling.Keys|;
  }

  lemma SetQueueManagerOk(m: Manager, id: nat, q: Queue<Item>)
    requires ManagerOk(m) && id in m.channels && |q.items| <= q.capacity
    ensures ManagerOk(m.(channels := m.channels[id := q]))
    ensures m.channels[id := q].Keys == m.channels.Keys
  {
  }

  lemma ParkConsistent(s: State)
    requires Consistent(s) && s.dispatcher.Missed?
    ensures Consistent(Step(s, Park))
  {
    hide Manager.Park, ManagerOk, Overflows;
    ParkManagerOk(s.manager, s.dispatcher.id, s.dispatcher.item);
    ParkKeys(s.manager, s.dispatcher.id, s.dispatcher.item);
  }

  lemma DeliverConsistent(s: State)
    requires Consistent(s)
    ensures Consistent(Step(s, Deliver))
  {
    hide ManagerOk;
    var m, d := s.manager, s.dispatcher;
    if d.Waiting? && !m.channels[d.id].Full() {
      SetQueueManagerOk(m, d.id, m.channels[d.id].Add(d.item));
    }
  }

  lemma RegisterConsistent(s: State, id: nat, capacity: nat)
    requires Consistent(s)
    ensures Consistent(Step(s, Register(id, capacity)))
  {
    hide Manager.Register, ManagerOk;
    if id !in s.manager.channels {
      RegisterManagerOk(s.manager, id, capacity);
      RegisterKeys(s.manager, id, capacity);
    }
  }

  lemma ReceiveConsistent(s: State, id: nat)
    requires Consistent(s)
    ensures Consistent(Step(s, Receive(id)))
  {
    hide ManagerOk;
    var m := s.manager;
    if id in m.channels && m.channels[id].items != [] {
      QueueBounded(m, id);
      SetQueueManagerOk(m, id, m.channels[id].(items := m.channels[id].items[1..]));
    }
  }

  lemma StepConsistent(s: State, e: Event)
    requires Consistent(s)
    ensures Consistent(Step(s, e))
  {
    match e
    case Arrive(_, _) => hide ManagerOk;
    case Look => hide ManagerOk;
    case Park =>
      hide Consistent;
      if s.dispatcher.Missed? {
        ParkConsistent(s);
      }
    case Deliver =>
      hide Consistent, Step;
      DeliverConsistent(s);
    case Register(id, capacity) =>
      hide Consistent, Step;
      RegisterConsistent(s, id, capacity);
    case Receive(id) =>
      hide Consistent, Step;
      ReceiveConsistent(s, id);
  }

  lemma QueueBounded(m: Manager, id: nat)
    requires ManagerOk(m) && id in m.channels
    ensures |m.channels[id].items| <= m.channels[id].capacity
  {
  }

  lemma ParkKeys(m: Manager, id: nat, item: Item)
    ensures m.Park(id, Queue([item], DANGLING_CAPACITY)).channels.Keys == m.channels.Keys
  {
    hide Queue.AddAll;
  }

  lemma RegisterKeys(m: Manager, id: nat, capacity: nat)
    ensures m.Register(id, Queue([], capacity)).channels.Keys == m.channels.Keys + {id}
  {
  }

  lemma {:induction false} KeptOlder(arrivals: seq<Arrival>, dropped: set<nat>, index: nat, id: nat)
    requires index >= |arrivals|
    ensures Kept(arrivals, dropped + {index}, id) == Kept(arrivals, dropped, id)
  {
    if arrivals != [] {
      KeptOlder(arrivals[..|arrivals| - 1], dropped, index, id);
    }
  }

  /** Parking appends the datagram to whatever is queued for its channel, or drops it. */
  lemma ParkQueued(m: Manager, id: nat, item: Item, other: nat)
    requires ManagerOk(m)
    ensures Queued(m.Park(id, Queue([item], DANGLING_CAPACITY)), other)
            == Queued(m, other) + if other == id && !Overflows(m, id) then [item] else []
  {
    hide Queue.AddAll;
    if id in m.channels {
      AddAllOne(m.channels[id], item);
    } else if id in m.dangling {
      AddAllOne(m.dangling[id], item);
    }
  }

  lemma KeptSnoc(arrivals: seq<Arrival>, a: Arrival, dropped: set<nat>, id: nat)
    requires |arrivals| !in dropped
    ensures Kept(arrivals + [a], dropped, id)
            == Kept(arrivals, dropped, id) + if a.id == id then [Item(|arrivals|, a.payload)] else []
  {
    assert (arrivals + [a])[..|arrivals|] == arrivals;
  }

  lemma ArriveAccounted(s: State, id: nat, payload: Bytes, other: nat)
    requires s.dispatcher.Ready? && Accounted(s, other) && Consistent(s)
    ensures Accounted(Step(s, Arrive(id, payload)), other)
  {
    hide Kept, ManagerOk;
    KeptSnoc(s.arrivals, Arrival(id, payload), s.dropped, other);
    assert InFlight(s.dispatcher, other) == [];
  }

  lemma ParkAccounted(s: State, id: nat)
    requires s.dispatcher.Missed? && Accounted(s, id) && Consistent(s)
    ensures Accounted(Step(s, Park), id)
  {
    hide Manager.Park, Overflows;
    var d, s' := s.dispatcher, Step(s, Park);
    ParkQueued(s.manager, d.id, d.item, id);
    if Overflows(s.manager, d.id) {
      KeptOlder(s.arrivals[..d.item.index], s.dropped, d.item.index, id);
      var held := Received(s, id) + Queued(s.manager, id);
      assert (held + InFlight(d, id))[..|held|] == held;
    }
  }

  lemma ReceiveAccounted(s: State, r: nat, id: nat)
    requires r in s.manager.channels && s.manager.channels[r].items != []
    requires Accounted(s, id)
    ensures Accounted(Step(s, Receive(r)), id)
  {
    hide Kept;
    var s' := Step(s, Receive(r));
    if r == id {
      var got, items := Received(s, id), s.manager.channels[id].items;
      assert Received(s', id) == got + [items[0]];
      assert Queued(s'.manager, id) == items[1..];
      assert got + [items[0]] + items[1..] == got + items;
    }
  }

  lemma LookAccounted(s: State, id: nat)
    requires Accounted(s, id)
    ensures Accounted(Step(s, Look), id)
  {
    hide Kept;
  }

  lemma DeliverAccounted(s: State, id: nat)
    requires Accounted(s, id) && Consistent(s)
    ensures Accounted(Step(s, Deliver), id)
  {
    hide Kept, ManagerOk;
  }

  /** Registration hands the parked datagrams to the channel. */
  lemma RegisterAccounted(s: State, r: nat, capacity: nat, id: nat)
    requires Accounted(s, id)
    ensures Accounted(Step(s, Register(r, capacity)), id)
  {
    hide Kept;
  }

  lemma StepAccounted(s: State, e: Event, id: nat)
    requires Consistent(s) && Accounted(s, id)
    ensures Accounted(Step(s, e), id)
  {
    match e
    case Look => LookAccounted(s, id);
    case Deliver => DeliverAccounted(s, id);
    case Register(r, capacity) => RegisterAccounted(s, r, capacity, id);
    case Arrive(a, payload) =>
      hide Consistent, Accounted;
      if s.dispatcher.Ready? {
        ArriveAccounted(s, a, payload, id);
      }
    case Park =>
      hide Consistent, Accounted;
      if s.dispatcher.Missed? {
        ParkAccounted(s, id);
      }
    case Receive(r) =>
      hide Consistent, Accounted;
      if r in s.manager.channels && s.manager.channels[r].items != [] {
        ReceiveAccounted(s, r, id);
      }
  }

  lemma {:induction false} RunConsistent(events: seq<Event>)
    ensures Consistent(Run(events))
  {
    if events != [] {
      RunConsistent(events[..|events| - 1]);
      StepConsistent(Run(events[..|events| - 1]), events[|events| - 1]);
    }
  }

  lemma {:induction false} RunAccounted(events: seq<Event>, id: nat)
    ensures Accounted(Run(events), id)
  {
    if events != [] {
      var before := Run(events[..|events| - 1]);
      RunConsistent(events[..|events| - 1]);
      RunAccounted(events[..|events| - 1], id);
      StepAccounted(before, events[|events| - 1], id);
    }
  }

  // ----- What Kept means -----

  /** Strictly increasing arrival indices, each with the payload that arrived for `id`; every
      arrival for `id` that was not dropped is there. */
  predicate OrderedSelection(k: seq<Item>, arrivals: seq<Arrival>, dropped: set<nat>, id: nat) {
    && (forall i :: 0 <= i < |k| ==>
          && k[i].index < |arrivals| && k[i].index !in dropped
          && arrivals[k[i].index] == Arrival(id, k[i].payload))
    && (forall i, j :: 0 <= i < j < |k| ==> k[i].index < k[j].index)
    && (forall n :: 0 <= n < |arrivals| && arrivals[n].id == id && n !in dropped ==> Item(n, arrivals[n].payload) in k)
  }

  lemma {:induction false} KeptOrdered(arrivals: seq<Arrival>, dropped: set<nat>, id: nat)
    ensures OrderedSelection(Kept(arrivals, dropped, id), arrivals, dropped, id)
  {
    if arrivals != [] {
      var n := |arrivals| - 1;
      KeptOrdered(arrivals[..n], dropped, id);
      OneMoreOrdered(Kept(arrivals[..n], dropped, id), arrivals, dropped, id);
    }
  }

  lemma OneMoreOrdered(k: seq<Item>, arrivals: seq<Arrival>, dropped: set<nat>, id: nat)
    requires arrivals != [] && OrderedSelection(k, arrivals[..|arrivals| - 1], dropped, id)
    ensures var n := |arrivals| - 1;
      OrderedSelection(k + (if arrivals[n].id == id && n !in dropped then [Item(n, arrivals[n].payload)] else []),
                       arrivals, dropped, id)
  {
    var n := |arrivals| - 1;
    assert k + [] == k;
    assert forall i :: 0 <= i < |k| ==> arrivals[..n][k[i].index] == arrivals[k[i].index];
  }

  // ----- Bounded memory -----

  ghost function TotalDangling(d: map<nat, Queue<Item>>): nat {
    if d == map[] then 0
    else
      var id :| id in d;
      |d[id].items| + TotalDangling(d - {id})
  }

  lemma {:induction false} TotalDanglingBound(d: map<nat, Queue<Item>>)
    requires forall id :: id in d ==> |d[id].items| <= DANGLING_CAPACITY
    ensures TotalDangling(d) <= DANGLING_CAPACITY * |d|
    decreases |d|
  {
    if d != map[] {
      var id :| id in d && TotalDangling(d) == |d[id].items| + TotalDangling(d - {id});
      var rest := d - {id};
      assert rest.Keys == d.Keys - {id};
      assert |rest| == |d| - 1 by {
        assert |rest.Keys| == |d.Keys| - 1;
      }
      TotalDanglingBound(rest);
    }
  }

  // ----- The theorems -----

  /** In every interleaving and for every channel id, what was received, then what is queued or
      parked, then what the dispatcher holds is an ordered selection of that id's arrivals,
      without duplicates, missing exactly the dropped ones; no id is both registered and
      parked, and at most 128 ids and 1280 datagrams are parked. */
  lemma DemuxSafety(events: seq<Event>, id: nat)
    ensures var s := Run(events);
            && OrderedSelection(Received(s, id) + Queued(s.manager, id) + InFlight(s.dispatcher, id),
                                s.arrivals, s.dropped, id)
            && s.manager.channels.Keys !! s.manager.dangling.Keys
            && |s.manager.dangling| <= MAX_DANGLING
            && TotalDangling(s.manager.dangling) <= 1280
  {
    var s := Run(events);
    RunConsistent(events);
    RunAccounted(events, id);
    KeptOrdered(s.arrivals, s.dropped, id);
    TotalDanglingBound(s.manager.dangling);
  }

  /** `e` in state `s` is the dispatcher finding no room to park arrival `i`. */
  predicate DropsAt(s: State, e: Event, i: nat) {
    && e.Park? && s.dispatcher.Missed? && s.dispatcher.item.index == i
    && var m, id := s.manager, s.dispatcher.id;
       if id in m.channels then |m.channels[id].items| >= m.channels[id].capacity
       else if id in m.dangling then |m.dangling[id].items| >= 10
       else |m.dangling| >= 128
  }

  /** A datagram is lost only at a moment when its queue was full or 128 other channels were
      pending. */
  lemma {:induction false} DropsJustified(events: seq<Event>, i: nat)
    requires i in Run(events).dropped
    ensures exists k :: 0 <= k < |events| && DropsAt(Run(events[..k]), events[k], i)
  {
    var n := |events| - 1;
    RunConsistent(events[..n]);
    if i in Run(events[..n]).dropped {
      DropsJustified(events[..n], i);
      var k :| 0 <= k < n && DropsAt(Run(events[..n][..k]), events[..n][k], i);
      assert events[..n][..k] == events[..k];
    } else {
      assert DropsAt(Run(events[..n]), events[n], i);
    }
  }

  /** Once the channel is registered, its queue drained and the dispatcher idle, its receivers
      have got exactly the arrivals that were not dropped. */
  lemma DeliveredAll(events: seq<Event>, id: nat)
    requires var s := Run(events); s.dispatcher.Ready? && id in s.manager.channels && s.manager.channels[id].items == []
    ensures var s := Run(events); Received(s, id) == Kept(s.arrivals, s.dropped, id)
  {
    RunAccounted(events, id);
  }

  // ----- What arrived, and what cannot be lost -----

  /** The datagrams that an idle dispatcher took from the connection. */
  function Taken(events: seq<Event>): seq<Arrival> {
    if events == [] then []
    else
      var before, e := events[..|events| - 1], events[|events| - 1];
      Taken(before) + if e.Arrive? && Run(before).dispatcher.Ready? then [Arrival(e.id, e.payload)] else []
  }

  lemma {:induction false} ArrivalsAreTaken(events: seq<Event>)
    ensures Run(events).arrivals == Taken(events)
  {
    hide Manager.Park, Manager.Register, Overflows;
    if events != [] {
      ArrivalsAreTaken(events[..|events| - 1]);
    }
  }

  /** Arrival `i` is for a registered channel, and is delivered, or on its way there, or waiting. */
  predicate NotLost(s: State, i: nat, id: nat) {
    && i < |s.arrivals| && i !in s.dropped && id in s.manager.channels
    && (!s.dispatcher.Ready? && s.dispatcher.item.index == i ==> s.dispatcher.id == id && !s.dispatcher.Missed?)
  }

  lemma StepNotLost(s: State, e: Event, i: nat, id: nat)
    requires Consistent(s) && NotLost(s, i, id)
    ensures NotLost(Step(s, e), i, id)
  {
    hide ManagerOk, Overflows;
    match e
    case Park =>
      hide Manager.Park;
      if s.dispatcher.Missed? {
        ParkKeys(s.manager, s.dispatcher.id, s.dispatcher.item);
      }
    case Register(r, capacity) =>
      hide Manager.Register;
      RegisterKeys(s.manager, r, capacity);
    case _ =>
  }

  /** Over every run: a datagram that arrives for a registered channel is never dropped. */
  lemma {:induction false} RegisteredNeverDropped(events: seq<Event>, k: nat)
    requires k < |events| && events[k].Arrive? && Run(events[..k]).dispatcher.Ready?
    requires events[k].id in Run(events[..k]).manager.channels
    ensures NotLost(Run(events), |Run(events[..k]).arrivals|, events[k].id)
    ensures |Run(events[..k]).arrivals| !in Run(events).dropped
  {
    var n := |events| - 1;
    var before := events[..n];
    RunConsistent(before);
    if k < n {
      assert before[..k] == events[..k];
      RegisteredNeverDropped(before, k);
      hide Step;
      StepNotLost(Run(before), events[n], |Run(events[..k]).arrivals|, events[k].id);
    } else {
      hide Manager.Park, Manager.Register, Overflows;
    }
  }

  // ----- Progress -----

  predicate Roomy(m: Manager) { forall id :: id in m.channels ==> m.channels[id].capacity >= 1 }

  lemma StepRoomy(s: State, e: Event)
    requires Consistent(s) && Roomy(s.manager)
    ensures Roomy(Step(s, e).manager)
  {
    match e
    case Park =>
      if s.dispatcher.Missed? {
        ParkRoomy(s.manager, s.dispatcher.id, s.dispatcher.item);
      }
    case _ => hide Manager.Park;
  }

  lemma ParkRoomy(m: Manager, id: nat, item: Item)
    requires Roomy(m)
    ensures Roomy(m.Park(id, Queue([item], DANGLING_CAPACITY)))
  {
    hide Queue.AddAll;
    if id in m.channels {
      AddAllOne(m.channels[id], item);
    }
  }

  lemma {:induction false} RunRoomy(events: seq<Event>)
    ensures Roomy(Run(events).manager)
  {
    hide Step;
    if events != [] {
      RunRoomy(events[..|events| - 1]);
      RunConsistent(events[..|events| - 1]);
      StepRoomy(Run(events[..|events| - 1]), events[|events| - 1]);
    }
  }

  /** The dispatcher's next step, or a receiver making room for it. */
  function NextMove(s: State): Event {
    match s.dispatcher
    case Looking(_, _) => Look
    case Missed(_, _) => Park
    case Waiting(id, _) => if id in s.manager.channels && s.manager.channels[id].Full() then Receive(id) else Deliver
    case Ready => Look
  }

  /** An upper bound on those moves. */
  function Rank(s: State): nat {
    match s.dispatcher
    case Ready => 0
    case Missed(_, _) => 1
    case Waiting(id, _) => 2 + |Queued(s.manager, id)|
    case Looking(id, _) => 3 + |Queued(s.manager, id)|
  }

  lemma NextMoveHelps(s: State)
    requires Consistent(s) && Roomy(s.manager) && !s.dispatcher.Ready?
    ensures Rank(Step(s, NextMove(s))) < Rank(s)
  {
    hide Manager.Park, ManagerOk, Overflows;
    if s.dispatcher.Waiting? && s.manager.channels[s.dispatcher.id].Full() {
      assert s.manager.channels[s.dispatcher.id].items != [];
    }
  }

  predicate NoArrivals(events: seq<Event>) { forall i :: 0 <= i < |events| ==> !events[i].Arrive? }

  lemma RunSnoc(events: seq<Event>, e: Event)
    ensures Run(events + [e]) == Step(Run(events), e)
  {
    assert (events + [e])[..|events|] == events;
  }

  /** From every reachable state the dispatcher can come back for the next datagram. */
  lemma {:induction false} DispatcherComesBack(events: seq<Event>) returns (more: seq<Event>)
    ensures NoArrivals(more) && Run(events + more).dispatcher.Ready?
    decreases Rank(Run(events))
  {
    hide Step, Rank;
    var s := Run(events);
    if s.dispatcher.Ready? {
      more := [];
      assert events + [] == events;
    } else {
      var e := NextMove(s);
      RunConsistent(events);
      RunRoomy(events);
      NextMoveHelps(s);
      RunSnoc(events, e);
      var rest := DispatcherComesBack(events + [e]);
      more := [e] + rest;
      assert events + more == (events + [e]) + rest;
    }
  }

  lemma {:induction false} QueueEmpties(events: seq<Event>, id: nat) returns (more: seq<Event>)
    requires Run(events).dispatcher.Ready? && id in Run(events).manager.channels
    ensures NoArrivals(more)
    ensures var u := Run(events + more);
            u.dispatcher.Ready? && id in u.manager.channels && u.manager.channels[id].items == []
    decreases |Run(events).manager.channels[id].items|
  {
    hide Run;
    var q := Run(events).manager.channels[id];
    if q.items == [] {
      more := [];
      assert events + [] == events;
    } else {
      RunSnoc(events, Receive(id));
      var rest := QueueEmpties(events + [Receive(id)], id);
      more := [Receive(id)] + rest;
      assert events + more == (events + [Receive(id)]) + rest;
    }
  }

  lemma {:induction false} NothingTaken(events: seq<Event>, more: seq<Event>)
    requires NoArrivals(more)
    ensures Taken(events + more) == Taken(events)
  {
    if more == [] {
      assert events + more == events;
    } else {
      var n := |more| - 1;
      NothingTaken(events, more[..n]);
      assert (events + more)[..|events + more| - 1] == events + more[..n];
    }
  }

  /** From every reachable state and for every id, some continuation without further arrivals registers
      the channel and hands everything that arrived for it, and was not dropped, to its receivers. */
  lemma EverythingReceived(events: seq<Event>, id: nat) returns (more: seq<Event>)
    ensures NoArrivals(more)
    ensures var u := Run(events + more);
            && u.arrivals == Run(events).arrivals && id in u.manager.channels
            && Received(u, id) == Kept(u.arrivals, u.dropped, id)
  {
    hide Run, Kept, Taken;
    var back := DispatcherComesBack(events);
    var registers := back + [Register(id, 1)];
    RunSnoc(events + back, Register(id, 1));
    assert events + registers == (events + back) + [Register(id, 1)];
    assert Run(events + registers).dispatcher.Ready? && id in Run(events + registers).manager.channels by {
      RegisterKeys(Run(events + back).manager, id, 1);
    }
    var rest := QueueEmpties(events + registers, id);
    more := registers + rest;
    assert events + more == (events + registers) + rest;
    DeliveredAll(events + more, id);
    ArrivalsAreTaken(events);
    ArrivalsAreTaken(events + more);
    NothingTaken(events, more);
  }
}

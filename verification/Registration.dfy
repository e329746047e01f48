/** Registration of a conversation around its 200 response (server.go, transport.go). The handler
    creates the connection's manager first and holds the manager's lock from before the response
    until the conversation is in the manager's table; the routers of channel streams and datagrams
    look the manager up under the server's lock and the conversation up under the manager's. */
module Registration {
  import opened Wire

  /** A CONNECT request: its connection and its control stream. Stream ids are never reused. */
  datatype Request = Request(conn: nat, stream: nat)

  /** The requests of the run, and for each routed stream or datagram the request whose
      conversation it names. */
  datatype Config = Config(requests: map<nat, Request>, routed: map<nat, nat>) {
    predicate Valid() {
      && (forall l :: l in routed ==> routed[l] in requests)
      && (forall a, b :: a in requests && b in requests && requests[a] == requests[b] ==> a == b)
    }
  }

  /** The handler of one request; `manager` is the object it got from the server's map. */
  datatype Handler =
    | Start
    | HasManager(manager: nat)
    | Holds(manager: nat)       // the manager's lock
    | Responded(manager: nat)   // the client can see the 200 response
    | Registered(manager: nat)
    | Serving(manager: nat)     // the lock is released, the conversation runs
    | Ended

  /** One routed stream or datagram. */
  datatype Lookup =
    | NotSent
    | Sent                      // the client has seen 200 and sent it
    | AtManager(manager: nat)
    | Found(request: nat)
    | NotFound

  /** A conversation manager: its connection, its table from control streams to requests, and
      the request whose handler holds its lock. */
  datatype Manager = Manager(conn: nat, table: map<nat, nat>, lock: Option<nat>)

  datatype State = State(
    managers: map<nat, nat>,      // the server's map, from connections to managers
    pool: seq<Manager>,           // every manager ever made
    handlers: map<nat, Handler>,  // Start when absent
    lookups: map<nat, Lookup>,    // NotSent when absent
    closed: set<nat>)             // the connections that were removed
  {
    function Handler(h: nat): Handler { if h in handlers then handlers[h] else Start }

    function Lookup(l: nat): Lookup { if l in lookups then lookups[l] else NotSent }

    function WithManager(m: nat, x: Manager): State
      requires m < |pool|
    {
      this.(pool := pool[m := x])
    }
  }

  datatype Event = HandlerMoves(request: nat) | Send(lookup: nat) | Route(lookup: nat) | RemoveConnection(conn: nat)

  function Init(): State { State(map[], [], map[], map[], {}) }

  predicate Active(h: Handler) { !h.Start? && !h.Ended? }

  /** The next step of the handler of request `h`; nothing while it waits for the lock. */
  function StepHandler(c: Config, s: State, h: nat): State
    requires h in c.requests
  {
    var r, p := c.requests[h], s.Handler(h);
    if p.Start? then
      if r.conn in s.managers then s.(handlers := s.handlers[h := HasManager(s.managers[r.conn])])
      else
        s.(managers := s.managers[r.conn := |s.pool|], pool := s.pool + [Manager(r.conn, map[], None)],
           handlers := s.handlers[h := HasManager(|s.pool|)])
    else if p.Ended? || p.manager >= |s.pool| then s
    else
      var m := s.pool[p.manager];
      match p
      case HasManager(i) =>
        if m.lock.Some? then s
        else s.WithManager(i, m.(lock := Some(h))).(handlers := s.handlers[h := Holds(i)])
      case Holds(i) => s.(handlers := s.handlers[h := Responded(i)])
      case Responded(i) =>
        s.WithManager(i, m.(table := m.table[r.stream := h])).(handlers := s.handlers[h := Registered(i)])
      case Registered(i) => s.WithManager(i, m.(lock := None)).(handlers := s.handlers[h := Serving(i)])
      case Serving(i) =>
        if m.lock.Some? then s
        else s.WithManager(i, m.(table := m.table - {r.stream})).(handlers := s.handlers[h := Ended])
  }

  /** The 200 response of the request has left. */
  predicate Answered(h: Handler) { h.Responded? || h.Registered? || h.Serving? || h.Ended? }

  /** The next step of a router: the manager under the server's lock, then the conversation under
      the manager's. */
  function StepRoute(c: Config, s: State, l: nat): State
    requires c.Valid() && l in c.routed
  {
    var r, p := c.requests[c.routed[l]], s.Lookup(l);
    if p.Sent? then
      s.(lookups := s.lookups[l := if r.conn in s.managers then AtManager(s.managers[r.conn]) else NotFound])
    else if p.AtManager? && p.manager < |s.pool| && s.pool[p.manager].lock.None? then
      var table := s.pool[p.manager].table;
      s.(lookups := s.lookups[l := if r.stream in table then Found(table[r.stream]) else NotFound])
    else s
  }

  function Step(c: Config, s: State, e: Event): State
    requires c.Valid()
  {
    match e
    case HandlerMoves(h) => if h in c.requests then StepHandler(c, s, h) else s
    case Send(l) =>
      if l in c.routed && s.Lookup(l).NotSent? && Answered(s.Handler(c.routed[l]))
      then s.(lookups := s.lookups[l := Sent])
      else s
    case Route(l) => if l in c.routed then StepRoute(c, s, l) else s
    case RemoveConnection(k) => s.(managers := s.managers - {k}, closed := s.closed + {k})
  }

  function Run(c: Config, events: seq<Event>): State
    requires c.Valid()
  {
    if events == [] then Init() else Step(c, Run(c, events[..|events| - 1]), events[|events| - 1])
  }

  // ----- The invariant -----

  /** A handler's manager is its connection's, and still the one in the server's map unless the
      connection was removed; it holds the lock exactly while it should, and its conversation is
      in the table from registration to removal. */
  predicate HandlerOk(c: Config, s: State, h: nat)
    requires h in c.requests
  {
    var r, p := c.requests[h], s.Handler(h);
    Active(p) ==>
      && p.manager < |s.pool|
      && var m := s.pool[p.manager];
         && m.conn == r.conn
         && (r.conn !in s.closed ==> r.conn in s.managers && s.managers[r.conn] == p.manager)
         && (p.Holds? || p.Responded? || p.Registered? ==> m.lock == Some(h))
         && (p.Registered? || p.Serving? ==> r.stream in m.table && m.table[r.stream] == h)
  }

  /** A table holds only requests of its own connection, each at its own stream. */
  predicate ManagerOk(c: Config, m: Manager) {
    forall x :: x in m.table ==> m.table[x] in c.requests && c.requests[m.table[x]] == Request(m.conn, x)
  }

  /** A router holding a manager holds its target's, unless the target is over or disconnected. */
  predicate LookupOk(c: Config, s: State, l: nat)
    requires l in c.routed && c.routed[l] in c.requests
  {
    var h, p := c.routed[l], s.Lookup(l);
    var conn, target := c.requests[h].conn, s.Handler(h);
    && (!p.NotSent? ==> Answered(target))
    && (p.AtManager? ==>
          && p.manager < |s.pool|
          && s.pool[p.manager].conn == conn
          && (conn in s.closed || target.Ended? || target.manager == p.manager))
    && (p.Found? ==> p.request == h)
    && (p.NotFound? ==> conn in s.closed || target.Ended?)
  }

  /** The server's map leads to the connection's own manager. */
  predicate MapOk(s: State) {
    forall k :: k in s.managers ==> s.managers[k] < |s.pool| && s.pool[s.managers[k]].conn == k
  }

  predicate Inv(c: Config, s: State)
    requires c.Valid()
  {
    && MapOk(s)
    && (forall h :: h in c.requests ==> HandlerOk(c, s, h))
    && (forall i :: 0 <= i < |s.pool| ==> ManagerOk(c, s.pool[i]))
    && (forall l :: l in c.routed ==> LookupOk(c, s, l))
  }

  // ----- A handler's step -----

  lemma HandlerKeepsItself(c: Config, s: State, h: nat)
    requires c.Valid() && h in c.requests && MapOk(s) && HandlerOk(c, s, h)
    ensures HandlerOk(c, StepHandler(c, s, h), h)
  {
    match s.Handler(h)
    case Start =>
    case HasManager(_) =>
    case Holds(_) =>
    case Responded(_) =>
    case Registered(_) =>
    case Serving(_) =>
    case Ended =>
  }

  lemma HandlerKeepsOther(c: Config, s: State, h: nat, g: nat)
    requires h in c.requests && g in c.requests && c.requests[g] != c.requests[h]
    requires HandlerOk(c, s, h) && HandlerOk(c, s, g)
    ensures HandlerOk(c, StepHandler(c, s, h), g)
  {
    if s.Handler(h).Start? {
      hide StepHandler, HandlerOk;
      StartKeepsOther(c, s, h, g);
    } else if s.Handler(h).Responded? || s.Handler(h).Serving? {
      hide StepHandler, HandlerOk;
      TableKeepsOther(c, s, h, g);
    } else {
      match s.Handler(h)
      case HasManager(_) =>
      case Holds(_) =>
      case Registered(_) =>
      case Ended =>
    }
  }

  /** The table changes only at the handler's own stream. */
  lemma TableKeepsOther(c: Config, s: State, h: nat, g: nat)
    requires h in c.requests && g in c.requests && c.requests[g] != c.requests[h]
    requires HandlerOk(c, s, h) && HandlerOk(c, s, g) && (s.Handler(h).Responded? || s.Handler(h).Serving?)
    ensures HandlerOk(c, StepHandler(c, s, h), g)
  {
  }

  lemma StartKeepsOther(c: Config, s: State, h: nat, g: nat)
    requires h in c.requests && g in c.requests && g != h && s.Handler(h).Start? && HandlerOk(c, s, g)
    ensures HandlerOk(c, StepHandler(c, s, h), g)
  {
  }

  lemma HandlerKeepsManager(c: Config, s: State, h: nat, i: nat)
    requires c.Valid() && h in c.requests && i < |StepHandler(c, s, h).pool|
    requires HandlerOk(c, s, h) && (i < |s.pool| ==> ManagerOk(c, s.pool[i]))
    ensures ManagerOk(c, StepHandler(c, s, h).pool[i])
  {
  }

  lemma HandlerKeepsLookup(c: Config, s: State, h: nat, l: nat)
    requires h in c.requests && l in c.routed && c.routed[l] in c.requests
    requires HandlerOk(c, s, h) && LookupOk(c, s, l)
    ensures LookupOk(c, StepHandler(c, s, h), l)
  {
    match s.Handler(h)
    case Start =>
    case HasManager(_) =>
    case Holds(_) =>
    case Responded(_) =>
    case Registered(_) =>
    case Serving(_) =>
    case Ended =>
  }

  lemma HandlerKeepsMap(c: Config, s: State, h: nat)
    requires h in c.requests && MapOk(s)
    ensures MapOk(StepHandler(c, s, h))
  {
    var s' := StepHandler(c, s, h);
    HandlerKeepsConnections(c, s, h);
    if s.Handler(h).Start? {
      assert forall k :: k in s'.managers ==>
        k in s.managers || (k == c.requests[h].conn && s'.managers[k] == |s.pool|);
    } else {
      hide StepHandler;
    }
  }

  lemma HandlerKeepsConnections(c: Config, s: State, h: nat)
    requires h in c.requests
    ensures var s' := StepHandler(c, s, h);
            && |s.pool| <= |s'.pool|
            && (forall i :: 0 <= i < |s.pool| ==> s'.pool[i].conn == s.pool[i].conn)
            && (!s.Handler(h).Start? ==> s'.managers == s.managers && |s'.pool| == |s.pool|)
  {
  }

  lemma HandlerKeepsInv(c: Config, s: State, h: nat)
    requires c.Valid() && Inv(c, s) && h in c.requests
    ensures Inv(c, StepHandler(c, s, h))
  {
    hide ManagerOk, LookupOk, HandlerOk, MapOk, StepHandler;
    var s' := StepHandler(c, s, h);
    HandlerKeepsMap(c, s, h);
    forall g | g in c.requests ensures HandlerOk(c, s', g) {
      if g == h {
        HandlerKeepsItself(c, s, h);
      } else {
        assert c.requests[g] != c.requests[h];
        HandlerKeepsOther(c, s, h, g);
      }
    }
    forall i | 0 <= i < |s'.pool| ensures ManagerOk(c, s'.pool[i]) {
      HandlerKeepsManager(c, s, h, i);
    }
    forall l | l in c.routed ensures LookupOk(c, s', l) {
      HandlerKeepsLookup(c, s, h, l);
    }
  }

  // ----- A router's step -----

  /** The heart of the argument: a router that reaches an unlocked manager finds its target. */
  lemma RouteFinds(c: Config, s: State, l: nat)
    requires c.Valid() && Inv(c, s) && l in c.routed
    ensures LookupOk(c, StepRoute(c, s, l), l)
  {
    var h, p := c.routed[l], s.Lookup(l);
    assert HandlerOk(c, s, h) && LookupOk(c, s, l);
    assert p.AtManager? ==> ManagerOk(c, s.pool[p.manager]);
  }

  lemma RouteKeepsInv(c: Config, s: State, l: nat)
    requires c.Valid() && Inv(c, s) && l in c.routed
    ensures Inv(c, StepRoute(c, s, l))
  {
    hide ManagerOk, MapOk, LookupOk, HandlerOk, StepRoute;
    var s' := StepRoute(c, s, l);
    RouteFinds(c, s, l);
    RouteKeepsRest(c, s, l);
    forall g | g in c.requests ensures HandlerOk(c, s', g) {
      SameHandler(c, s, s', g);
    }
    forall k | k in c.routed ensures LookupOk(c, s', k) {
      if k != l {
        SameLookup(c, s, s', k);
      }
    }
  }

  /** Only the router's own place changes. */
  lemma RouteKeepsRest(c: Config, s: State, l: nat)
    requires c.Valid() && l in c.routed
    ensures var s' := StepRoute(c, s, l);
            && s' == s.(lookups := s'.lookups)
            && (MapOk(s) ==> MapOk(s'))
            && (forall k: nat :: k != l ==> s'.Lookup(k) == s.Lookup(k))
  {
  }

  lemma SameHandler(c: Config, s: State, s': State, g: nat)
    requires g in c.requests && HandlerOk(c, s, g) && s' == s.(lookups := s'.lookups)
    ensures HandlerOk(c, s', g)
  {
  }

  lemma SameLookup(c: Config, s: State, s': State, k: nat)
    requires k in c.routed && c.routed[k] in c.requests && LookupOk(c, s, k)
    requires s' == s.(lookups := s'.lookups) && s'.Lookup(k) == s.Lookup(k)
    ensures LookupOk(c, s', k)
  {
  }

  lemma StepInv(c: Config, s: State, e: Event)
    requires c.Valid() && Inv(c, s)
    ensures Inv(c, Step(c, s, e))
  {
    match e
    case HandlerMoves(h) =>
      hide StepHandler;
      if h in c.requests {
        HandlerKeepsInv(c, s, h);
      }
    case Route(l) =>
      hide StepRoute;
      if l in c.routed {
        RouteKeepsInv(c, s, l);
      }
    case Send(_) => OthersKeepInv(c, s, e);
    case RemoveConnection(_) => OthersKeepInv(c, s, e);
  }

  lemma OthersKeepInv(c: Config, s: State, e: Event)
    requires c.Valid() && Inv(c, s) && (e.Send? || e.RemoveConnection?)
    ensures Inv(c, Step(c, s, e))
  {
    hide ManagerOk, LookupOk, HandlerOk, Step;
    var s' := Step(c, s, e);
    assert s'.pool == s.pool && MapOk(s') by { OthersKeepMap(c, s, e); }
    forall g | g in c.requests ensures HandlerOk(c, s', g) {
      OthersKeepHandler(c, s, e, g);
    }
    forall k | k in c.routed ensures LookupOk(c, s', k) {
      OthersKeepLookup(c, s, e, k);
    }
  }

  lemma OthersKeepMap(c: Config, s: State, e: Event)
    requires c.Valid() && MapOk(s) && (e.Send? || e.RemoveConnection?)
    ensures Step(c, s, e).pool == s.pool && MapOk(Step(c, s, e))
  {
  }

  lemma OthersKeepHandler(c: Config, s: State, e: Event, g: nat)
    requires c.Valid() && g in c.requests && HandlerOk(c, s, g) && (e.Send? || e.RemoveConnection?)
    ensures HandlerOk(c, Step(c, s, e), g)
  {
  }

  lemma OthersKeepLookup(c: Config, s: State, e: Event, k: nat)
    requires c.Valid() && k in c.routed && LookupOk(c, s, k) && (e.Send? || e.RemoveConnection?)
    ensures LookupOk(c, Step(c, s, e), k)
  {
  }

  lemma {:induction false} RunInv(c: Config, events: seq<Event>)
    requires c.Valid()
    ensures Inv(c, Run(c, events))
  {
    hide Step;
    if events != [] {
      RunInv(c, events[..|events| - 1]);
      StepInv(c, Run(c, events[..|events| - 1]), events[|events| - 1]);
    }
  }

  /** In every interleaving, whatever the client sends for a conversation after its 200 response is
      routed to that conversation, and may go unrouted only if the conversation has ended or its
      connection was removed. */
  lemma RoutedAfterResponse(c: Config, events: seq<Event>, l: nat)
    requires c.Valid() && l in c.routed
    ensures var s, h := Run(c, events), c.routed[l];
            && (s.Lookup(l).Found? ==> s.Lookup(l).request == h)
            && (s.Lookup(l).NotFound? ==> c.requests[h].conn in s.closed || s.Handler(h).Ended?)
  {
    hide Step;
    RunInv(c, events);
    assert LookupOk(c, Run(c, events), l);
  }

  // ----- Every lookup can be resolved -----

  /** A held lock is held by a handler that is between taking and releasing it. */
  predicate LockOk(c: Config, s: State, i: nat) {
    i < |s.pool| && s.pool[i].lock.Some? ==>
      var h := s.pool[i].lock.value;
      var p := s.Handler(h);
      h in c.requests && (p.Holds? || p.Responded? || p.Registered?) && p.manager == i
  }

  lemma HandlerLockOk(c: Config, s: State, h: nat, i: nat)
    requires h in c.requests && LockOk(c, s, i)
    ensures LockOk(c, StepHandler(c, s, h), i)
  {
    match s.Handler(h)
    case Start =>
    case HasManager(_) =>
    case Registered(_) =>
    case _ =>
  }

  lemma StepLockOk(c: Config, s: State, e: Event, i: nat)
    requires c.Valid() && LockOk(c, s, i)
    ensures LockOk(c, Step(c, s, e), i)
  {
    match e
    case HandlerMoves(h) =>
      hide StepHandler, LockOk;
      if h in c.requests {
        HandlerLockOk(c, s, h, i);
      }
    case _ =>
  }

  lemma {:induction false} RunLockOk(c: Config, events: seq<Event>, i: nat)
    requires c.Valid()
    ensures LockOk(c, Run(c, events), i)
  {
    hide Step, LockOk;
    if events == [] {
      assert LockOk(c, Init(), i) by { NoLocks(c, i); }
    } else {
      RunLockOk(c, events[..|events| - 1], i);
      StepLockOk(c, Run(c, events[..|events| - 1]), events[|events| - 1], i);
    }
  }

  lemma NoLocks(c: Config, i: nat)
    ensures LockOk(c, Init(), i)
  {
  }

  predicate Resolved(p: Lookup) { p.Found? || p.NotFound? }

  /** The move that brings a lookup on: its own, or the handler's that holds the lock it waits for. */
  function Helper(s: State, l: nat): Event {
    var p := s.Lookup(l);
    if p.AtManager? && p.manager < |s.pool| && s.pool[p.manager].lock.Some?
    then HandlerMoves(s.pool[p.manager].lock.value) else Route(l)
  }

  function Holding(h: Handler): nat {
    if h.Holds? then 3 else if h.Responded? then 2 else if h.Registered? then 1 else 0
  }

  /** An upper bound on those moves. */
  function Distance(s: State, l: nat): nat {
    var p := s.Lookup(l);
    if p.Sent? then 5
    else if p.AtManager? && p.manager < |s.pool| then
      var lock := s.pool[p.manager].lock;
      1 + if lock.Some? then Holding(s.Handler(lock.value)) else 0
    else 0
  }

  /** A lookup under way is never stuck: it can move, or the handler it waits for can. */
  lemma HelperHelps(c: Config, s: State, l: nat)
    requires c.Valid() && l in c.routed && LookupOk(c, s, l) && (s.Lookup(l).Sent? || s.Lookup(l).AtManager?)
    requires s.Lookup(l).AtManager? ==> LockOk(c, s, s.Lookup(l).manager)
    ensures Distance(Step(c, s, Helper(s, l)), l) < Distance(s, l)
    ensures !Step(c, s, Helper(s, l)).Lookup(l).NotSent?
  {
    var p := s.Lookup(l);
    if p.AtManager? && s.pool[p.manager].lock.Some? {
      var h := s.pool[p.manager].lock.value;
      match s.Handler(h)
      case Holds(_) =>
      case Responded(_) =>
      case Registered(_) =>
    }
  }

  /** From every reachable state some continuation resolves the lookup. */
  lemma {:induction false} LookupResolves(c: Config, events: seq<Event>, l: nat) returns (more: seq<Event>)
    requires c.Valid() && l in c.routed && !Run(c, events).Lookup(l).NotSent?
    ensures Resolved(Run(c, events + more).Lookup(l))
    decreases Distance(Run(c, events), l)
  {
    hide Step, Distance, Helper, LockOk, LookupOk;
    var s := Run(c, events);
    if Resolved(s.Lookup(l)) {
      more := [];
      assert events + [] == events;
    } else {
      RunInv(c, events);
      if s.Lookup(l).AtManager? {
        RunLockOk(c, events, s.Lookup(l).manager);
      }
      HelperHelps(c, s, l);
      var next := events + [Helper(s, l)];
      assert next[..|events|] == events;
      var rest := LookupResolves(c, next, l);
      more := [Helper(s, l)] + rest;
      assert events + more == next + rest;
    }
  }

  // ----- What the tables hold -----

  /** An entry stands for a conversation that was registered there and has not ended. */
  predicate EntryOk(s: State, i: nat, x: nat) {
    i < |s.pool| && x in s.pool[i].table ==>
      var p := s.Handler(s.pool[i].table[x]);
      (p.Registered? || p.Serving?) && p.manager == i
  }

  lemma HandlerKeepsEntry(c: Config, s: State, h: nat, i: nat, x: nat)
    requires h in c.requests && HandlerOk(c, s, h) && EntryOk(s, i, x)
    requires i < |s.pool| ==> ManagerOk(c, s.pool[i])
    ensures EntryOk(StepHandler(c, s, h), i, x)
  {
    if s.Handler(h).Responded? || s.Handler(h).Serving? {
      hide StepHandler, EntryOk, HandlerOk;
      TableKeepsEntry(c, s, h, i, x);
    } else {
      hide ManagerOk;
      match s.Handler(h)
      case Start =>
      case HasManager(_) =>
      case Holds(_) =>
      case Registered(_) =>
      case Ended =>
    }
  }

  lemma TableKeepsEntry(c: Config, s: State, h: nat, i: nat, x: nat)
    requires h in c.requests && HandlerOk(c, s, h) && EntryOk(s, i, x)
    requires i < |s.pool| ==> ManagerOk(c, s.pool[i])
    requires s.Handler(h).Responded? || s.Handler(h).Serving?
    ensures EntryOk(StepHandler(c, s, h), i, x)
  {
  }

  lemma StepEntry(c: Config, s: State, e: Event, i: nat, x: nat)
    requires c.Valid() && Inv(c, s) && EntryOk(s, i, x)
    ensures EntryOk(Step(c, s, e), i, x)
  {
    hide StepHandler, ManagerOk, HandlerOk, LookupOk, MapOk;
    if e.HandlerMoves? {
      hide EntryOk;
      if e.request in c.requests {
        HandlerKeepsEntry(c, s, e.request, i, x);
      }
    }
  }

  lemma {:induction false} RunEntry(c: Config, events: seq<Event>, i: nat, x: nat)
    requires c.Valid()
    ensures EntryOk(Run(c, events), i, x)
  {
    hide Step, EntryOk;
    if events == [] {
      assert EntryOk(Init(), i, x) by { NoEntries(i, x); }
    } else {
      var before := events[..|events| - 1];
      RunEntry(c, before, i, x);
      RunInv(c, before);
      StepEntry(c, Run(c, before), events[|events| - 1], i, x);
    }
  }

  lemma NoEntries(i: nat, x: nat)
    ensures EntryOk(Init(), i, x)
  {
  }

  /** In every interleaving a conversation is in the table of its manager, under its control stream,
      exactly from its registration to its end, and in no other table. */
  lemma TableIsRegistered(c: Config, events: seq<Event>, h: nat, i: nat, x: nat)
    requires c.Valid() && h in c.requests && i < |Run(c, events).pool|
    ensures var s, p := Run(c, events), Run(c, events).Handler(h);
            x in s.pool[i].table && s.pool[i].table[x] == h <==>
              (p.Registered? || p.Serving?) && p.manager == i && x == c.requests[h].stream
  {
    hide Step, Run;
    RunInv(c, events);
    RunEntry(c, events, i, x);
    assert HandlerOk(c, Run(c, events), h) && ManagerOk(c, Run(c, events).pool[i]);
  }

  // ----- A handler gets through -----

  /** The handler's next step takes a lock that another one holds. */
  predicate Waits(s: State, h: nat) {
    var p := s.Handler(h);
    (p.HasManager? || p.Serving?) && p.manager < |s.pool| && s.pool[p.manager].lock.Some?
  }

  /** The move that brings a handler on: its own, or the one's that holds the lock it waits for. */
  function HandlerHelper(s: State, h: nat): Event {
    HandlerMoves(if Waits(s, h) then s.pool[s.Handler(h).manager].lock.value else h)
  }

  function HandlerDistance(s: State, h: nat): nat {
    var p := s.Handler(h);
    var wait := if Active(p) && p.manager < |s.pool| && s.pool[p.manager].lock.Some?
                then Holding(s.Handler(s.pool[p.manager].lock.value)) else 0;
    match p
    case Start => 12
    case HasManager(_) => 8 + wait
    case Holds(_) => 7
    case Responded(_) => 6
    case Registered(_) => 5
    case Serving(_) => 1 + wait
    case Ended => 0
  }

  lemma HandlerHelperHelps(c: Config, s: State, h: nat)
    requires c.Valid() && h in c.requests && HandlerOk(c, s, h) && !s.Handler(h).Ended?
    requires Active(s.Handler(h)) ==> LockOk(c, s, s.Handler(h).manager)
    ensures var s' := Step(c, s, HandlerHelper(s, h));
            && HandlerDistance(s', h) < HandlerDistance(s, h)
            && (s'.Handler(h).Ended? ==> s.Handler(h).Serving? && !Waits(s, h))
            && s'.lookups == s.lookups && s'.closed == s.closed
  {
    match s.Handler(h)
    case Start =>
    case HasManager(i) => HelpedWhileWaiting(c, s, h);
    case Serving(i) => HelpedWhileWaiting(c, s, h);
    case Holds(_) =>
    case Responded(_) =>
    case Registered(_) =>
  }

  lemma HelpedWhileWaiting(c: Config, s: State, h: nat)
    requires c.Valid() && h in c.requests && HandlerOk(c, s, h) && (s.Handler(h).HasManager? || s.Handler(h).Serving?)
    requires LockOk(c, s, s.Handler(h).manager)
    ensures var s' := Step(c, s, HandlerHelper(s, h));
            && HandlerDistance(s', h) < HandlerDistance(s, h)
            && (s'.Handler(h).Ended? ==> s.Handler(h).Serving? && !Waits(s, h))
            && s'.lookups == s.lookups && s'.closed == s.closed
  {
    var m := s.pool[s.Handler(h).manager];
    if m.lock.Some? {
      match s.Handler(m.lock.value)
      case Holds(_) =>
      case Responded(_) =>
      case Registered(_) =>
    }
  }

  lemma RunStep(c: Config, events: seq<Event>)
    requires c.Valid() && events != []
    ensures Run(c, events) == Step(c, Run(c, events[..|events| - 1]), events[|events| - 1])
  {
  }

  lemma HandlerMovesOn(c: Config, events: seq<Event>, h: nat)
    requires c.Valid() && h in c.requests && !Run(c, events).Handler(h).Ended?
    ensures var s, s' := Run(c, events), Run(c, events + [HandlerHelper(Run(c, events), h)]);
            && HandlerDistance(s', h) < HandlerDistance(s, h)
            && (s'.Handler(h).Ended? ==> s.Handler(h).Serving? && !Waits(s, h))
            && s'.lookups == s.lookups && s'.closed == s.closed
  {
    hide Run, Step, HandlerDistance, HandlerHelper, Waits;
    var s := Run(c, events);
    RunInv(c, events);
    if Active(s.Handler(h)) {
      RunLockOk(c, events, s.Handler(h).manager);
    }
    var next := events + [HandlerHelper(s, h)];
    assert next[..|events|] == events;
    assert Run(c, next) == Step(c, s, next[|events|]) by { RunStep(c, next); }
    HandlerHelperHelps(c, s, h);
  }

  /** From every reachable state a request's handler can come to serve its conversation with nobody
      holding the lock, unless it has ended already. */
  lemma {:induction false} HandlerServes(c: Config, events: seq<Event>, h: nat) returns (more: seq<Event>)
    requires c.Valid() && h in c.requests && !Run(c, events).Handler(h).Ended?
    ensures var s, s' := Run(c, events), Run(c, events + more);
            s'.Handler(h).Serving? && !Waits(s', h) && s'.lookups == s.lookups && s'.closed == s.closed
    decreases HandlerDistance(Run(c, events), h)
  {
    hide Run, Step, Waits;
    var s := Run(c, events);
    more := [];
    assert events + [] == events;
    if !s.Handler(h).Serving? || Waits(s, h) {
      var e := HandlerHelper(s, h);
      HandlerMovesOn(c, events, h);
      var rest := HandlerServes(c, events + [e], h);
      assert events + ([e] + rest) == (events + [e]) + rest;
      more := [e] + rest;
    }
  }

  /** And it can end. */
  lemma {:induction false} HandlerEnds(c: Config, events: seq<Event>, h: nat) returns (more: seq<Event>)
    requires c.Valid() && h in c.requests
    ensures Run(c, events + more).Handler(h).Ended?
    decreases HandlerDistance(Run(c, events), h)
  {
    hide Run, Step;
    var s := Run(c, events);
    more := [];
    assert events + [] == events;
    if !s.Handler(h).Ended? {
      var e := HandlerHelper(s, h);
      HandlerMovesOn(c, events, h);
      var rest := HandlerEnds(c, events + [e], h);
      assert events + ([e] + rest) == (events + [e]) + rest;
      more := [e] + rest;
    }
  }

  lemma ServingIsFound(c: Config, s: State, l: nat)
    requires c.Valid() && l in c.routed && Inv(c, s) && s.Lookup(l).NotSent?
    requires var h := c.routed[l]; s.Handler(h).Serving? && !Waits(s, h) && c.requests[h].conn !in s.closed
    ensures Step(c, Step(c, Step(c, s, Send(l)), Route(l)), Route(l)).Lookup(l) == Found(c.routed[l])
  {
    hide Inv, ManagerOk, MapOk, LookupOk;
    var h := c.routed[l];
    assert HandlerOk(c, s, h) by { InvHandler(c, s, h); }
    var m := s.Handler(h).manager;
    var s1 := Step(c, s, Send(l));
    assert s1 == s.(lookups := s.lookups[l := Sent]);
    var s2 := Step(c, s1, Route(l));
    assert s2.Lookup(l) == AtManager(m) && s2.pool == s.pool;
  }

  lemma InvHandler(c: Config, s: State, h: nat)
    requires c.Valid() && Inv(c, s) && h in c.requests
    ensures HandlerOk(c, s, h)
  {
  }

  /** From every reachable state in which a conversation has not ended and its connection is there, what
      the client has still to send can be sent and found by that conversation. */
  lemma CanBeFound(c: Config, events: seq<Event>, l: nat) returns (more: seq<Event>)
    requires c.Valid() && l in c.routed && Run(c, events).Lookup(l).NotSent?
    requires var s, h := Run(c, events), c.routed[l]; !s.Handler(h).Ended? && c.requests[h].conn !in s.closed
    ensures Run(c, events + more).Lookup(l) == Found(c.routed[l])
  {
    hide Run, Step, Waits;
    var first := HandlerServes(c, events, c.routed[l]);
    var a := events + first;
    var b1, b2, b3 := a + [Send(l)], a + [Send(l)] + [Route(l)], a + [Send(l)] + [Route(l)] + [Route(l)];
    assert b1[..|a|] == a && b2[..|b1|] == b1 && b3[..|b2|] == b2;
    RunStep(c, b1);
    RunStep(c, b2);
    RunStep(c, b3);
    RunInv(c, a);
    ServingIsFound(c, Run(c, a), l);
    more := first + [Send(l)] + [Route(l)] + [Route(l)];
    assert events + more == b3;
  }

  /** A connection is gone from the moment it is removed: what is routed next finds nothing. */
  lemma RemovedIsGone(c: Config, events: seq<Event>, l: nat)
    requires c.Valid() && l in c.routed && Run(c, events).Lookup(l).Sent?
    ensures var conn := c.requests[c.routed[l]].conn;
            var s := Run(c, events + [RemoveConnection(conn)] + [Route(l)]);
            s.Lookup(l).NotFound? && conn in s.closed
  {
    hide Run;
    var a := events + [RemoveConnection(c.requests[c.routed[l]].conn)];
    var b := a + [Route(l)];
    assert a[..|events|] == events && b[..|a|] == a;
    RunStep(c, a);
    RunStep(c, b);
  }

  lemma StepCloses(c: Config, s: State, e: Event, k: nat)
    requires c.Valid()
    ensures k in Step(c, s, e).closed <==> k in s.closed || e == RemoveConnection(k)
  {
    match e
    case HandlerMoves(_) =>
    case Route(_) =>
    case _ =>
  }

  /** The removed connections are those that were removed. */
  lemma {:induction false} ClosedIff(c: Config, events: seq<Event>, k: nat)
    requires c.Valid()
    ensures k in Run(c, events).closed <==> RemoveConnection(k) in events
  {
    hide Step;
    if events != [] {
      var before, e := events[..|events| - 1], events[|events| - 1];
      ClosedIff(c, before, k);
      StepCloses(c, Run(c, before), e, k);
      assert events == before + [e];
    }
  }
}

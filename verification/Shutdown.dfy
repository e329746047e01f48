/** `Serve`, `Close` and the per-connection tasks of the Go server (transport.go, server.go) under
    every interleaving. Critical sections of the server's lock are single steps; any number of
    `Close` calls may overlap, and a closed listener may still hand out a connection. */
module Shutdown {

  datatype Serve =
    | NotCalled
    | Listening              // the listener exists, the server does not know it yet
    | Accepting
    | Got(conn: nat)         // accepted, not registered yet
    | Rejecting(conn: nat)   // saw `closed`: about to close the connection
    | Leaving                // the deferred listener.Close
    | Stopped

  datatype Closer =
    | Called
    | Closing(pending: set<nat>, listener: bool)  // the snapshot left to close
    | Returned

  datatype Task = Running | Closed | Gone

  datatype State = State(
    closed: bool,
    listener: bool,           // the server's field is set
    listenerMade: bool,
    listenerClosed: bool,
    connections: set<nat>,
    serve: Serve,
    closers: map<nat, Closer>,
    tasks: map<nat, Task>,
    accepted: set<nat>,       // every connection Serve ever accepted
    shut: set<nat>)           // the connections that were closed

  datatype Event =
    | Listen(ok: bool)
    | ServeLocks             // the critical section Serve has come to
    | Accept(conn: nat)
    | AcceptFails
    | ServeCloses            // outside the lock: the connection, or the listener
    | CallClose(id: nat)
    | CloseLocks(id: nat)
    | CloseConnection(id: nat, conn: nat)
    | CloseReturns(id: nat)
    | TaskCloses(conn: nat)
    | TaskRemoves(conn: nat)

  function Init(): State {
    State(false, false, false, false, {}, NotCalled, map[], map[], {}, {})
  }

  /** One step; one that is not enabled changes nothing. */
  function Step(s: State, e: Event): State {
    match e
    case Listen(ok) =>
      if !s.serve.NotCalled? then s
      else if ok then s.(serve := Listening, listenerMade := true)
      else s.(serve := Stopped)
    case ServeLocks =>
      if s.serve.Listening? then
        if s.closed then s.(serve := Leaving) else s.(listener := true, serve := Accepting)
      else if s.serve.Got? then
        if s.closed then s.(serve := Rejecting(s.serve.conn))
        else
          s.(connections := s.connections + {s.serve.conn}, tasks := s.tasks[s.serve.conn := Running],
             serve := Accepting)
      else s
    case Accept(c) =>
      if s.serve.Accepting? && c !in s.accepted then s.(serve := Got(c), accepted := s.accepted + {c}) else s
    case AcceptFails => if s.serve.Accepting? then s.(serve := Leaving) else s
    case ServeCloses =>
      if s.serve.Rejecting? then s.(shut := s.shut + {s.serve.conn}, serve := Leaving)
      else if s.serve.Leaving? then s.(listenerClosed := true, serve := Stopped)
      else s
    case CallClose(k) => if k in s.closers then s else s.(closers := s.closers[k := Called])
    case CloseLocks(k) =>
      if k in s.closers && s.closers[k].Called?
      then s.(closed := true, closers := s.closers[k := Closing(s.connections, s.listener)])
      else s
    case CloseConnection(k, c) =>
      if k in s.closers && s.closers[k].Closing? && c in s.closers[k].pending
      then
        s.(shut := s.shut + {c},
           closers := s.closers[k := Closing(s.closers[k].pending - {c}, s.closers[k].listener)])
      else s
    case CloseReturns(k) =>
      if k in s.closers && s.closers[k].Closing? && s.closers[k].pending == {}
      then s.(listenerClosed := s.listenerClosed || s.closers[k].listener, closers := s.closers[k := Returned])
      else s
    case TaskCloses(c) =>
      if c in s.tasks && s.tasks[c].Running? then s.(shut := s.shut + {c}, tasks := s.tasks[c := Closed]) else s
    case TaskRemoves(c) =>
      if c in s.tasks && s.tasks[c].Closed?
      then s.(connections := s.connections - {c}, tasks := s.tasks[c := Gone])
      else s
  }

  function Run(events: seq<Event>): State {
    if events == [] then Init() else Step(Run(events[..|events| - 1]), events[|events| - 1])
  }

  /** Serve is still responsible for the connection. */
  predicate WithServe(s: State, c: nat) {
    (s.serve.Got? || s.serve.Rejecting?) && s.serve.conn == c
  }

  /** An accepted connection is closed, in the map, or still with Serve. */
  predicate Tracked(s: State, c: nat) {
    c in s.shut || c in s.connections || WithServe(s, c)
  }

  /** For a Close call past its critical section it is closed, in that call's snapshot, or with Serve. */
  predicate Covered(s: State, k: nat, c: nat) {
    k in s.closers && !s.closers[k].Called? ==>
      && s.closed
      && (c in s.accepted ==> c in s.shut || WithServe(s, c) || (s.closers[k].Closing? && c in s.closers[k].pending))
  }

  /** A connection leaves the map only after its task closed it. */
  predicate TaskOk(s: State, c: nat) {
    c in s.tasks && !s.tasks[c].Running? ==> c in s.shut
  }

  predicate ListenerOk(s: State) {
    && (s.listenerMade && s.serve.Stopped? ==> s.listenerClosed)
    && (s.serve.NotCalled? ==> !s.listenerMade)
  }

  ghost predicate Inv(s: State) {
    && ListenerOk(s)
    && (forall c: nat :: TaskOk(s, c))
    && (forall c :: c in s.accepted ==> Tracked(s, c))
    && (forall k: nat, c: nat :: Covered(s, k, c))
  }

  lemma StepTask(s: State, e: Event, c: nat)
    requires TaskOk(s, c)
    ensures TaskOk(Step(s, e), c)
  {
    match e
    case ServeLocks =>
    case TaskCloses(_) =>
    case TaskRemoves(_) =>
    case _ =>
  }

  lemma StepTracked(s: State, e: Event, c: nat)
    requires TaskOk(s, c) && (c in s.accepted ==> Tracked(s, c))
    ensures c in Step(s, e).accepted ==> Tracked(Step(s, e), c)
  {
    match e
    case ServeLocks =>
    case Accept(_) =>
    case TaskRemoves(_) =>
    case _ =>
  }

  lemma StepCovered(s: State, e: Event, k: nat, c: nat)
    requires (c in s.accepted ==> Tracked(s, c)) && Covered(s, k, c)
    ensures Covered(Step(s, e), k, c)
  {
    match e
    case CloseLocks(_) =>
    case CloseConnection(_, _) =>
    case ServeLocks =>
    case Accept(_) =>
    case _ =>
  }

  lemma StepListener(s: State, e: Event)
    requires ListenerOk(s)
    ensures ListenerOk(Step(s, e))
  {
  }

  lemma StepInv(s: State, e: Event)
    requires Inv(s)
    ensures Inv(Step(s, e))
  {
    hide Step, Tracked, Covered, TaskOk, ListenerOk;
    StepListener(s, e);
    forall c: nat ensures TaskOk(Step(s, e), c) && (c in Step(s, e).accepted ==> Tracked(Step(s, e), c)) {
      StepTask(s, e, c);
      StepTracked(s, e, c);
    }
    forall k: nat, c: nat ensures Covered(Step(s, e), k, c) {
      StepCovered(s, e, k, c);
    }
  }

  lemma {:induction false} RunInv(events: seq<Event>)
    ensures Inv(Run(events))
  {
    hide Step;
    if events != [] {
      RunInv(events[..|events| - 1]);
      StepInv(Run(events[..|events| - 1]), events[|events| - 1]);
    }
  }

  /** Once some Close call has returned and Serve has stopped, every connection Serve ever accepted
      has been closed, and so has the listener. */
  lemma AllClosed(events: seq<Event>, k: nat)
    requires var s := Run(events); k in s.closers && s.closers[k].Returned? && s.serve.Stopped?
    ensures var s := Run(events); s.accepted <= s.shut && (s.listenerMade ==> s.listenerClosed)
  {
    hide Step;
    var s := Run(events);
    RunInv(events);
    forall c | c in s.accepted ensures c in s.shut {
      assert Covered(s, k, c);
    }
  }

  // ----- Why things are closed -----

  /** A connection is in the map from its registration until its task removes it. */
  predicate RegisteredOk(s: State, c: nat) {
    c in s.connections <==> c in s.tasks && !s.tasks[c].Gone?
  }

  /** Every connection accepted while the server is open gets registered, and Serve turns one away only
      on a closed server. */
  predicate TaskedOk(s: State, c: nat) {
    && (c in s.accepted && !WithServe(s, c) ==> s.closed || c in s.tasks)
    && (c in s.tasks ==> c in s.accepted && !WithServe(s, c))
    && (WithServe(s, c) ==> c in s.accepted)
    && (s.serve.Rejecting? ==> s.closed)
  }

  /** A closed connection's own task closed it, or the server is closed. */
  predicate CauseOk(s: State, c: nat) {
    && (c in s.shut ==> s.closed || (c in s.tasks && !s.tasks[c].Running?))
    && TaskedOk(s, c)
    && RegisteredOk(s, c)
  }

  lemma StepRegistered(s: State, e: Event, c: nat)
    requires RegisteredOk(s, c)
    ensures RegisteredOk(Step(s, e), c)
  {
    match e
    case ServeLocks =>
    case TaskCloses(_) =>
    case TaskRemoves(_) =>
    case _ =>
  }

  lemma StepTasked(s: State, e: Event, c: nat)
    requires TaskedOk(s, c)
    ensures TaskedOk(Step(s, e), c)
  {
    match e
    case ServeLocks =>
    case Accept(_) =>
    case ServeCloses =>
    case TaskCloses(_) =>
    case TaskRemoves(_) =>
    case _ =>
  }

  lemma StepCause(s: State, e: Event, c: nat)
    requires CauseOk(s, c) && forall k: nat :: Covered(s, k, c)
    ensures CauseOk(Step(s, e), c)
  {
    StepRegistered(s, e, c);
    StepTasked(s, e, c);
    hide RegisteredOk;
    match e
    case ServeLocks =>
      if s.serve.Got? && s.serve.conn == c {
        assert c !in s.tasks;
      }
    case CloseConnection(k, _) => assert Covered(s, k, c);
    case TaskCloses(_) =>
    case TaskRemoves(_) =>
    case _ =>
  }

  lemma {:induction false} RunCause(events: seq<Event>, c: nat)
    ensures CauseOk(Run(events), c)
  {
    hide Step, Covered;
    if events != [] {
      var before := events[..|events| - 1];
      RunCause(before, c);
      RunInv(before);
      StepCause(Run(before), events[|events| - 1], c);
    }
  }

  /** The server is closed only by a Close call. */
  ghost predicate ClosedByCall(s: State) {
    s.closed ==> exists k :: k in s.closers && !s.closers[k].Called?
  }

  lemma StepClosedByCall(s: State, e: Event)
    requires ClosedByCall(s)
    ensures ClosedByCall(Step(s, e))
  {
    var s' := Step(s, e);
    if s.closed {
      var k :| k in s.closers && !s.closers[k].Called?;
      StepKeepsLocked(s, e, k);
    } else if s'.closed {
      assert e.id in s'.closers && !s'.closers[e.id].Called?;
    }
  }

  lemma StepKeepsLocked(s: State, e: Event, k: nat)
    requires k in s.closers && !s.closers[k].Called?
    ensures k in Step(s, e).closers && !Step(s, e).closers[k].Called?
  {
    match e
    case CallClose(_) =>
    case CloseLocks(_) =>
    case CloseConnection(_, _) =>
    case CloseReturns(_) =>
    case _ =>
  }

  /** Serve leaves only because of that, of a failed accept or of a listener it could not make. */
  lemma StepLeaves(s: State, e: Event)
    requires s.serve.Rejecting? ==> s.closed
    ensures var s' := Step(s, e);
            && (s.closed ==> s'.closed)
            && ((s'.serve.Leaving? || s'.serve.Stopped?) && !s.serve.Leaving? && !s.serve.Stopped? ==>
                  s.closed || e == AcceptFails || e == Listen(false))
  {
    match e
    case ServeLocks =>
    case ServeCloses =>
    case _ =>
  }

  /** In every interleaving. */
  lemma {:induction false} NothingClosedWithoutCause(events: seq<Event>)
    ensures var s := Run(events);
            && ClosedByCall(s)
            && (forall c: nat :: CauseOk(s, c))
            && (s.serve.Leaving? || s.serve.Stopped? ==> s.closed || AcceptFails in events || Listen(false) in events)
  {
    hide Step, ClosedByCall, CauseOk;
    forall c: nat ensures CauseOk(Run(events), c) {
      RunCause(events, c);
    }
    if events == [] {
      assert ClosedByCall(Init()) by { NotClosedYet(); }
    } else {
      var before, e := events[..|events| - 1], events[|events| - 1];
      assert e in events && forall x :: x in before ==> x in events;
      NothingClosedWithoutCause(before);
      StepClosedByCall(Run(before), e);
      CauseRejecting(Run(before));
      StepLeaves(Run(before), e);
    }
  }

  lemma NotClosedYet()
    ensures ClosedByCall(Init())
  {
  }

  lemma CauseRejecting(s: State)
    requires CauseOk(s, 0)
    ensures s.serve.Rejecting? ==> s.closed
  {
  }

  // ----- A shutdown can complete -----

  lemma RunSnoc(events: seq<Event>, e: Event)
    ensures Run(events + [e]) == Step(Run(events), e)
  {
    assert (events + [e])[..|events|] == events;
  }

  /** From every reachable state a Close call that was made can return, whatever the others do. */
  lemma {:induction false} CloseReturnsEventually(events: seq<Event>, k: nat) returns (more: seq<Event>)
    requires k in Run(events).closers
    ensures var s' := Run(events + more);
            k in s'.closers && s'.closers[k].Returned? && s'.serve == Run(events).serve
    decreases Run(events).closers[k].Called?,
      if Run(events).closers[k].Closing? then |Run(events).closers[k].pending| else 0
  {
    hide Run;
    var s := Run(events);
    more := [];
    assert events + [] == events;
    if !s.closers[k].Returned? {
      var e := CloseReturns(k);
      if s.closers[k].Called? {
        e := CloseLocks(k);
      } else if s.closers[k].pending != {} {
        var c :| c in s.closers[k].pending;
        e := CloseConnection(k, c);
      }
      RunSnoc(events, e);
      more := [e];
      if !e.CloseReturns? {
        var rest := CloseReturnsEventually(events + [e], k);
        assert events + ([e] + rest) == (events + [e]) + rest;
        more := [e] + rest;
      }
    }
  }

  function ServeNext(serve: Serve): Event {
    if serve.Listening? || serve.Got? then ServeLocks
    else if serve.Accepting? then AcceptFails
    else ServeCloses
  }

  function ServeRank(serve: Serve): nat {
    match serve
    case NotCalled => 4
    case Listening => 3
    case Accepting => 3
    case Got(_) => 3
    case Rejecting(_) => 2
    case Leaving => 1
    case Stopped => 0
  }

  /** Once the server is closed, a Serve call that was made can return. */
  lemma {:induction false} ServeStops(events: seq<Event>) returns (more: seq<Event>)
    requires Run(events).closed && !Run(events).serve.NotCalled?
    ensures var s' := Run(events + more); s'.serve.Stopped? && s'.closers == Run(events).closers
    decreases ServeRank(Run(events).serve)
  {
    hide Run;
    var s := Run(events);
    more := [];
    assert events + [] == events;
    if !s.serve.Stopped? {
      var e := ServeNext(s.serve);
      RunSnoc(events, e);
      var rest := ServeStops(events + [e]);
      assert events + ([e] + rest) == (events + [e]) + rest;
      more := [e] + rest;
    }
  }

  /** From every reachable state in which Serve and a Close call were made, some continuation ends
      with both returned, every accepted connection closed and the listener closed. */
  lemma ShutdownCompletes(events: seq<Event>, k: nat) returns (more: seq<Event>)
    requires k in Run(events).closers && !Run(events).serve.NotCalled?
    ensures var s := Run(events + more);
            && k in s.closers && s.closers[k].Returned? && s.serve.Stopped?
            && s.accepted <= s.shut && (s.listenerMade ==> s.listenerClosed)
  {
    hide Run, Covered;
    var first := CloseReturnsEventually(events, k);
    RunInv(events + first);
    assert Run(events + first).closed by { ClosedByNow(Run(events + first), k); }
    var rest := ServeStops(events + first);
    more := first + rest;
    assert events + more == (events + first) + rest;
    AllClosed(events + more, k);
  }

  lemma ClosedByNow(s: State, k: nat)
    requires Inv(s) && k in s.closers && !s.closers[k].Called?
    ensures s.closed
  {
    assert Covered(s, k, 0);
  }

  // ----- What the calls do -----

  lemma StepCalls(s: State, e: Event, k: nat)
    ensures k in Step(s, e).closers <==> k in s.closers || e == CallClose(k)
  {
    match e
    case CallClose(_) =>
    case CloseLocks(_) =>
    case CloseConnection(_, _) =>
    case CloseReturns(_) =>
    case _ =>
  }

  /** The Close calls of a run are those that were made. */
  lemma {:induction false} CallsAreMade(events: seq<Event>, k: nat)
    ensures k in Run(events).closers <==> CallClose(k) in events
  {
    hide Step;
    if events != [] {
      var before, e := events[..|events| - 1], events[|events| - 1];
      CallsAreMade(before, k);
      StepCalls(Run(before), e, k);
      assert events == before + [e];
    }
  }

  /** While the server is open, a connection that arrives is registered and served, and when its task is
      done it is closed and forgotten; Serve goes on accepting. */
  lemma ConnectionServed(events: seq<Event>, c: nat)
    requires var s := Run(events); s.serve.Accepting? && !s.closed && c !in s.accepted
    ensures var s := Run(events + [Accept(c)] + [ServeLocks]);
            c in s.connections && c in s.tasks && s.tasks[c].Running? && s.serve.Accepting?
    ensures var s := Run(events + [Accept(c)] + [ServeLocks] + [TaskCloses(c)] + [TaskRemoves(c)]);
            c !in s.connections && c in s.shut && s.serve.Accepting?
  {
    hide Run;
    RunSnoc(events, Accept(c));
    RunSnoc(events + [Accept(c)], ServeLocks);
    RunSnoc(events + [Accept(c)] + [ServeLocks], TaskCloses(c));
    RunSnoc(events + [Accept(c)] + [ServeLocks] + [TaskCloses(c)], TaskRemoves(c));
  }

  // ----- The listener -----

  /** Serve tells the server its listener before it accepts, and every Close call closes the one it
      found; no listener is told to a closed server. */
  predicate ListenerKnown(s: State, k: nat) {
    && (s.serve.Accepting? || s.serve.Got? || s.serve.Rejecting? ==> s.listener)
    && (k in s.closers && !s.closers[k].Called? ==> s.closed)
    && (k in s.closers && s.closers[k].Closing? ==> s.closers[k].listener == s.listener)
    && (k in s.closers && s.closers[k].Returned? && s.listener ==> s.listenerClosed)
  }

  lemma StepListenerKnown(s: State, e: Event, k: nat)
    requires ListenerKnown(s, k)
    ensures ListenerKnown(Step(s, e), k)
  {
    match e
    case ServeLocks =>
    case ServeCloses =>
    case CallClose(_) =>
    case CloseLocks(_) =>
    case CloseConnection(_, _) =>
    case CloseReturns(_) =>
    case _ =>
  }

  /** In every interleaving, once a Close call has returned, a Serve that still accepts does so on a
      closed listener. */
  lemma {:induction false} ListenerIsClosed(events: seq<Event>, k: nat)
    ensures var s := Run(events);
            && ListenerKnown(s, k)
            && (k in s.closers && s.closers[k].Returned? && s.serve.Accepting? ==> s.listenerClosed)
  {
    hide Step;
    if events != [] {
      ListenerIsClosed(events[..|events| - 1], k);
      StepListenerKnown(Run(events[..|events| - 1]), events[|events| - 1], k);
    }
  }
}

/** Concurrent `WriteData`, `sendMessage` and `SendDatagram` calls on one Go channel. Each call
    is a thread whose steps (taking `sendMutex`, writing what is left of the header, writing one
    buffer, releasing the mutex, handing the datagram over) interleave with all the others; a
    schedule names the call that moves next. Stream writes succeed. */
module SendInterleaving {
  import opened Wire
  import opened Messages
  import opened SendPath

  datatype Call =
    | WriteDataCall(data: Bytes, dataType: nat)
    | SendCall(message: Message)
    | DatagramCall(payload: Bytes)

  datatype Config = Config(header: Bytes, size: nat, hasSender: bool, calls: map<nat, Call>) {
    predicate Valid() {
      && ValidPacketSize(size)
      && forall t :: t in calls ==> ValidCall(calls[t])
    }
  }

  predicate ValidCall(c: Call) {
    match c
    case WriteDataCall(_, dataType) => dataType <= MAX_VARINT_8
    case SendCall(m) => WellFormed(m) && !(m.Request? && m.request.ForwardPort?)
    case DatagramCall(_) => true
  }

  /** The stream messages of one call, in order. */
  function CallMessages(c: Config, t: nat): (ms: seq<Message>)
    requires c.Valid() && t in c.calls
    ensures AllWellFormed(ms)
  {
    match c.calls[t]
    case WriteDataCall(data, dataType) =>
      ChunkingBound(data, dataType, c.size);
      ChunkMessages(data, dataType, Room(c.size, dataType))
    case SendCall(m) => [m]
    case DatagramCall(_) => []
  }

  datatype Pc = Idle | Locked | Writing(rest: seq<Message>) | Sending | Finished

  /** What a call has put on the stream so far. */
  datatype Entry = Entry(call: nat, messages: seq<Message>)

  datatype State = State(
    lock: Option<nat>,
    header: Bytes,
    stream: Bytes,
    pcs: map<nat, Pc>,
    datagrams: seq<Bytes>,
    log: seq<Entry>)

  predicate Typed(c: Config, s: State) {
    && s.pcs.Keys == c.calls.Keys
    && forall t :: t in s.pcs && s.pcs[t].Writing? ==> AllWellFormed(s.pcs[t].rest) && s.log != []
  }

  function Init(c: Config): State {
    State(None, c.header, [], map t | t in c.calls :: Idle, [], [])
  }

  /** The next atomic action of call `t`; a call waiting for the mutex, or over, does nothing. */
  function Step(c: Config, s: State, t: nat): (s': State)
    requires c.Valid() && Typed(c, s)
    ensures Typed(c, s')
  {
    if t !in c.calls then s
    else match s.pcs[t]
      case Idle => if s.lock.None? then s.(lock := Some(t), pcs := s.pcs[t := Locked]) else s
      case Locked =>
        s.(stream := s.stream + s.header, header := [],
           pcs := s.pcs[t := Writing(CallMessages(c, t))], log := s.log + [Entry(t, [])])
      case Writing(rest) =>
        if rest != [] then
          var last := |s.log| - 1;
          s.(stream := s.stream + Encode(rest[0]), pcs := s.pcs[t := Writing(rest[1..])],
             log := s.log[last := Entry(s.log[last].call, s.log[last].messages + [rest[0]])])
        else
          s.(lock := None, pcs := s.pcs[t := if c.calls[t].DatagramCall? && c.hasSender then Sending else Finished])
      case Sending =>
        s.(datagrams := s.datagrams + (if c.calls[t].DatagramCall? then [c.calls[t].payload] else []),
           pcs := s.pcs[t := Finished])
      case Finished => s
  }

  function Run(c: Config, schedule: seq<nat>): (s: State)
    requires c.Valid()
    ensures Typed(c, s)
  {
    if schedule == [] then Init(c) else Step(c, Run(c, schedule[..|schedule| - 1]), schedule[|schedule| - 1])
  }

  // ----- What every reachable state satisfies -----

  function Flat(log: seq<Entry>): seq<Message> {
    if log == [] then [] else Flat(log[..|log| - 1]) + log[|log| - 1].messages
  }

  predicate Logged(s: State, t: nat) { exists i :: 0 <= i < |s.log| && s.log[i].call == t }

  /** Only the last entry may be incomplete, and only while its call holds the mutex. */
  predicate EntryOk(c: Config, s: State, i: nat)
    requires c.Valid() && Typed(c, s) && i < |s.log|
  {
    var t := s.log[i].call;
    && t in c.calls
    && !s.pcs[t].Idle? && !s.pcs[t].Locked?
    && if s.pcs[t].Writing?
       then i == |s.log| - 1 && s.log[i].messages + s.pcs[t].rest == CallMessages(c, t)
       else s.log[i].messages == CallMessages(c, t)
  }

  predicate StreamOk(c: Config, s: State) {
    && AllWellFormed(Flat(s.log))
    && if s.log == []
       then s.header == c.header && s.stream == [] && s.datagrams == []
       else s.header == [] && s.stream == c.header + EncodeAll(Flat(s.log))
  }

  /** The mutex is held exactly by the call between taking and releasing it, and a call that is
      writing owns the last entry. */
  predicate LockOk(c: Config, s: State)
    requires c.Valid() && Typed(c, s)
  {
    && (forall t :: t in c.calls ==> (s.lock == Some(t) <==> s.pcs[t].Locked? || s.pcs[t].Writing?))
    && (s.lock.Some? ==> s.lock.value in c.calls)
    && (forall t :: t in c.calls && s.pcs[t].Writing? ==> s.log[|s.log| - 1].call == t)
  }

  /** Every call past the header has one entry. */
  predicate LogOk(c: Config, s: State)
    requires c.Valid() && Typed(c, s)
  {
    && (forall i :: 0 <= i < |s.log| ==> EntryOk(c, s, i))
    && (forall i, j :: 0 <= i < j < |s.log| ==> s.log[i].call != s.log[j].call)
    && (forall t :: t in c.calls ==> s.pcs[t].Idle? || s.pcs[t].Locked? || Logged(s, t))
  }

  predicate Inv(c: Config, s: State)
    requires c.Valid() && Typed(c, s)
  {
    LockOk(c, s) && LogOk(c, s) && StreamOk(c, s)
  }

  lemma FlatSnoc(log: seq<Entry>, e: Entry)
    ensures Flat(log + [e]) == Flat(log) + e.messages
  {
    assert (log + [e])[..|log|] == log;
  }

  lemma FlatGrow(log: seq<Entry>, m: Message)
    requires log != []
    ensures var last := |log| - 1;
            Flat(log[last := Entry(log[last].call, log[last].messages + [m])]) == Flat(log) + [m]
  {
    var last := |log| - 1;
    var log' := log[last := Entry(log[last].call, log[last].messages + [m])];
    assert log'[..last] == log[..last];
  }

  lemma StepStreamOk(c: Config, s: State, t: nat)
    requires c.Valid() && Typed(c, s) && Inv(c, s)
    ensures StreamOk(c, Step(c, s, t))
  {
    hide WellFormed, Encode, CallMessages, EncodeAll, Flat, EntryOk, LockOk;
    if t in c.calls {
      match s.pcs[t]
      case Idle =>
      case Locked =>
        FlatSnoc(s.log, Entry(t, []));
        assert Flat(s.log) + [] == Flat(s.log);
        assert s.log == [] ==> EncodeAll(Flat(s.log)) == [] by { FlatEmpty(); }
      case Writing(rest) =>
        if rest != [] {
          FlatGrow(s.log, rest[0]);
          EncodeAllSnoc(Flat(s.log), rest[0]);
        }
      case Sending => assert Logged(s, t);
      case Finished =>
    }
  }

  lemma FlatEmpty()
    ensures EncodeAll(Flat([])) == []
  {
  }

  lemma StepLockOk(c: Config, s: State, t: nat)
    requires c.Valid() && Typed(c, s) && LockOk(c, s)
    ensures LockOk(c, Step(c, s, t))
  {
    hide WellFormed, Encode, CallMessages;
  }

  lemma StepLogged(c: Config, s: State, t: nat, u: nat)
    requires c.Valid() && Typed(c, s) && Logged(s, u)
    ensures Logged(Step(c, s, t), u)
  {
    hide WellFormed, Encode, CallMessages;
    var i :| 0 <= i < |s.log| && s.log[i].call == u;
    var s' := Step(c, s, t);
    assert i < |s'.log| && s'.log[i].call == u;
  }

  lemma StepEntries(c: Config, s: State, t: nat, i: nat)
    requires c.Valid() && Typed(c, s) && Inv(c, s)
    requires i < |Step(c, s, t).log|
    ensures EntryOk(c, Step(c, s, t), i)
  {
    hide WellFormed, Encode, CallMessages, StreamOk;
    if i < |s.log| {
      assert EntryOk(c, s, i);
      if t in c.calls && s.pcs[t].Writing? {
        assert EntryOk(c, s, |s.log| - 1);
      }
    }
  }

  lemma StepInv(c: Config, s: State, t: nat)
    requires c.Valid() && Typed(c, s) && Inv(c, s)
    ensures Inv(c, Step(c, s, t))
  {
    hide WellFormed, Encode, CallMessages, StreamOk, EntryOk, LockOk;
    var s' := Step(c, s, t);
    StepStreamOk(c, s, t);
    StepLockOk(c, s, t);
    forall i | 0 <= i < |s'.log| ensures EntryOk(c, s', i) {
      StepEntries(c, s, t, i);
    }
    forall u | u in c.calls ensures s'.pcs[u].Idle? || s'.pcs[u].Locked? || Logged(s', u) {
      if Logged(s, u) {
        StepLogged(c, s, t, u);
      } else if u == t && s.pcs[t].Locked? {
        assert s'.log[|s.log|].call == u;
      }
    }
    forall i, j | 0 <= i < j < |s'.log| ensures s'.log[i].call != s'.log[j].call {
      StepDistinct(c, s, t, i, j);
    }
  }

  lemma StepDistinct(c: Config, s: State, t: nat, i: nat, j: nat)
    requires c.Valid() && Typed(c, s) && Inv(c, s)
    requires i < j < |Step(c, s, t).log|
    ensures Step(c, s, t).log[i].call != Step(c, s, t).log[j].call
  {
    hide WellFormed, Encode, CallMessages, StreamOk;
    if i < |s.log| {
      assert EntryOk(c, s, i);
    }
  }

  lemma {:induction false} RunInv(c: Config, schedule: seq<nat>)
    requires c.Valid()
    ensures Inv(c, Run(c, schedule))
  {
    hide Step, CallMessages;
    if schedule != [] {
      RunInv(c, schedule[..|schedule| - 1]);
      StepInv(c, Run(c, schedule[..|schedule| - 1]), schedule[|schedule| - 1]);
    }
  }

  /** After any interleaving the stream is untouched and no datagram has left, or it is the
      header once, followed by whole messages which the peer parses back one by one; these are
      the messages of the calls in the order they took the mutex, each call's contiguous, and
      only the call still holding the mutex is incomplete. */
  lemma InterleavingSafety(c: Config, schedule: seq<nat>)
    requires c.Valid()
    ensures var s := Run(c, schedule);
            || (s.stream == [] && s.datagrams == [] && s.log == [])
            || (&& c.header <= s.stream
                && ParseMany(s.stream[|c.header|..], |Flat(s.log)|) == Done(Flat(s.log), [])
                && (forall i :: 0 <= i < |s.log| ==>
                      s.log[i].call in c.calls && s.log[i].messages <= CallMessages(c, s.log[i].call))
                && (forall i :: 0 <= i < |s.log| - 1 ==> s.log[i].messages == CallMessages(c, s.log[i].call)))
  {
    hide Step, CallMessages, ParseMany, Parse;
    var s := Run(c, schedule);
    RunInv(c, schedule);
    if s.log != [] {
      assert s.stream[|c.header|..] == EncodeAll(Flat(s.log));
      assert EncodeAll(Flat(s.log)) + [] == EncodeAll(Flat(s.log));
      StreamRoundTrip(Flat(s.log), []);
      forall i | 0 <= i < |s.log|
        ensures s.log[i].call in c.calls
        ensures s.log[i].messages <= CallMessages(c, s.log[i].call)
        ensures i < |s.log| - 1 ==> s.log[i].messages == CallMessages(c, s.log[i].call)
      {
        assert EntryOk(c, s, i);
      }
    }
  }

  /** The messages say what the call was asked to send: data in good chunks of its type, the one message,
      or, for a datagram, nothing on the stream. */
  predicate Carries(call: Call, ms: seq<Message>, size: nat) {
    match call
    case WriteDataCall(data, dataType) =>
      (forall i :: 0 <= i < |ms| ==> GoodChunk(ms[i], dataType, size)) && Payloads(ms) == data
    case SendCall(m) => ms == [m]
    case DatagramCall(_) => ms == []
  }

  lemma CallCarries(c: Config, t: nat)
    requires c.Valid() && t in c.calls
    ensures Carries(c.calls[t], CallMessages(c, t), c.size)
  {
    if c.calls[t].WriteDataCall? {
      ChunkingBound(c.calls[t].data, c.calls[t].dataType, c.size);
    }
  }

  predicate LoggedOnce(c: Config, s: State, t: nat) {
    t in c.calls && exists i :: 0 <= i < |s.log| && s.log[i].call == t && Carries(c.calls[t], s.log[i].messages, c.size)
  }

  /** Once every call has returned, what each was asked to send is on the stream exactly once. */
  lemma QuiescentLog(c: Config, schedule: seq<nat>)
    requires c.Valid()
    requires forall t :: t in c.calls ==> Run(c, schedule).pcs[t].Finished?
    ensures var s := Run(c, schedule);
            && (forall t :: t in c.calls ==> LoggedOnce(c, s, t))
            && (forall i, j :: 0 <= i < j < |s.log| ==> s.log[i].call != s.log[j].call)
  {
    hide Step, CallMessages, Carries;
    var s := Run(c, schedule);
    RunInv(c, schedule);
    forall t | t in c.calls ensures LoggedOnce(c, s, t) {
      assert Logged(s, t);
      var i :| 0 <= i < |s.log| && s.log[i].call == t;
      assert EntryOk(c, s, i);
      CallCarries(c, t);
    }
  }

  // ----- The datagrams -----

  predicate IsDatagram(c: Config, t: nat) { t in c.calls && c.calls[t].DatagramCall? }

  predicate Distinct(order: seq<nat>) { forall i, j :: 0 <= i < j < |order| ==> order[i] != order[j] }

  /** The datagrams are the payloads of finished datagram calls. */
  predicate Listed(c: Config, s: State, order: seq<nat>)
    requires Typed(c, s)
  {
    && |order| == |s.datagrams|
    && forall i :: 0 <= i < |order| ==>
         IsDatagram(c, order[i]) && s.pcs[order[i]].Finished? && s.datagrams[i] == c.calls[order[i]].payload
  }

  /** `order` lists the finished datagram calls, each once, and the datagrams are their payloads. */
  predicate SentBy(c: Config, s: State, order: seq<nat>)
    requires c.Valid() && Typed(c, s)
  {
    && Listed(c, s, order) && Distinct(order)
    && (forall t :: t in c.calls && IsDatagram(c, t) && s.pcs[t].Finished? && c.hasSender ==> t in order)
    && (!c.hasSender ==> order == [])
    && (forall t :: t in c.calls && s.pcs[t].Sending? ==> IsDatagram(c, t) && c.hasSender)
  }

  /** How a step bears on the datagrams: only a call that is handing one over sends it. */
  lemma StepDatagram(c: Config, s: State, t: nat)
    requires c.Valid() && Typed(c, s) && t in c.calls
    requires s.pcs[t].Sending? ==> IsDatagram(c, t)
    ensures var s' := Step(c, s, t);
            && (forall u :: u in c.calls && u != t ==> s'.pcs[u] == s.pcs[u])
            && (if s.pcs[t].Sending? then s'.datagrams == s.datagrams + [c.calls[t].payload] && s'.pcs[t].Finished?
                else s'.datagrams == s.datagrams)
            && (s'.pcs[t].Finished? ==> s.pcs[t].Finished? || s.pcs[t].Sending? || !(IsDatagram(c, t) && c.hasSender))
            && (s'.pcs[t].Sending? ==> s.pcs[t].Sending? || (IsDatagram(c, t) && c.hasSender))
            && (s.pcs[t].Finished? ==> s'.pcs[t].Finished?)
  {
    hide CallMessages, WellFormed, Encode;
  }

  lemma StepSentBy(c: Config, s: State, t: nat, order: seq<nat>) returns (order': seq<nat>)
    requires c.Valid() && Typed(c, s) && SentBy(c, s, order)
    ensures SentBy(c, Step(c, s, t), order')
  {
    order' := order;
    if t in c.calls {
      hide Step, CallMessages, WellFormed, AllWellFormed, ValidCall;
      StepDatagram(c, s, t);
      if s.pcs[t].Sending? {
        order' := order + [t];
        OneMoreSent(c, s, Step(c, s, t), t, order);
      }
    }
  }

  lemma OneMoreSent(c: Config, s: State, s': State, t: nat, order: seq<nat>)
    requires c.Valid() && Typed(c, s) && Typed(c, s') && SentBy(c, s, order) && t in c.calls && s.pcs[t].Sending?
    requires forall u :: u in c.calls && u != t ==> s'.pcs[u] == s.pcs[u]
    requires s'.datagrams == s.datagrams + [c.calls[t].payload] && s'.pcs[t].Finished?
    ensures SentBy(c, s', order + [t])
  {
    hide CallMessages, WellFormed, AllWellFormed, ValidCall;
    assert t !in order;
    assert Listed(c, s', order + [t]) && Distinct(order + [t]);
    hide Listed, Distinct;
    assert forall u :: u in order + [t] <==> u in order || u == t;
  }

  /** In every reachable state the datagrams that have left are the payloads of the finished datagram calls,
      each exactly once; without a sender none leaves. */
  lemma {:induction false} DatagramsSent(c: Config, schedule: seq<nat>) returns (order: seq<nat>)
    requires c.Valid()
    ensures SentBy(c, Run(c, schedule), order)
  {
    if schedule == [] {
      order := [];
    } else {
      hide Step, SentBy;
      var before := schedule[..|schedule| - 1];
      order := DatagramsSent(c, before);
      order := StepSentBy(c, Run(c, before), schedule[|schedule| - 1], order);
    }
  }

  // ----- Progress -----

  /** An upper bound on the moves a call has left. */
  function Left(c: Config, p: Pc, t: nat): nat
    requires c.Valid() && t in c.calls
  {
    match p
    case Idle => 4 + |CallMessages(c, t)|
    case Locked => 3 + |CallMessages(c, t)|
    case Writing(rest) => 2 + |rest|
    case Sending => 1
    case Finished => 0
  }

  /** A call that does not wait for the mutex moves on, and no other call changes. */
  lemma CallMoves(c: Config, s: State, t: nat)
    requires c.Valid() && Typed(c, s) && t in c.calls && !s.pcs[t].Finished? && (s.pcs[t].Idle? ==> s.lock.None?)
    ensures Left(c, Step(c, s, t).pcs[t], t) < Left(c, s.pcs[t], t)
    ensures forall u :: u in c.calls && u != t ==> Step(c, s, t).pcs[u] == s.pcs[u]
  {
    hide CallMessages, WellFormed, Encode;
  }

  lemma RunSnoc(c: Config, schedule: seq<nat>, t: nat)
    requires c.Valid()
    ensures Run(c, schedule + [t]) == Step(c, Run(c, schedule), t)
  {
    assert (schedule + [t])[..|schedule|] == schedule;
  }

  lemma RunTyped(c: Config, schedule: seq<nat>)
    requires c.Valid()
    ensures Run(c, schedule).pcs.Keys == c.calls.Keys
  {
    hide Step;
  }

  /** The holder of the mutex can run until it releases it. */
  lemma {:induction false} MutexReleased(c: Config, schedule: seq<nat>, u: nat, t: nat) returns (more: seq<nat>)
    requires c.Valid() && u in c.calls && t in c.calls && t != u && Run(c, schedule).pcs[t].Idle?
    requires Run(c, schedule).lock == Some(u)
    ensures Run(c, schedule + more).lock.None? && Run(c, schedule + more).pcs[t].Idle?
    decreases Left(c, Run(c, schedule).pcs[u], u)
  {
    hide Step, Run, Left, CallMessages, LockOk, LogOk, StreamOk, Typed;
    var s := Run(c, schedule);
    RunInv(c, schedule);
    HolderKeeps(c, s, u);
    CallMoves(c, s, u);
    RunSnoc(c, schedule, u);
    var next := schedule + [u];
    RunTyped(c, schedule);
    RunTyped(c, next);
    if Run(c, next).lock.None? {
      more := [u];
    } else {
      var rest := MutexReleased(c, next, u, t);
      more := [u] + rest;
      assert schedule + more == next + rest;
    }
  }

  lemma HolderKeeps(c: Config, s: State, u: nat)
    requires c.Valid() && Typed(c, s) && LockOk(c, s) && s.lock == Some(u)
    ensures Step(c, s, u).lock == Some(u) || Step(c, s, u).lock.None?
    ensures u in s.pcs && (s.pcs[u].Locked? || s.pcs[u].Writing?)
  {
    hide CallMessages, WellFormed, Encode;
  }

  /** From every reachable state some continuation lets the call return. */
  lemma {:induction false} CallReturns(c: Config, schedule: seq<nat>, t: nat) returns (more: seq<nat>)
    requires c.Valid() && t in c.calls
    ensures Run(c, schedule + more).pcs[t].Finished?
    decreases Left(c, Run(c, schedule).pcs[t], t), Run(c, schedule).lock.Some?
  {
    hide Step, Run, Left, CallMessages, LogOk, StreamOk;
    var s := Run(c, schedule);
    RunInv(c, schedule);
    if s.pcs[t].Finished? {
      more := [];
      assert schedule + [] == schedule;
    } else if s.pcs[t].Idle? && s.lock.Some? {
      var first := MutexReleased(c, schedule, s.lock.value, t);
      var rest := CallReturns(c, schedule + first, t);
      more := first + rest;
      assert schedule + more == (schedule + first) + rest;
    } else {
      CallMoves(c, s, t);
      RunSnoc(c, schedule, t);
      var rest := CallReturns(c, schedule + [t], t);
      more := [t] + rest;
      assert schedule + more == (schedule + [t]) + rest;
    }
  }
}

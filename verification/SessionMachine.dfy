/** The session state machine of the Rust server (`handle_session_channel`, after sections 6.2 to
    6.10 of RFC 4254). The process, its terminal and the agent socket are logs of what the handler
    did to them; whether an operation succeeds is part of the input. */
module SessionMachine {
  import opened Wire
  import opened Messages

  const FORWARD_AGENT: Bytes := [0x66, 0x6f, 0x72, 0x77, 0x61, 0x72, 0x64, 0x2d, 0x61, 0x67, 0x65, 0x6e, 0x74]

  datatype Size = Size(charWidth: nat, charHeight: nat, pixelWidth: nat, pixelHeight: nat)

  datatype PendingPty = PendingPty(term: Option<Bytes>, size: Size)

  datatype Command = LoginShell | Program(line: Bytes)

  /** What a process was started with: its terminal, whether it has an agent socket, its command. */
  datatype Process = Process(pty: Option<PendingPty>, agent: bool, command: Command)

  datatype Complaint =
    | PtyAfterStart | AlreadyRunning | SignalBeforeStart | SignalFailed | ResizeFailed | NoPty
    | UnsupportedRequest | ExtendedData | DataBeforeStart

  /** A message with the outcome of what the handler does about it: `done` for the signal or resize
      itself, `ok` for the awaited operation whose failure ends the handler. */
  datatype Event = Event(message: Message, done: bool, ok: bool)

  datatype State = State(
    pendingPty: Option<PendingPty>,
    agentForwarding: bool,
    session: Option<Process>,
    // The logs.
    spawned: seq<Process>,
    sockets: nat,
    stdin: Bytes,
    resizes: seq<Size>,
    signals: seq<Bytes>,
    complaints: seq<Complaint>)

  function Init(): State {
    State(None, false, None, [], 0, [], [], [], [])
  }

  function Clamp(v: nat): (r: nat)
    ensures r <= 0xffff && r <= v && (r == 0xffff || r == v)
  {
    if v < 0xffff then v else 0xffff
  }

  // ----- What a session should do, said of the messages alone -----

  predicate IsStart(e: Event) { e.message.Request? && (e.message.request.Shell? || e.message.request.Exec?) }

  predicate IsPty(e: Event) { e.message.Request? && e.message.request.Pty? }

  predicate IsResize(e: Event) { e.message.Request? && e.message.request.WindowChange? }

  predicate SetsSize(e: Event) { IsPty(e) || IsResize(e) }

  predicate IsSignal(e: Event) { e.message.Request? && e.message.request.Signal? }

  predicate IsInput(e: Event) { e.message.Data? && e.message.dataType == DATA_NONE }

  predicate AsksAgent(e: Event) { IsInput(e) && e.message.data == FORWARD_AGENT }

  /** `k` is the first shell or exec request, or the length when there is none. */
  predicate StartsAt(events: seq<Event>, k: nat) {
    && k <= |events|
    && (k < |events| ==> IsStart(events[k]))
    && forall i :: 0 <= i < k ==> !IsStart(events[i])
  }

  predicate LastPty(events: seq<Event>, j: nat) {
    j < |events| && IsPty(events[j]) && forall i :: j < i < |events| ==> !IsPty(events[i])
  }

  predicate LastSize(events: seq<Event>, j: nat) {
    j < |events| && SetsSize(events[j]) && forall i :: j < i < |events| ==> !SetsSize(events[i])
  }

  /** `x` is the largest 16-bit value not above `v`. */
  predicate IsClamped(x: nat, v: nat) { x <= v && x <= 0xffff && (x == v || x == 0xffff) }

  /** The size a pty-req or window-change asks for, field by field. */
  predicate SizeFor(z: Size, e: Event) {
    && SetsSize(e)
    && var r := e.message.request;
       if r.Pty? then
         && IsClamped(z.charWidth, r.charWidth) && IsClamped(z.charHeight, r.charHeight)
         && IsClamped(z.pixelWidth, r.pixelWidth) && IsClamped(z.pixelHeight, r.pixelHeight)
       else
         && IsClamped(z.charWidth, r.newCharWidth) && IsClamped(z.charHeight, r.newCharHeight)
         && IsClamped(z.pixelWidth, r.newPixelWidth) && IsClamped(z.pixelHeight, r.newPixelHeight)
  }

  /** The terminal type a pty-req asks for: none when it is empty. */
  predicate TermFor(term: Option<Bytes>, e: Event) {
    IsPty(e) && if e.message.request.term == [] then term.None? else term == Some(e.message.request.term)
  }

  /** The command a start asks for. */
  predicate CommandFor(c: Command, e: Event) {
    IsStart(e) && if e.message.request.Shell? then c.LoginShell? else c == Program(e.message.request.command)
  }

  /** The terminal asked for: the last pty-req's term with the last size set, clamped. */
  ghost predicate TerminalOf(events: seq<Event>, p: Option<PendingPty>) {
    match p
    case None => forall i :: 0 <= i < |events| ==> !IsPty(events[i])
    case Some(pty) =>
      exists j: nat, l: nat ::
        LastPty(events, j) && LastSize(events, l) && TermFor(pty.term, events[j]) && SizeFor(pty.size, events[l])
  }

  predicate AgentAsked(events: seq<Event>) {
    exists i :: 0 <= i < |events| && AsksAgent(events[i])
  }

  function Input(events: seq<Event>): Bytes {
    if events == [] then []
    else
      var e := events[|events| - 1];
      Input(events[..|events| - 1]) + if IsInput(e) then e.message.data else []
  }

  /** The window changes that were carried out. */
  function Resizes(events: seq<Event>): seq<Event> {
    if events == [] then []
    else
      var e := events[|events| - 1];
      Resizes(events[..|events| - 1]) + if IsResize(e) && e.done then [e] else []
  }

  predicate SizesFor(zs: seq<Size>, es: seq<Event>) {
    |zs| == |es| && forall i :: 0 <= i < |zs| ==> SizeFor(zs[i], es[i])
  }

  function SignalNames(events: seq<Event>): seq<Bytes> {
    if events == [] then []
    else
      var e := events[|events| - 1];
      SignalNames(events[..|events| - 1]) + if IsSignal(e) && e.done then [e.message.request.signalName] else []
  }

  /** No process yet. */
  ghost predicate Waiting(events: seq<Event>, s: State) {
    && s.session.None? && s.spawned == [] && s.stdin == [] && s.resizes == [] && s.signals == []
    && TerminalOf(events, s.pendingPty)
    && s.agentForwarding == AgentAsked(events)
    && s.sockets == if AgentAsked(events) then 1 else 0
  }

  /** One process, started by the request at `k` with everything set up before it, fed by what follows. */
  ghost predicate Started(events: seq<Event>, k: nat, s: State)
    requires k < |events| && IsStart(events[k])
  {
    && s.session.Some? && s.spawned == [s.session.value]
    && s.session.value.pty == s.pendingPty && s.session.value.agent == AgentAsked(events[..k])
    && CommandFor(s.session.value.command, events[k])
    && TerminalOf(events[..k], s.pendingPty)
    && s.agentForwarding == AgentAsked(events[..k])
    && s.sockets == (if AgentAsked(events[..k]) then 1 else 0)
    && s.stdin == Input(events[k + 1..])
    && (if s.pendingPty.Some? then SizesFor(s.resizes, Resizes(events[k + 1..])) else s.resizes == [])
    && s.signals == SignalNames(events[k + 1..])
  }

  ghost predicate Meets(events: seq<Event>, k: nat, s: State)
    requires StartsAt(events, k)
  {
    && (if k == |events| then Waiting(events, s) else Started(events, k, s))
    && s.complaints == Complaints(events)
  }

  // ----- Refusals -----

  predicate HasStart(events: seq<Event>) { exists i :: 0 <= i < |events| && IsStart(events[i]) }

  /** A pty-req came before any start. */
  predicate HasTerminal(events: seq<Event>) {
    exists i :: 0 <= i < |events| && IsPty(events[i]) && forall j :: 0 <= j < i ==> !IsStart(events[j])
  }

  /** Why a message after `before` is refused, if it is. */
  function Refusal(before: seq<Event>, e: Event): Option<Complaint> {
    match e.message
    case Data(kind, data) =>
      if kind != DATA_NONE then Some(ExtendedData)
      else if HasStart(before) || data == FORWARD_AGENT then None
      else Some(DataBeforeStart)
    case Request(_, r) =>
      (match r
       case Pty(_, _, _, _, _, _) => if HasStart(before) then Some(PtyAfterStart) else None
       case Shell => if HasStart(before) then Some(AlreadyRunning) else None
       case Exec(_) => if HasStart(before) then Some(AlreadyRunning) else None
       case Signal(_) =>
         if !HasStart(before) then Some(SignalBeforeStart) else if e.done then None else Some(SignalFailed)
       case WindowChange(_, _, _, _) =>
         if HasTerminal(before) && (e.done || !HasStart(before)) then None
         else Some(if HasStart(before) then ResizeFailed else NoPty)
       case _ => Some(UnsupportedRequest))
    case _ => None
  }

  function Complaints(events: seq<Event>): seq<Complaint> {
    if events == [] then []
    else
      var before := events[..|events| - 1];
      var c := Refusal(before, events[|events| - 1]);
      Complaints(before) + if c.Some? then [c.value] else []
  }

  /** Handling the message awaits an operation that can fail and end the handler: a complaint, the
      start, a write to the process, the agent socket. */
  predicate Awaits(before: seq<Event>, e: Event) {
    || Refusal(before, e).Some?
    || (IsStart(e) && !HasStart(before))
    || (IsInput(e) && HasStart(before))
    || (AsksAgent(e) && !HasStart(before) && !AgentAsked(before))
  }

  // ----- One message -----

  function ToSize(r: ChannelRequest): Size
    requires r.Pty? || r.WindowChange?
  {
    match r
    case Pty(_, w, h, pw, ph, _) => Size(Clamp(w), Clamp(h), Clamp(pw), Clamp(ph))
    case WindowChange(w, h, pw, ph) => Size(Clamp(w), Clamp(h), Clamp(pw), Clamp(ph))
  }

  function ToTerm(term: Bytes): Option<Bytes> {
    if term == [] then None else Some(term)
  }

  function CommandOf(e: Event): Command
    requires IsStart(e)
  {
    if e.message.request.Shell? then LoginShell else Program(e.message.request.command)
  }

  lemma ToSizeMeans(e: Event)
    requires SetsSize(e)
    ensures SizeFor(ToSize(e.message.request), e)
  {
  }

  /** The terminal after one message. */
  function NextTerminal(p: Option<PendingPty>, e: Event): Option<PendingPty> {
    if IsPty(e) then Some(PendingPty(ToTerm(e.message.request.term), ToSize(e.message.request)))
    else if IsResize(e) && p.Some? then Some(p.value.(size := ToSize(e.message.request)))
    else p
  }

  lemma TerminalGrows(before: seq<Event>, e: Event, p: Option<PendingPty>)
    requires TerminalOf(before, p)
    ensures TerminalOf(before + [e], NextTerminal(p, e))
  {
    if SetsSize(e) {
      ToSizeMeans(e);
    }
    hide ToSize, SizeFor;
    var all, n := before + [e], |before|;
    assert all[n] == e && forall i :: 0 <= i < n ==> all[i] == before[i];
    if IsPty(e) {
      assert LastPty(all, n) && LastSize(all, n);
    } else if p.Some? {
      var j: nat, l: nat :|
        && LastPty(before, j) && LastSize(before, l)
        && TermFor(p.value.term, before[j]) && SizeFor(p.value.size, before[l]);
      assert LastPty(all, j);
      assert LastSize(all, if IsResize(e) then n else l);
    }
  }

  lemma AgentGrows(before: seq<Event>, e: Event)
    ensures AgentAsked(before + [e]) == (AgentAsked(before) || AsksAgent(e))
  {
    var all := before + [e];
    assert all[|before|] == e;
    if AgentAsked(before) {
      var i :| 0 <= i < |before| && AsksAgent(before[i]);
      assert all[i] == before[i];
    }
  }

  /** What a message does when it is not refused: it starts the process, prepares the start, or
      reaches the process. */
  predicate Acts(s: State, e: Event, t: State) {
    if s.session.Some? then
      t == if IsInput(e) then s.(stdin := s.stdin + e.message.data)
           else if IsResize(e) && e.done && s.pendingPty.Some? then
             s.(resizes := s.resizes + [ToSize(e.message.request)])
           else if IsSignal(e) && e.done then s.(signals := s.signals + [e.message.request.signalName])
           else s
    else if IsStart(e) then
      var p := Process(s.pendingPty, s.agentForwarding, CommandOf(e));
      t == s.(session := Some(p), spawned := s.spawned + [p])
    else
      t == s.(pendingPty := NextTerminal(s.pendingPty, e),
              agentForwarding := s.agentForwarding || AsksAgent(e),
              sockets := s.sockets + if AsksAgent(e) && !s.agentForwarding then 1 else 0)
  }

  function Complain(s: State, c: Option<Complaint>): State {
    if c.Some? then s.(complaints := s.complaints + [c.value]) else s
  }

  lemma ComplaintsGrow(before: seq<Event>, s: State, e: Event, t: State)
    requires Acts(s, e, t) && s.complaints == Complaints(before)
    ensures Complain(t, Refusal(before, e)).complaints == Complaints(before + [e])
  {
    hide Refusal, NextTerminal;
    assert (before + [e])[..|before|] == before;
  }

  lemma ActsWaiting(before: seq<Event>, s: State, e: Event, t: State)
    requires Waiting(before, s) && !IsStart(e) && Acts(s, e, t)
    ensures Waiting(before + [e], t)
  {
    hide TerminalOf, AgentAsked, NextTerminal;
    TerminalGrows(before, e, s.pendingPty);
    AgentGrows(before, e);
  }

  lemma ActsStart(before: seq<Event>, s: State, e: Event, t: State)
    requires Waiting(before, s) && IsStart(e) && Acts(s, e, t)
    ensures Started(before + [e], |before|, t)
  {
    hide TerminalOf, AgentAsked;
    var all, n := before + [e], |before|;
    assert all[..n] == before && all[n + 1..] == [];
  }

  lemma LogsGrow(before: seq<Event>, e: Event, k: nat)
    requires k < |before|
    ensures var until, after := before[k + 1..], (before + [e])[k + 1..];
      && Input(after) == (if IsInput(e) then Input(until) + e.message.data else Input(until))
      && Resizes(after) == (if IsResize(e) && e.done then Resizes(until) + [e] else Resizes(until))
      && SignalNames(after) ==
           if IsSignal(e) && e.done then SignalNames(until) + [e.message.request.signalName] else SignalNames(until)
  {
    var after := (before + [e])[k + 1..];
    assert after[..|after| - 1] == before[k + 1..] && after[|after| - 1] == e;
  }

  lemma ResizeGrows(zs: seq<Size>, es: seq<Event>, e: Event)
    requires IsResize(e)
    ensures SizesFor(zs, es) ==> SizesFor(zs + [ToSize(e.message.request)], es + [e])
  {
    ToSizeMeans(e);
    hide SizeFor, ToSize;
  }

  lemma ActsStarted(before: seq<Event>, k: nat, s: State, e: Event, t: State)
    requires k < |before| && IsStart(before[k]) && Started(before, k, s) && Acts(s, e, t)
    ensures Started(before + [e], k, t)
  {
    hide TerminalOf, AgentAsked, CommandFor, SizesFor, ToSize, Input, Resizes, SignalNames, IsStart;
    var all := before + [e];
    assert all[..k] == before[..k] && all[k] == before[k];
    LogsGrow(before, e, k);
    if IsResize(e) {
      ResizeGrows(s.resizes, Resizes(before[k + 1..]), e);
    }
    hide IsInput, IsResize, IsSignal;
  }

  lemma ComplainMeets(events: seq<Event>, k: nat, s: State, c: Option<Complaint>)
    requires StartsAt(events, k)
    ensures Waiting(events, Complain(s, c)) == Waiting(events, s)
    ensures k < |events| ==> Started(events, k, Complain(s, c)) == Started(events, k, s)
  {
  }

  /** A message handled as it should be keeps the session as it should be. */
  lemma ActsMeets(before: seq<Event>, k: nat, s: State, e: Event, t: State) returns (k': nat)
    requires StartsAt(before, k) && Meets(before, k, s) && Acts(s, e, t)
    ensures StartsAt(before + [e], k') && Meets(before + [e], k', Complain(t, Refusal(before, e)))
  {
    hide Waiting, Started, Acts, Complain, Refusal;
    var all, n := before + [e], |before|;
    assert all[n] == e && forall i :: 0 <= i < n ==> all[i] == before[i];
    ComplaintsGrow(before, s, e, t);
    if k < n {
      k' := k;
      ActsStarted(before, k, s, e, t);
    } else if IsStart(e) {
      k' := n;
      ActsStart(before, s, e, t);
    } else {
      k' := n + 1;
      ActsWaiting(before, s, e, t);
    }
    ComplainMeets(all, k', t, Refusal(before, e));
  }

  predicate AsksPty(events: seq<Event>) { exists i :: 0 <= i < |events| && IsPty(events[i]) }

  lemma TerminalAsked(events: seq<Event>, p: Option<PendingPty>)
    requires TerminalOf(events, p)
    ensures p.Some? == AsksPty(events)
  {
    hide LastSize, IsPty, SizeFor, TermFor;
    if p.Some? {
      var j: nat, l: nat :| LastPty(events, j) && LastSize(events, l);
      assert IsPty(events[j]);
    }
  }

  lemma AskedBeforeStart(before: seq<Event>, k: nat)
    requires StartsAt(before, k)
    ensures HasTerminal(before) == AsksPty(before[..k])
  {
    if HasTerminal(before) {
      var i :| 0 <= i < |before| && IsPty(before[i]) && forall j :: 0 <= j < i ==> !IsStart(before[j]);
      assert i < k;
      assert before[..k][i] == before[i];
    }
    if AsksPty(before[..k]) {
      var i :| 0 <= i < k && IsPty(before[..k][i]);
      assert before[..k][i] == before[i];
    }
  }

  /** The handler's variables tell what came before. */
  lemma MeetsTracks(before: seq<Event>, k: nat, s: State)
    requires StartsAt(before, k) && Meets(before, k, s)
    ensures s.session.Some? == HasStart(before)
    ensures s.session.Some? ==> s.session.value.pty == s.pendingPty
    ensures s.pendingPty.Some? == HasTerminal(before)
    ensures s.session.None? ==> s.agentForwarding == AgentAsked(before)
  {
    hide AgentAsked, Input, Resizes, SignalNames, Complaints;
    assert k == |before| ==> before[..k] == before;
    TerminalAsked(before[..k], s.pendingPty);
    AskedBeforeStart(before, k);
  }

  // ----- The handler -----

  lemma NothingYet()
    ensures StartsAt([], 0) && Meets([], 0, Init())
  {
  }

  /** The branches for one message; `awaited` tells whether an operation that can fail is awaited. */
  method Handle(s: State, e: Event, ghost before: seq<Event>, ghost k: nat)
    returns (t: State, complaint: Option<Complaint>, awaited: bool)
    requires StartsAt(before, k) && Meets(before, k, s)
    ensures Acts(s, e, t) && complaint == Refusal(before, e) && awaited == Awaits(before, e)
  {
    MeetsTracks(before, k, s);
    hide Meets, StartsAt, AgentAsked, HasStart, HasTerminal, ToTerm, ToSize, CommandOf;
    t, complaint, awaited := s, None, false;
    match e.message {
      case Request(_, r) =>
        match r {
          case Pty(term, _, _, _, _, _) =>
            if s.session.Some? {
              complaint := Some(PtyAfterStart);
            } else {
              t := t.(pendingPty := Some(PendingPty(ToTerm(term), ToSize(r))));
            }
          case Shell | Exec(_) =>
            if s.session.Some? {
              complaint := Some(AlreadyRunning);
            } else {
              var process := Process(s.pendingPty, s.agentForwarding, CommandOf(e));
              t, awaited := t.(session := Some(process), spawned := t.spawned + [process]), true;
            }
          case Signal(name) =>
            if s.session.None? {
              complaint := Some(SignalBeforeStart);
            } else if e.done {
              t := t.(signals := t.signals + [name]);
            } else {
              complaint := Some(SignalFailed);
            }
          case WindowChange(_, _, _, _) =>
            if s.session.Some? {
              if s.session.value.pty.Some? && e.done {
                t := t.(resizes := t.resizes + [ToSize(r)]);
              } else {
                complaint := Some(ResizeFailed);
              }
            } else if s.pendingPty.Some? {
              t := t.(pendingPty := Some(t.pendingPty.value.(size := ToSize(r))));
            } else {
              complaint := Some(NoPty);
            }
          case _ => complaint := Some(UnsupportedRequest);
        }
      case Data(kind, data) =>
        if kind != DATA_NONE {
          complaint := Some(ExtendedData);
        } else if s.session.Some? {
          t, awaited := t.(stdin := t.stdin + data), true;
        } else if data != FORWARD_AGENT {
          complaint := Some(DataBeforeStart);
        } else if !s.agentForwarding {
          t, awaited := t.(agentForwarding := true, sockets := t.sockets + 1), true;
        }
      case _ =>
    }
    awaited := awaited || complaint.Some?;
  }

  /** Message after message, until one of the awaited operations fails; that one has no effect. The
      first `n` messages were handled. `k` is the first shell or exec request among them: before it
      nothing is started; from it on exactly one process exists, with the terminal, agent socket and
      command asked for up to then, and what followed is its input, its resizes and its signals. */
  method HandleSession(events: seq<Event>) returns (s: State, n: nat, ghost k: nat)
    ensures n <= |events| && StartsAt(events[..n], k) && Meets(events[..n], k, s)
    ensures |s.spawned| <= 1 && s.sockets <= 1
    ensures forall i :: 0 <= i < n && Awaits(events[..i], events[i]) ==> events[i].ok
    ensures n < |events| ==> Awaits(events[..n], events[n]) && !events[n].ok
  {
    hide Refusal, Complaints, TerminalOf, AgentAsked, HasStart, HasTerminal, StartsAt, Input, Resizes, SignalNames;
    s, n, k := Init(), 0, 0;
    NothingYet();
    while n < |events|
      invariant n <= |events| && StartsAt(events[..n], k) && Meets(events[..n], k, s)
      invariant forall i :: 0 <= i < n && Awaits(events[..i], events[i]) ==> events[i].ok
    {
      var t, complaint, awaited := Handle(s, events[n], events[..n], k);
      if awaited && !events[n].ok {
        break;
      }
      k := ActsMeets(events[..n], k, s, events[n], t);
      assert events[..n] + [events[n]] == events[..n + 1];
      s, n := Complain(t, complaint), n + 1;
    }
  }
}

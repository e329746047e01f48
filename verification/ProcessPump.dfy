/** The goroutines that `execCmdInBackground` (cmd/ssh3-server.go) runs for a command: a reader
    per output stream, a waiter, and the select loop that writes to the channel. The Go channels
    between them have capacity one. A schedule names the goroutine, and for the select loop the
    case, that moves next. Channel writes succeed. */
module ProcessPump {
  import opened Wire

  datatype Side = Stdout | Stderr

  /** One `Read`: its bytes, and whether it returned an error (end of file included). */
  datatype ReadResult = ReadResult(data: Bytes, failed: bool)

  /** What `Wait` returns. */
  datatype WaitResult = Exited | ExitError(code: int) | OtherError

  /** The results of each stream's successive reads (none for a stream the command does not
      have), and of `Wait`. A reader stops at its first failing read. */
  datatype Config = Config(stdout: Option<seq<ReadResult>>, stderr: Option<seq<ReadResult>>, result: WaitResult) {
    function Script(side: Side): seq<ReadResult> {
      var o := if side.Stdout? then stdout else stderr;
      if o.Some? then o.value else []
    }

    predicate Present(side: Side) { if side.Stdout? then stdout.Some? else stderr.Some? }

    /** Every read eventually returns an error. */
    predicate Valid() {
      forall side :: Present(side) ==> Ends(Script(side))
    }
  }

  predicate Ends(rs: seq<ReadResult>) {
    && rs != []
    && forall i :: 0 <= i < |rs| ==> (rs[i].failed <==> i == |rs| - 1)
  }

  datatype ReaderPc =
    | Reading
    | Holding(result: ReadResult)  // blocked on the capacity-one channel
    | Closing                      // about to close its channel
    | Leaving                      // about to leave the wait group
    | Gone

  /** A reader and its channel; `isNil` once the select loop has disabled it. */
  datatype Stream = Stream(script: seq<ReadResult>, pc: ReaderPc, buffer: Option<ReadResult>, isNil: bool) {
    predicate Closed() { pc.Leaving? || pc.Gone? }
  }

  datatype WaiterPc = AtWaitGroup | InWait | HasResult | WaiterGone

  datatype LoopPc = Selecting | Writing(side: Side, data: Bytes) | Checking | Returned | Panicked

  /** What the select loop wrote to the channel. */
  datatype Sent = Output(dataType: nat, data: Bytes) | ExitStatus(status: nat)

  datatype State = State(
    stdout: Stream,
    stderr: Stream,
    waiter: WaiterPc,
    result: Option<WaitResult>,  // in the waiter's channel
    resultNil: bool,
    exitStatus: nat,
    loop: LoopPc,
    sent: seq<Sent>)
  {
    function Of(side: Side): Stream { if side.Stdout? then stdout else stderr }

    function With(side: Side, st: Stream): State {
      if side.Stdout? then this.(stdout := st) else this.(stderr := st)
    }
  }

  datatype Move = Reader(side: Side) | Waiter | Take(side: Side) | TakeResult | Loop

  /** SSH_EXTENDED_DATA_NONE and SSH_EXTENDED_DATA_STDERR. */
  function DataType(side: Side): nat { if side.Stdout? then 0 else 1 }

  /** Go's conversion of an `int` exit code to `uint64`. */
  function Status(r: WaitResult): nat {
    if r.ExitError? then r.code % 0x1_0000_0000_0000_0000 else 0
  }

  function InitStream(c: Config, side: Side): Stream {
    Stream(c.Script(side), if c.Present(side) then Reading else Closing, None, false)
  }

  function Init(c: Config): State {
    State(InitStream(c, Stdout), InitStream(c, Stderr), AtWaitGroup, None, false, 0, Selecting, [])
  }

  function StepReader(st: Stream): Stream {
    match st.pc
    case Reading => if st.script == [] then st else st.(script := st.script[1..], pc := Holding(st.script[0]))
    case Holding(r) =>
      if st.buffer.Some? then st else st.(buffer := Some(r), pc := if r.failed then Closing else Reading)
    case Closing => st.(pc := Leaving)
    case Leaving => st.(pc := Gone)
    case Gone => st
  }

  function StepWaiter(c: Config, s: State): State {
    match s.waiter
    case AtWaitGroup => if s.stdout.pc.Gone? && s.stderr.pc.Gone? then s.(waiter := InWait) else s
    case InWait => s.(waiter := HasResult, result := Some(c.result))
    case HasResult => s.(waiter := WaiterGone)
    case WaiterGone => s
  }

  /** The select case of one stream: a read result, or the disabling of a closed channel. */
  function StepTake(s: State, side: Side): State {
    var st := s.Of(side);
    if !s.loop.Selecting? || st.isNil then s
    else if st.buffer.Some? then
      s.With(side, st.(buffer := None)).(loop := Writing(side, st.buffer.value.data))
    else if st.Closed() then
      s.With(side, st.(isNil := true)).(loop := Checking)
    else s
  }

  function StepTakeResult(s: State): State {
    if !s.loop.Selecting? || s.resultNil then s
    else if s.result.Some? then
      s.(result := None, exitStatus := Status(s.result.value), loop := Checking)
    else if s.waiter.WaiterGone? then s.(resultNil := true, loop := Checking)
    else s
  }

  predicate AllNil(s: State) { s.stdout.isNil && s.stderr.isNil && s.resultNil }

  /** The loop's own steps. Building the exit-status request panics when the status does not fit
      a varint. */
  function StepLoop(s: State): State {
    match s.loop
    case Selecting => s
    case Writing(side, data) => s.(sent := s.sent + [Output(DataType(side), data)], loop := Checking)
    case Checking =>
      if !AllNil(s) then s.(loop := Selecting)
      else if s.exitStatus <= MAX_VARINT_8 then s.(sent := s.sent + [ExitStatus(s.exitStatus)], loop := Returned)
      else s.(loop := Panicked)
    case Returned => s
    case Panicked => s
  }

  function Step(c: Config, s: State, m: Move): State {
    match m
    case Reader(side) => s.With(side, StepReader(s.Of(side)))
    case Waiter => StepWaiter(c, s)
    case Take(side) => StepTake(s, side)
    case TakeResult => StepTakeResult(s)
    case Loop => StepLoop(s)
  }

  function Run(c: Config, schedule: seq<Move>): State {
    if schedule == [] then Init(c)
    else Step(c, Run(c, schedule[..|schedule| - 1]), schedule[|schedule| - 1])
  }

  // ----- Conservation of output -----

  function AllBytes(rs: seq<ReadResult>): Bytes {
    if rs == [] then [] else rs[0].data + AllBytes(rs[1..])
  }

  /** What has been written to the channel with one data type. */
  function Written(sent: seq<Sent>, kind: nat): Bytes {
    if sent == [] then []
    else
      var last := sent[|sent| - 1];
      Written(sent[..|sent| - 1], kind) + if last.Output? && last.dataType == kind then last.data else []
  }

  function InLoop(l: LoopPc, side: Side): Bytes { if l.Writing? && l.side == side then l.data else [] }

  /** In the channel, then held by the reader, then not read yet. */
  function Upstream(st: Stream): Bytes {
    (if st.buffer.Some? then st.buffer.value.data else [])
    + (if st.pc.Holding? then st.pc.result.data else [])
    + AllBytes(st.script)
  }

  /** Every byte is written, in the loop's hands, in the pipeline or unread, in that order. */
  predicate Conserved(c: Config, s: State, side: Side) {
    Written(s.sent, DataType(side)) + InLoop(s.loop, side) + Upstream(s.Of(side)) == AllBytes(c.Script(side))
  }

  lemma WrittenSnoc(sent: seq<Sent>, x: Sent, kind: nat)
    ensures Written(sent + [x], kind) == Written(sent, kind) + if x.Output? && x.dataType == kind then x.data else []
  {
    assert (sent + [x])[..|sent|] == sent;
  }

  lemma ReaderUpstream(st: Stream)
    ensures Upstream(StepReader(st)) == Upstream(st)
  {
    match st.pc
    case Reading =>
      if st.script != [] {
        var b := if st.buffer.Some? then st.buffer.value.data else [];
        var r, rest := st.script[0].data, AllBytes(st.script[1..]);
        assert AllBytes(st.script) == r + rest;
        assert b + [] + (r + rest) == b + r + rest;
      }
    case Holding(r) =>
      hide AllBytes;
      assert [] + r.data == r.data + [];
    case _ =>
  }

  /** Taking from a channel moves its content to the loop. */
  lemma TakeConserved(s: State, taken: Side, side: Side)
    ensures var s' := StepTake(s, taken);
            InLoop(s'.loop, side) + Upstream(s'.Of(side)) == InLoop(s.loop, side) + Upstream(s.Of(side))
  {
    hide AllBytes;
    var st := s.Of(taken);
    if s.loop.Selecting? && !st.isNil && st.buffer.Some? {
      assert InLoop(s.loop, side) == [];
    }
  }

  lemma LoopConserved(s: State, side: Side)
    ensures var s' := StepLoop(s);
            && Written(s'.sent, DataType(side)) + InLoop(s'.loop, side)
               == Written(s.sent, DataType(side)) + InLoop(s.loop, side)
            && s'.Of(side) == s.Of(side)
  {
    hide Written;
    match s.loop
    case Writing(w, data) => WrittenSnoc(s.sent, Output(DataType(w), data), DataType(side));
    case Checking => WrittenSnoc(s.sent, ExitStatus(s.exitStatus), DataType(side));
    case Selecting =>
    case Returned =>
    case Panicked =>
  }

  lemma StepConserved(c: Config, s: State, m: Move, side: Side)
    requires Conserved(c, s, side)
    ensures Conserved(c, Step(c, s, m), side)
  {
    hide Upstream, AllBytes, Written, StepReader, StepTake, StepLoop;
    var s' := Step(c, s, m);
    var w, l, u := Written(s.sent, DataType(side)), InLoop(s.loop, side), Upstream(s.Of(side));
    assert w + l + u == w + (l + u);
    match m
    case Reader(r) => ReaderUpstream(s.Of(r));
    case Waiter =>
    case Take(r) =>
      TakeConserved(s, r, side);
      TakeKeepsSent(s, r);
      var w', l', u' := Written(s'.sent, DataType(side)), InLoop(s'.loop, side), Upstream(s'.Of(side));
      assert w' + l' + u' == w' + (l' + u');
    case TakeResult =>
    case Loop => LoopConserved(s, side);
  }

  lemma TakeKeepsSent(s: State, side: Side)
    ensures StepTake(s, side).sent == s.sent
  {
  }

  lemma {:induction false} RunConserved(c: Config, schedule: seq<Move>, side: Side)
    ensures Conserved(c, Run(c, schedule), side)
  {
    hide Step, Conserved;
    if schedule == [] {
      InitConserved(c, side);
    } else {
      RunConserved(c, schedule[..|schedule| - 1], side);
      StepConserved(c, Run(c, schedule[..|schedule| - 1]), schedule[|schedule| - 1], side);
    }
  }

  lemma InitConserved(c: Config, side: Side)
    ensures Conserved(c, Init(c), side)
  {
  }

  // ----- Control -----

  predicate StreamOk(st: Stream) {
    && (st.isNil ==> st.Closed() && st.buffer.None?)
    && match st.pc
       case Reading => Ends(st.script)
       case Holding(r) => if r.failed then st.script == [] else Ends(st.script)
       case _ => st.script == []
  }

  /** The waiter calls `Wait` only after both readers have ended; its one result reaches the loop
      before the loop disables it. */
  predicate WaiterOk(c: Config, s: State) {
    && (!s.waiter.AtWaitGroup? ==> s.stdout.pc.Gone? && s.stderr.pc.Gone?)
    && (s.result.Some? ==> s.result == Some(c.result) && (s.waiter.HasResult? || s.waiter.WaiterGone?))
    && (s.resultNil ==> s.waiter.WaiterGone? && s.result.None?)
    && (s.result.None? && (s.waiter.HasResult? || s.waiter.WaiterGone?) ==> s.exitStatus == Status(c.result))
  }

  predicate NoExit(sent: seq<Sent>) { forall i :: 0 <= i < |sent| ==> sent[i].Output? }

  /** The loop returns right after the one exit status, which is the last thing sent. */
  predicate LoopOk(c: Config, s: State) {
    && (s.loop.Selecting? || s.loop.Writing? ==> !AllNil(s))
    && (s.loop.Returned? ==>
          && AllNil(s) && s.sent != []
          && NoExit(s.sent[..|s.sent| - 1])
          && s.sent[|s.sent| - 1] == ExitStatus(Status(c.result))
          && Status(c.result) <= MAX_VARINT_8)
    && (s.loop.Panicked? ==> AllNil(s) && Status(c.result) > MAX_VARINT_8)
    && (!s.loop.Returned? ==> NoExit(s.sent))
  }

  predicate Inv(c: Config, s: State) {
    StreamOk(s.stdout) && StreamOk(s.stderr) && WaiterOk(c, s) && LoopOk(c, s)
  }

  lemma StepReaderOk(st: Stream)
    requires StreamOk(st)
    ensures StreamOk(StepReader(st))
    ensures st.pc.Gone? ==> StepReader(st).pc.Gone?
    ensures StepReader(st).isNil == st.isNil
  {
  }

  lemma StepInv(c: Config, s: State, m: Move)
    requires Inv(c, s)
    ensures Inv(c, Step(c, s, m))
  {
    hide Status, Ends;
    match m
    case Reader(side) =>
      hide StepReader;
      StepReaderOk(s.Of(side));
    case Waiter =>
    case Take(_) =>
    case TakeResult =>
    case Loop =>
  }

  lemma {:induction false} RunInv(c: Config, schedule: seq<Move>)
    requires c.Valid()
    ensures Inv(c, Run(c, schedule))
  {
    hide Step;
    if schedule != [] {
      RunInv(c, schedule[..|schedule| - 1]);
      StepInv(c, Run(c, schedule[..|schedule| - 1]), schedule[|schedule| - 1]);
    }
  }

  // ----- Progress -----

  predicate Final(s: State) { s.loop.Returned? || s.loop.Panicked? }

  /** A move that some goroutine can make. */
  function Enabled(s: State): Move {
    if !s.loop.Selecting? then Loop
    else if !s.stdout.isNil then (if s.stdout.buffer.Some? || s.stdout.Closed() then Take(Stdout) else Reader(Stdout))
    else if !s.stderr.isNil then (if s.stderr.buffer.Some? || s.stderr.Closed() then Take(Stderr) else Reader(Stderr))
    else if !s.stdout.pc.Gone? then Reader(Stdout)
    else if !s.stderr.pc.Gone? then Reader(Stderr)
    else if s.result.Some? || s.waiter.WaiterGone? then TakeResult
    else Waiter
  }

  function ReaderWork(pc: ReaderPc): nat {
    match pc
    case Reading => 3
    case Holding(_) => 8
    case Closing => 2
    case Leaving => 1
    case Gone => 0
  }

  /** An upper bound on the moves that are left. */
  function StreamWork(st: Stream): nat {
    6 * |st.script| + ReaderWork(st.pc) + (if st.buffer.Some? then 4 else 0) + (if st.isNil then 0 else 2)
  }

  function LoopWork(l: LoopPc): nat { if l.Writing? then 2 else if l.Checking? then 1 else 0 }

  function WaiterWork(s: State): nat {
    (match s.waiter case AtWaitGroup => 6 case InWait => 5 case HasResult => 1 case WaiterGone => 0)
    + (if s.result.Some? then 2 else 0) + (if s.resultNil then 0 else 2)
  }

  function Work(s: State): nat {
    StreamWork(s.stdout) + StreamWork(s.stderr) + WaiterWork(s) + LoopWork(s.loop)
  }

  lemma ReaderWorkDrops(st: Stream)
    ensures StepReader(st) == st || StreamWork(StepReader(st)) < StreamWork(st)
  {
  }

  lemma TakeWorkDrops(s: State, side: Side)
    ensures StepTake(s, side) == s || Work(StepTake(s, side)) < Work(s)
  {
  }

  /** Every move changes nothing or leaves strictly less work. */
  lemma StepWork(c: Config, s: State, m: Move)
    ensures Step(c, s, m) == s || Work(Step(c, s, m)) < Work(s)
  {
    hide StreamWork;
    match m
    case Reader(side) =>
      hide StepReader;
      ReaderWorkDrops(s.Of(side));
    case Take(side) =>
      hide StepTake;
      TakeWorkDrops(s, side);
    case Waiter =>
    case TakeResult =>
    case Loop =>
  }

  lemma EnabledMoves(c: Config, s: State)
    requires Inv(c, s) && !Final(s)
    ensures Step(c, s, Enabled(s)) != s
  {
  }

  // ----- The theorems -----

  /** The exit code of a process, as Go reports it: -1 for one killed by a signal. */
  predicate IsGoInt(code: int) { -0x8000_0000_0000_0000 <= code < 0x8000_0000_0000_0000 }

  /** The exit status `k` tells how the command ended: its exit code, or 0 for an ordinary exit and for
      an error that carries none. */
  predicate TellsExit(r: WaitResult, k: nat) {
    match r
    case Exited => k == 0
    case OtherError => k == 0
    case ExitError(code) => IsGoInt(code) ==> k == code
  }

  lemma StatusTells(r: WaitResult)
    requires Status(r) <= MAX_VARINT_8
    ensures TellsExit(r, Status(r))
  {
  }

  /** Everything read from a stream the command has, or nothing. */
  function OutputOf(results: Option<seq<ReadResult>>): Bytes {
    if results.Some? then AllBytes(results.value) else []
  }

  lemma BothSides(c: Config)
    ensures AllBytes(c.Script(Stdout)) == OutputOf(c.stdout) && DataType(Stdout) == 0
    ensures AllBytes(c.Script(Stderr)) == OutputOf(c.stderr) && DataType(Stderr) == 1
  {
  }

  /** In every interleaving: what was sent for each stream, as ordinary data for stdout and as extended
      data of type 1 for stderr, is a prefix of what was read from it;
      `Wait` is called only after both readers have ended; nothing follows an exit status, and
      once the loop has returned both outputs are complete and the last and only exit status is
      the command's. */
  lemma PumpSafety(c: Config, schedule: seq<Move>)
    requires c.Valid()
    ensures var s := Run(c, schedule);
            && Written(s.sent, 0) <= OutputOf(c.stdout) && Written(s.sent, 1) <= OutputOf(c.stderr)
            && (!s.waiter.AtWaitGroup? ==> s.stdout.pc.Gone? && s.stderr.pc.Gone?)
            && (!s.loop.Returned? ==> NoExit(s.sent))
            && (s.loop.Returned? ==>
                  && Written(s.sent, 0) == OutputOf(c.stdout) && Written(s.sent, 1) == OutputOf(c.stderr)
                  && |s.sent| > 0
                  && NoExit(s.sent[..|s.sent| - 1])
                  && s.sent[|s.sent| - 1].ExitStatus?
                  && TellsExit(c.result, s.sent[|s.sent| - 1].status))
  {
    hide Step, Written, AllBytes, TellsExit;
    var s := Run(c, schedule);
    RunInv(c, schedule);
    if s.loop.Returned? {
      StatusTells(c.result);
    }
    forall side
      ensures Written(s.sent, DataType(side)) <= AllBytes(c.Script(side))
      ensures s.loop.Returned? ==> Written(s.sent, DataType(side)) == AllBytes(c.Script(side))
    {
      RunConserved(c, schedule, side);
      if s.loop.Returned? {
        assert Upstream(s.Of(side)) == [] by { DrainedStream(s.Of(side)); }
      }
    }
    BothSides(c);
  }

  lemma DrainedStream(st: Stream)
    requires StreamOk(st) && st.isNil
    ensures Upstream(st) == []
  {
  }

  /** No reachable state is stuck before the loop is over. */
  lemma NeverStuck(c: Config, schedule: seq<Move>)
    requires c.Valid()
    ensures Final(Run(c, schedule)) || Step(c, Run(c, schedule), Enabled(Run(c, schedule))) != Run(c, schedule)
  {
    hide Step;
    RunInv(c, schedule);
    if !Final(Run(c, schedule)) {
      EnabledMoves(c, Run(c, schedule));
    }
  }

  /** From every reachable state the loop can finish, and no schedule makes more than `Work`
      effective moves. */
  lemma {:induction false} PumpTerminates(c: Config, schedule: seq<Move>) returns (more: seq<Move>)
    requires c.Valid()
    ensures Final(Run(c, schedule + more))
    decreases Work(Run(c, schedule))
  {
    hide Step, Work;
    var s := Run(c, schedule);
    if Final(s) {
      more := [];
      assert schedule + [] == schedule;
    } else {
      var next := schedule + [Enabled(s)];
      assert next[..|schedule|] == schedule;
      NeverStuck(c, schedule);
      StepWork(c, s, Enabled(s));
      var rest := PumpTerminates(c, next);
      more := [Enabled(s)] + rest;
      assert schedule + more == next + rest;
    }
  }

  /** "Exactly one exit status" holds exactly for commands whose exit code is not negative (and
      fits a varint): the finished loop has sent it if and only if that is the case. */
  lemma ExitStatusSentIff(c: Config, schedule: seq<Move>)
    requires c.Valid() && Final(Run(c, schedule))
    requires c.result.ExitError? ==> IsGoInt(c.result.code)
    ensures Run(c, schedule).loop.Returned? <==> (c.result.ExitError? ==> 0 <= c.result.code <= MAX_VARINT_8)
    ensures Run(c, schedule).loop.Panicked? ==> NoExit(Run(c, schedule).sent)
  {
    hide Step;
    RunInv(c, schedule);
  }

  /** A command killed by a signal: the loop can only end in a panic. */
  lemma KilledCommandPanics(c: Config, schedule: seq<Move>)
    requires c.Valid() && c.result == ExitError(-1) && Final(Run(c, schedule))
    ensures Run(c, schedule).loop.Panicked? && NoExit(Run(c, schedule).sent)
  {
    hide Step;
    ExitStatusSentIff(c, schedule);
  }
}

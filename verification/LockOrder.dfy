/** Every lock, future and join the camera client and the tracking server wait on, for any number of
    API threads, storage reports, capture callbacks, async workers and the server thread.
    A call is the script of its blocking operations on one path through the code; calls start at any
    time and interleave freely. */
module LockOrder {
  import opened Wrappers

  datatype Mutex =
    | Storage        // _storage_information_mutex
    | Action         // _action_mutex
    | Client         // TrackingServer::_client_mutex
    | Callback       // TrackingServer::_mutex
    | Frame          // _tracking_frame_mutex
    | TrackingLog    // tracking_log_mutex()
    | Log            // the log sink's mutex

  datatype Op =
    | Lock(m: Mutex)
    | Unlock(m: Mutex)
    | Logs(m: Mutex)           // any number of log lines, none included, each under this mutex
    | Work                     // vendor calls, systemctl, sockets, user callbacks: they return
    | Async(body: Script)      // std::async with a discarded future: launch, then wait
    | Await(worker: nat)       // the destructor of that future
    | StopServer               // TrackingServer::stop
    | Join                     // its thread join
    | StartServer              // TrackingServer::start
    | Spawn                    // its assignment to _thread
    | LoopTest                 // the server thread between two turns of its loops

  datatype Script = End | Do(op: Op, rest: Script)

  // ----- the order -----

  const AWAIT_RANK := 3
  const JOIN_RANK := 4

  function Rank(m: Mutex): nat {
    match m
    case Storage => 1
    case Action => 2
    case Client => 5
    case Callback => 6
    case Frame => 7
    case TrackingLog => 8
    case Log => 9
  }

  /** The mutexes a thread holds, the latest one on top. */
  datatype Held = Nothing | Top(m: Mutex, below: Held)

  predicate Holds(held: Held, m: Mutex) {
    held.Top? && (held.m == m || Holds(held.below, m))
  }

  predicate Below(held: Held, rank: nat) {
    held.Nothing? || (Rank(held.m) < rank && Below(held.below, rank))
  }

  /** Locked in increasing rank. */
  predicate Stacked(held: Held) {
    held.Nothing? || (Below(held.below, Rank(held.m)) && Stacked(held.below))
  }

  /** The script, started with `held` locked, takes every resource in increasing rank and above
      `floor`, so it never re-locks; it unlocks what it locked last and ends holding nothing. */
  predicate Ordered(script: Script, held: Held, floor: nat) {
    match script
    case End => held.Nothing?
    case Do(op, rest) =>
      match op
      case Lock(m) => floor < Rank(m) && Below(held, Rank(m)) && Ordered(rest, Top(m, held), floor)
      case Unlock(m) => held.Top? && held.m == m && Ordered(rest, held.below, floor)
      case Logs(m) => floor < Rank(m) && Below(held, Rank(m)) && Ordered(rest, held, floor)
      case Work => Ordered(rest, held, floor)
      case Async(body) =>
        floor < AWAIT_RANK && Below(held, AWAIT_RANK) && Ordered(body, Nothing, AWAIT_RANK) && Ordered(rest, held, floor)
      case Await(_) => floor < AWAIT_RANK && Below(held, AWAIT_RANK) && Ordered(rest, held, floor)
      case StopServer => floor < JOIN_RANK && Below(held, JOIN_RANK) && Ordered(rest, held, floor)
      case Join => floor < JOIN_RANK && Below(held, JOIN_RANK) && Ordered(rest, held, floor)
      case StartServer => floor < JOIN_RANK && Below(held, JOIN_RANK) && Ordered(rest, held, floor)
      case Spawn => Ordered(rest, held, floor)
      case LoopTest => held.Nothing? && rest == End && floor == JOIN_RANK
  }

  /** No wait for a particular worker is written down in advance. */
  predicate NoAwait(script: Script) {
    match script
    case End => true
    case Do(op, rest) => !op.Await? && (op.Async? ==> NoAwait(op.body)) && NoAwait(rest)
  }

  // ----- the calls -----

  function Locked(m: Mutex, inside: Script): Script {
    Do(Lock(m), inside)
  }

  function LogLine(rest: Script): Script {
    Do(Logs(Log), rest)
  }

  function TrackingLogLine(rest: Script): Script {
    Do(Logs(TrackingLog), rest)
  }

  function Guarded(m: Mutex, rest: Script): Script {
    Do(Lock(m), Do(Work, Do(Unlock(m), rest)))
  }

  /** `set_ai_function`. */
  function AiScript(on: bool, started: bool, sends: bool, rest: Script): Script {
    Guarded(Frame,
      Do(Work,
        if !on then Do(StopServer, Do(Work, rest))
        else Do(StartServer, Do(Work,
               if !started then Do(StopServer, rest) else if sends then SendControlScript(rest) else rest))))
  }

  /** `send_control_command`: logs while it holds the client mutex. */
  function SendControlScript(rest: Script): Script {
    Do(Lock(Client), Do(Work, LogLine(TrackingLogLine(Do(Unlock(Client), rest)))))
  }

  datatype Call =
    | TakePhotoOrStartVideo(denied: bool)
    | ActionCall                              // stop_video, streaming, zoom, set_mode
    | SetPlainSetting                         // and any call refused before its first lock
    | SetAi(on: bool, started: bool, sends: bool)
    | FormatStorage(busy: bool)
    | ResetSettings(busy: bool, vendorOk: bool)
    | StorageReport(stopsVideo: bool)
    | FillStorageInformation
    | CaptureFrame
    | TrackingPoint
    | LatestFrame

  function ScriptOf(c: Call): Script {
    match c
    case TakePhotoOrStartVideo(denied) =>
      LogLine(Guarded(Storage, if denied then LogLine(Do(Work, End)) else Do(Work, Do(Lock(Action), Do(Work, LogLine(Do(Unlock(Action), End)))))))
    case ActionCall => LogLine(Do(Lock(Action), LogLine(Do(Work, LogLine(Do(Unlock(Action), End))))))
    case SetPlainSetting => LogLine(Do(Work, End))
    case SetAi(on, started, sends) => LogLine(AiScript(on, started, sends, Do(Work, End)))
    case FormatStorage(busy) => LogLine(if busy then End else Do(Async(Do(Work, LogLine(End))), End))
    case ResetSettings(busy, vendorOk) =>
      LogLine(Do(Lock(Action),
        if busy then Do(Unlock(Action), End)
        else
          Do(Work, Do(Async(Do(Work,
            if vendorOk then AiScript(false, false, false, Do(Work, End)) else Do(Work, End))),
            Do(Unlock(Action), End)))))
    case StorageReport(stopsVideo) =>
      Do(Lock(Storage), Do(Work,
        if stopsVideo
        then LogLine(Do(Lock(Action), Do(Work, LogLine(Do(Unlock(Action), Do(Work, Do(Unlock(Storage), End)))))))
        else LogLine(Do(Unlock(Storage), End))))
    case FillStorageInformation => Guarded(Storage, End)
    case CaptureFrame => Do(Work, Guarded(Frame, Do(Work, End)))
    case TrackingPoint => SendControlScript(End)
    case LatestFrame => Guarded(Callback, End)
  }

  /** One turn of the server thread's loops. */
  datatype Turn = AcceptFails | ClientConnects(cachedSendFails: bool) | LineRejected | FrameArrives | ClientLeaves | ReceiveTimesOut

  function TurnScript(turn: Turn): Script {
    var again := Do(LoopTest, End);
    match turn
    case AcceptFails => Do(Work, LogLine(again))
    case ClientConnects(fails) =>
      Do(Work, Do(Lock(Client), Do(Work,
        if fails then LogLine(TrackingLogLine(Do(Unlock(Client), LogLine(TrackingLogLine(again)))))
        else Do(Unlock(Client), LogLine(TrackingLogLine(again))))))
    case LineRejected => Do(Work, LogLine(TrackingLogLine(again)))
    case FrameArrives => Do(Work, Guarded(Callback, TrackingLogLine(Guarded(Frame, again))))
    case ClientLeaves => Do(Work, Guarded(Client, LogLine(TrackingLogLine(again))))
    case ReceiveTimesOut => Do(Work, again)
  }

  /** `run_loop` up to its accept loop. */
  const SERVER_SCRIPT := Do(Work, LogLine(TrackingLogLine(Do(LoopTest, End))))

  ghost predicate Good(script: Script, held: Held, floor: nat) {
    Ordered(script, held, floor) && NoAwait(script)
  }

  lemma LogLineGood(rest: Script, held: Held, floor: nat)
    requires Good(rest, held, floor) && floor < Rank(Log) && Below(held, Rank(Log))
    ensures Good(LogLine(rest), held, floor)
  {
  }

  lemma TrackingLogLineGood(rest: Script, held: Held, floor: nat)
    requires Good(rest, held, floor) && floor < Rank(TrackingLog) && Below(held, Rank(TrackingLog))
    ensures Good(TrackingLogLine(rest), held, floor)
  {
  }

  lemma BothLogLinesGood(rest: Script, held: Held, floor: nat)
    requires Good(rest, held, floor) && floor < Rank(TrackingLog) && Below(held, Rank(TrackingLog))
    requires Below(held, Rank(Log))
    ensures Good(LogLine(TrackingLogLine(rest)), held, floor)
  {
    TrackingLogLineGood(rest, held, floor);
    LogLineGood(TrackingLogLine(rest), held, floor);
  }

  lemma GuardedGood(m: Mutex, rest: Script, floor: nat)
    requires Good(rest, Nothing, floor) && floor < Rank(m)
    ensures Good(Guarded(m, rest), Nothing, floor)
  {
    assert Good(Do(Unlock(m), rest), Top(m, Nothing), floor);
    assert Good(Do(Work, Do(Unlock(m), rest)), Top(m, Nothing), floor);
  }

  lemma SendControlGood(rest: Script)
    requires Good(rest, Nothing, 0)
    ensures Good(SendControlScript(rest), Nothing, 0)
  {
    var held := Top(Client, Nothing);
    assert Below(held, Rank(TrackingLog)) && Below(held, Rank(Log));
    BothLogLinesGood(Do(Unlock(Client), rest), held, 0);
    assert Good(Do(Work, LogLine(TrackingLogLine(Do(Unlock(Client), rest)))), held, 0);
  }

  lemma AiGood(on: bool, started: bool, sends: bool, rest: Script, floor: nat)
    requires Good(rest, Nothing, floor) && floor < JOIN_RANK && (on ==> floor == 0)
    ensures Good(AiScript(on, started, sends, rest), Nothing, floor)
  {
    if !on {
      assert Good(Do(StopServer, Do(Work, rest)), Nothing, floor);
      GuardedGood(Frame, Do(Work, Do(StopServer, Do(Work, rest))), floor);
    } else {
      if started && sends {
        SendControlGood(rest);
      }
      var tail := if !started then Do(StopServer, rest) else if sends then SendControlScript(rest) else rest;
      assert Good(tail, Nothing, floor);
      assert Good(Do(StartServer, Do(Work, tail)), Nothing, floor);
      GuardedGood(Frame, Do(Work, Do(StartServer, Do(Work, tail))), floor);
    }
  }

  lemma CaptureCallsGood(c: Call)
    requires c.TakePhotoOrStartVideo? || c.ActionCall? || c.StorageReport?
    ensures Good(ScriptOf(c), Nothing, 0)
  {
    var a := Top(Action, Nothing);
    assert Below(a, Rank(Log));
    LogLineGood(Do(Unlock(Action), End), a, 0);
    var ending := Do(Work, LogLine(Do(Unlock(Action), End)));
    assert Good(ending, a, 0);
    if c.TakePhotoOrStartVideo? {
      LogLineGood(Do(Work, End), Nothing, 0);
      var rest := if c.denied then LogLine(Do(Work, End)) else Do(Work, Do(Lock(Action), ending));
      assert Good(Do(Lock(Action), ending), Nothing, 0);
      GuardedGood(Storage, rest, 0);
      LogLineGood(Guarded(Storage, rest), Nothing, 0);
    } else if c.ActionCall? {
      LogLineGood(ending, a, 0);
      assert Good(Do(Lock(Action), LogLine(ending)), Nothing, 0);
      LogLineGood(Do(Lock(Action), LogLine(ending)), Nothing, 0);
    } else {
      var st := Top(Storage, Nothing);
      var b := Top(Action, st);
      assert Below(st, Rank(Action)) && Below(st, Rank(Log)) && Below(b, Rank(Log));
      var after := Do(Unlock(Action), Do(Work, Do(Unlock(Storage), End)));
      assert Good(Do(Work, Do(Unlock(Storage), End)), st, 0);
      assert Good(after, b, 0);
      LogLineGood(after, b, 0);
      var stop := Do(Lock(Action), Do(Work, LogLine(after)));
      assert Good(Do(Work, LogLine(after)), b, 0);
      assert Good(stop, st, 0);
      LogLineGood(stop, st, 0);
      LogLineGood(Do(Unlock(Storage), End), st, 0);
      var inside := if c.stopsVideo then LogLine(stop) else LogLine(Do(Unlock(Storage), End));
      assert Good(Do(Work, inside), st, 0);
    }
  }

  lemma AsyncCallsGood(c: Call)
    requires c.FormatStorage? || c.ResetSettings?
    ensures Good(ScriptOf(c), Nothing, 0)
  {
    if c.FormatStorage? {
      LogLineGood(End, Nothing, AWAIT_RANK);
      assert Good(Do(Work, LogLine(End)), Nothing, AWAIT_RANK);
      LogLineGood(if c.busy then End else Do(Async(Do(Work, LogLine(End))), End), Nothing, 0);
    } else {
      var a := Top(Action, Nothing);
      assert Below(a, AWAIT_RANK);
      var unlock := Do(Unlock(Action), End);
      assert Good(unlock, a, 0);
      AiGood(false, false, false, Do(Work, End), AWAIT_RANK);
      var body := Do(Work, if c.vendorOk then AiScript(false, false, false, Do(Work, End)) else Do(Work, End));
      assert Good(body, Nothing, AWAIT_RANK);
      var inside := if c.busy then unlock else Do(Work, Do(Async(body), unlock));
      assert Good(Do(Async(body), unlock), a, 0);
      assert Good(inside, a, 0);
      LogLineGood(Do(Lock(Action), inside), Nothing, 0);
    }
  }

  /** Every call obeys the order, on each of its listed paths and however much it logs. */
  lemma CallsAreOrdered(c: Call)
    ensures Good(ScriptOf(c), Nothing, 0)
  {
    match c
    case TakePhotoOrStartVideo(_) => CaptureCallsGood(c);
    case ActionCall => CaptureCallsGood(c);
    case StorageReport(_) => CaptureCallsGood(c);
    case SetPlainSetting => LogLineGood(Do(Work, End), Nothing, 0);
    case SetAi(on, started, sends) =>
      AiGood(on, started, sends, Do(Work, End), 0);
      LogLineGood(AiScript(on, started, sends, Do(Work, End)), Nothing, 0);
    case FormatStorage(_) => AsyncCallsGood(c);
    case ResetSettings(_, _) => AsyncCallsGood(c);
    case FillStorageInformation => GuardedGood(Storage, End, 0);
    case CaptureFrame => GuardedGood(Frame, Do(Work, End), 0);
    case TrackingPoint => SendControlGood(End);
    case LatestFrame => GuardedGood(Callback, End, 0);
  }

  /** So does the server thread, which uses only what lies above the join. */
  lemma ServerIsOrdered(turn: Turn)
    ensures Good(SERVER_SCRIPT, Nothing, JOIN_RANK) && Good(TurnScript(turn), Nothing, JOIN_RANK)
  {
    var again := Do(LoopTest, End);
    BothLogLinesGood(again, Nothing, JOIN_RANK);
    match turn
    case AcceptFails => LogLineGood(again, Nothing, JOIN_RANK);
    case ClientConnects(fails) =>
      var held := Top(Client, Nothing);
      assert Below(held, Rank(TrackingLog)) && Below(held, Rank(Log));
      var unlock := Do(Unlock(Client), LogLine(TrackingLogLine(again)));
      assert Good(unlock, held, JOIN_RANK);
      BothLogLinesGood(unlock, held, JOIN_RANK);
      assert Good(Do(Work, if fails then LogLine(TrackingLogLine(unlock)) else unlock), held, JOIN_RANK);
    case LineRejected =>
    case FrameArrives =>
      GuardedGood(Frame, again, JOIN_RANK);
      TrackingLogLineGood(Guarded(Frame, again), Nothing, JOIN_RANK);
      GuardedGood(Callback, TrackingLogLine(Guarded(Frame, again)), JOIN_RANK);
    case ClientLeaves => GuardedGood(Client, LogLine(TrackingLogLine(again)), JOIN_RANK);
    case ReceiveTimesOut =>
  }

  // ----- the running system -----

  datatype Thread = Thread(script: Script, held: Held, floor: nat)

  datatype State = State(
    threads: map<nat, Thread>,
    next: nat,                 // identities from here on are unused
    owner: map<Mutex, nat>,
    running: bool,             // TrackingServer::_running
    joinable: bool,            // TrackingServer::_thread holds a thread ...
    server: nat,               // ... which is this one
    aborted: bool)             // a joinable std::thread was assigned over

  const INIT := State(map[], 0, map[], false, false, 0, false)

  /** What is left open in a step: what the server thread finds to do if it is a loop test, and
      whether one more line is logged if it comes to log lines. */
  datatype Choice = Choice(turn: Turn, logs: bool)

  /** A call begins on a thread of its own, or a thread takes its next step. */
  datatype Move = Begin(call: Call) | Step(t: nat, choice: Choice)

  predicate CanStep(s: State, t: nat) {
    && t in s.threads
    && s.threads[t].script.Do?
    && match s.threads[t].script.op
       case Lock(m) => m !in s.owner
       case Await(w) => w in s.threads && s.threads[w].script.End?
       case Join => s.joinable ==> s.server in s.threads && s.threads[s.server].script.End?
       case _ => true
  }

  predicate Enabled(s: State, move: Move) {
    !s.aborted && (move.Step? ==> CanStep(s, move.t))
  }

  /** What is left of thread t's script after its next step. */
  function NextScript(s: State, script: Script, choice: Choice): Script
    requires script.Do?
  {
    var rest := script.rest;
    match script.op
    case Async(_) => Do(Await(s.next), rest)
    case StopServer => if s.running then TrackingLogLine(Do(Join, rest)) else rest
    case StartServer => if s.running then rest else TrackingLogLine(Do(Spawn, rest))
    case Logs(m) => if choice.logs then Do(Lock(m), Do(Unlock(m), script)) else rest
    case LoopTest => if s.running then TurnScript(choice.turn) else End
    case _ => rest
  }

  function NextHeld(op: Op, held: Held): Held {
    match op
    case Lock(m) => Top(m, held)
    case Unlock(_) => if held.Top? then held.below else Nothing
    case _ => held
  }

  /** The thread a step launches. */
  function Launched(op: Op): Option<Thread> {
    match op
    case Async(body) => Some(Thread(body, Nothing, AWAIT_RANK))
    case Spawn => Some(Thread(SERVER_SCRIPT, Nothing, JOIN_RANK))
    case _ => None
  }

  function WithThread(s: State, launched: Option<Thread>): State {
    if launched.None? then s else s.(threads := s.threads[s.next := launched.value], next := s.next + 1)
  }

  function StepThread(s: State, t: nat, choice: Choice): State
    requires CanStep(s, t)
  {
    var th, op := s.threads[t], s.threads[t].script.op;
    if op.Spawn? && s.joinable then s.(aborted := true)
    else
      var moved := s.(
        threads := s.threads[t := Thread(NextScript(s, th.script, choice), NextHeld(op, th.held), th.floor)],
        owner := if op.Lock? then s.owner[op.m := t] else if op.Unlock? then s.owner - {op.m} else s.owner,
        running := if op.StopServer? then false else if op.StartServer? then true else s.running,
        joinable := if op.Join? then false else if op.Spawn? then true else s.joinable,
        server := if op.Spawn? then s.next else s.server);
      WithThread(moved, Launched(op))
  }

  function Apply(s: State, move: Move): State
    requires Enabled(s, move)
  {
    match move
    case Begin(c) => WithThread(s, Some(Thread(ScriptOf(c), Nothing, 0)))
    case Step(t, choice) => StepThread(s, t, choice)
  }

  ghost predicate IsRun(s: State, moves: seq<Move>)
    decreases |moves|
  {
    moves == [] || (Enabled(s, moves[0]) && IsRun(Apply(s, moves[0]), moves[1..]))
  }

  ghost function Run(s: State, moves: seq<Move>): State
    requires IsRun(s, moves)
    decreases |moves|
  {
    if moves == [] then s else Run(Apply(s, moves[0]), moves[1..])
  }

  // ----- the invariant -----

  /** A thread obeys the order from where it stands; a worker it waits for exists and ranks higher. */
  ghost predicate ThreadOk(s: State, t: nat)
    requires t in s.threads
  {
    var th := s.threads[t];
    && t < s.next
    && Stacked(th.held)
    && Ordered(th.script, th.held, th.floor)
    && (if th.script.Do? && th.script.op.Await?
        then th.script.op.worker in s.threads && s.threads[th.script.op.worker].floor == AWAIT_RANK && NoAwait(th.script.rest)
        else NoAwait(th.script))
  }

  predicate OwnerOk(s: State, t: nat, m: Mutex)
    requires t in s.threads
  {
    Holds(s.threads[t].held, m) <==> m in s.owner && s.owner[m] == t
  }

  ghost predicate OwnersOk(s: State) {
    && (forall t, m :: t in s.threads ==> OwnerOk(s, t, m))
    && (forall m :: m in s.owner ==> s.owner[m] in s.threads)
  }

  ghost predicate ServerOk(s: State) {
    s.joinable ==> s.server in s.threads && s.threads[s.server].floor == JOIN_RANK
  }

  ghost predicate Inv(s: State) {
    && (forall t :: t in s.threads ==> ThreadOk(s, t))
    && OwnersOk(s)
    && ServerOk(s)
  }

  lemma {:induction false} BelowExcludes(held: Held, m: Mutex, rank: nat)
    requires Below(held, rank) && Holds(held, m)
    ensures Rank(m) < rank
  {
    if held.m != m {
      BelowExcludes(held.below, m, rank);
    }
  }

  lemma {:induction false} BelowWeakens(held: Held, low: nat, high: nat)
    requires Below(held, low) && low <= high
    ensures Below(held, high)
  {
    if held.Top? {
      BelowWeakens(held.below, low, high);
    }
  }

  /** A thread without a pending future. */
  ghost predicate Plain(s: State, t: nat) {
    t in s.threads && t < s.next && Stacked(s.threads[t].held) && Good(s.threads[t].script, s.threads[t].held, s.threads[t].floor)
  }

  lemma PlainIsOk(s: State, t: nat)
    requires Plain(s, t)
    ensures ThreadOk(s, t)
  {
    var script := s.threads[t].script;
    assert script.Do? ==> !script.op.Await?;
  }

  /** What the stepping thread is left with obeys the order. */
  lemma NextScriptGood(s: State, th: Thread, choice: Choice)
    requires th.script.Do? && Stacked(th.held) && Good(th.script.rest, NextHeld(th.script.op, th.held), th.floor)
    requires Ordered(th.script, th.held, th.floor)
    requires !th.script.op.Async?
    ensures Stacked(NextHeld(th.script.op, th.held))
    ensures Good(NextScript(s, th.script, choice), NextHeld(th.script.op, th.held), th.floor)
  {
    var rest := th.script.rest;
    match th.script.op
    case StopServer =>
      BelowWeakens(th.held, JOIN_RANK, Rank(TrackingLog));
      TrackingLogLineGood(Do(Join, rest), th.held, th.floor);
    case StartServer =>
      BelowWeakens(th.held, JOIN_RANK, Rank(TrackingLog));
      TrackingLogLineGood(Do(Spawn, rest), th.held, th.floor);
    case Logs(m) => assert Good(Do(Unlock(m), th.script), Top(m, th.held), th.floor);
    case LoopTest => ServerIsOrdered(choice.turn);
    case _ =>
  }

  lemma RestGood(s: State, t: nat)
    requires t in s.threads && ThreadOk(s, t) && s.threads[t].script.Do?
    ensures var th := s.threads[t];
            && Good(th.script.rest, NextHeld(th.script.op, th.held), th.floor)
            && Stacked(NextHeld(th.script.op, th.held))
  {
  }

  lemma StepKeepsOwnThread(s: State, t: nat, choice: Choice)
    requires CanStep(s, t) && ThreadOk(s, t) && s.next !in s.threads
    ensures t in StepThread(s, t, choice).threads && ThreadOk(StepThread(s, t, choice), t)
  {
    var th := s.threads[t];
    var s' := StepThread(s, t, choice);
    RestGood(s, t);
    if s'.aborted != s.aborted {
      assert s'.threads == s.threads;
    } else if !th.script.op.Async? {
      NextScriptGood(s, th, choice);
      PlainIsOk(s', t);
    }
  }

  /** A step changes no other thread, and launches at most one new one. */
  lemma StepFrame(s: State, t: nat, choice: Choice, u: nat)
    requires CanStep(s, t) && s.next !in s.threads
    ensures var s' := StepThread(s, t, choice);
            && s'.next >= s.next
            && (u in s.threads ==> u in s'.threads && s'.threads[u].floor == s.threads[u].floor)
            && (u in s.threads && u != t ==> s'.threads[u] == s.threads[u])
            && (u in s'.threads && u !in s.threads ==>
                  && u == s.next < s'.next
                  && s'.threads[u] == if s.threads[t].script.op.Async?
                                      then Thread(s.threads[t].script.op.body, Nothing, AWAIT_RANK)
                                      else Thread(SERVER_SCRIPT, Nothing, JOIN_RANK))
  {
  }

  /** A thread that did not step is left alone, and one that was launched obeys the order. */
  lemma StepKeepsOtherThread(s: State, t: nat, choice: Choice, u: nat)
    requires CanStep(s, t) && ThreadOk(s, t) && u != t
    requires u in StepThread(s, t, choice).threads && (u in s.threads ==> ThreadOk(s, u))
    requires s.next !in s.threads
    ensures ThreadOk(StepThread(s, t, choice), u)
  {
    var s' := StepThread(s, t, choice);
    StepFrame(s, t, choice, u);
    if u in s.threads {
      var script := s.threads[u].script;
      if script.Do? && script.op.Await? {
        StepFrame(s, t, choice, script.op.worker);
      }
    } else {
      ServerIsOrdered(choice.turn);
      PlainIsOk(s', u);
    }
  }

  lemma StepKeepsOwner(s: State, t: nat, choice: Choice, u: nat, m: Mutex)
    requires CanStep(s, t) && Stacked(s.threads[t].held) && s.next !in s.threads
    requires s.threads[t].script.op.Unlock? ==>
               s.threads[t].held.Top? && s.threads[t].held.m == s.threads[t].script.op.m
    requires OwnerOk(s, t, m) && (u in s.threads ==> OwnerOk(s, u, m))
    requires m in s.owner ==> s.owner[m] in s.threads
    requires u in StepThread(s, t, choice).threads
    ensures OwnerOk(StepThread(s, t, choice), u, m)
  {
    var held := s.threads[t].held;
    StepFrame(s, t, choice, u);
    if s.threads[t].script.op.Unlock? && Holds(held.below, held.m) {
      BelowExcludes(held.below, held.m, Rank(held.m));
    }
  }

  lemma StepKeepsOwners(s: State, t: nat, choice: Choice)
    requires CanStep(s, t) && ThreadOk(s, t) && OwnersOk(s) && s.next !in s.threads
    ensures OwnersOk(StepThread(s, t, choice))
  {
    var s' := StepThread(s, t, choice);
    forall u, m | u in s'.threads
      ensures OwnerOk(s', u, m)
    {
      StepKeepsOwner(s, t, choice, u, m);
    }
    forall m | m in s'.owner
      ensures s'.owner[m] in s'.threads
    {
      StepFrame(s, t, choice, s'.owner[m]);
    }
  }

  lemma StepKeepsServer(s: State, t: nat, choice: Choice)
    requires CanStep(s, t) && ServerOk(s) && s.next !in s.threads
    ensures ServerOk(StepThread(s, t, choice))
  {
    StepFrame(s, t, choice, s.server);
  }

  lemma BeginKeepsInv(s: State, c: Call)
    requires Inv(s) && !s.aborted
    ensures Inv(Apply(s, Begin(c)))
  {
    var s' := Apply(s, Begin(c));
    assert s.next !in s.threads;
    CallsAreOrdered(c);
    forall t | t in s'.threads
      ensures ThreadOk(s', t)
    {
      if t == s.next {
        PlainIsOk(s', t);
      } else {
        assert ThreadOk(s, t);
      }
    }
    forall t, m | t in s'.threads
      ensures OwnerOk(s', t, m)
    {
      assert t in s.threads ==> OwnerOk(s, t, m);
    }
  }

  lemma StepKeepsInv(s: State, t: nat, choice: Choice)
    requires Inv(s) && Enabled(s, Step(t, choice))
    ensures Inv(StepThread(s, t, choice))
  {
    var s' := StepThread(s, t, choice);
    assert s.next !in s.threads;
    assert ThreadOk(s, t);
    forall u | u in s'.threads
      ensures ThreadOk(s', u)
    {
      if u == t {
        StepKeepsOwnThread(s, t, choice);
      } else {
        StepKeepsOtherThread(s, t, choice, u);
      }
    }
    StepKeepsOwners(s, t, choice);
    StepKeepsServer(s, t, choice);
  }

  lemma {:induction false} RunKeepsInv(s: State, moves: seq<Move>)
    requires Inv(s) && IsRun(s, moves)
    ensures Inv(Run(s, moves))
    decreases |moves|
  {
    if moves != [] {
      match moves[0] {
        case Begin(c) => BeginKeepsInv(s, c);
        case Step(t, choice) => StepKeepsInv(s, t, choice);
      }
      RunKeepsInv(Apply(s, moves[0]), moves[1..]);
    }
  }

  // ----- deadlock freedom -----

  predicate Unfinished(s: State, t: nat) {
    t in s.threads && s.threads[t].script.Do?
  }

  /** Thread t cannot go on before thread u does something. */
  predicate WaitsFor(s: State, t: nat, u: nat) {
    && Unfinished(s, t) && Unfinished(s, u)
    && match s.threads[t].script.op
       case Lock(m) => m in s.owner && s.owner[m] == u
       case Await(w) => w == u
       case Join => s.joinable && s.server == u
       case _ => false
  }

  /** The rank of the resource the thread asks for next. */
  function WaitRank(s: State, t: nat): nat
    requires Unfinished(s, t)
  {
    match s.threads[t].script.op
    case Lock(m) => Rank(m)
    case Await(_) => AWAIT_RANK
    case Join => JOIN_RANK
    case _ => 0
  }

  /** A blocked thread waits for an unfinished one. */
  lemma BlockedThreadWaits(s: State, t: nat) returns (u: nat)
    requires Inv(s) && Unfinished(s, t) && !CanStep(s, t)
    ensures WaitsFor(s, t, u)
  {
    assert ThreadOk(s, t);
    match s.threads[t].script.op
    case Lock(m) =>
      u := s.owner[m];
      assert OwnerOk(s, u, m) && ThreadOk(s, u);
    case Await(w) => u := w;
    case Join => u := s.server;
  }

  /** Along a wait the rank asked for goes up. */
  lemma WaitsGoUp(s: State, t: nat, u: nat)
    requires Inv(s) && WaitsFor(s, t, u) && !CanStep(s, u)
    ensures WaitRank(s, t) < WaitRank(s, u) <= Rank(Log)
  {
    assert ThreadOk(s, t) && ThreadOk(s, u);
    var held := s.threads[u].held;
    if s.threads[t].script.op.Lock? {
      var m := s.threads[t].script.op.m;
      assert OwnerOk(s, u, m);
      BelowExcludes(held, m, WaitRank(s, u));
    }
  }

  /** A chain of waits from a thread to one that can take its next step. */
  predicate ReachesStepper(s: State, chain: seq<nat>) {
    && chain != []
    && (forall i :: 0 <= i < |chain| - 1 ==> WaitsFor(s, chain[i], chain[i + 1]))
    && CanStep(s, chain[|chain| - 1])
  }

  lemma {:induction false} ChainFrom(s: State, t: nat) returns (chain: seq<nat>)
    requires Inv(s) && Unfinished(s, t)
    ensures ReachesStepper(s, chain) && chain[0] == t
    decreases Rank(Log) - WaitRank(s, t)
  {
    if CanStep(s, t) {
      chain := [t];
    } else {
      var u := BlockedThreadWaits(s, t);
      if CanStep(s, u) {
        chain := [t, u];
      } else {
        WaitsGoUp(s, t, u);
        var more := ChainFrom(s, u);
        chain := [t] + more;
      }
    }
  }

  /** No deadlock: in every reachable state every unfinished thread can step, or waits, directly or
      through others, for a thread that can. */
  lemma EveryWaitEndsAtAStepper(moves: seq<Move>, t: nat) returns (chain: seq<nat>)
    requires IsRun(INIT, moves) && Unfinished(Run(INIT, moves), t)
    ensures ReachesStepper(Run(INIT, moves), chain) && chain[0] == t
  {
    RunKeepsInv(INIT, moves);
    chain := ChainFrom(Run(INIT, moves), t);
  }

  /** No thread ever asks for a mutex it already holds, and a finished thread holds none. */
  lemma NoThreadRelocks(moves: seq<Move>, t: nat)
    requires IsRun(INIT, moves) && t in Run(INIT, moves).threads
    ensures var s := Run(INIT, moves);
            var script := s.threads[t].script;
            && (script.Do? && script.op.Lock? ==> !(script.op.m in s.owner && s.owner[script.op.m] == t))
            && (script.End? ==> forall m :: m in s.owner ==> s.owner[m] != t)
  {
    RunKeepsInv(INIT, moves);
    var s := Run(INIT, moves);
    var th := s.threads[t];
    assert ThreadOk(s, t);
    if th.script.Do? && th.script.op.Lock? {
      var m := th.script.op.m;
      assert OwnerOk(s, t, m);
      if Holds(th.held, m) {
        BelowExcludes(th.held, m, Rank(m));
      }
    }
    if th.script.End? {
      forall m | m in s.owner
        ensures s.owner[m] != t
      {
        assert OwnerOk(s, t, m);
      }
    }
  }
}

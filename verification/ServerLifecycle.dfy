/** Starting and stopping the tracking server: the controlling thread (`start`, `stop`, serialized
    by its caller) against the server thread (`run_loop`, `handle_client`), one access at a time
    (tracking_server.cpp). */
module ServerLifecycle {
  import opened Wrappers

  /** Where the controlling thread is inside `stop`. */
  datatype ControlPc =
    | Outside
    | StopFlagCleared         // _running.exchange(false) returned true
    | StopWillShutdown        // found _server_fd >= 0
    | StopWillClose
    | StopJoining

  datatype ServerPc =
    | NoThread
    | TrySocket(addresses: nat)
    | TryBind(addresses: nat)
    | ListenCheck
    | LoopTest
    | ReadServerFd
    | Accepting(fd: Option<nat>)
    | InstallClient
    | ReceiveTest
    | Receiving
    | HaveLines(lines: nat)
    | InCallback(lines: nat)
    | CloseClient
    | ClearClient
    | CloseListener
    | Ended

  datatype State = State(
    running: bool,
    serverFd: Option<nat>,
    clientFd: bool,           // a client descriptor is installed
    joinable: bool,           // _thread holds a thread
    aborted: bool,            // a joinable std::thread was assigned over: std::terminate
    control: ControlPc,
    server: ServerPc,
    shut: set<nat>,           // descriptors that were shut down
    nextFd: nat,
    callsSinceStop: nat,      // accepts and receives completed since `stop` cleared the flag
    selfEnded: bool)          // run_loop gave up on its own while still wanted

  const INIT := State(false, None, false, false, false, Outside, NoThread, {}, 0, 0, false)

  datatype Action =
    | Start(addresses: nat)   // getaddrinfo will return this many addresses, or 0 on failure
    | Stop
    | ReadFd
    | Shutdown
    | CloseFd
    | Join
    | OpenSocket(ok: bool)
    | BindAndListen(ok: bool)
    | CheckListening
    | TestLoop
    | ReadForAccept
    | AcceptReturns(client: bool)
    | Install
    | TestReceive
    | ReceiveTimesOut
    | ReceiveEnds
    | ReceiveData(lines: nat)
    | TakeLine(calls: bool)
    | CallbackReturns
    | Close
    | ClearFd
    | CloseListening

  predicate Enabled(s: State, a: Action) {
    !s.aborted &&
    match a
    case Start(_) => s.control.Outside? && !s.running
    case Stop => s.control.Outside? && s.running
    case ReadFd => s.control.StopFlagCleared?
    case Shutdown => s.control.StopWillShutdown?
    case CloseFd => s.control.StopWillClose?
    case Join => s.control.StopJoining? && s.server.Ended?
    case OpenSocket(_) => s.server.TrySocket? && s.server.addresses > 0
    case BindAndListen(ok) => s.server.TryBind? && (ok ==> s.serverFd.Some?)
    case CheckListening => s.server.ListenCheck? || (s.server.TrySocket? && s.server.addresses == 0)
    case TestLoop => s.server.LoopTest?
    case ReadForAccept => s.server.ReadServerFd?
    case AcceptReturns(client) => s.server.Accepting? && (client ==> s.server.fd.Some? && s.server.fd.value !in s.shut)
    case Install => s.server.InstallClient?
    case TestReceive => s.server.ReceiveTest?
    case ReceiveTimesOut => s.server.Receiving?
    case ReceiveEnds => s.server.Receiving?
    case ReceiveData(_) => s.server.Receiving?
    case TakeLine(_) => s.server.HaveLines?
    case CallbackReturns => s.server.InCallback?
    case Close => s.server.CloseClient?
    case ClearFd => s.server.ClearClient?
    case CloseListening => s.server.CloseListener?
  }

  /** A system call completes; it counts if `stop` has already cleared the flag. */
  function Called(s: State): State {
    if s.running then s else s.(callsSinceStop := s.callsSinceStop + 1)
  }

  function Apply(s: State, a: Action): State
    requires Enabled(s, a)
  {
    match a
    case Start(n) =>
      if s.joinable then s.(aborted := true)
      else s.(running := true, joinable := true, selfEnded := false, server := TrySocket(n))
    case Stop => s.(running := false, control := StopFlagCleared, callsSinceStop := 0)
    case ReadFd => s.(control := if s.serverFd.Some? then StopWillShutdown else StopWillClose)
    case Shutdown =>
      s.(control := StopWillClose, shut := if s.serverFd.Some? then s.shut + {s.serverFd.value} else s.shut)
    case CloseFd => s.(control := StopJoining, serverFd := None)
    case Join => s.(control := Outside, server := NoThread, joinable := false)
    case OpenSocket(ok) =>
      if ok then s.(serverFd := Some(s.nextFd), nextFd := s.nextFd + 1, server := TryBind(s.server.addresses - 1))
      else s.(serverFd := None, server := TrySocket(s.server.addresses - 1))
    case BindAndListen(ok) =>
      if ok then s.(server := ListenCheck) else s.(serverFd := None, server := TrySocket(s.server.addresses))
    case CheckListening =>
      if s.serverFd.Some? then s.(server := LoopTest)
      else s.(running := false, server := Ended, selfEnded := s.running)
    case TestLoop => s.(server := if s.running then ReadServerFd else CloseListener)
    case ReadForAccept => s.(server := Accepting(s.serverFd))
    case AcceptReturns(client) => Called(s).(server := if client then InstallClient else LoopTest)
    case Install => s.(clientFd := true, server := ReceiveTest)
    case TestReceive => s.(server := if s.running then Receiving else CloseClient)
    case ReceiveTimesOut => Called(s).(server := ReceiveTest)
    case ReceiveEnds => Called(s).(server := CloseClient)
    case ReceiveData(n) => Called(s).(server := HaveLines(n))
    case TakeLine(calls) =>
      if s.server.lines == 0 then s.(server := ReceiveTest)
      else if calls then s.(server := InCallback(s.server.lines - 1))
      else s.(server := HaveLines(s.server.lines - 1))
    case CallbackReturns => s.(server := HaveLines(s.server.lines))
    case Close => s.(server := ClearClient)
    case ClearFd => s.(clientFd := false, server := LoopTest)
    case CloseListening => s.(serverFd := None, server := Ended)
  }

  ghost predicate IsRun(s: State, actions: seq<Action>)
    decreases |actions|
  {
    actions == [] || (Enabled(s, actions[0]) && IsRun(Apply(s, actions[0]), actions[1..]))
  }

  ghost function Run(s: State, actions: seq<Action>): State
    requires IsRun(s, actions)
    decreases |actions|
  {
    if actions == [] then s else Run(Apply(s, actions[0]), actions[1..])
  }

  // ----- the invariant -----

  predicate Stopping(s: State) {
    !s.control.Outside?
  }

  predicate HasClient(pc: ServerPc) {
    pc.ReceiveTest? || pc.Receiving? || pc.HaveLines? || pc.InCallback? || pc.CloseClient? || pc.ClearClient?
  }

  predicate BeforeLoop(pc: ServerPc) {
    pc.TrySocket? || pc.TryBind? || pc.ListenCheck?
  }

  /** A system call the server thread is committed to. */
  predicate Committed(pc: ServerPc) {
    pc.ReadServerFd? || pc.Accepting? || pc.Receiving?
  }

  /** `stop` has not yet passed the point where it shuts the listener down. */
  predicate ShutdownPending(s: State) {
    s.control.StopFlagCleared? || s.control.StopWillShutdown?
  }

  predicate Inv(s: State) {
    && (s.joinable <==> !s.server.NoThread?)
    && (s.running ==> !Stopping(s) && s.joinable && !s.server.Ended? && !s.server.CloseListener? && !s.selfEnded)
    && (Stopping(s) ==> !s.running && s.joinable && !s.selfEnded)
    && (!Stopping(s) && !s.running ==> if s.selfEnded then s.server.Ended? else s.server.NoThread?)
    && (s.clientFd <==> HasClient(s.server))
    && (s.server.NoThread? || s.server.Ended? ==> s.serverFd.None?)
    && (s.aborted ==> s.selfEnded)
    && (s.serverFd.Some? ==> s.serverFd.value < s.nextFd)
    && (forall fd :: fd in s.shut ==> fd < s.nextFd)
    // while running past the setup, the listener is open and listening
    && (s.running && s.serverFd.Some? ==> s.serverFd.value !in s.shut)
    && (s.running && !BeforeLoop(s.server) ==> s.serverFd.Some?)
    && (s.running && s.server.Accepting? ==> s.server.fd == s.serverFd)
    // once the flag is cleared an accept cannot be left behind
    && (!s.running && s.server.ReadServerFd? && s.serverFd.Some? ==>
          ShutdownPending(s) || s.serverFd.value in s.shut)
    && (!s.running && s.server.Accepting? && s.server.fd.Some? ==>
          s.server.fd.value in s.shut || (ShutdownPending(s) && s.serverFd == s.server.fd))
    && (Stopping(s) ==> s.callsSinceStop + (if Committed(s.server) then 1 else 0) <= 1)
  }

  predicate IsControlStep(a: Action) {
    a.Start? || a.Stop? || a.ReadFd? || a.Shutdown? || a.CloseFd? || a.Join?
  }

  predicate IsLoopStep(a: Action) {
    a.OpenSocket? || a.BindAndListen? || a.CheckListening? || a.TestLoop? || a.ReadForAccept? || a.AcceptReturns?
  }

  lemma ControlStepKeepsInv(s: State, a: Action)
    requires Inv(s) && Enabled(s, a) && IsControlStep(a)
    ensures Inv(Apply(s, a))
  {
  }

  lemma LoopStepKeepsInv(s: State, a: Action)
    requires Inv(s) && Enabled(s, a) && IsLoopStep(a)
    ensures Inv(Apply(s, a))
  {
  }

  lemma ClientStepKeepsInv(s: State, a: Action)
    requires Inv(s) && Enabled(s, a) && !IsControlStep(a) && !IsLoopStep(a)
    ensures Inv(Apply(s, a))
  {
  }

  lemma StepKeepsInv(s: State, a: Action)
    requires Inv(s) && Enabled(s, a)
    ensures Inv(Apply(s, a))
  {
    if IsControlStep(a) {
      ControlStepKeepsInv(s, a);
    } else if IsLoopStep(a) {
      LoopStepKeepsInv(s, a);
    } else {
      ClientStepKeepsInv(s, a);
    }
  }

  lemma {:induction false} RunKeepsInv(s: State, actions: seq<Action>)
    requires Inv(s) && IsRun(s, actions)
    ensures Inv(Run(s, actions))
    decreases |actions|
  {
    if actions != [] {
      StepKeepsInv(s, actions[0]);
      RunKeepsInv(Apply(s, actions[0]), actions[1..]);
    }
  }

  // ----- termination of stop -----

  function ControlRank(pc: ControlPc): nat {
    match pc
    case Outside => 0
    case StopJoining => 1
    case StopWillClose => 2
    case StopWillShutdown => 3
    case StopFlagCleared => 4
  }

  function ServerRank(pc: ServerPc): nat {
    match pc
    case NoThread => 0
    case Ended => 1
    case CloseListener => 2
    case LoopTest => 3
    case ClearClient => 4
    case CloseClient => 5
    case ReceiveTest => 6
    case HaveLines(_) => 7
    case InCallback(_) => 7
    case InstallClient => 7
    case Receiving => 8
    case Accepting(_) => 8
    case ReadServerFd => 9
    case ListenCheck => 10
    case TrySocket(k) => 11 + 2 * k
    case TryBind(k) => 12 + 2 * k
  }

  /** How far the stop is from its end, apart from the lines of the chunk in hand. */
  function Stage(s: State): nat {
    ControlRank(s.control) + ServerRank(s.server)
  }

  function LinesLeft(s: State): nat {
    if s.server.HaveLines? then 2 * s.server.lines
    else if s.server.InCallback? then 2 * s.server.lines + 1
    else 0
  }

  /** While a stop is in progress every step of either thread lowers the measure (Stage, LinesLeft). */
  lemma StopMakesProgress(s: State, a: Action)
    requires Inv(s) && Stopping(s) && Enabled(s, a)
    ensures Stage(Apply(s, a)) < Stage(s)
         || (Stage(Apply(s, a)) == Stage(s) && LinesLeft(Apply(s, a)) < LinesLeft(s))
  {
  }

  /** A step that does not depend on a client showing up: an accept is only sure to return when its
      descriptor is invalid or was shut down; a receive is sure to return after its one-second
      timeout; callbacks and the other calls return. */
  predicate Guaranteed(s: State, a: Action) {
    && Enabled(s, a)
    && (a.AcceptReturns? ==> !a.client && (s.server.fd.None? || s.server.fd.value in s.shut))
    && !a.ReceiveData? && !a.ReceiveEnds?
  }

  /** While a stop is in progress some thread is sure to take a step: neither the stopping thread
      nor the server thread can be left waiting. */
  lemma StopIsNeverStuck(s: State) returns (a: Action)
    requires Inv(s) && Stopping(s)
    ensures Guaranteed(s, a)
  {
    match s.control
    case StopFlagCleared => a := ReadFd;
    case StopWillShutdown => a := Shutdown;
    case StopWillClose => a := CloseFd;
    case StopJoining =>
      match s.server {
        case Ended => a := Join;
        case TrySocket(k) => a := if k == 0 then CheckListening else OpenSocket(true);
        case TryBind(_) => a := BindAndListen(false);
        case ListenCheck => a := CheckListening;
        case LoopTest => a := TestLoop;
        case ReadServerFd => a := ReadForAccept;
        case Accepting(_) => a := AcceptReturns(false);
        case InstallClient => a := Install;
        case ReceiveTest => a := TestReceive;
        case Receiving => a := ReceiveTimesOut;
        case HaveLines(_) => a := TakeLine(false);
        case InCallback(_) => a := CallbackReturns;
        case CloseClient => a := Close;
        case ClearClient => a := ClearFd;
        case CloseListener => a := CloseListening;
        case NoThread => assert false; a := Join;
      }
  }

  /** No infinite run stays inside one stop, whatever clients send and however the threads
      interleave. */
  lemma {:induction false} StopCannotRunForever(states: nat -> State, steps: nat -> Action, i: nat)
    requires Inv(states(0))
    requires forall k: nat :: Stopping(states(k)) && Enabled(states(k), steps(k))
                           && states(k + 1) == Apply(states(k), steps(k))
    requires Inv(states(i))
    ensures false
    decreases Stage(states(i)), LinesLeft(states(i))
  {
    assert Stopping(states(i)) && Enabled(states(i), steps(i));
    StepKeepsInv(states(i), steps(i));
    StopMakesProgress(states(i), steps(i));
    StopCannotRunForever(states, steps, i + 1);
  }

  // ----- results over whole runs -----

  /** Once `stop` has cleared the flag, the server thread completes at most one more accept or
      receive in total. */
  lemma AtMostOneMoreCall(actions: seq<Action>)
    requires IsRun(INIT, actions) && Stopping(Run(INIT, actions))
    ensures Run(INIT, actions).callsSinceStop <= 1
  {
    RunKeepsInv(INIT, actions);
  }

  /** When no stop is in progress and the server neither runs nor gave up by itself, nothing of it
      is left: no thread, no descriptor, and no step but a new start, so no callback can fire. */
  lemma NothingLeftAfterStop(actions: seq<Action>, a: Action)
    requires IsRun(INIT, actions)
    requires var s := Run(INIT, actions); !Stopping(s) && !s.running && !s.selfEnded
    ensures var s := Run(INIT, actions);
            && s.server.NoThread? && !s.joinable && !s.clientFd && s.serverFd.None?
            && (Enabled(s, a) ==> a.Start?)
  {
    RunKeepsInv(INIT, actions);
  }

  /** A start that finds the flag clear ends the process exactly when the last run loop gave up on
      its own (no address, or no socket that listens): that thread was never joined. */
  lemma StartAbortsIffLastRunGaveUp(actions: seq<Action>, addresses: nat)
    requires IsRun(INIT, actions) && Enabled(Run(INIT, actions), Start(addresses))
    ensures Apply(Run(INIT, actions), Start(addresses)).aborted <==> Run(INIT, actions).selfEnded
  {
    RunKeepsInv(INIT, actions);
  }

  /** The failing run: the first start finds no address, the second one aborts. */
  lemma StartAfterGivingUpAborts()
    ensures var actions := [Start(0), CheckListening, Start(1)];
            IsRun(INIT, actions) && Run(INIT, actions).aborted
  {
    var s1 := Apply(INIT, Start(0));
    var s2 := Apply(s1, CheckListening);
    var s3 := Apply(s2, Start(1));
    assert IsRun(s3, []) && Run(s3, []) == s3;
    assert [Start(1)][1..] == [];
    assert IsRun(s2, [Start(1)]) && Run(s2, [Start(1)]) == s3;
    assert [CheckListening, Start(1)][1..] == [Start(1)];
    assert IsRun(s1, [CheckListening, Start(1)]) && Run(s1, [CheckListening, Start(1)]) == s3;
    assert [Start(0), CheckListening, Start(1)][1..] == [CheckListening, Start(1)];
  }
}

/** Format and reset under any number of concurrent callers (camera_local_client.cpp,
    `format_storage`, `reset_settings`). The future of `std::async` is discarded, so its destructor
    blocks the caller until the worker ends; a call and its worker are one sequence of steps. */
module Exclusion {
  import opened Wrappers

  datatype Result = Success | Busy

  datatype Pc =
    | Idle
    // format_storage
    | FormatWon(formats: nat)          // _is_formatting.exchange(true) returned false
    | FormatInFlight(formats: nat)     // the vendor format is running in the worker
    | FormatFinished(formats: nat)
    | FormatReleased(formats: nat)     // _is_formatting.store(false), worker ended
    | FormatBusy
    | FormatReturned(result: Result, formats: nat)
    // reset_settings; `callback` says whether one was passed, `calls` how often it ran
    | ResetWaiting(callback: bool)
    | ResetLocked(callback: bool)
    | ResetWon(callback: bool, calls: nat)
    | ResetInFlight(callback: bool, calls: nat)
    | ResetFinished(callback: bool, calls: nat)
    | ResetReleased(callback: bool, calls: nat)
    | ResetCalledBack(callback: bool, calls: nat)
    | ResetBusy(callback: bool)
    | ResetReturned(result: Result, callback: bool, calls: nat)
    // any other call that takes the action mutex
    | ActionWaiting
    | ActionInside

  datatype State = State(pcs: map<nat, Pc>, formatting: bool, reseting: bool, action: Option<nat>)

  const INIT := State(map[], false, false, None)

  datatype Action =
    | CallFormat(t: nat)
    | BeginFormat(t: nat)
    | EndFormat(t: nat)
    | ReleaseFormat(t: nat)
    | ReturnFormat(t: nat)
    | CallReset(t: nat, withCallback: bool)
    | LockReset(t: nat)
    | TestReset(t: nat)
    | BeginReset(t: nat)
    | EndReset(t: nat)
    | ReleaseReset(t: nat)
    | CallBack(t: nat)
    | ReturnReset(t: nat)
    | CallAction(t: nat)
    | LockAction(t: nat)
    | ReturnAction(t: nat)
    | Forget(t: nat)                   // the caller uses its result and may call again

  function PcOf(s: State, t: nat): Pc {
    if t in s.pcs then s.pcs[t] else Idle
  }

  predicate Enabled(s: State, a: Action) {
    var pc := PcOf(s, a.t);
    match a
    case CallFormat(_) => pc.Idle?
    case BeginFormat(_) => pc.FormatWon?
    case EndFormat(_) => pc.FormatInFlight?
    case ReleaseFormat(_) => pc.FormatFinished?
    case ReturnFormat(_) => pc.FormatReleased? || pc.FormatBusy?
    case CallReset(_, _) => pc.Idle?
    case LockReset(_) => pc.ResetWaiting? && s.action.None?
    case TestReset(_) => pc.ResetLocked?
    case BeginReset(_) => pc.ResetWon?
    case EndReset(_) => pc.ResetInFlight?
    case ReleaseReset(_) => pc.ResetFinished?
    case CallBack(_) => pc.ResetReleased?
    case ReturnReset(_) => pc.ResetCalledBack? || pc.ResetBusy?
    case CallAction(_) => pc.Idle?
    case LockAction(_) => pc.ActionWaiting? && s.action.None?
    case ReturnAction(_) => pc.ActionInside?
    case Forget(_) => pc.FormatReturned? || pc.ResetReturned?
  }

  function At(s: State, t: nat, pc: Pc): State {
    s.(pcs := s.pcs[t := pc])
  }

  function Apply(s: State, a: Action): State
    requires Enabled(s, a)
  {
    var t, pc := a.t, PcOf(s, a.t);
    match a
    case CallFormat(_) => if s.formatting then At(s, t, FormatBusy) else At(s, t, FormatWon(0)).(formatting := true)
    case BeginFormat(_) => At(s, t, FormatInFlight(pc.formats + 1))
    case EndFormat(_) => At(s, t, FormatFinished(pc.formats))
    case ReleaseFormat(_) => At(s, t, FormatReleased(pc.formats)).(formatting := false)
    case ReturnFormat(_) =>
      At(s, t, if pc.FormatBusy? then FormatReturned(Busy, 0) else FormatReturned(Success, pc.formats))
    case CallReset(_, withCallback) => At(s, t, ResetWaiting(withCallback))
    case LockReset(_) => At(s, t, ResetLocked(pc.callback)).(action := Some(t))
    case TestReset(_) =>
      if s.reseting then At(s, t, ResetBusy(pc.callback))
      else At(s, t, ResetWon(pc.callback, 0)).(reseting := true)
    case BeginReset(_) => At(s, t, ResetInFlight(pc.callback, pc.calls))
    case EndReset(_) => At(s, t, ResetFinished(pc.callback, pc.calls))
    case ReleaseReset(_) => At(s, t, ResetReleased(pc.callback, pc.calls)).(reseting := false)
    case CallBack(_) => At(s, t, ResetCalledBack(pc.callback, if pc.callback then pc.calls + 1 else pc.calls))
    case ReturnReset(_) =>
      At(s, t, if pc.ResetBusy? then ResetReturned(Busy, pc.callback, 0)
               else ResetReturned(Success, pc.callback, pc.calls)).(action := None)
    case CallAction(_) => At(s, t, ActionWaiting)
    case LockAction(_) => At(s, t, ActionInside).(action := Some(t))
    case ReturnAction(_) => At(s, t, Idle).(action := None)
    case Forget(_) => At(s, t, Idle)
  }

  ghost predicate IsRun(s: State, actions: seq<Action>)
    decreases |actions|
  {
    actions == [] || (Enabled(s, actions[0]) && IsRun(Apply(s, actions[0]), actions[1..]))
  }

  ghost function Run(s: State, actions: seq<Action>): State
    requires IsRun(s, actions)
    decreases |actions|
  {
    if actions == [] then s else Run(Apply(s, actions[0]), actions[1..])
  }

  // ----- the invariant -----

  /** Between winning the exchange and releasing the flag. */
  predicate HoldsFormat(pc: Pc) {
    pc.FormatWon? || pc.FormatInFlight? || pc.FormatFinished?
  }

  predicate HoldsReset(pc: Pc) {
    pc.ResetWon? || pc.ResetInFlight? || pc.ResetFinished?
  }

  predicate InsideAction(pc: Pc) {
    HoldsReset(pc) || pc.ResetLocked? || pc.ResetReleased? || pc.ResetCalledBack? || pc.ResetBusy? || pc.ActionInside?
  }

  ghost predicate FormatInv(s: State) {
    && (s.formatting <==> exists t: nat :: HoldsFormat(PcOf(s, t)))
    && (forall t: nat, u: nat :: HoldsFormat(PcOf(s, t)) && HoldsFormat(PcOf(s, u)) ==> t == u)
  }

  ghost predicate ResetInv(s: State) {
    && (forall t: nat :: InsideAction(PcOf(s, t)) <==> s.action == Some(t))
    && (s.reseting <==> s.action.Some? && HoldsReset(PcOf(s, s.action.value)))
  }

  predicate CountsRight(pc: Pc) {
    && (pc.FormatWon? ==> pc.formats == 0)
    && (pc.FormatInFlight? || pc.FormatFinished? || pc.FormatReleased? ==> pc.formats == 1)
    && (pc.FormatReturned? ==> pc.formats == if pc.result.Success? then 1 else 0)
    && (pc.ResetWon? || pc.ResetInFlight? || pc.ResetFinished? || pc.ResetReleased? ==> pc.calls == 0)
    && (pc.ResetCalledBack? ==> pc.calls == if pc.callback then 1 else 0)
    && !pc.ResetBusy?
    && (pc.ResetReturned? ==> pc.result.Success? && pc.calls == if pc.callback then 1 else 0)
  }

  ghost predicate Inv(s: State) {
    FormatInv(s) && ResetInv(s) && forall t: nat :: CountsRight(PcOf(s, t))
  }

  lemma StepKeepsFormatInv(s: State, a: Action)
    requires FormatInv(s) && Enabled(s, a)
    ensures FormatInv(Apply(s, a))
  {
    var s' := Apply(s, a);
    assert forall t: nat :: t != a.t ==> PcOf(s', t) == PcOf(s, t);
    if s'.formatting {
      if a.CallFormat? && !s.formatting {
        assert HoldsFormat(PcOf(s', a.t));
      } else {
        var t: nat :| HoldsFormat(PcOf(s, t));
        assert HoldsFormat(PcOf(s', t));
      }
    }
  }

  lemma StepKeepsResetInv(s: State, a: Action)
    requires ResetInv(s) && Enabled(s, a)
    ensures ResetInv(Apply(s, a))
  {
    var s' := Apply(s, a);
    assert forall t: nat :: t != a.t ==> PcOf(s', t) == PcOf(s, t);
    assert InsideAction(PcOf(s, a.t)) <==> s.action == Some(a.t);
  }

  lemma StepKeepsCounts(s: State, a: Action)
    requires Enabled(s, a) && CountsRight(PcOf(s, a.t))
    requires a.TestReset? ==> !s.reseting
    ensures CountsRight(PcOf(Apply(s, a), a.t))
  {
  }

  lemma OthersStay(s: State, a: Action, t: nat)
    requires Enabled(s, a) && t != a.t
    ensures PcOf(Apply(s, a), t) == PcOf(s, t)
  {
  }

  lemma StepKeepsInv(s: State, a: Action)
    requires Inv(s) && Enabled(s, a)
    ensures Inv(Apply(s, a))
  {
    var s' := Apply(s, a);
    StepKeepsFormatInv(s, a);
    StepKeepsResetInv(s, a);
    assert a.TestReset? ==> !s.reseting by {
      assert InsideAction(PcOf(s, a.t)) <==> s.action == Some(a.t);
    }
    forall t: nat
      ensures CountsRight(PcOf(s', t))
    {
      assert CountsRight(PcOf(s, t));
      if t == a.t {
        StepKeepsCounts(s, a);
      } else {
        OthersStay(s, a, t);
      }
    }
  }

  lemma {:induction false} RunKeepsInv(s: State, actions: seq<Action>)
    requires Inv(s) && IsRun(s, actions)
    ensures Inv(Run(s, actions))
    decreases |actions|
  {
    if actions != [] {
      StepKeepsInv(s, actions[0]);
      RunKeepsInv(Apply(s, actions[0]), actions[1..]);
    }
  }

  lemma InitInv()
    ensures Inv(INIT)
  {
  }

  // ----- results -----

  /** At most one vendor format is in flight, and the flag is set exactly while some winner has not
      released it. */
  lemma OneFormatAtATime(actions: seq<Action>, t: nat, u: nat)
    requires IsRun(INIT, actions)
    ensures var s := Run(INIT, actions);
            && (PcOf(s, t).FormatInFlight? && PcOf(s, u).FormatInFlight? ==> t == u)
            && (s.formatting <==> exists w: nat :: HoldsFormat(PcOf(s, w)))
  {
    InitInv();
    RunKeepsInv(INIT, actions);
  }

  /** A format call that reports success ran exactly one vendor format, a busy one ran none. */
  lemma FormatResultTellsWork(actions: seq<Action>, t: nat)
    requires IsRun(INIT, actions) && PcOf(Run(INIT, actions), t).FormatReturned?
    ensures var pc := PcOf(Run(INIT, actions), t);
            pc.formats == if pc.result.Success? then 1 else 0
  {
    InitInv();
    RunKeepsInv(INIT, actions);
    assert CountsRight(PcOf(Run(INIT, actions), t));
  }

  /** While the reset flag is set the action mutex is held by the one resetting caller. */
  lemma ResetFlagMeansResetterHoldsMutex(actions: seq<Action>)
    requires IsRun(INIT, actions) && Run(INIT, actions).reseting
    ensures var s := Run(INIT, actions);
            && s.action.Some? && HoldsReset(PcOf(s, s.action.value))
            && (forall t: nat :: InsideAction(PcOf(s, t)) ==> t == s.action.value)
  {
    InitInv();
    RunKeepsInv(INIT, actions);
  }

  /** The Busy branch of reset is dead, and every reset that returns has run its callback exactly
      once if it was given one. */
  lemma ResetIsNeverBusyAndCallsBackOnce(actions: seq<Action>, t: nat)
    requires IsRun(INIT, actions)
    ensures var pc := PcOf(Run(INIT, actions), t);
            && !pc.ResetBusy?
            && (pc.ResetReturned? ==> pc.result == Success && pc.calls == if pc.callback then 1 else 0)
  {
    InitInv();
    RunKeepsInv(INIT, actions);
    assert CountsRight(PcOf(Run(INIT, actions), t));
  }
}

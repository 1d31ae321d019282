/** Which detection frame the capture threads draw while the AI mode is switched, the server
    delivers frames, and capture callbacks run, in any interleaving (camera_local_client.cpp,
    `set_ai_function`, `tracking_callback` and the drawing half of `capture_callback`). Mode changes
    are serialized by their caller; ServerLifecycle justifies treating `stop` as flag plus join. */
module FrameFreshness {
  import opened Wrappers

  /** Where the mode-changing thread is inside `set_ai_function`. Mode 0 is off. */
  datatype ControlPc =
    | Outside
    | Cleared(mode: nat)       // clear_tracking_frame done
    | OffStored                // the setting is "0", services being stopped
    | OffJoining               // server flag cleared, waiting for the thread
    | OffJoined
    | ServerUp(mode: nat)
    | ServiceUp(mode: nat)
    | FailJoining
    | FailJoined

  /** A delivered frame: the server session it came from and the moment it was stored. */
  datatype Stamp = Stamp(session: nat, at: nat)

  datatype CapturePc =
    | Resting
    | SawOn                                    // _settings[kAIFunction] != "0"
    | Copied(frame: Option<Stamp>, at: nat)    // copied under the frame mutex

  datatype State = State(
    clock: nat,
    control: ControlPc,
    setting: nat,
    session: nat,              // how many server sessions were started
    live: bool,                // the server thread exists
    delivering: bool,          // it is inside the callback
    held: Option<Stamp>,       // _tracking_frame, if _has_tracking_frame
    lastClear: nat,
    captures: map<nat, CapturePc>,
    overlay: Option<Stamp>)    // the frame whose boxes are on the screen

  const INIT := State(1, Outside, 0, 0, false, false, None, 0, map[], None)

  datatype Action =
    | Begin(mode: nat)
    | StoreOff
    | StopServer
    | JoinOff
    | DrawNothing
    | StartServer
    | StartService(ok: bool)
    | JoinFailed
    | StoreFailed
    | StoreOn
    | EnterCallback
    | Deliver
    | CheckSetting(t: nat)
    | CopyFrame(t: nat)
    | DrawBoxes(t: nat)

  function Pc(s: State, t: nat): CapturePc {
    if t in s.captures then s.captures[t] else Resting
  }

  predicate Enabled(s: State, a: Action) {
    match a
    case Begin(mode) => s.control.Outside? && mode <= 2
    case StoreOff => s.control == Cleared(0)
    case StopServer => s.control.OffStored?
    case JoinOff => s.control.OffJoining? && !s.delivering
    case DrawNothing => s.control.OffJoined?
    case StartServer => s.control.Cleared? && s.control.mode != 0
    case StartService(_) => s.control.ServerUp?
    case JoinFailed => s.control.FailJoining? && !s.delivering
    case StoreFailed => s.control.FailJoined?
    case StoreOn => s.control.ServiceUp?
    case EnterCallback => s.live && !s.delivering
    case Deliver => s.delivering
    case CheckSetting(t) => Pc(s, t).Resting?
    case CopyFrame(t) => Pc(s, t).SawOn?
    case DrawBoxes(t) => Pc(s, t).Copied?
  }

  function Effect(s: State, a: Action): State
    requires Enabled(s, a)
  {
    match a
    case Begin(mode) => s.(control := Cleared(mode), held := None, lastClear := s.clock)
    case StoreOff => s.(control := OffStored, setting := 0)
    case StopServer => s.(control := if s.live then OffJoining else OffJoined)
    case JoinOff => s.(control := OffJoined, live := false)
    case DrawNothing => s.(control := Outside, overlay := None)
    case StartServer =>
      var up := s.(control := ServerUp(s.control.mode));
      if s.live then up else up.(live := true, session := s.session + 1)
    case StartService(ok) => s.(control := if ok then ServiceUp(s.control.mode) else FailJoining)
    case JoinFailed => s.(control := FailJoined, live := false)
    case StoreFailed => s.(control := Outside, setting := 0)
    case StoreOn => s.(control := Outside, setting := s.control.mode)
    case EnterCallback => s.(delivering := true)
    case Deliver => s.(delivering := false, held := Some(Stamp(s.session, s.clock)))
    case CheckSetting(t) => if s.setting != 0 then s.(captures := s.captures[t := SawOn]) else s
    case CopyFrame(t) => s.(captures := s.captures[t := Copied(s.held, s.clock)])
    case DrawBoxes(t) =>
      s.(captures := s.captures[t := Resting], overlay := if Pc(s, t).Copied? then Pc(s, t).frame else s.overlay)
  }

  function Apply(s: State, a: Action): State
    requires Enabled(s, a)
  {
    Effect(s, a).(clock := s.clock + 1)
  }

  ghost predicate IsRun(s: State, actions: seq<Action>)
    decreases |actions|
  {
    actions == [] || (Enabled(s, actions[0]) && IsRun(Apply(s, actions[0]), actions[1..]))
  }

  ghost function Run(s: State, actions: seq<Action>): State
    requires IsRun(s, actions)
    decreases |actions|
  {
    if actions == [] then s else Run(Apply(s, actions[0]), actions[1..])
  }

  /** Stored after the latest clear, by the session that is the latest one started. */
  predicate Fresh(s: State, f: Stamp) {
    f.at > s.lastClear && f.session == s.session
  }

  predicate ControlInv(s: State) {
    && s.lastClear < s.clock
    && (s.control.Cleared? || s.control.ServerUp? || s.control.ServiceUp? ==> s.control.mode <= 2)
    && (s.control.ServerUp? || s.control.ServiceUp? ==> s.live && s.control.mode != 0)
    && (s.control.OffJoining? || s.control.FailJoining? ==> s.live)
    && (s.control.OffJoined? || s.control.FailJoined? ==> !s.live)
    && (s.control.OffStored? || s.control.OffJoining? || s.control.OffJoined? ==> s.setting == 0)
    && (s.control.Outside? || s.control.Cleared? ==> (s.live <==> s.setting != 0))
    && (s.delivering ==> s.live)
    && (s.held.Some? ==> Fresh(s, s.held.value) && s.held.value.at < s.clock)
    && (s.control.Cleared? && !s.live ==> s.held.None?)
  }

  /** A copy is as fresh as it was when it was taken, as long as nothing was cleared since. */
  predicate CopyRemembered(s: State, t: nat) {
    Pc(s, t).Copied? ==>
      && Pc(s, t).at < s.clock
      && (Pc(s, t).frame.Some? ==>
           && Pc(s, t).frame.value.at < Pc(s, t).at
           && (s.lastClear < Pc(s, t).at ==> Fresh(s, Pc(s, t).frame.value))
           && (s.control.Cleared? && !s.live ==> Pc(s, t).at <= s.lastClear))
  }

  ghost predicate Inv(s: State) {
    ControlInv(s) && forall t :: CopyRemembered(s, t)
  }

  lemma StepKeepsControlInv(s: State, a: Action)
    requires ControlInv(s) && Enabled(s, a)
    ensures ControlInv(Apply(s, a))
  {
  }

  lemma StepKeepsCopy(s: State, a: Action, t: nat)
    requires ControlInv(s) && CopyRemembered(s, t) && Enabled(s, a)
    ensures CopyRemembered(Apply(s, a), t)
  {
  }

  lemma StepKeepsInv(s: State, a: Action)
    requires Inv(s) && Enabled(s, a)
    ensures Inv(Apply(s, a))
  {
    StepKeepsControlInv(s, a);
    forall t
      ensures CopyRemembered(Apply(s, a), t)
    {
      StepKeepsCopy(s, a, t);
    }
  }

  lemma {:induction false} RunKeepsInv(s: State, actions: seq<Action>)
    requires Inv(s) && IsRun(s, actions)
    ensures Inv(Run(s, actions))
    decreases |actions|
  {
    if actions != [] {
      StepKeepsInv(s, actions[0]);
      RunKeepsInv(Apply(s, actions[0]), actions[1..]);
    }
  }

  // ----- results -----

  /** Any frame a capture thread copies was delivered after the latest clear, by the session that
      the latest switch from off started: a late frame stored between the clear and the join of an
      earlier switch-off is never among them. */
  lemma CopiedFrameIsFresh(actions: seq<Action>, t: nat)
    requires IsRun(INIT, actions) && Enabled(Run(INIT, actions), CopyFrame(t))
    ensures var s := Run(INIT, actions);
            var s' := Apply(s, CopyFrame(t));
            Pc(s', t).frame.Some? ==> Fresh(s', Pc(s', t).frame.value)
  {
    RunKeepsInv(INIT, actions);
  }

  /** Drawing happens after the frame mutex is released. A drawn frame is still fresh exactly when
      no mode change has cleared the frame since it was copied. */
  lemma DrawnFrameIsFreshIffNotCleared(actions: seq<Action>, t: nat)
    requires IsRun(INIT, actions) && Enabled(Run(INIT, actions), DrawBoxes(t))
    requires Pc(Run(INIT, actions), t).frame.Some?
    ensures var s := Run(INIT, actions);
            Fresh(s, Pc(s, t).frame.value) <==> s.lastClear < Pc(s, t).at
  {
    RunKeepsInv(INIT, actions);
    assert CopyRemembered(Run(INIT, actions), t);
  }

  /** Whenever no mode change is in progress, the server thread exists exactly while the mode is on. */
  lemma ServerLivesWhileOn(actions: seq<Action>)
    requires IsRun(INIT, actions) && Run(INIT, actions).control.Outside?
    ensures Run(INIT, actions).live <==> Run(INIT, actions).setting != 0
  {
    RunKeepsInv(INIT, actions);
  }

  lemma Prepend(s: State, a: Action, rest: seq<Action>)
    requires Enabled(s, a) && IsRun(Apply(s, a), rest)
    ensures IsRun(s, [a] + rest) && Run(s, [a] + rest) == Run(Apply(s, a), rest)
  {
    assert ([a] + rest)[1..] == rest;
  }

  /** Mode 1 is on, its session is the first one, and no frame has arrived. */
  const ON := State(5, Outside, 1, 1, true, false, None, 1, map[], None)

  lemma SwitchOn(rest: seq<Action>) returns (actions: seq<Action>)
    requires IsRun(ON, rest)
    ensures IsRun(INIT, actions) && Run(INIT, actions) == Run(ON, rest)
  {
    var s1 := INIT.(clock := 2, control := Cleared(1), lastClear := 1);
    var s2 := s1.(clock := 3, control := ServerUp(1), live := true, session := 1);
    var s3 := s2.(clock := 4, control := ServiceUp(1));
    Prepend(s3, StoreOn, rest);
    Prepend(s2, StartService(true), [StoreOn] + rest);
    Prepend(s1, StartServer, [StartService(true)] + ([StoreOn] + rest));
    Prepend(INIT, Begin(1), [StartServer] + ([StartService(true)] + ([StoreOn] + rest)));
    actions := [Begin(1)] + ([StartServer] + ([StartService(true)] + ([StoreOn] + rest)));
  }

  /** From ON, a frame was delivered at 6 and capture thread 0 copied it at 8. */
  const COPIED := ON.(clock := 9, held := Some(Stamp(1, 6)), captures := map[][0 := SawOn][0 := Copied(Some(Stamp(1, 6)), 8)])

  lemma CopyWhileOn(rest: seq<Action>) returns (actions: seq<Action>)
    requires IsRun(COPIED, rest)
    ensures IsRun(ON, actions) && Run(ON, actions) == Run(COPIED, rest)
  {
    var s5 := ON.(clock := 6, delivering := true);
    var s6 := ON.(clock := 7, held := Some(Stamp(1, 6)));
    var s7 := s6.(clock := 8, captures := map[][0 := SawOn]);
    var r3 := [CopyFrame(0)] + rest;
    var r2 := [CheckSetting(0)] + r3;
    var r1 := [Deliver] + r2;
    Prepend(s7, CopyFrame(0), rest);
    Prepend(s6, CheckSetting(0), r3);
    Prepend(s5, Deliver, r2);
    Prepend(ON, EnterCallback, r1);
    actions := [EnterCallback] + r1;
  }

  /** The stale case: a capture thread copies a frame, the mode changes from 1 to 2, and the thread
      draws the old boxes while the AI is on. */
  lemma StaleFrameCanBeDrawn() returns (actions: seq<Action>)
    ensures IsRun(INIT, actions)
    ensures var s := Run(INIT, actions);
            && Enabled(s, DrawBoxes(0)) && s.setting != 0
            && Pc(s, 0).frame.Some? && !Fresh(s, Pc(s, 0).frame.value)
  {
    Prepend(COPIED, Begin(2), []);
    actions := CopyWhileOn([Begin(2)] + []);
    actions := SwitchOn(actions);
  }

  // ----- the overlay after the AI is switched off -----

  /** A capture thread that can still bring boxes to the screen: it holds a copied frame, or is past
      its check of the setting while a late frame is stored. */
  predicate WillDraw(s: State, t: nat) {
    || (Pc(s, t).Copied? && Pc(s, t).frame.Some?)
    || (Pc(s, t).SawOn? && s.held.Some?)
  }

  /** The AI is off, no mode change is in progress, and the empty overlay is on the screen. */
  predicate OffAndEmpty(s: State) {
    s.control.Outside? && s.setting == 0 && s.overlay.None?
  }

  predicate NoModeChange(actions: seq<Action>) {
    forall a :: a in actions ==> !a.Begin?
  }

  lemma {:induction false} StaysEmpty(s: State, actions: seq<Action>)
    requires Inv(s) && OffAndEmpty(s) && (forall t :: !WillDraw(s, t))
    requires IsRun(s, actions) && NoModeChange(actions)
    ensures Run(s, actions).overlay.None?
    decreases |actions|
  {
    if actions != [] {
      var a := actions[0];
      assert a in actions && !a.Begin?;
      var s' := Apply(s, a);
      StepKeepsInv(s, a);
      assert a.DrawBoxes? ==> !WillDraw(s, a.t);
      forall t
        ensures !WillDraw(s', t)
      {
        assert !WillDraw(s, t);
      }
      StaysEmpty(s', actions[1..]);
    }
  }

  lemma BoxesComeBack(s: State, t: nat) returns (actions: seq<Action>)
    requires WillDraw(s, t)
    ensures IsRun(s, actions) && NoModeChange(actions) && Run(s, actions).overlay.Some?
  {
    if Pc(s, t).Copied? {
      Prepend(s, DrawBoxes(t), []);
      actions := [DrawBoxes(t)] + [];
    } else {
      var copied := Apply(s, CopyFrame(t));
      Prepend(copied, DrawBoxes(t), []);
      Prepend(s, CopyFrame(t), [DrawBoxes(t)] + []);
      actions := [CopyFrame(t)] + ([DrawBoxes(t)] + []);
    }
  }

  /** Once the AI is off and the empty overlay is drawn, boxes can come back before the next mode
      change exactly when some capture thread was already past its check of the setting with a frame
      to draw. */
  lemma BoxesReturnIffCaptureWasUnderWay(actions: seq<Action>)
    requires IsRun(INIT, actions) && OffAndEmpty(Run(INIT, actions))
    ensures var s := Run(INIT, actions);
            (exists more :: IsRun(s, more) && NoModeChange(more) && Run(s, more).overlay.Some?) <==> exists t :: WillDraw(s, t)
  {
    var s := Run(INIT, actions);
    RunKeepsInv(INIT, actions);
    if t :| WillDraw(s, t) {
      var more := BoxesComeBack(s, t);
    } else {
      forall more | IsRun(s, more) && NoModeChange(more)
        ensures Run(s, more).overlay.None?
      {
        StaysEmpty(s, more);
      }
    }
  }

  /** Switching off, before the empty overlay is drawn. */
  predicate SwitchingOff(pc: ControlPc) {
    pc == Cleared(0) || pc.OffStored? || pc.OffJoining? || pc.OffJoined?
  }

  predicate DrawsNoBoxes(actions: seq<Action>) {
    forall a :: a in actions ==> !a.DrawBoxes?
  }

  lemma {:induction false} RestOfModeChange(s: State, actions: seq<Action>)
    requires IsRun(s, actions) && NoModeChange(actions) && DrawsNoBoxes(actions)
    requires Run(s, actions).control.Outside?
    ensures Run(s, actions).overlay.None? <==> SwitchingOff(s.control) || s.overlay.None?
    decreases |actions|
  {
    if actions != [] {
      assert actions[0] in actions;
      RestOfModeChange(Apply(s, actions[0]), actions[1..]);
    }
  }

  /** A change of mode from start to end, with no capture thread drawing meanwhile, ends with an empty
      overlay exactly when it switches the AI off, or the overlay was empty: neither switching it on
      nor failing to does anything to the screen. */
  lemma ModeChangeEmptiesOverlayIff(actions: seq<Action>, mode: nat, rest: seq<Action>)
    requires IsRun(INIT, actions) && Run(INIT, actions).control.Outside? && mode <= 2
    requires IsRun(Apply(Run(INIT, actions), Begin(mode)), rest) && NoModeChange(rest) && DrawsNoBoxes(rest)
    requires Run(Apply(Run(INIT, actions), Begin(mode)), rest).control.Outside?
    ensures Run(Apply(Run(INIT, actions), Begin(mode)), rest).overlay.None? <==>
              mode == 0 || Run(INIT, actions).overlay.None?
  {
    RestOfModeChange(Apply(Run(INIT, actions), Begin(mode)), rest);
  }

  /** A failed change of mode switches the AI off without drawing the empty overlay: the old boxes
      stay on the screen. */
  lemma FailedStartLeavesBoxes() returns (actions: seq<Action>)
    ensures IsRun(INIT, actions)
    ensures var s := Run(INIT, actions); s.control.Outside? && s.setting == 0 && s.overlay.Some?
  {
    var s1 := Apply(COPIED, DrawBoxes(0));
    var s2 := Apply(s1, Begin(2));
    var s3 := Apply(s2, StartServer);
    var s4 := Apply(s3, StartService(false));
    var s5 := Apply(s4, JoinFailed);
    var r4 := [StoreFailed] + [];
    var r3 := [JoinFailed] + r4;
    var r2 := [StartService(false)] + r3;
    var r1 := [StartServer] + r2;
    var r0 := [Begin(2)] + r1;
    Prepend(s5, StoreFailed, []);
    Prepend(s4, JoinFailed, r4);
    Prepend(s3, StartService(false), r3);
    Prepend(s2, StartServer, r2);
    Prepend(s1, Begin(2), r1);
    Prepend(COPIED, DrawBoxes(0), r0);
    actions := CopyWhileOn([DrawBoxes(0)] + r0);
    actions := SwitchOn(actions);
  }
}

/** The AI function setting, its two services, the tracking server and the control packets agree
    over every run of calls. */
module AiLaws {
  import opened CameraParameters
  import opened CameraSettings
  import opened ClientRuns
  import opened ControlPacket
  import opened StartedClient
  import opened StartupLaws
  import opened Wrappers

  /** At a call boundary: one known mode; the server runs exactly when the AI function is on, its
      service is up and the other one is not. With the AI function off, a service that systemctl
      reported as failed may be up, but never both. */
  predicate AiAgrees(c: Camera) {
    && AiFunction in c.settings
    && IsAiMode(c.settings[AiFunction])
    && !(c.ai.detectionUp && c.ai.trackingUp)
    && (c.ai.serverRunning <==> c.settings[AiFunction] != "0")
    && (c.settings[AiFunction] == "1" ==> c.ai.detectionUp)
    && (c.settings[AiFunction] == "2" ==> c.ai.trackingUp)
  }

  lemma SetAiAgrees(c: Camera, mode: string, o: AiOutcome)
    requires AiAgrees(c)
    ensures AiAgrees(SetAi(c, mode, o))
  {
  }

  /** A valid mode is accepted exactly when the setting holds it afterwards; an invalid one changes
      nothing; a failed start leaves the AI function off. */
  lemma SetAiTells(c: Camera, mode: string, o: AiOutcome)
    ensures !IsAiMode(mode) ==> SetAi(c, mode, o) == c && !AiSucceeds(mode, o)
    ensures IsAiMode(mode) ==> (AiSucceeds(mode, o) <==> SetAi(c, mode, o).settings[AiFunction] == mode)
    ensures IsAiMode(mode) && !AiSucceeds(mode, o) ==>
              SetAi(c, mode, o).settings[AiFunction] == "0" && !SetAi(c, mode, o).ai.serverRunning
  {
  }

  // ----- the services follow the latest request -----

  /** A request to change the AI mode, and what systemctl did about it. */
  datatype AiRequest = AiRequest(mode: string, outcome: AiOutcome)

  /** Setting, services and server after a request: the service it names is up when its start
      succeeded, or was left up by a failed one; the other one is down; the server is up and the
      setting is the mode exactly when the AI is on. */
  predicate FollowsRequest(c: Camera, r: AiRequest) {
    var started := r.outcome.startOk;
    && AiFunction in c.settings
    && (r.mode == "0" || r.mode == "1" || r.mode == "2")
    && c.settings[AiFunction] == (if started then r.mode else "0")
    && (c.ai.detectionUp <==> r.mode == "1" && (started || r.outcome.upAnyway))
    && (c.ai.trackingUp <==> r.mode == "2" && (started || r.outcome.upAnyway))
    && (c.ai.serverRunning <==> r.mode != "0" && started)
  }

  /** The latest valid request of a run: set_setting, or a successful reset, which asks for "0". */
  function LatestRequest(c: Camera, op: Op, before: AiRequest): AiRequest {
    match op
    case SetOp(id, value, a, _) =>
      if Handled(c, id) && id == AiFunction && (value == "0" || value == "1" || value == "2") then AiRequest(value, a.ai)
      else before
    case ResetOp(vendorOk, ai, _) => if c.hasCamera && vendorOk then AiRequest("0", ai) else before
    case _ => before
  }

  function LatestOfRun(c: Camera, ops: seq<Op>, before: AiRequest): AiRequest
    decreases |ops|
  {
    if |ops| == 0 then before else LatestOfRun(After(c, ops[0]), ops[1..], LatestRequest(c, ops[0], before))
  }

  /** For every mode and outcome: an unknown mode changes nothing; otherwise the request is followed. */
  lemma SetAiFollows(c: Camera, mode: string, o: AiOutcome)
    ensures if mode == "0" || mode == "1" || mode == "2" then FollowsRequest(SetAi(c, mode, o), AiRequest(mode, o))
            else SetAi(c, mode, o) == c
  {
  }

  lemma SetterFollowsRequest(c: Camera, id: SettingId, value: string, a: Answers, opens: bool, before: AiRequest)
    requires Handled(c, id) && FollowsRequest(c, before)
    ensures FollowsRequest(SetterEffect(c, id, value, a), LatestRequest(c, SetOp(id, value, a, opens), before))
  {
    if id.AiFunction? {
      SetAiFollows(c, value, a.ai);
    }
  }

  lemma AppliedModeIsHeld(c: Camera, id: SettingId, value: string, a: Answers)
    requires SetterOutcome(c.hasIr, id, value, a).Applied? && id.AiFunction?
    ensures AiFunction in SetterEffect(c, id, value, a).settings && SetterEffect(c, id, value, a).settings[id] == value
  {
  }

  lemma SetFollowsRequest(c: Camera, id: SettingId, value: string, a: Answers, opens: bool, before: AiRequest)
    requires Complete(c) && FollowsRequest(c, before)
    ensures FollowsRequest(Set(c, id, value, a, opens).0, LatestRequest(c, SetOp(id, value, a, opens), before))
  {
    if id in c.settings {
      SetterKeepsComplete(c, id, value, a);
      SetterFollowsRequest(c, id, value, a, opens, before);
      if SetterOutcome(c.hasIr, id, value, a).Applied? {
        if id.AiFunction? {
          AppliedModeIsHeld(c, id, value, a);
        }
        AcceptedKeepsRequest(SetterEffect(c, id, value, a), id, value, opens,
                             LatestRequest(c, SetOp(id, value, a, opens), before));
      }
    }
  }

  lemma AcceptedKeepsRequest(c: Camera, id: SettingId, value: string, opens: bool, r: AiRequest)
    requires HasModes(c.settings) && FollowsRequest(c, r) && (id.AiFunction? ==> c.settings[id] == value)
    ensures FollowsRequest(Accepted(c, id, value, opens), r)
  {
    AcceptedForm(c, id, value, opens);
  }

  lemma ResetFollowsRequest(c: Camera, vendorOk: bool, ai: AiOutcome, opens: bool, before: AiRequest)
    requires Complete(c) && FollowsRequest(c, before)
    ensures FollowsRequest(Reset(c, vendorOk, ai, opens).0, LatestRequest(c, ResetOp(vendorOk, ai, opens), before))
  {
    CompleteHasModes(c);
    ResetServices(c, vendorOk, ai, opens);
    ResetAiSetting(c, vendorOk, ai, opens);
  }

  lemma TrackFollowsRequest(c: Camera, px: real, py: real, before: AiRequest)
    requires FollowsRequest(c, before)
    ensures FollowsRequest(TrackPoint(c, px, py), before)
  {
  }

  /** Over every run setting, services and server are those of its latest valid request: with the AI
      off, a service is up only if that request named it and its start failed. */
  lemma {:induction false} RunFollowsRequests(c: Camera, ops: seq<Op>, before: AiRequest)
    requires Complete(c) && FollowsRequest(c, before)
    ensures FollowsRequest(AfterAll(c, ops), LatestOfRun(c, ops, before))
    decreases |ops|
  {
    if |ops| > 0 {
      match ops[0] {
        case SetOp(id, value, a, opens) => SetFollowsRequest(c, id, value, a, opens, before);
        case ResetOp(vendorOk, ai, opens) => ResetFollowsRequest(c, vendorOk, ai, opens, before);
        case TrackPointOp(px, py) => TrackFollowsRequest(c, px, py, before);
        case TrackOffOp =>
      }
      OpKeepsComplete(c, ops[0]);
      RunFollowsRequests(After(c, ops[0]), ops[1..], LatestRequest(c, ops[0], before));
    }
  }

  lemma SetterKeepsAiAgreement(c: Camera, id: SettingId, value: string, a: Answers)
    requires AiAgrees(c)
    ensures AiAgrees(SetterEffect(c, id, value, a))
  {
    if id.AiFunction? {
      SetAiAgrees(c, value, a.ai);
    }
  }

  lemma AcceptedKeepsAiAgreement(c: Camera, id: SettingId, value: string, opens: bool)
    requires HasModes(c.settings) && AiAgrees(c) && (id.AiFunction? ==> c.settings[id] == value)
    ensures AiAgrees(Accepted(c, id, value, opens))
  {
    AcceptedForm(c, id, value, opens);
  }

  lemma SetKeepsAiAgreement(c: Camera, id: SettingId, value: string, a: Answers, opens: bool)
    requires Complete(c) && AiAgrees(c)
    ensures AiAgrees(Set(c, id, value, a, opens).0)
  {
    if id in c.settings {
      SetterKeepsComplete(c, id, value, a);
      SetterKeepsAiAgreement(c, id, value, a);
      if SetterOutcome(c.hasIr, id, value, a).Applied? {
        SetAiTells(c, value, a.ai);
        AcceptedKeepsAiAgreement(SetterEffect(c, id, value, a), id, value, opens);
      }
    }
  }

  lemma ResetServices(c: Camera, vendorOk: bool, ai: AiOutcome, opens: bool)
    ensures Reset(c, vendorOk, ai, opens).0.ai
         == if c.hasCamera && vendorOk then Services(false, false, false, c.ai.control) else c.ai
  {
    var photo := Assign(c, CamMode, "0", opens);
    var modes := ResetModeSettings(photo, opens);
    assert modes.ai == c.ai;
    var exposure := ResetExposureSettings(modes, opens);
    assert exposure.ai == c.ai;
    assert ResetOtherSettings(exposure, opens).ai == c.ai;
  }

  lemma ResetAiSetting(c: Camera, vendorOk: bool, ai: AiOutcome, opens: bool)
    requires HasModes(c.settings) && c.hasCamera && AiFunction in c.settings
    ensures var m := Reset(c, vendorOk, ai, opens).0.settings;
            AiFunction in m && m[AiFunction] == if vendorOk then "0" else c.settings[AiFunction]
  {
    ResetAt(c, vendorOk, ai, opens, AiFunction);
    assert CellOf(c, AiFunction).value == Some(c.settings[AiFunction]);
    assert CellOf(Reset(c, vendorOk, ai, opens).0, AiFunction).value
        == ZeroIf(vendorOk, CellOf(c, AiFunction)).value;
  }

  lemma ResetKeepsAiAgreement(c: Camera, vendorOk: bool, ai: AiOutcome, opens: bool)
    requires Complete(c) && AiAgrees(c)
    ensures AiAgrees(Reset(c, vendorOk, ai, opens).0)
  {
    CompleteHasModes(c);
    ResetServices(c, vendorOk, ai, opens);
    ResetAiSetting(c, vendorOk, ai, opens);
  }

  lemma TrackKeepsAiAgreement(c: Camera, px: real, py: real)
    requires AiAgrees(c)
    ensures AiAgrees(TrackPoint(c, px, py))
  {
  }

  lemma {:induction false} RunKeepsAiAgreement(c: Camera, ops: seq<Op>)
    requires Complete(c) && AiAgrees(c)
    ensures Complete(AfterAll(c, ops)) && AiAgrees(AfterAll(c, ops))
    decreases |ops|
  {
    if |ops| > 0 {
      match ops[0] {
        case SetOp(id, value, a, opens) => SetKeepsAiAgreement(c, id, value, a, opens);
        case ResetOp(vendorOk, ai, opens) => ResetKeepsAiAgreement(c, vendorOk, ai, opens);
        case TrackPointOp(px, py) => TrackKeepsAiAgreement(c, px, py);
        case TrackOffOp =>
      }
      OpKeepsComplete(c, ops[0]);
      RunKeepsAiAgreement(After(c, ops[0]), ops[1..]);
    }
  }

  // ----- control packets -----

  /** A start sends no control packet. */
  lemma StartSendsNothing(c: Camera, env: Env, a: Answers, opens: bool)
    ensures Init(c, env, a, opens).Some? ==> Init(c, env, a, opens).value.ai.control == c.ai.control
  {
    if Init(c, env, a, opens).Some? {
      var c0 := c.(hasCamera := true);
      LoadAllSameRest(c0, CameraSteps(env), a, opens);
      var c1 := LoadAll(c0, CameraSteps(env), a, opens).value;
      LoadAllSameRest(c1, SettingSteps(env), a, opens);
      var prepared := PreparedForIr(LoadAll(c1, SettingSteps(env), a, opens).value, env);
      LoadAllSameRest(prepared, IrSteps(env), a, opens);
    }
  }

  /** The commands a call sends to the tracking client. */
  function Requests(c: Camera, op: Op): seq<Request> {
    match op
    case SetOp(id, value, a, _) =>
      if Handled(c, id) && id.AiFunction? && value == "2" && a.ai.startOk then [DETECT_ONLY] else []
    case ResetOp(_, _, _) => []
    case TrackPointOp(px, py) =>
      [Request(true, true, Pixel(px, SOURCE_WIDTH), Pixel(py, SourceHeight(Get(c.settings, CamMode))))]
    case TrackOffOp => [DETECT_ONLY]
  }

  function AllRequests(c: Camera, ops: seq<Op>): seq<Request>
    decreases |ops|
  {
    if |ops| == 0 then [] else Requests(c, ops[0]) + AllRequests(After(c, ops[0]), ops[1..])
  }

  lemma IssueOne(rs: seq<Request>, r: Request)
    ensures IssueAll(rs + [r]) == Issue(IssueAll(rs), r)
  {
    assert (rs + [r])[..|rs|] == rs;
  }

  lemma SetIssues(c: Camera, id: SettingId, value: string, a: Answers, opens: bool)
    ensures Set(c, id, value, a, opens).0.ai.control
         == if Handled(c, id) && id.AiFunction? && value == "2" && a.ai.startOk then Issue(c.ai.control, DETECT_ONLY)
            else c.ai.control
  {
  }

  lemma OpIssues(c: Camera, op: Op, rs: seq<Request>)
    requires c.ai.control == IssueAll(rs)
    ensures After(c, op).ai.control == IssueAll(rs + Requests(c, op))
  {
    if |Requests(c, op)| == 1 {
      IssueOne(rs, Requests(c, op)[0]);
      assert rs + Requests(c, op) == rs + [Requests(c, op)[0]];
    } else {
      assert rs + Requests(c, op) == rs;
    }
    match op
    case SetOp(id, value, a, opens) => SetIssues(c, id, value, a, opens);
    case ResetOp(vendorOk, ai, opens) => ResetServices(c, vendorOk, ai, opens);
    case _ =>
  }

  /** Over any run the packet index and the cached packet are those of the commands the run sent, in
      order, and of nothing else. */
  lemma {:induction false} RunIssues(c: Camera, ops: seq<Op>, rs: seq<Request>)
    requires c.ai.control == IssueAll(rs)
    ensures AfterAll(c, ops).ai.control == IssueAll(rs + AllRequests(c, ops))
    decreases |ops|, 0
  {
    if |ops| == 0 {
      assert rs + [] == rs;
    } else {
      RunIssuesRest(c, ops[0], After(c, ops[0]), ops[1..], rs);
      Regroup(rs, Requests(c, ops[0]), AllRequests(After(c, ops[0]), ops[1..]));
    }
  }

  lemma Regroup(a: seq<Request>, b: seq<Request>, c: seq<Request>)
    ensures a + b + c == a + (b + c)
  {
  }

  lemma {:induction false} RunIssuesRest(c: Camera, op: Op, next: Camera, ops: seq<Op>, rs: seq<Request>)
    requires c.ai.control == IssueAll(rs) && next == After(c, op)
    ensures AfterAll(next, ops).ai.control == IssueAll(rs + Requests(c, op) + AllRequests(next, ops))
    decreases |ops|, 1
  {
    OpIssues(c, op, rs);
    RunIssues(next, ops, rs + Requests(c, op));
  }

  /** What a tracking client reads from the cached packet after a run: the latest command, numbered
      by their count. */
  lemma CacheAfterRun(c: Camera, ops: seq<Op>)
    requires c.ai.control == FRESH_CONTROL
    ensures var cache, rs := AfterAll(c, ops).ai.control.cache, AllRequests(c, ops);
            if rs == [] then cache == []
            else
              var r := rs[|rs| - 1];
              |cache| == PACKET_SIZE && Decode(cache) == Some(Command(|rs| % 256, r.x, r.y, r.detection, r.tracking))
  {
    RunIssues(c, ops, []);
    assert [] + AllRequests(c, ops) == AllRequests(c, ops);
    CacheHoldsLatestCommand(AllRequests(c, ops));
  }

  /** A successful switch to AI mode 2 leaves the cache decoding to detection on, tracking off, at
      the origin, under the next index. */
  lemma Mode2AsksForDetection(c: Camera, a: Answers, opens: bool)
    requires Complete(c) && a.ai.startOk
    ensures var d := Set(c, AiFunction, "2", a, opens).0;
            && d.settings[AiFunction] == "2" && d.ai.serverRunning
            && Decode(d.ai.control.cache) == Some(Command(NextIndex(c.ai.control.index), 0, 0, true, false))
  {
    CompleteHasModes(c);
    AcceptedForm(SetterEffect(c, AiFunction, "2", a), AiFunction, "2", opens);
    SetIssues(c, AiFunction, "2", a, opens);
    DecodeOfEncode(Command(NextIndex(c.ai.control.index), 0, 0, true, false));
  }

  /** Turning tracking off leaves the cache decoding to detection on, tracking off, at the origin, under
      the next index. */
  lemma TrackOffAsksForDetection(c: Camera)
    ensures Decode(TrackOff(c).ai.control.cache) == Some(Command(NextIndex(c.ai.control.index), 0, 0, true, false))
  {
    DecodeOfEncode(Command(NextIndex(c.ai.control.index), 0, 0, true, false));
  }

  /** A tracking point reaches the cache, under the next index, as the pixel it falls on in the
      picture of the current camera mode. */
  lemma TrackedPointIsCached(c: Camera, px: real, py: real)
    ensures var d := Decode(TrackPoint(c, px, py).ai.control.cache);
            && d.Some? && d.value.detection && d.value.tracking && d.value.index == NextIndex(c.ai.control.index)
            && Falls(px, 1920, d.value.x)
            && Falls(py, if Get(c.settings, CamMode) == "0" then 1440 else 1080, d.value.y)
  {
    PointReachesClient(NextIndex(c.ai.control.index), px, py, Get(c.settings, CamMode));
  }

  // ----- from a start on -----

  /** From a start on, whatever its environment and writes, over every run of settings, resets and
      tracking commands and any start failures: one known mode, never both services, the tracking
      server up exactly while the AI function is on. */
  lemma RunsFromStartAgree(blank: Camera, env: Env, a: Answers, opens: bool, ops: seq<Op>)
    requires blank.settings == map[]
    ensures var started := Init(blank, env, a, opens);
            started.Some? ==> AiAgrees(AfterAll(started.value, ops))
  {
    if Init(blank, env, a, opens).Some? {
      StartLeaves(blank, env, a, opens);
      RunKeepsAiAgreement(Init(blank, env, a, opens).value, ops);
    }
  }

  /** And setting, services and server are those of the latest valid request of the run, the start
      itself asking for "0". */
  lemma RunsFromStartFollow(blank: Camera, env: Env, a: Answers, opens: bool, ops: seq<Op>, o: AiOutcome)
    requires blank.settings == map[]
    ensures var started := Init(blank, env, a, opens);
            started.Some? ==>
              FollowsRequest(AfterAll(started.value, ops), LatestOfRun(started.value, ops, AiRequest("0", o)))
  {
    if Init(blank, env, a, opens).Some? {
      StartLeaves(blank, env, a, opens);
      RunFollowsRequests(Init(blank, env, a, opens).value, ops, AiRequest("0", o));
    }
  }

  /** And the cached packet is empty or decodes to the latest command of the run. */
  lemma RunsFromStartCache(blank: Camera, env: Env, a: Answers, opens: bool, ops: seq<Op>)
    requires blank.ai == IDLE
    ensures var started := Init(blank, env, a, opens);
            started.Some? ==>
              var cache, rs := AfterAll(started.value, ops).ai.control.cache, AllRequests(started.value, ops);
              if rs == [] then cache == []
              else
                var r := rs[|rs| - 1];
                |cache| == PACKET_SIZE && Decode(cache) == Some(Command(|rs| % 256, r.x, r.y, r.detection, r.tracking))
  {
    if Init(blank, env, a, opens).Some? {
      StartSendsNothing(blank, env, a, opens);
      CacheAfterRun(Init(blank, env, a, opens).value, ops);
    }
  }
}

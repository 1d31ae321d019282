/** The control channel under concurrency: any number of threads issue commands while the server
    thread accepts, greets and drops clients (tracking_server.cpp, `send_control_command` and the
    client sections of `run_loop` and `handle_client`). Every step below is one access the code
    makes; the client mutex is explicit, so mutual exclusion is proved and not assumed. */
module ControlReplay {
  import opened ControlPacket
  import opened Wrappers

  /** What happens under the client mutex, in the order the mutex imposes. */
  datatype Event = Issued(command: Command) | Connected(id: nat) | Dropped(id: nat)

  /** One call of `send` on a client, and what it returned. */
  datatype Attempt = Attempt(command: Command, sent: int)

  datatype SenderPc =
    | Idle
    | Built(command: Command)
    | Locked(command: Command)
    | Stored(command: Command)
    | Returning(command: Command, ok: bool)

  datatype ServerPc =
    | Waiting
    | Accepted(id: nat)
    | LockedToInstall(id: nat)
    | Installed(id: nat)
    | Greeted(id: nat)
    | Serving(id: nat)
    | Closed(id: nat)
    | LockedToClear(id: nat)
    | Cleared(id: nat)

  datatype Owner = Free | Sender(t: nat) | Server

  datatype State = State(
    senders: map<nat, SenderPc>,
    server: ServerPc,
    owner: Owner,
    clientFd: Option<nat>,
    cache: Option<Command>,
    index: byte,
    nextId: nat,
    history: seq<Event>,
    attempts: map<nat, seq<Attempt>>)

  const INIT := State(map[], Waiting, Free, None, None, 0, 0, [], map[])

  datatype Action =
    | Build(t: nat, request: Request)  // before the mutex: number and fill the packet
    | Lock(t: nat)
    | Store(t: nat)                    // _latest_control_packet
    | Send(t: nat, sent: int)          // send, if a client is connected
    | Unlock(t: nat)
    | Accept
    | LockInstall
    | Install                          // _client_fd = client_fd
    | Greet(sent: int)                 // send the cached packet, if there is one
    | UnlockInstall
    | Close                            // close(client_fd) at the end of handle_client
    | LockClear
    | Clear                            // _client_fd = -1
    | UnlockClear

  function Pc(s: State, t: nat): SenderPc {
    if t in s.senders then s.senders[t] else Idle
  }

  function AttemptsOn(s: State, id: nat): seq<Attempt> {
    if id in s.attempts then s.attempts[id] else []
  }

  /** What `send` may return: an error, or a number of bytes; only an error once the server thread
      has closed the descriptor. */
  predicate SendResult(s: State, sent: int) {
    -1 <= sent <= PACKET_SIZE && (s.server.Closed? || s.server.LockedToClear? ==> sent == -1)
  }

  predicate Enabled(s: State, a: Action) {
    match a
    case Build(t, _) => Pc(s, t).Idle?
    case Lock(t) => Pc(s, t).Built? && s.owner.Free?
    case Store(t) => Pc(s, t).Locked?
    case Send(t, sent) => Pc(s, t).Stored? && SendResult(s, sent)
    case Unlock(t) => Pc(s, t).Returning?
    case Accept => s.server.Waiting?
    case LockInstall => s.server.Accepted? && s.owner.Free?
    case Install => s.server.LockedToInstall?
    case Greet(sent) => s.server.Installed? && SendResult(s, sent)
    case UnlockInstall => s.server.Greeted?
    case Close => s.server.Serving?
    case LockClear => s.server.Closed? && s.owner.Free?
    case Clear => s.server.LockedToClear?
    case UnlockClear => s.server.Cleared?
  }

  function WithPc(s: State, t: nat, pc: SenderPc): State {
    s.(senders := s.senders[t := pc])
  }

  function WithAttempt(s: State, id: nat, a: Attempt): State {
    s.(attempts := s.attempts[id := AttemptsOn(s, id) + [a]])
  }

  function Apply(s: State, a: Action): State
    requires Enabled(s, a)
  {
    match a
    case Build(t, r) =>
      var next := NextIndex(s.index);
      WithPc(s, t, Built(Command(next, r.x, r.y, r.detection, r.tracking))).(index := next)
    case Lock(t) => WithPc(s, t, Locked(Pc(s, t).command)).(owner := Sender(t))
    case Store(t) =>
      var c := Pc(s, t).command;
      WithPc(s, t, Stored(c)).(cache := Some(c), history := s.history + [Issued(c)])
    case Send(t, sent) =>
      var c := Pc(s, t).command;
      if s.clientFd.None? then WithPc(s, t, Returning(c, true))
      else WithAttempt(WithPc(s, t, Returning(c, sent == PACKET_SIZE)), s.clientFd.value, Attempt(c, sent))
    case Unlock(t) => WithPc(s, t, Idle).(owner := Free)
    case Accept => s.(server := Accepted(s.nextId), nextId := s.nextId + 1)
    case LockInstall => s.(server := LockedToInstall(s.server.id), owner := Server)
    case Install =>
      var id := s.server.id;
      s.(server := Installed(id), clientFd := Some(id), history := s.history + [Connected(id)])
    case Greet(sent) =>
      var id := s.server.id;
      var greeted := s.(server := Greeted(id));
      if s.cache.None? then greeted else WithAttempt(greeted, id, Attempt(s.cache.value, sent))
    case UnlockInstall => s.(server := Serving(s.server.id), owner := Free)
    case Close => s.(server := Closed(s.server.id))
    case LockClear => s.(server := LockedToClear(s.server.id), owner := Server)
    case Clear =>
      var id := s.server.id;
      var cleared := s.(server := Cleared(id), history := s.history + [Dropped(id)]);
      if s.clientFd == Some(id) then cleared.(clientFd := None) else cleared
    case UnlockClear => s.(server := Waiting, owner := Free)
  }

  /** A run: every action is enabled where it is taken. */
  ghost predicate IsRun(s: State, actions: seq<Action>)
    decreases |actions|
  {
    actions == [] || (Enabled(s, actions[0]) && IsRun(Apply(s, actions[0]), actions[1..]))
  }

  ghost function Run(s: State, actions: seq<Action>): State
    requires IsRun(s, actions)
    decreases |actions|
  {
    if actions == [] then s else Run(Apply(s, actions[0]), actions[1..])
  }

  // ----- what a client should be sent, read off the history alone -----

  function LastIssued(h: seq<Event>): Option<Command> {
    if h == [] then None
    else
      var e := h[|h| - 1];
      if e.Issued? then Some(e.command) else LastIssued(h[..|h| - 1])
  }

  function CurrentClient(h: seq<Event>): Option<nat> {
    if h == [] then None
    else
      match h[|h| - 1]
      case Issued(_) => CurrentClient(h[..|h| - 1])
      case Connected(id) => Some(id)
      case Dropped(_) => None
  }

  function AsSeq(c: Option<Command>): seq<Command> {
    if c.None? then [] else [c.value]
  }

  /** The commands client `id` is due: at its connection the last one issued, then every one
      issued while it is current. */
  function Due(h: seq<Event>, id: nat): seq<Command> {
    if h == [] then []
    else
      var h' := h[..|h| - 1];
      match h[|h| - 1]
      case Issued(c) => if CurrentClient(h') == Some(id) then Due(h', id) + [c] else Due(h', id)
      case Connected(d) => if d == id then Due(h', id) + AsSeq(LastIssued(h')) else Due(h', id)
      case Dropped(_) => Due(h', id)
  }

  function Commands(attempts: seq<Attempt>): seq<Command> {
    if attempts == [] then [] else Commands(attempts[..|attempts| - 1]) + [attempts[|attempts| - 1].command]
  }

  /** The bytes that reached the client. */
  function Bytes(attempts: seq<Attempt>): seq<byte>
    requires SentInRange(attempts)
  {
    if attempts == [] then []
    else
      var a := attempts[0];
      (if a.sent < 0 then [] else Encode(a.command)[..a.sent]) + Bytes(attempts[1..])
  }

  // ----- the invariant -----

  predicate SenderInside(pc: SenderPc) {
    pc.Locked? || pc.Stored? || pc.Returning?
  }

  predicate ServerInside(pc: ServerPc) {
    pc.LockedToInstall? || pc.Installed? || pc.Greeted? || pc.LockedToClear? || pc.Cleared?
  }

  predicate ServerHasClient(pc: ServerPc) {
    pc.Installed? || pc.Greeted? || pc.Serving? || pc.Closed? || pc.LockedToClear?
  }

  /** The part of what a client is due that the thread in the critical section has yet to send. */
  function Owed(s: State, id: nat): seq<Command> {
    if s.clientFd != Some(id) then []
    else if s.owner.Sender? && Pc(s, s.owner.t).Stored? then [Pc(s, s.owner.t).command]
    else if s.server.Installed? then AsSeq(s.cache)
    else []
  }

  ghost predicate Exclusive(s: State) {
    && (forall t :: SenderInside(Pc(s, t)) <==> s.owner == Sender(t))
    && (ServerInside(s.server) <==> s.owner == Server)
  }

  ghost predicate Tracks(s: State) {
    && s.clientFd == CurrentClient(s.history)
    && s.cache == LastIssued(s.history)
    && s.clientFd == (if ServerHasClient(s.server) then Some(s.server.id) else None)
  }

  /** What was attempted on a client and what is still owed to it is exactly what it is due. */
  predicate Accounted(s: State, id: nat) {
    Commands(AttemptsOn(s, id)) + Owed(s, id) == Due(s.history, id)
  }

  predicate SentInRange(attempts: seq<Attempt>) {
    forall i :: 0 <= i < |attempts| ==> -1 <= attempts[i].sent <= PACKET_SIZE
  }

  predicate NotYetInstalled(s: State, id: nat) {
    id >= s.nextId || (s.server.Accepted? && s.server.id == id) || (s.server.LockedToInstall? && s.server.id == id)
  }

  ghost predicate Delivers(s: State) {
    && (s.server.Waiting? || s.server.id < s.nextId)
    && (forall id :: NotYetInstalled(s, id) ==> Due(s.history, id) == [] && AttemptsOn(s, id) == [])
    && (forall id :: Accounted(s, id))
    && (forall id :: SentInRange(AttemptsOn(s, id)))
  }

  /** A client connects at most once, and not before it is installed. */
  ghost predicate ConnectsOnce(s: State) {
    && (forall i, j :: 0 <= i < j < |s.history| && s.history[i].Connected? ==> s.history[i] != s.history[j])
    && (forall i :: 0 <= i < |s.history| && s.history[i].Connected? ==> !NotYetInstalled(s, s.history[i].id))
  }

  /** A command about to return knows whether its packet went out completely. */
  ghost predicate ReturnsHonestly(s: State) {
    forall t :: Pc(s, t).Returning? ==>
      (Pc(s, t).ok <==>
        s.clientFd.None? ||
        (var on := AttemptsOn(s, s.clientFd.value);
         on != [] && on[|on| - 1] == Attempt(Pc(s, t).command, PACKET_SIZE)))
  }

  ghost predicate Inv(s: State) {
    Exclusive(s) && Tracks(s) && Delivers(s) && ConnectsOnce(s) && ReturnsHonestly(s)
  }

  function DueAfter(h: seq<Event>, e: Event, id: nat): seq<Command> {
    match e
    case Issued(c) => if CurrentClient(h) == Some(id) then Due(h, id) + [c] else Due(h, id)
    case Connected(d) => if d == id then Due(h, id) + AsSeq(LastIssued(h)) else Due(h, id)
    case Dropped(_) => Due(h, id)
  }

  lemma DueSnoc(h: seq<Event>, e: Event, id: nat)
    ensures Due(h + [e], id) == DueAfter(h, e, id)
  {
    assert (h + [e])[..|h|] == h;
  }

  lemma HistorySnoc(h: seq<Event>, e: Event)
    ensures LastIssued(h + [e]) == if e.Issued? then Some(e.command) else LastIssued(h)
    ensures CurrentClient(h + [e])
         == match e case Issued(_) => CurrentClient(h) case Connected(id) => Some(id) case Dropped(_) => None
  {
    assert (h + [e])[..|h|] == h;
  }

  lemma StepKeepsExclusive(s: State, a: Action)
    requires Inv(s) && Enabled(s, a)
    ensures Exclusive(Apply(s, a))
  {
    var s' := Apply(s, a);
    forall t
      ensures SenderInside(Pc(s', t)) <==> s'.owner == Sender(t)
    {
      assert SenderInside(Pc(s, t)) <==> s.owner == Sender(t);
      if a.Build? || a.Lock? || a.Store? || a.Send? || a.Unlock? {
        assert SenderInside(Pc(s, a.t)) <==> s.owner == Sender(a.t);
      }
    }
  }

  lemma StepKeepsTracks(s: State, a: Action)
    requires Tracks(s) && Enabled(s, a)
    ensures Tracks(Apply(s, a))
  {
    match a
    case Store(t) => HistorySnoc(s.history, Issued(Pc(s, t).command));
    case Install => HistorySnoc(s.history, Connected(s.server.id));
    case Clear => HistorySnoc(s.history, Dropped(s.server.id));
    case _ =>
  }

  lemma StepKeepsReturns(s: State, a: Action)
    requires Inv(s) && Enabled(s, a)
    ensures ReturnsHonestly(Apply(s, a))
  {
    var s' := Apply(s, a);
    forall t | Pc(s', t).Returning?
      ensures Pc(s', t).ok <==>
        s'.clientFd.None? ||
        (var on := AttemptsOn(s', s'.clientFd.value);
         on != [] && on[|on| - 1] == Attempt(Pc(s', t).command, PACKET_SIZE))
    {
      assert SenderInside(Pc(s, t)) <==> s.owner == Sender(t);
      if a.Send? {
        assert SenderInside(Pc(s, a.t)) <==> s.owner == Sender(a.t);
      }
    }
  }

  lemma CommandsSnoc(attempts: seq<Attempt>, a: Attempt)
    ensures Commands(attempts + [a]) == Commands(attempts) + [a.command]
  {
    assert (attempts + [a])[..|attempts|] == attempts;
  }

  /** What one step needs to know about the mutex. */
  ghost predicate Inside(s: State, a: Action) {
    && (ServerInside(s.server) <==> s.owner == Server)
    && (a.Build? || a.Lock? || a.Store? || a.Send? || a.Unlock? ==>
          (SenderInside(Pc(s, a.t)) <==> s.owner == Sender(a.t)))
  }

  lemma NothingOwed(s: State, id: nat)
    requires Owed(s, id) == []
    ensures Accounted(s, id) <==> Commands(AttemptsOn(s, id)) == Due(s.history, id)
  {
    assert Commands(AttemptsOn(s, id)) + [] == Commands(AttemptsOn(s, id));
  }

  /** Sending on the current client pays exactly what is owed to it. */
  lemma SendPays(s: State, t: nat, sent: int, id: nat)
    requires Enabled(s, Send(t, sent)) && Inside(s, Send(t, sent)) && Accounted(s, id)
    ensures Accounted(Apply(s, Send(t, sent)), id)
  {
    var s' := Apply(s, Send(t, sent));
    CommandsSnoc(AttemptsOn(s, id), Attempt(Pc(s, t).command, sent));
    NothingOwed(s', id);
    if s.clientFd != Some(id) {
      NothingOwed(s, id);
    } else {
      assert AttemptsOn(s', id) == AttemptsOn(s, id) + [Attempt(Pc(s, t).command, sent)];
    }
  }

  lemma GreetPays(s: State, sent: int, id: nat)
    requires Enabled(s, Greet(sent)) && Inside(s, Greet(sent)) && Tracks(s) && Accounted(s, id)
    ensures Accounted(Apply(s, Greet(sent)), id)
  {
    var s' := Apply(s, Greet(sent));
    NothingOwed(s', id);
    if id != s.server.id || s.cache.None? {
      assert AttemptsOn(s', id) == AttemptsOn(s, id);
      NothingOwed(s, id);
    } else {
      CommandsSnoc(AttemptsOn(s, id), Attempt(s.cache.value, sent));
      assert AttemptsOn(s', id) == AttemptsOn(s, id) + [Attempt(s.cache.value, sent)];
    }
  }

  /** A command issued is owed to the current client, and to no other. */
  lemma StoreOwes(s: State, t: nat, id: nat)
    requires Enabled(s, Store(t)) && Inside(s, Store(t)) && Tracks(s) && Accounted(s, id)
    ensures Accounted(Apply(s, Store(t)), id)
  {
    DueSnoc(s.history, Issued(Pc(s, t).command), id);
    NothingOwed(s, id);
    if s.clientFd != Some(id) {
      NothingOwed(Apply(s, Store(t)), id);
    }
  }

  /** A new client is owed the cached command. */
  lemma InstallOwes(s: State, id: nat)
    requires Enabled(s, Install) && Inside(s, Install) && Tracks(s) && Accounted(s, id)
    requires id == s.server.id ==> AttemptsOn(s, id) == []
    ensures Accounted(Apply(s, Install), id)
  {
    DueSnoc(s.history, Connected(s.server.id), id);
    NothingOwed(s, id);
    if id != s.server.id {
      NothingOwed(Apply(s, Install), id);
    }
  }

  lemma ClearOwesNothing(s: State, id: nat)
    requires Enabled(s, Clear) && Inside(s, Clear) && Accounted(s, id)
    ensures Accounted(Apply(s, Clear), id)
  {
    DueSnoc(s.history, Dropped(s.server.id), id);
    NothingOwed(s, id);
    NothingOwed(Apply(s, Clear), id);
  }

  lemma OtherStepsOweNothing(s: State, a: Action, id: nat)
    requires Enabled(s, a) && Inside(s, a) && Tracks(s) && Accounted(s, id)
    requires !a.Send? && !a.Greet? && !a.Store? && !a.Install? && !a.Clear?
    ensures Accounted(Apply(s, a), id)
  {
    var s' := Apply(s, a);
    assert AttemptsOn(s', id) == AttemptsOn(s, id);
    assert Owed(s', id) == Owed(s, id);
  }

  lemma StepKeepsAccounts(s: State, a: Action, id: nat)
    requires Enabled(s, a) && Inside(s, a) && Tracks(s) && Accounted(s, id)
    requires a.Install? && id == s.server.id ==> AttemptsOn(s, id) == []
    ensures Accounted(Apply(s, a), id)
  {
    match a
    case Send(t, sent) => SendPays(s, t, sent, id);
    case Greet(sent) => GreetPays(s, sent, id);
    case Store(t) => StoreOwes(s, t, id);
    case Install => InstallOwes(s, id);
    case Clear => ClearOwesNothing(s, id);
    case _ => OtherStepsOweNothing(s, a, id);
  }

  lemma StepKeepsNewIdsClean(s: State, a: Action, id: nat)
    requires Enabled(s, a) && Tracks(s) && (s.server.Waiting? || s.server.id < s.nextId)
    requires NotYetInstalled(Apply(s, a), id)
    requires Due(s.history, id) == [] && AttemptsOn(s, id) == []
    ensures Due(Apply(s, a).history, id) == [] && AttemptsOn(Apply(s, a), id) == []
  {
    match a
    case Store(t) => DueSnoc(s.history, Issued(Pc(s, t).command), id);
    case Install => DueSnoc(s.history, Connected(s.server.id), id);
    case Clear => DueSnoc(s.history, Dropped(s.server.id), id);
    case _ =>
  }

  lemma StepKeepsDelivers(s: State, a: Action)
    requires Delivers(s) && Tracks(s) && Inside(s, a) && Enabled(s, a)
    ensures Delivers(Apply(s, a))
  {
    var s' := Apply(s, a);
    forall id
      ensures Accounted(s', id)
    {
      assert Accounted(s, id);
      if a.Install? && id == s.server.id {
        assert NotYetInstalled(s, id);
      }
      StepKeepsAccounts(s, a, id);
    }
    forall id
      ensures SentInRange(AttemptsOn(s', id))
    {
      assert SentInRange(AttemptsOn(s, id));
    }
    forall id | NotYetInstalled(s', id)
      ensures Due(s'.history, id) == [] && AttemptsOn(s', id) == []
    {
      assert NotYetInstalled(s, id);
      StepKeepsNewIdsClean(s, a, id);
    }
  }

  lemma StepKeepsConnectsOnce(s: State, a: Action)
    requires Inv(s) && Enabled(s, a)
    ensures ConnectsOnce(Apply(s, a))
  {
    var s' := Apply(s, a);
    assert s'.history == s.history || s'.history == s.history + [s'.history[|s.history|]];
    forall i | 0 <= i < |s'.history| && s'.history[i].Connected?
      ensures !NotYetInstalled(s', s'.history[i].id)
    {
      if i < |s.history| {
        assert s'.history[i] == s.history[i];
      }
    }
  }

  lemma {:induction false} RunKeepsInv(s: State, actions: seq<Action>)
    requires Inv(s) && IsRun(s, actions)
    ensures Inv(Run(s, actions))
    decreases |actions|
  {
    if actions != [] {
      StepKeepsExclusive(s, actions[0]);
      StepKeepsTracks(s, actions[0]);
      StepKeepsDelivers(s, actions[0]);
      StepKeepsReturns(s, actions[0]);
      StepKeepsConnectsOnce(s, actions[0]);
      RunKeepsInv(Apply(s, actions[0]), actions[1..]);
    }
  }

  // ----- the results -----

  /** Whatever the interleaving, whenever the mutex is free the packets attempted on a client are
      exactly the ones it is due: none lost, none repeated, none out of order. */
  lemma ReplayIsExact(actions: seq<Action>, id: nat)
    requires IsRun(INIT, actions) && Run(INIT, actions).owner.Free?
    ensures var s := Run(INIT, actions);
            Commands(AttemptsOn(s, id)) == Due(s.history, id)
  {
    RunKeepsInv(INIT, actions);
    var s := Run(INIT, actions);
    assert Accounted(s, id);
    NothingOwed(s, id);
  }

  /** A command returns true exactly when no client was current or its whole packet was written. */
  lemma ReturnTellsDelivery(actions: seq<Action>, t: nat)
    requires IsRun(INIT, actions) && Pc(Run(INIT, actions), t).Returning?
    ensures var s := Run(INIT, actions);
            Pc(s, t).ok <==>
              s.clientFd.None? ||
              (var on := AttemptsOn(s, s.clientFd.value);
               on != [] && on[|on| - 1] == Attempt(Pc(s, t).command, PACKET_SIZE))
  {
    RunKeepsInv(INIT, actions);
  }

  function IssuedIn(h: seq<Event>): seq<Command> {
    if h == [] then []
    else
      var e := h[|h| - 1];
      IssuedIn(h[..|h| - 1]) + if e.Issued? then [e.command] else []
  }

  lemma {:induction false} NeverConnected(h: seq<Event>, id: nat)
    requires forall k :: 0 <= k < |h| ==> h[k] != Connected(id)
    ensures Due(h, id) == [] && CurrentClient(h) != Some(id)
  {
    if h != [] {
      NeverConnected(h[..|h| - 1], id);
    }
  }

  lemma {:induction false} CurrentWhile(h: seq<Event>, id: nat, i: nat, j: nat)
    requires i < j <= |h| && h[i] == Connected(id)
    requires forall k :: i < k < j ==> h[k].Issued?
    requires forall k :: j <= k < |h| ==> h[k] != Connected(id)
    requires j < |h| ==> !h[j].Issued?
    ensures CurrentClient(h) == Some(id) <==> j == |h|
  {
    if |h| > i + 1 {
      var h' := h[..|h| - 1];
      CurrentWhile(h', id, i, if j == |h| then j - 1 else j);
    }
  }

  lemma {:induction false} DueWhileCurrent(h: seq<Event>, id: nat, i: nat)
    requires i < |h| && h[i] == Connected(id)
    requires forall k :: 0 <= k < |h| && k != i ==> h[k] != Connected(id)
    requires forall k :: i < k < |h| ==> h[k].Issued?
    ensures Due(h, id) == AsSeq(LastIssued(h[..i])) + IssuedIn(h[i + 1..])
  {
    var h', e := h[..|h| - 1], h[|h| - 1];
    if |h| == i + 1 {
      assert h' == h[..i];
      NeverConnected(h', id);
    } else {
      DueWhileCurrent(h', id, i);
      CurrentWhile(h', id, i, |h'|);
      assert h'[..i] == h[..i];
      var issued := h[i + 1..];
      assert issued[..|issued| - 1] == h'[i + 1..];
    }
  }

  lemma {:induction false} DueOfSpan(h: seq<Event>, id: nat, i: nat, j: nat)
    requires i < j <= |h| && h[i] == Connected(id)
    requires forall k :: 0 <= k < |h| && k != i ==> h[k] != Connected(id)
    requires forall k :: i < k < j ==> h[k].Issued?
    requires j < |h| ==> !h[j].Issued?
    ensures Due(h, id) == AsSeq(LastIssued(h[..i])) + IssuedIn(h[i + 1..j])
  {
    if j == |h| {
      DueWhileCurrent(h, id, i);
      assert h[i + 1..j] == h[i + 1..];
    } else {
      var h' := h[..|h| - 1];
      DueOfSpan(h', id, i, j);
      CurrentWhile(h', id, i, j);
      assert h'[..i] == h[..i];
      assert h'[i + 1..j] == h[i + 1..j];
    }
  }

  /** The same, said on the event order directly: a client installed at position `i` and current
      until position `j` is sent the last command issued before `i`, then the commands issued
      between `i` and `j`, and nothing else. */
  lemma ClientReceivesLastThenLive(actions: seq<Action>, id: nat, i: nat, j: nat)
    requires IsRun(INIT, actions) && Run(INIT, actions).owner.Free?
    requires var h := Run(INIT, actions).history;
             && i < j <= |h| && h[i] == Connected(id)
             && (forall k :: i < k < j ==> h[k].Issued?)
             && (j < |h| ==> !h[j].Issued?)
    ensures var s := Run(INIT, actions);
            Commands(AttemptsOn(s, id)) == AsSeq(LastIssued(s.history[..i])) + IssuedIn(s.history[i + 1..j])
  {
    RunKeepsInv(INIT, actions);
    ReplayIsExact(actions, id);
    var h := Run(INIT, actions).history;
    forall k | 0 <= k < |h| && k != i
      ensures h[k] != Connected(id)
    {
      assert if k < i then h[k].Connected? ==> h[k] != h[i] else h[i] != h[k];
    }
    DueOfSpan(h, id, i, j);
  }

  lemma {:induction false} FullBytes(attempts: seq<Attempt>)
    requires SentInRange(attempts)
    requires forall i :: 0 <= i < |attempts| ==> attempts[i].sent == PACKET_SIZE
    ensures Bytes(attempts) == EncodeStream(Commands(attempts))
  {
    if attempts != [] {
      FullBytes(attempts[1..]);
      CommandsCons(attempts);
    }
  }

  lemma {:induction false} CommandsCons(attempts: seq<Attempt>)
    requires attempts != []
    ensures Commands(attempts) == [attempts[0].command] + Commands(attempts[1..])
  {
    if |attempts| > 1 {
      CommandsCons(attempts[..|attempts| - 1]);
      assert attempts[1..][..|attempts| - 2] == attempts[..|attempts| - 1][1..];
    }
  }

  /** A client whose every send was complete can cut its bytes into packets and decode exactly the
      commands it is due. */
  lemma ClientDecodesItsCommands(actions: seq<Action>, id: nat)
    requires IsRun(INIT, actions) && Run(INIT, actions).owner.Free?
    requires var on := AttemptsOn(Run(INIT, actions), id);
             forall i :: 0 <= i < |on| ==> on[i].sent == PACKET_SIZE
    ensures var s := Run(INIT, actions);
            && SentInRange(AttemptsOn(s, id))
            && DecodeStream(Bytes(AttemptsOn(s, id))) == Some(Due(s.history, id))
  {
    var on := AttemptsOn(Run(INIT, actions), id);
    ReplayIsExact(actions, id);
    FullBytes(on);
    DecodeOfEncodeStream(Commands(on));
  }

  // ----- sends that fail -----

  /** The commands whose packet was written completely. */
  function Delivered(attempts: seq<Attempt>): seq<Command> {
    if attempts == [] then []
    else (if attempts[0].sent == PACKET_SIZE then [attempts[0].command] else []) + Delivered(attempts[1..])
  }

  /** Every send wrote its whole packet or failed. */
  predicate AllOrNothing(attempts: seq<Attempt>) {
    forall i :: 0 <= i < |attempts| ==> attempts[i].sent == PACKET_SIZE || attempts[i].sent == -1
  }

  lemma {:induction false} DeliveredBytes(attempts: seq<Attempt>)
    requires SentInRange(attempts) && AllOrNothing(attempts)
    ensures Bytes(attempts) == EncodeStream(Delivered(attempts))
  {
    if attempts != [] {
      DeliveredBytes(attempts[1..]);
      var more := Delivered(attempts[1..]);
      if attempts[0].sent == PACKET_SIZE {
        assert Delivered(attempts)[1..] == more;
      } else {
        assert Delivered(attempts) == more;
      }
    }
  }

  predicate Subsequence(a: seq<Command>, b: seq<Command>) {
    if a == [] then true
    else if b == [] then false
    else (a[0] == b[0] && Subsequence(a[1..], b[1..])) || Subsequence(a, b[1..])
  }

  lemma {:induction false} DeliveredInOrder(attempts: seq<Attempt>)
    ensures Subsequence(Delivered(attempts), Commands(attempts))
  {
    if attempts != [] {
      DeliveredInOrder(attempts[1..]);
      CommandsCons(attempts);
      assert Commands(attempts)[1..] == Commands(attempts[1..]);
      if attempts[0].sent == PACKET_SIZE {
        assert Delivered(attempts)[1..] == Delivered(attempts[1..]);
      } else {
        assert Delivered(attempts) == Delivered(attempts[1..]);
      }
    }
  }

  /** A client whose sends were each complete or failed decodes exactly the commands that were fully
      sent, in the order in which it was due them. */
  lemma ClientDecodesWhatWasSent(actions: seq<Action>, id: nat)
    requires IsRun(INIT, actions) && Run(INIT, actions).owner.Free?
    requires AllOrNothing(AttemptsOn(Run(INIT, actions), id))
    ensures var s := Run(INIT, actions);
            var on := AttemptsOn(s, id);
            && SentInRange(on)
            && DecodeStream(Bytes(on)) == Some(Delivered(on))
            && Subsequence(Delivered(on), Due(s.history, id))
  {
    var on := AttemptsOn(Run(INIT, actions), id);
    RunKeepsInv(INIT, actions);
    ReplayIsExact(actions, id);
    DeliveredBytes(on);
    DecodeOfEncodeStream(Delivered(on));
    DeliveredInOrder(on);
  }
}

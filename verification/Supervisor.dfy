/**
 The per-host supervisor of the fleet: idle, dial, hold a session under heartbeat, park on
 a terminal error, back off and retry. User actions can arrive at every wait.

 `Next` says what one event does at the wait it arrives at; `Fold` runs it over a whole
 sequence. Module HostSupervisor is the nested loops, proved to do the same. Time is in seconds.
 */
module Supervisor {
  import opened Wrappers

  const HEARTBEAT: nat := 30
  const DEGRADED_AT: nat := 1
  const DISCONNECTED_AT: nat := 3
  const RESET_AFTER: nat := 30
  const LADDER: seq<nat> := [1, 2, 5, 15, 60]

  type Capability = string

  datatype HostState = Disconnected | Connecting | Connected | Degraded | AuthFailed | HostKeyMismatch

  datatype Action = Reconnect | Disconnect

  /** How one dial ended. An established session carries the result and length of the agent deploy. */
  datatype Dial =
    | Established(agent: Option<seq<Capability>>, deploy: nat)
    | HostKeyRejected
    | AuthRejected
    | OtherError
    | TaskLost

  /** What a wait can end with. `wait`, `took` and `late` are the time it took, beyond any timer. */
  datatype Input =
    | Act(action: Action, wait: nat)
    | Closed
    | DialDone(dial: Dial, took: nat)
    | Tick(ok: bool, late: nat)
    | Elapsed(late: nat)

  datatype Point =
    | Parked
    | Idle
    | Dialing(since: nat)
    | Session(since: nat, began: nat, due: nat, misses: nat, shown: HostState)
    | Terminal
    | Backoff(delay: nat)
    | Exited

  /** What a run leaves behind, in order. `Lost` is a session ended by its heartbeat. */
  datatype Entry =
    | Emit(state: HostState)
    | Caps(caps: seq<Capability>)
    | Consumed(action: Action)
    | Beat(ok: bool)
    | Lost(held: nat)
    | Wait(delay: nat)

  /** `registered`: the session held put an agent in the daemon's pool. Whose is there later, module AgentPool says. */
  datatype Sup = Sup(point: Point, wanted: bool, backoff: nat, clock: nat, registered: bool, trace: seq<Entry>)

  datatype SessionEnd = HeartbeatFailed | ReconnectRequested | DisconnectRequested | Shutdown

  datatype BackoffEnd = WaitElapsed | WaitReconnect | WaitDisconnect | WaitShutdown

  // ---- one event ---------------------------------------------------------------

  predicate Applicable(point: Point, input: Input) {
    && !point.Exited?
    && (input.DialDone? ==> point.Dialing?)
    && (input.Tick? ==> point.Session?)
    && (input.Elapsed? ==> point.Backoff?)
  }

  function Log(s: Sup, e: Entry): Sup {
    s.(trace := s.trace + [e])
  }

  /** The top of the outer loop. */
  function LoopTop(s: Sup): Sup {
    if s.wanted then Log(s, Emit(Connecting)).(point := Dialing(s.clock)) else s.(point := Idle)
  }

  function Delay(backoff: nat): nat {
    LADDER[if backoff < |LADDER| then backoff else |LADDER| - 1]
  }

  function Bump(backoff: nat): nat {
    if backoff + 1 < |LADDER| then backoff + 1 else |LADDER| - 1
  }

  /** Emit Disconnected and sleep on the ladder. */
  function Retry(s: Sup): Sup {
    var delay := Delay(s.backoff);
    Log(Log(s, Emit(Disconnected)), Wait(delay)).(point := Backoff(delay))
  }

  function BackoffOver(s: Sup, how: BackoffEnd): Sup {
    match how
    case WaitElapsed => LoopTop(s.(backoff := Bump(s.backoff)))
    case WaitReconnect => LoopTop(s.(backoff := 0))
    case WaitDisconnect => LoopTop(s.(wanted := false))
    case WaitShutdown => s.(point := Exited)
  }

  /** Leave the terminal park. */
  function TerminalOver(s: Sup, reconnect: bool): Sup {
    if reconnect then LoopTop(Log(s, Emit(Disconnected)).(backoff := 0)) else s.(point := Exited)
  }

  /** A session is over: its host's agent leaves the pool, then go where its end leads. `since` is when the dial began. */
  function SessionOver(s: Sup, since: nat, how: SessionEnd): Sup {
    var s := Log(s, Caps([])).(registered := false);
    match how
    case HeartbeatFailed =>
      var held := if s.clock < since then 0 else s.clock - since;
      Retry(Log(s, Lost(held)).(backoff := if held >= RESET_AFTER then 0 else s.backoff))
    case ReconnectRequested => LoopTop(Log(s, Emit(Disconnected)).(backoff := 0))
    case DisconnectRequested => LoopTop(Log(s, Emit(Disconnected)).(wanted := false))
    case Shutdown => s.(point := Exited)
  }

  function DialOver(s: Sup, since: nat, dial: Dial): Sup {
    match dial
    case Established(agent, deploy) =>
      var clock := s.clock + deploy;
      var s := Log(Log(s, Emit(Connected)), Caps(if agent.Some? then agent.value else []));
      s.(clock := clock, registered := agent.Some?, point := Session(since, clock, clock + HEARTBEAT, 0, Connected))
    case HostKeyRejected => Log(s, Emit(HostKeyMismatch)).(point := Terminal)
    case AuthRejected => Log(s, Emit(AuthFailed)).(point := Terminal)
    case OtherError => Retry(s)
    case TaskLost => Retry(s)
  }

  /** The heartbeat fires at its deadline or later, and skips the deadlines it missed. */
  function TickTime(clock: nat, due: nat, late: nat): nat {
    (if clock < due then due else clock) + late
  }

  function NextDue(began: nat, now: nat): nat
    requires began <= now
    ensures now < NextDue(began, now) <= now + 30 && (NextDue(began, now) - began) % 30 == 0
  {
    began + HEARTBEAT * ((now - began) / HEARTBEAT + 1)
  }

  function Heartbeat(s: Sup, ok: bool, late: nat): Sup
    requires s.point.Session?
  {
    var x := s.point;
    var now := TickTime(s.clock, x.due, late);
    var due := if x.began <= now then NextDue(x.began, now) else x.due;
    var s := Log(s, Beat(ok)).(clock := now);
    if ok then
      if x.misses > 0 && x.shown == Degraded
      then Log(s, Emit(Connected)).(point := x.(due := due, misses := 0, shown := Connected))
      else s.(point := x.(due := due, misses := 0))
    else if x.misses + 1 >= DISCONNECTED_AT then SessionOver(s, x.since, HeartbeatFailed)
    else if x.misses + 1 >= DEGRADED_AT && x.shown != Degraded
    then Log(s, Emit(Degraded)).(point := x.(due := due, misses := x.misses + 1, shown := Degraded))
    else s.(point := x.(due := due, misses := x.misses + 1))
  }

  function OnAction(s: Sup, action: Action): Sup
    requires !s.point.Exited?
  {
    match s.point
    case Parked => if action.Reconnect? then Log(s, Emit(AuthFailed)) else s
    case Idle => LoopTop(if action.Reconnect? then s.(wanted := true, backoff := 0) else s)
    case Dialing(_) =>
      if action.Reconnect? then LoopTop(s.(backoff := 0))
      else LoopTop(Log(s, Emit(Disconnected)).(wanted := false))
    case Session(since, _, _, _, _) =>
      SessionOver(s, since, if action.Reconnect? then ReconnectRequested else DisconnectRequested)
    case Terminal => if action.Reconnect? then TerminalOver(s, true) else s
    case Backoff(_) => BackoffOver(s, if action.Reconnect? then WaitReconnect else WaitDisconnect)
  }

  function OnClosed(s: Sup): Sup {
    if s.point.Session? then SessionOver(s, s.point.since, Shutdown) else s.(point := Exited)
  }

  /** The effect of one event; one that cannot happen at the current wait changes nothing. */
  function Next(s: Sup, input: Input): Sup {
    if !Applicable(s.point, input) then s else
      match input
      case Act(action, wait) => OnAction(Log(s, Consumed(action)).(clock := s.clock + wait), action)
      case Closed => OnClosed(s)
      case DialDone(dial, took) => DialOver(s.(clock := s.clock + took), s.point.since, dial)
      case Tick(ok, late) => Heartbeat(s, ok, late)
      case Elapsed(late) => BackoffOver(s.(clock := s.clock + s.point.delay + late), WaitElapsed)
  }

  /** A supervisor starts by showing AuthFailed and parking if the host needs ProxyJump, else Disconnected. */
  function Start(jump: bool, autoconnect: bool): Sup {
    if jump then Sup(Parked, false, 0, 0, false, [Emit(AuthFailed)])
    else LoopTop(Sup(Idle, autoconnect, 0, 0, false, [Emit(Disconnected)]))
  }

  function Fold(s: Sup, inputs: seq<Input>): Sup {
    if inputs == [] then s else Next(Fold(s, inputs[..|inputs| - 1]), inputs[|inputs| - 1])
  }

  lemma FoldStep(s: Sup, inputs: seq<Input>, n: nat)
    requires n < |inputs|
    ensures Fold(s, inputs[..n + 1]) == Next(Fold(s, inputs[..n]), inputs[n])
  {
    assert inputs[..n + 1][..n] == inputs[..n];
  }

  /** Nothing that arrives after the supervisor returned has an effect. */
  lemma {:induction false} ExitedStays(s: Sup, inputs: seq<Input>, n: nat)
    requires n <= |inputs| && Fold(s, inputs[..n]).point.Exited?
    ensures Fold(s, inputs) == Fold(s, inputs[..n])
  {
    if n == |inputs| {
      assert inputs[..n] == inputs;
    } else {
      var init := inputs[..|inputs| - 1];
      assert init[..n] == inputs[..n];
      ExitedStays(s, init, n);
    }
  }
}

/** The supervisor as the nested loops that run it, each proved to follow `Supervisor.Next`. */
module HostSupervisor {
  import opened Wrappers
  import opened Supervisor

  /** Where control goes next: the top of the loop, the backoff, or out, waiting for good or returned. */
  datatype Onward = Top | Sleep | Stop

  /** One supervisor over the events that will reach it; `next` counts those it has taken. */
  class HostSupervisor {
    const jump: bool
    const inputs: seq<Input>
    var next: nat
    var shouldConnect: bool
    var backoffIdx: nat
    var clock: nat
    var registered: bool
    var trace: seq<Entry>
    ghost const start: Sup

    constructor (jump: bool, autoconnect: bool, inputs: seq<Input>)
      ensures this.jump == jump && this.inputs == inputs && start == Start(jump, autoconnect) && Fresh()
    {
      this.jump := jump;
      this.inputs := inputs;
      next := 0;
      shouldConnect := autoconnect && !jump;
      backoffIdx, clock, registered, trace := 0, 0, false, [];
      start := Start(jump, autoconnect);
    }

    /** Nothing has been taken or shown yet. */
    ghost predicate Fresh()
      reads this
    {
      && next == 0 && backoffIdx == 0 && clock == 0 && !registered && trace == []
      && start == Start(jump, shouldConnect) && (jump ==> !shouldConnect)
    }

    /** The fields, as a state of the specification waiting at `point`. */
    ghost function View(point: Point): Sup
      reads this
    {
      Sup(point, shouldConnect, backoffIdx, clock, registered, trace)
    }

    /** What the specification makes of the events taken so far. */
    ghost function Spec(): Sup
      reads this
      requires next <= |inputs|
    {
      Fold(start, inputs[..next])
    }

    /** `onward` is where the specification is too; `last` matters only when it stops. */
    ghost predicate Follows(onward: Onward, last: Point)
      reads this
    {
      && next <= |inputs|
      && match onward
         case Top => Spec() == LoopTop(View(Idle))
         case Sleep => Spec() == Log(View(Backoff(Delay(backoffIdx))), Wait(Delay(backoffIdx)))
         case Stop => Fold(start, inputs) == View(last)
    }

    method EmitState(state: HostState)
      modifies this`trace
      ensures trace == old(trace) + [Emit(state)]
    {
      trace := trace + [Emit(state)];
    }

    /** Wait at `point` for the next event that can happen there; none if no more events arrive. */
    method Await(point: Point) returns (input: Option<Input>)
      requires next <= |inputs| && Spec() == View(point)
      modifies this`next
      ensures old(next) <= next <= |inputs|
      ensures input.None? ==> Fold(start, inputs) == View(point)
      ensures input.Some? ==>
                old(next) < next && Applicable(point, input.value) && Spec() == Next(View(point), input.value)
    {
      while next < |inputs|
        invariant old(next) <= next <= |inputs| && Spec() == View(point)
      {
        var it := inputs[next];
        FoldStep(start, inputs, next);
        next := next + 1;
        if Applicable(point, it) {
          return Some(it);
        }
      }
      assert inputs[..next] == inputs;
      return None;
    }

    /** Sleep on the ladder unless an action arrives first. */
    method WaitBackoff(delay: nat) returns (how: Option<BackoffEnd>)
      requires next <= |inputs| && Spec() == View(Backoff(delay))
      modifies this`next, this`clock, this`trace
      ensures old(next) <= next <= |inputs|
      ensures how.None? ==> Fold(start, inputs) == View(Backoff(delay))
      ensures how.Some? ==> old(next) < next && Spec() == BackoffOver(View(Backoff(delay)), how.value)
    {
      var input := Await(Backoff(delay));
      if input.None? {
        return None;
      }
      match input.value
      case Act(action, wait) =>
        trace, clock := trace + [Consumed(action)], clock + wait;
        return Some(if action.Reconnect? then WaitReconnect else WaitDisconnect);
      case Closed => return Some(WaitShutdown);
      case Elapsed(late) =>
        clock := clock + delay + late;
        return Some(WaitElapsed);
    }

    /** Park on a terminal error until a Reconnect; a Disconnect is swallowed. */
    method AwaitTerminalReset() returns (reconnect: Option<bool>)
      requires next <= |inputs| && Spec() == View(Terminal)
      modifies this`next, this`clock, this`trace
      ensures old(next) <= next <= |inputs|
      ensures reconnect.None? ==> Fold(start, inputs) == View(Terminal)
      ensures reconnect.Some? ==> old(next) < next && Spec() == TerminalOver(View(Terminal), reconnect.value)
    {
      while true
        invariant old(next) <= next <= |inputs| && Spec() == View(Terminal)
        decreases |inputs| - next
      {
        var input := Await(Terminal);
        if input.None? {
          return None;
        }
        match input.value
        case Act(action, wait) =>
          trace, clock := trace + [Consumed(action)], clock + wait;
          if action.Reconnect? {
            return Some(true);
          }
        case Closed => return Some(false);
      }
    }

    /** Heartbeat until the session dies or an action ends it. */
    method RunConnectedSession(since: nat) returns (how: Option<SessionEnd>, ghost last: Point)
      requires next <= |inputs| && Spec() == View(Session(since, clock, clock + HEARTBEAT, 0, Connected))
      modifies this`next, this`clock, this`trace
      ensures old(next) <= next <= |inputs| && last.Session?
      ensures how.None? ==> Fold(start, inputs) == View(last)
      ensures how.Some? ==> old(next) < next && Spec() == SessionOver(View(last), since, how.value)
    {
      hide Fold, SessionOver;
      var began, due := clock, clock + HEARTBEAT;
      var missCounter, currentState := 0, Connected;
      while true
        invariant old(next) <= next <= |inputs|
        invariant began <= due && Spec() == View(Session(since, began, due, missCounter, currentState))
        decreases |inputs| - next
      {
        var here := Session(since, began, due, missCounter, currentState);
        last := here;
        var input := Await(here);
        if input.None? {
          return None, last;
        }
        match input.value
        case Act(action, wait) =>
          trace, clock := trace + [Consumed(action)], clock + wait;
          return Some(if action.Reconnect? then ReconnectRequested else DisconnectRequested), last;
        case Closed => return Some(Shutdown), last;
        case Tick(ok, late) =>
          clock := TickTime(clock, due, late);
          due := NextDue(began, clock);
          trace := trace + [Beat(ok)];
          if ok {
            if missCounter > 0 && currentState == Degraded {
              currentState := Connected;
              EmitState(currentState);
            }
            missCounter := 0;
          } else {
            missCounter := missCounter + 1;
            if missCounter >= DISCONNECTED_AT {
              return Some(HeartbeatFailed), last;
            }
            if missCounter >= DEGRADED_AT && currentState != Degraded {
              currentState := Degraded;
              EmitState(currentState);
            }
          }
      }
    }

    /** A host behind ProxyJump never dials: it re-emits AuthFailed for every Reconnect. */
    method RunParked() returns (ghost last: Point)
      requires Fresh() && jump
      modifies this`next, this`clock, this`trace
      ensures next <= |inputs| && Fold(start, inputs) == View(last)
    {
      EmitState(AuthFailed);
      assert inputs[..|inputs|] == inputs;
      while true
        invariant next <= |inputs| && Spec() == View(Parked)
        decreases |inputs| - next
      {
        var input := Await(Parked);
        if input.None? {
          return Parked;
        }
        match input.value
        case Act(action, wait) =>
          trace, clock := trace + [Consumed(action)], clock + wait;
          if action.Reconnect? {
            EmitState(AuthFailed);
          }
        case Closed =>
          ExitedStays(start, inputs, next);
          return Exited;
      }
    }

    /** Terminal error: park, then start over. */
    method Park(state: HostState) returns (onward: Onward, ghost last: Point)
      requires next <= |inputs| && Spec() == Log(View(Terminal), Emit(state))
      modifies this
      ensures old(next) <= next && Follows(onward, last) && (onward.Top? ==> old(next) < next)
    {
      EmitState(state);
      var reset := AwaitTerminalReset();
      if reset.None? {
        return Stop, Terminal;
      }
      if !reset.value {
        ExitedStays(start, inputs, next);
        return Stop, Exited;
      }
      backoffIdx := 0;
      EmitState(Disconnected);
      return Top, Idle;
    }

    /** A session was established: deploy, heartbeat, clean up. */
    method Hold(connectStart: nat, agent: Option<seq<Capability>>, deploy: nat)
      returns (onward: Onward, ghost last: Point)
      requires next <= |inputs| && Spec() == DialOver(View(Idle), connectStart, Established(agent, deploy))
      modifies this
      ensures old(next) <= next && Follows(onward, last) && (!onward.Stop? ==> old(next) < next)
    {
      hide Fold, SessionOver;
      EmitState(Connected);
      trace := trace + [Caps(if agent.Some? then agent.value else [])];
      clock, registered := clock + deploy, agent.Some?;
      var ended, at := RunConnectedSession(connectStart);
      if ended.None? {
        return Stop, at;
      }
      onward, last := EndSession(connectStart, ended.value, at);
    }

    /** The session is over: drop the agent, then go where its end leads. */
    method EndSession(connectStart: nat, ended: SessionEnd, ghost at: Point) returns (onward: Onward, ghost last: Point)
      requires next <= |inputs| && Spec() == SessionOver(View(at), connectStart, ended)
      modifies this
      ensures next == old(next) && Follows(onward, last)
    {
      hide Fold, Delay;
      trace, registered := trace + [Caps([])], false;
      match ended
      case HeartbeatFailed =>
        var held := if clock < connectStart then 0 else clock - connectStart;
        trace := trace + [Lost(held)];
        if held >= RESET_AFTER {
          backoffIdx := 0;
        }
        EmitState(Disconnected);
        return Sleep, Idle;
      case ReconnectRequested =>
        backoffIdx := 0;
        EmitState(Disconnected);
        return Top, Idle;
      case DisconnectRequested =>
        EmitState(Disconnected);
        shouldConnect := false;
        return Top, Idle;
      case Shutdown =>
        ExitedStays(start, inputs, next);
        return Stop, Exited;
    }

    /** One dial, and everything up to the next dial or wait. */
    method Attempt(connectStart: nat) returns (onward: Onward, ghost last: Point)
      requires next <= |inputs| && Spec() == View(Dialing(connectStart))
      modifies this
      ensures old(next) <= next && Follows(onward, last) && (!onward.Stop? ==> old(next) < next)
    {
      hide Fold, SessionOver, BackoffOver, TerminalOver, Delay;
      var outcome := Await(Dialing(connectStart));
      if outcome.None? {
        return Stop, Dialing(connectStart);
      }
      match outcome.value
      case Act(action, wait) =>
        trace, clock := trace + [Consumed(action)], clock + wait;
        if action.Reconnect? {
          backoffIdx := 0;
        } else {
          EmitState(Disconnected);
          shouldConnect := false;
        }
        return Top, Idle;
      case Closed =>
        ExitedStays(start, inputs, next);
        return Stop, Exited;
      case DialDone(dial, took) =>
        clock := clock + took;
        match dial
        case Established(agent, deploy) =>
          onward, last := Hold(connectStart, agent, deploy);
        case HostKeyRejected =>
          onward, last := Park(HostKeyMismatch);
        case AuthRejected =>
          onward, last := Park(AuthFailed);
        case OtherError =>
          EmitState(Disconnected);
          return Sleep, Idle;
        case TaskLost =>
          EmitState(Disconnected);
          return Sleep, Idle;
    }

    /** Wait on the ladder before the next dial. */
    method SleepOnLadder() returns (onward: Onward, ghost last: Point)
      requires Follows(Sleep, Idle)
      modifies this
      ensures old(next) <= next && Follows(onward, last) && !onward.Sleep?
    {
      var delay := LADDER[if backoffIdx < |LADDER| then backoffIdx else |LADDER| - 1];
      trace := trace + [Wait(delay)];
      var slept := WaitBackoff(delay);
      if slept.None? {
        return Stop, Backoff(delay);
      }
      match slept.value
      case WaitElapsed =>
        backoffIdx := Bump(backoffIdx);
        return Top, Idle;
      case WaitReconnect =>
        backoffIdx := 0;
        return Top, Idle;
      case WaitDisconnect =>
        shouldConnect := false;
        return Top, Idle;
      case WaitShutdown =>
        ExitedStays(start, inputs, next);
        return Stop, Exited;
    }

    /** Idle until a Reconnect. */
    method WaitForReconnect() returns (onward: Onward, ghost last: Point)
      requires next <= |inputs| && Spec() == View(Idle) && !shouldConnect
      modifies this
      ensures old(next) <= next && Follows(onward, last) && !onward.Sleep?
      ensures onward.Top? ==> old(next) < next
    {
      var input := Await(Idle);
      if input.None? {
        return Stop, Idle;
      }
      match input.value
      case Act(action, wait) =>
        trace, clock := trace + [Consumed(action)], clock + wait;
        if action.Reconnect? {
          shouldConnect, backoffIdx := true, 0;
        }
        return Top, Idle;
      case Closed =>
        ExitedStays(start, inputs, next);
        return Stop, Exited;
    }

    /** The supervisor over everything that reaches it. */
    method Run() returns (ghost last: Point)
      requires Fresh()
      modifies this
      ensures Fold(start, inputs) == View(last)
    {
      if jump {
        last := RunParked();
        return;
      }
      EmitState(Disconnected);
      var onward := Top;
      last := Idle;
      while !onward.Stop?
        invariant Follows(onward, last) && !onward.Sleep?
        decreases |inputs| - next, !onward.Stop?
      {
        if !shouldConnect {
          onward, last := WaitForReconnect();
        } else {
          EmitState(Connecting);
          onward, last := Attempt(clock);
          if onward.Sleep? {
            onward, last := SleepOnLadder();
          }
        }
      }
    }
  }
}

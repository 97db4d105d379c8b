/** Where one event takes a supervisor, in every run, and what the client is shown of it. */
module SupervisorMoves {
  import opened Wrappers
  import opened Supervisor
  import opened SupervisorTheorems

  lemma Snocs(trace: seq<Entry>, e: Entry)
    ensures States(trace + [e]) == States(trace) + if e.Emit? then [e.state] else []
    ensures Streak(trace + [e]) ==
            if e == Consumed(Reconnect) || e.Lost? then []
            else if e.Wait? then Streak(trace) + [e.delay] else Streak(trace)
    ensures Summarise(trace + [e]) == Read(Summarise(trace), e)
  {
    JumpSnoc(trace, e);
    StreakSnoc(trace, e);
    SummariseSnoc(trace, e);
  }

  /** The k-th wait of a row of failures. */
  function Rung(k: nat): nat {
    [1, 2, 5, 15, 60][if k < 4 then k else 4]
  }

  lemma RungIs(s: Sup)
    requires Inv(s) && s.point.Dialing?
    ensures Delay(s.backoff) == Rung(|Streak(s.trace)|)
  {
    hide Summarise, Streak;
    LadderStreak(s.trace);
  }

  lemma RetryMoves(s: Sup)
    ensures
      var t := Retry(s);
      && t.point == Backoff(Delay(s.backoff)) && t.registered == s.registered
      && States(t.trace) == States(s.trace) + [Disconnected]
      && Streak(t.trace) == Streak(s.trace) + [Delay(s.backoff)]
      && Summarise(t.trace).advertised == Summarise(s.trace).advertised
  {
    hide States, Streak, Summarise, Delay;
    Snocs(s.trace, Emit(Disconnected));
    Snocs(s.trace + [Emit(Disconnected)], Wait(Delay(s.backoff)));
  }

  lemma TopMoves(s: Sup)
    ensures
      var t := LoopTop(s);
      && t.registered == s.registered && t.wanted == s.wanted && t.backoff == s.backoff
      && (s.wanted ==> t.point.Dialing? && States(t.trace) == States(s.trace) + [Connecting])
      && (!s.wanted ==> t.point.Idle? && States(t.trace) == States(s.trace))
      && Streak(t.trace) == Streak(s.trace) && Summarise(t.trace).advertised == Summarise(s.trace).advertised
  {
    hide States, Streak, Summarise;
    Snocs(s.trace, Emit(Connecting));
  }

  // ---- a dial -----------------------------------------------------------------------------------

  /** What a client is shown when a dial is over. */
  predicate ShownFor(dial: Dial, state: HostState) {
    && (dial.Established? <==> state == Connected)
    && (dial.HostKeyRejected? <==> state == HostKeyMismatch)
    && (dial.AuthRejected? <==> state == AuthFailed)
    && (dial.OtherError? || dial.TaskLost? <==> state == Disconnected)
  }

  /**
   In every run, a dial ends in a session exactly when it was established, parks the host exactly
   when its key or the login was rejected, and is retried exactly when anything else went wrong;
   one state is shown, which says which. A retry waits for the rung of the ladder that is as high
   as the row of failures is long. Capabilities are advertised for a session, and only if an
   agent was deployed.
   */
  lemma DialDecides(autoconnect: bool, inputs: seq<Input>, dial: Dial, took: nat)
    requires Fold(Start(false, autoconnect), inputs).point.Dialing?
    ensures
      var s := Fold(Start(false, autoconnect), inputs);
      var t := Next(s, DialDone(dial, took));
      && (t.point.Session? <==> dial.Established?)
      && (t.point.Terminal? <==> dial.HostKeyRejected? || dial.AuthRejected?)
      && (t.point.Backoff? <==> dial.OtherError? || dial.TaskLost?)
      && (exists state :: ShownFor(dial, state) && States(t.trace) == States(s.trace) + [state])
      && (t.point.Backoff? ==> t.point.delay == Rung(|Streak(s.trace)|))
      && Streak(t.trace) == Streak(s.trace) + (if t.point.Backoff? then [t.point.delay] else [])
      && (t.point.Session? ==>
            && t.clock == s.clock + took + dial.deploy
            && t.point == Session(s.point.since, t.clock, t.clock + 30, 0, Connected))
      && (t.registered <==> dial.Established? && dial.agent.Some?)
      && Summarise(t.trace).advertised == if t.registered then dial.agent.value else []
  {
    hide Fold, DialOver, States, Streak, Summarise, Inv, Rung, ShownFor;
    var s := Fold(Start(false, autoconnect), inputs);
    RunInv(autoconnect, inputs);
    RungIs(s);
    DialMoves(s, dial, took);
  }

  lemma DialMoves(s: Sup, dial: Dial, took: nat)
    requires Inv(s) && s.point.Dialing? && Delay(s.backoff) == Rung(|Streak(s.trace)|)
    ensures
      var t := DialOver(s.(clock := s.clock + took), s.point.since, dial);
      && (t.point.Session? <==> dial.Established?)
      && (t.point.Terminal? <==> dial.HostKeyRejected? || dial.AuthRejected?)
      && (t.point.Backoff? <==> dial.OtherError? || dial.TaskLost?)
      && (exists state :: ShownFor(dial, state) && States(t.trace) == States(s.trace) + [state])
      && (t.point.Backoff? ==> t.point.delay == Rung(|Streak(s.trace)|))
      && Streak(t.trace) == Streak(s.trace) + (if t.point.Backoff? then [t.point.delay] else [])
      && (t.point.Session? ==>
            && t.clock == s.clock + took + dial.deploy
            && t.point == Session(s.point.since, t.clock, t.clock + 30, 0, Connected))
      && (t.registered <==> dial.Established? && dial.agent.Some?)
      && Summarise(t.trace).advertised == if t.registered then dial.agent.value else []
  {
    hide States, Streak, Summarise, Delay, Rung, Retry;
    assert Streak(s.trace) + [] == Streak(s.trace);
    match dial
    case Established(agent, deploy) =>
      var caps := if agent.Some? then agent.value else [];
      Snocs(s.trace, Emit(Connected));
      Snocs(s.trace + [Emit(Connected)], Caps(caps));
      assert ShownFor(dial, Connected);
    case HostKeyRejected =>
      Snocs(s.trace, Emit(HostKeyMismatch));
      assert ShownFor(dial, HostKeyMismatch);
    case AuthRejected =>
      Snocs(s.trace, Emit(AuthFailed));
      assert ShownFor(dial, AuthFailed);
    case OtherError =>
      RetryMoves(s.(clock := s.clock + took));
      assert ShownFor(dial, Disconnected);
    case TaskLost =>
      RetryMoves(s.(clock := s.clock + took));
      assert ShownFor(dial, Disconnected);
  }

  // ---- an action --------------------------------------------------------------------------------

  /** What is shown before the next dial, or before idling, when an action ends what goes on at `point`. */
  function Farewell(point: Point, action: Action): seq<HostState> {
    if point.Session? || (point.Terminal? && action.Reconnect?) || (point.Dialing? && action.Disconnect?)
    then [Disconnected] else []
  }

  /**
   In every run, a Reconnect starts a dial at once, whatever goes on, with the ladder back at its
   first rung; a Disconnect leaves the host idle until a Reconnect, unless it is parked for good,
   where it changes nothing. Either ends a session, whose agent leaves the pool and whose
   capabilities are taken back.
   */
  lemma ActionDecides(autoconnect: bool, inputs: seq<Input>, action: Action, wait: nat)
    requires !Fold(Start(false, autoconnect), inputs).point.Exited?
    ensures
      var s := Fold(Start(false, autoconnect), inputs);
      var t := Next(s, Act(action, wait));
      && !t.registered && Summarise(t.trace).advertised == []
      && (action.Reconnect? ==>
            && t.point.Dialing? && t.wanted && t.backoff == 0 && Streak(t.trace) == []
            && States(t.trace) == States(s.trace) + Farewell(s.point, action) + [Connecting])
      && (action.Disconnect? ==>
            && Streak(t.trace) == Streak(s.trace)
            && (if s.point.Terminal? then t.point.Terminal? else t.point.Idle? && !t.wanted)
            && States(t.trace) == States(s.trace) + Farewell(s.point, action))
  {
    hide Fold, OnAction, States, Streak, Summarise, Farewell;
    var s := Fold(Start(false, autoconnect), inputs);
    RunInv(autoconnect, inputs);
    Snocs(s.trace, Consumed(action));
    var u := Log(s, Consumed(action)).(clock := s.clock + wait);
    assert States(s.trace) + [] == States(s.trace);
    if action.Reconnect? {
      ReconnectMoves(u);
    } else {
      DisconnectMoves(u);
    }
  }

  /** The session is over for an action; nothing is shown yet of what comes next. */
  lemma EndMoves(s: Sup)
    ensures
      var t := Log(Log(s, Caps([])).(registered := false), Emit(Disconnected));
      && States(t.trace) == States(s.trace) + [Disconnected] && Streak(t.trace) == Streak(s.trace)
      && Summarise(t.trace).advertised == []
  {
    hide States, Streak, Summarise;
    Snocs(s.trace, Caps([]));
    Snocs(s.trace + [Caps([])], Emit(Disconnected));
  }

  lemma ShowMoves(s: Sup)
    ensures
      var t := Log(s, Emit(Disconnected));
      && States(t.trace) == States(s.trace) + [Disconnected] && Streak(t.trace) == Streak(s.trace)
      && Summarise(t.trace).advertised == Summarise(s.trace).advertised
  {
    hide States, Streak, Summarise;
    Snocs(s.trace, Emit(Disconnected));
  }

  lemma ReconnectMoves(s: Sup)
    requires !s.point.Parked? && !s.point.Exited?
    requires s.point.Idle? || s.wanted
    requires !s.point.Session? ==> !s.registered && Summarise(s.trace).advertised == []
    ensures
      var t := OnAction(s, Reconnect);
      && !t.registered && Summarise(t.trace).advertised == []
      && t.point.Dialing? && t.wanted && t.backoff == 0 && Streak(t.trace) == Streak(s.trace)
      && States(t.trace) == States(s.trace) + Farewell(s.point, Reconnect) + [Connecting]
  {
    hide States, Streak, Summarise, LoopTop;
    assert States(s.trace) + [] == States(s.trace);
    match s.point
    case Idle => TopMoves(s.(wanted := true, backoff := 0));
    case Dialing(_) => TopMoves(s.(backoff := 0));
    case Session(_, _, _, _, _) =>
      EndMoves(s);
      TopMoves(Log(Log(s, Caps([])).(registered := false), Emit(Disconnected)).(backoff := 0));
    case Terminal =>
      ShowMoves(s);
      TopMoves(Log(s, Emit(Disconnected)).(backoff := 0));
    case Backoff(_) => TopMoves(s.(backoff := 0));
  }

  lemma DisconnectMoves(s: Sup)
    requires !s.point.Parked? && !s.point.Exited?
    requires s.point.Idle? ==> !s.wanted
    requires !s.point.Session? ==> !s.registered && Summarise(s.trace).advertised == []
    ensures
      var t := OnAction(s, Disconnect);
      && !t.registered && Summarise(t.trace).advertised == []
      && Streak(t.trace) == Streak(s.trace)
      && (if s.point.Terminal? then t.point.Terminal? else t.point.Idle? && !t.wanted)
      && States(t.trace) == States(s.trace) + Farewell(s.point, Disconnect)
  {
    hide States, Streak, Summarise, LoopTop;
    assert States(s.trace) + [] == States(s.trace);
    match s.point
    case Idle => TopMoves(s);
    case Dialing(_) =>
      ShowMoves(s);
      TopMoves(Log(s, Emit(Disconnected)).(wanted := false));
    case Session(_, _, _, _, _) =>
      EndMoves(s);
      TopMoves(Log(Log(s, Caps([])).(registered := false), Emit(Disconnected)).(wanted := false));
    case Terminal =>
    case Backoff(_) => TopMoves(s.(wanted := false));
  }

  // ---- timers, heartbeats and the end -----------------------------------------------------------

  /** In every run, a backoff that is over, no earlier than the wait asked for, leads to the next dial. */
  lemma ElapsedDecides(autoconnect: bool, inputs: seq<Input>, late: nat)
    requires Fold(Start(false, autoconnect), inputs).point.Backoff?
    ensures
      var s := Fold(Start(false, autoconnect), inputs);
      var t := Next(s, Elapsed(late));
      && t.point == Dialing(t.clock) && t.clock >= s.clock + s.point.delay
      && States(t.trace) == States(s.trace) + [Connecting] && Streak(t.trace) == Streak(s.trace)
  {
    hide Fold, States, Streak, Summarise, Bump;
    var s := Fold(Start(false, autoconnect), inputs);
    RunInv(autoconnect, inputs);
    TopMoves(s.(clock := s.clock + s.point.delay + late, backoff := Bump(s.backoff)));
  }

  /** In every run, the supervisor returns when its action channel closes, and shows nothing more. */
  lemma ClosedDecides(autoconnect: bool, inputs: seq<Input>)
    ensures
      var s := Fold(Start(false, autoconnect), inputs);
      var t := Next(s, Closed);
      && t.point.Exited? && !t.registered && Summarise(t.trace).advertised == []
      && States(t.trace) == States(s.trace)
  {
    hide Fold, States, Summarise;
    var s := Fold(Start(false, autoconnect), inputs);
    RunInv(autoconnect, inputs);
    Snocs(s.trace, Caps([]));
    assert States(s.trace) + [] == States(s.trace);
  }

  /**
   In every run, a heartbeat shows Degraded at the first failure in a row, Connected at the first
   success after one, Disconnected at the third failure, and otherwise nothing.
   */
  lemma HeartbeatShows(autoconnect: bool, inputs: seq<Input>, ok: bool, late: nat)
    requires Fold(Start(false, autoconnect), inputs).point.Session?
    ensures
      var s := Fold(Start(false, autoconnect), inputs);
      var t := Next(s, Tick(ok, late));
      var before := Misses(s.trace);
      && before <= 2 && Misses(t.trace) == (if ok then 0 else before + 1)
      && States(t.trace) == States(s.trace)
         + if ok && before > 0 then [Connected]
           else if !ok && before == 0 then [Degraded]
           else if !ok && before == 2 then [Disconnected]
           else []
  {
    hide Fold, Heartbeat, States, Summarise, Misses, Inv;
    var s := Fold(Start(false, autoconnect), inputs);
    RunInv(autoconnect, inputs);
    BeatMoves(s, ok, late);
  }

  lemma BeatMoves(s: Sup, ok: bool, late: nat)
    requires Inv(s) && s.point.Session?
    ensures
      var t := Heartbeat(s, ok, late);
      var before := Misses(s.trace);
      && before <= 2 && Misses(t.trace) == (if ok then 0 else before + 1)
      && States(t.trace) == States(s.trace)
         + if ok && before > 0 then [Connected]
           else if !ok && before == 0 then [Degraded]
           else if !ok && before == 2 then [Disconnected]
           else []
  {
    hide States, Summarise, Misses, NextDue, SessionOver;
    FaithfulMeans(s.trace);
    Snocs(s.trace, Beat(ok));
    MissesSnoc(s.trace, Beat(ok));
    var u := s.trace + [Beat(ok)];
    Snocs(u, Emit(if ok then Connected else Degraded));
    MissesSnoc(u, Emit(if ok then Connected else Degraded));
    assert States(s.trace) + [] == States(s.trace);
    if !ok && s.point.misses == 2 {
      LostMoves(Log(s, Beat(ok)).(clock := TickTime(s.clock, s.point.due, late)), s.point.since);
    }
  }

  lemma LostMoves(s: Sup, since: nat)
    ensures
      var t := SessionOver(s, since, HeartbeatFailed);
      Misses(t.trace) == Misses(s.trace) && States(t.trace) == States(s.trace) + [Disconnected]
  {
    hide States, Misses, Delay;
    var held := if s.clock < since then 0 else s.clock - since;
    var t1 := s.trace + [Caps([])];
    var t2 := t1 + [Lost(held)];
    var t3 := t2 + [Emit(Disconnected)];
    var wait := Wait(Delay(if held >= RESET_AFTER then 0 else s.backoff));
    Quiet(s.trace, Caps([]));
    Quiet(t1, Lost(held));
    Quiet(t2, Emit(Disconnected));
    Quiet(t3, wait);
    assert SessionOver(s, since, HeartbeatFailed).trace == t3 + [wait];
  }

  lemma Quiet(trace: seq<Entry>, e: Entry)
    requires !e.Beat? && e != Emit(Connecting)
    ensures Misses(trace + [e]) == Misses(trace)
    ensures States(trace + [e]) == if e.Emit? then States(trace) + [e.state] else States(trace)
  {
    MissesSnoc(trace, e);
    StatesSnoc(trace, e);
  }

  /** A host shows Disconnected first, and is dialled unasked exactly when it connects by itself. */
  lemma Begins(autoconnect: bool)
    ensures
      var s := Fold(Start(false, autoconnect), []);
      && (autoconnect ==> s.point == Dialing(0) && States(s.trace) == [Disconnected, Connecting])
      && (!autoconnect ==> s.point == Idle && States(s.trace) == [Disconnected])
  {
    StatesSnoc([], Emit(Disconnected));
    assert [] + [Emit(Disconnected)] == [Emit(Disconnected)];
    StatesSnoc([Emit(Disconnected)], Emit(Connecting));
    hide States;
  }
}

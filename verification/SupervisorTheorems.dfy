/** What every run of a host supervisor guarantees. */
module SupervisorTheorems {
  import opened Wrappers
  import opened Supervisor

  // ---- reading a trace ------------------------------------------------------------

  /** The documented state graph. */
  predicate Edge(a: HostState, b: HostState) {
    match a
    case Disconnected => b == Connecting
    case Connecting => b != Degraded
    case Connected => b == Degraded || b == Disconnected
    case Degraded => b == Connected || b == Disconnected
    case AuthFailed => b == Disconnected
    case HostKeyMismatch => b == Disconnected
  }

  /**
   One pass over a trace. `shown` is the state last shown and `path` says the states follow the
   graph from Disconnected. `muted`: a Disconnect was consumed and no Reconnect since; `obeys`: no
   Connecting was shown while muted. `tries` counts the waits since a Reconnect was consumed or a
   session was lost; `laddered`: every wait was the one that count asks for. `misses` counts
   keepalives failed in a row since the dial; `faithful`: a session was lost only on the third,
   after at least three heartbeats, and none was sent past it. `advertised`: the last capabilities.
   */
  datatype Summary = Summary(shown: Option<HostState>, path: bool, muted: bool, obeys: bool,
                             tries: nat, laddered: bool, misses: nat, faithful: bool,
                             advertised: seq<Capability>)

  function Read(m: Summary, e: Entry): Summary {
    match e
    case Emit(state) =>
      var ok := if m.shown.Some? then Edge(m.shown.value, state) else state == Disconnected;
      m.(shown := Some(state), path := m.path && ok,
         obeys := m.obeys && (state == Connecting ==> !m.muted),
         misses := if state == Connecting then 0 else m.misses)
    case Caps(caps) => m.(advertised := caps)
    case Consumed(action) => m.(muted := action.Disconnect?, tries := if action.Reconnect? then 0 else m.tries)
    case Beat(ok) => m.(misses := if ok then 0 else m.misses + 1, faithful := m.faithful && m.misses < 3)
    case Lost(held) => m.(tries := 0, faithful := m.faithful && m.misses == 3 && held >= 3 * HEARTBEAT)
    case Wait(delay) => m.(tries := m.tries + 1, laddered := m.laddered && delay == Delay(m.tries))
  }

  function Summarise(trace: seq<Entry>): Summary {
    if trace == [] then Summary(None, true, false, true, 0, true, 0, true, [])
    else Read(Summarise(trace[..|trace| - 1]), trace[|trace| - 1])
  }

  lemma SummariseSnoc(trace: seq<Entry>, e: Entry)
    ensures Summarise(trace + [e]) == Read(Summarise(trace), e)
  {
    assert (trace + [e])[..|trace|] == trace;
  }

  lemma LogReads()
    ensures forall s: Sup, e: Entry :: Summarise(Log(s, e).trace) == Read(Summarise(s.trace), e)
  {
    forall s: Sup, e: Entry ensures Summarise(Log(s, e).trace) == Read(Summarise(s.trace), e) {
      SummariseSnoc(s.trace, e);
    }
  }

  // ---- the invariant ----------------------------------------------------------------

  function Capped(n: nat): nat {
    if n < |LADDER| then n else |LADDER| - 1
  }

  /** What the trace says fits the wait the supervisor is at. */
  predicate Fits(m: Summary, s: Sup) {
    match s.point
    case Parked => false
    case Idle => m.shown == Some(Disconnected) && !s.wanted && !s.registered && m.advertised == []
    case Dialing(since) =>
      && m.shown == Some(Connecting) && !m.muted && s.wanted && s.backoff == Capped(m.tries)
      && m.misses == 0 && since <= s.clock && !s.registered && m.advertised == []
    case Session(since, began, due, misses, shown) =>
      && m.shown == Some(shown) && shown == (if misses == 0 then Connected else Degraded)
      && !m.muted && s.wanted && s.backoff == Capped(m.tries)
      && m.misses == misses < 3 && since <= began
      && began + HEARTBEAT * (misses + 1) <= due && (due - began) % HEARTBEAT == 0
      && began <= s.clock
      && (!s.registered ==> m.advertised == [])
    case Terminal =>
      && (m.shown == Some(AuthFailed) || m.shown == Some(HostKeyMismatch))
      && s.wanted && !s.registered && m.advertised == []
    case Backoff(delay) =>
      && m.shown == Some(Disconnected) && !m.muted && s.wanted && m.tries > 0 && s.backoff == Capped(m.tries - 1)
      && delay == Delay(s.backoff) && !s.registered && m.advertised == []
    case Exited => !s.registered && m.advertised == []
  }

  predicate Inv(s: Sup) {
    var m := Summarise(s.trace);
    m.path && m.obeys && m.laddered && m.faithful && Fits(m, s)
  }

  /** Fit for the top of the outer loop. */
  predicate AtTop(s: Sup) {
    var m := Summarise(s.trace);
    && m.path && m.obeys && m.laddered && m.faithful && !s.registered && m.advertised == []
    && (s.wanted ==>
          && (m.shown == Some(Disconnected) || m.shown == Some(Connecting))
          && !m.muted && s.backoff == Capped(m.tries))
    && (!s.wanted ==> m.shown == Some(Disconnected))
  }

  lemma TopFits(s: Sup)
    requires AtTop(s)
    ensures Inv(LoopTop(s))
  {
    hide Summarise;
    SummariseSnoc(s.trace, Emit(Connecting));
  }

  lemma RetryFits(s: Sup)
    requires var m := Summarise(s.trace);
      && m.path && m.obeys && m.laddered && m.faithful && !s.registered && m.advertised == []
      && m.shown.Some? && Edge(m.shown.value, Disconnected) && !m.muted && s.wanted && s.backoff == Capped(m.tries)
    ensures Inv(Retry(s)) && Retry(s).point == Backoff(Delay(s.backoff))
    ensures Summarise(Retry(s).trace).misses == Summarise(s.trace).misses
    ensures Summarise(Retry(s).trace).tries == Summarise(s.trace).tries + 1
  {
    LogReads();
    hide Summarise;
  }

  /** Losing a session to its heartbeat: it was held long enough, so the ladder restarts. */
  lemma LossOver(s: Sup, since: nat)
    requires var m := Summarise(s.trace);
      && m.path && m.obeys && m.laddered && m.faithful && s.wanted
      && (m.shown == Some(Connected) || m.shown == Some(Degraded))
      && !m.muted && m.misses == 3 && s.clock >= since + 3 * HEARTBEAT
    ensures var t := SessionOver(s, since, HeartbeatFailed);
      && Inv(t) && t.point == Backoff(1) && Summarise(t.trace).misses == 3 && Summarise(t.trace).tries == 1
  {
    hide Retry, Summarise, Inv, Delay;
    var t := Log(s, Caps([])).(registered := false);
    var u := Log(t, Lost(s.clock - since)).(backoff := 0);
    SummariseSnoc(s.trace, Caps([]));
    SummariseSnoc(t.trace, Lost(s.clock - since));
    LossIs(s, since);
    RetryFits(u);
    assert Delay(0) == 1 by { FirstDelay(); }
    RetryPoint(u);
  }

  lemma FirstDelay()
    ensures Delay(0) == 1
  {
  }

  lemma RetryPoint(s: Sup)
    ensures Retry(s).point == Backoff(Delay(s.backoff))
  {
    hide Delay;
  }

  lemma LossIs(s: Sup, since: nat)
    requires s.clock >= since + 3 * HEARTBEAT
    ensures SessionOver(s, since, HeartbeatFailed) ==
            Retry(Log(Log(s, Caps([])).(registered := false), Lost(s.clock - since)).(backoff := 0))
  {
    hide Retry;
  }

  lemma SessionOverFits(s: Sup, since: nat, how: SessionEnd)
    requires var m := Summarise(s.trace);
      && m.path && m.obeys && m.laddered && m.faithful && s.wanted
      && (m.shown == Some(Connected) || m.shown == Some(Degraded))
      && (how.HeartbeatFailed? ==> !m.muted && m.misses == 3 && s.clock >= since + 3 * HEARTBEAT)
      && (how.ReconnectRequested? ==> !m.muted && m.tries == 0)
    ensures Inv(SessionOver(s, since, how))
  {
    hide Retry, LoopTop;
    var t := Log(s, Caps([])).(registered := false);
    SummariseSnoc(s.trace, Caps([]));
    match how
    case HeartbeatFailed =>
      hide Summarise, SessionOver;
      LossOver(s, since);
    case ReconnectRequested =>
      SummariseSnoc(t.trace, Emit(Disconnected));
      hide Summarise;
      TopFits(Log(t, Emit(Disconnected)).(backoff := 0));
    case DisconnectRequested =>
      SummariseSnoc(t.trace, Emit(Disconnected));
      hide Summarise;
      TopFits(Log(t, Emit(Disconnected)).(wanted := false));
    case Shutdown =>
      hide Summarise;
  }

  lemma NextDueLater(began: nat, due: nat, now: nat)
    requires began <= due <= now && (due - began) % HEARTBEAT == 0
    ensures due + HEARTBEAT <= NextDue(began, now)
  {
  }

  lemma ActNext(s: Sup, action: Action, wait: nat)
    requires Inv(s)
    ensures Inv(Next(s, Act(action, wait)))
  {
    LogReads();
    hide Summarise, LoopTop, SessionOver;
    var t := Log(s, Consumed(action)).(clock := s.clock + wait);
    match s.point
    case Parked =>
    case Idle =>
      TopFits(if action.Reconnect? then t.(wanted := true, backoff := 0) else t);
    case Dialing(_) =>
      TopFits(if action.Reconnect? then t.(backoff := 0) else Log(t, Emit(Disconnected)).(wanted := false));
    case Session(since, _, _, _, _) =>
      SessionOverFits(t, since, if action.Reconnect? then ReconnectRequested else DisconnectRequested);
    case Terminal =>
      if action.Reconnect? {
        TopFits(Log(t, Emit(Disconnected)).(backoff := 0));
      }
    case Backoff(_) =>
      TopFits(if action.Reconnect? then t.(backoff := 0) else t.(wanted := false));
    case Exited =>
  }

  lemma ClosedNext(s: Sup)
    requires Inv(s)
    ensures Inv(Next(s, Closed))
  {
    hide Summarise, SessionOver;
    if s.point.Session? {
      SessionOverFits(s, s.point.since, Shutdown);
    }
  }

  lemma EstablishedFits(s: Sup, agent: Option<seq<Capability>>, deploy: nat, took: nat)
    requires Inv(s) && s.point.Dialing?
    ensures Inv(DialOver(s.(clock := s.clock + took), s.point.since, Established(agent, deploy)))
  {
    hide Summarise;
    var caps := if agent.Some? then agent.value else [];
    SummariseSnoc(s.trace, Emit(Connected));
    SummariseSnoc(s.trace + [Emit(Connected)], Caps(caps));
    var now := s.clock + took + deploy;
    assert (now + HEARTBEAT - now) % HEARTBEAT == 0;
  }

  lemma RejectedFits(s: Sup, dial: Dial, took: nat)
    requires Inv(s) && s.point.Dialing? && (dial.HostKeyRejected? || dial.AuthRejected?)
    ensures Inv(DialOver(s.(clock := s.clock + took), s.point.since, dial))
  {
    hide Summarise;
    SummariseSnoc(s.trace, Emit(if dial.AuthRejected? then AuthFailed else HostKeyMismatch));
  }

  lemma FailedFits(s: Sup, dial: Dial, took: nat)
    requires Inv(s) && s.point.Dialing? && (dial.OtherError? || dial.TaskLost?)
    ensures Inv(DialOver(s.(clock := s.clock + took), s.point.since, dial))
  {
    hide Summarise, Retry;
    RetryFits(s.(clock := s.clock + took));
  }

  lemma DialNext(s: Sup, dial: Dial, took: nat)
    requires Inv(s)
    ensures Inv(Next(s, DialDone(dial, took)))
  {
    hide DialOver, Summarise, Inv;
    if s.point.Dialing? {
      match dial
      case Established(agent, deploy) => EstablishedFits(s, agent, deploy, took);
      case HostKeyRejected => RejectedFits(s, dial, took);
      case AuthRejected => RejectedFits(s, dial, took);
      case OtherError => FailedFits(s, dial, took);
      case TaskLost => FailedFits(s, dial, took);
    }
  }

  lemma BeatFits(s: Sup, late: nat)
    requires Inv(s) && s.point.Session?
    ensures Inv(Heartbeat(s, true, late)) && Heartbeat(s, true, late).point.Session?
  {
    hide Summarise, NextDue;
    var x := s.point;
    var now := TickTime(s.clock, x.due, late);
    NextDueLater(x.began, x.due, now);
    SummariseSnoc(s.trace, Beat(true));
    SummariseSnoc(s.trace + [Beat(true)], Emit(Connected));
  }

  lemma MissFits(s: Sup, late: nat)
    requires Inv(s) && s.point.Session? && s.point.misses < 2
    ensures Inv(Heartbeat(s, false, late)) && Heartbeat(s, false, late).point.Session?
  {
    hide Summarise, NextDue;
    var x := s.point;
    var now := TickTime(s.clock, x.due, late);
    NextDueLater(x.began, x.due, now);
    SummariseSnoc(s.trace, Beat(false));
    SummariseSnoc(s.trace + [Beat(false)], Emit(Degraded));
  }

  lemma LossFits(s: Sup, late: nat)
    requires Inv(s) && s.point.Session? && s.point.misses == 2
    ensures var t := Heartbeat(s, false, late);
      && Inv(t) && t.point == Backoff(1) && Summarise(t.trace).misses == 3 && Summarise(t.trace).tries == 1
  {
    var x := s.point;
    var now := TickTime(s.clock, x.due, late);
    SummariseSnoc(s.trace, Beat(false));
    hide Summarise, SessionOver;
    LossOver(Log(s, Beat(false)).(clock := now), x.since);
  }

  lemma TickNext(s: Sup, ok: bool, late: nat)
    requires Inv(s)
    ensures Inv(Next(s, Tick(ok, late)))
  {
    hide Heartbeat, Summarise;
    if s.point.Session? {
      if ok {
        BeatFits(s, late);
      } else if s.point.misses < 2 {
        MissFits(s, late);
      } else {
        LossFits(s, late);
      }
    }
  }

  lemma ElapsedNext(s: Sup, late: nat)
    requires Inv(s)
    ensures Inv(Next(s, Elapsed(late)))
  {
    hide Summarise, LoopTop;
    if s.point.Backoff? {
      TopFits(s.(clock := s.clock + s.point.delay + late, backoff := Bump(s.backoff)));
    }
  }

  lemma StepInv(s: Sup, input: Input)
    requires Inv(s)
    ensures Inv(Next(s, input))
  {
    hide Inv, Next;
    match input
    case Act(action, wait) => ActNext(s, action, wait);
    case Closed => ClosedNext(s);
    case DialDone(dial, took) => DialNext(s, dial, took);
    case Tick(ok, late) => TickNext(s, ok, late);
    case Elapsed(late) => ElapsedNext(s, late);
  }

  lemma {:induction false} RunInv(autoconnect: bool, inputs: seq<Input>)
    ensures Inv(Fold(Start(false, autoconnect), inputs))
  {
    if inputs == [] {
      SummariseSnoc([], Emit(Disconnected));
      assert [] + [Emit(Disconnected)] == [Emit(Disconnected)];
      TopFits(Sup(Idle, autoconnect, 0, 0, false, [Emit(Disconnected)]));
    } else {
      hide Inv, Next, Start;
      RunInv(autoconnect, inputs[..|inputs| - 1]);
      StepInv(Fold(Start(false, autoconnect), inputs[..|inputs| - 1]), inputs[|inputs| - 1]);
    }
  }

  // ---- theorems: the shown states -------------------------------------------------------

  /** The states a client was shown, in order. */
  function States(trace: seq<Entry>): seq<HostState> {
    if trace == [] then []
    else
      var e := trace[|trace| - 1];
      States(trace[..|trace| - 1]) + if e.Emit? then [e.state] else []
  }

  ghost predicate IsPath(states: seq<HostState>) {
    && (states != [] ==> states[0] == Disconnected)
    && (forall k :: 0 < k < |states| ==> Edge(states[k - 1], states[k]))
  }

  lemma PathGrows(states: seq<HostState>, state: HostState)
    requires IsPath(states)
    requires if states == [] then state == Disconnected else Edge(states[|states| - 1], state)
    ensures IsPath(states + [state])
  {
  }

  lemma StatesSnoc(trace: seq<Entry>, e: Entry)
    ensures States(trace + [e]) == if e.Emit? then States(trace) + [e.state] else States(trace)
  {
    assert (trace + [e])[..|trace|] == trace;
    assert States(trace) + [] == States(trace);
  }

  /** The summary's view of the path agrees with the states themselves. */
  ghost predicate PathAgrees(m: Summary, states: seq<HostState>) {
    && IsPath(states)
    && m.shown == if states == [] then None else Some(states[|states| - 1])
  }

  lemma PathStep(m: Summary, states: seq<HostState>, e: Entry)
    requires PathAgrees(m, states) && Read(m, e).path
    ensures PathAgrees(Read(m, e), if e.Emit? then states + [e.state] else states)
  {
    if e.Emit? {
      hide IsPath;
      PathGrows(states, e.state);
    }
  }

  lemma PathBefore(m: Summary, e: Entry)
    ensures Read(m, e).path ==> m.path
  {
  }

  lemma {:induction false} PathStates(trace: seq<Entry>)
    requires Summarise(trace).path
    ensures PathAgrees(Summarise(trace), States(trace))
  {
    if trace != [] {
      var init, e := trace[..|trace| - 1], trace[|trace| - 1];
      hide PathAgrees, Summarise, States, Read;
      assert trace == init + [e];
      SummariseSnoc(init, e);
      StatesSnoc(init, e);
      PathBefore(Summarise(init), e);
      PathStates(init);
      PathStep(Summarise(init), States(init), e);
    }
  }

  /** In every run of a host without ProxyJump, the states shown follow the documented graph from Disconnected. */
  lemma TracePath(autoconnect: bool, inputs: seq<Input>)
    ensures IsPath(States(Fold(Start(false, autoconnect), inputs).trace))
  {
    hide Summarise, States, IsPath, Fold;
    RunInv(autoconnect, inputs);
    PathStates(Fold(Start(false, autoconnect), inputs).trace);
  }

  // ---- theorems: a Disconnect is obeyed ---------------------------------------------------

  /** Every Connecting after a consumed Disconnect has a consumed Reconnect in between. */
  ghost predicate Obeyed(trace: seq<Entry>) {
    forall i, j :: 0 <= i < j < |trace| && trace[i] == Consumed(Disconnect) && trace[j] == Emit(Connecting) ==>
        exists k :: i < k < j && trace[k] == Consumed(Reconnect)
  }

  /** A Disconnect is still in force, or a Reconnect came after it. */
  ghost predicate MutedSince(trace: seq<Entry>, muted: bool) {
    forall i :: 0 <= i < |trace| && trace[i] == Consumed(Disconnect) ==>
        muted || exists k :: i < k < |trace| && trace[k] == Consumed(Reconnect)
  }

  lemma MutedStep(trace: seq<Entry>, muted: bool, e: Entry)
    requires MutedSince(trace, muted)
    ensures MutedSince(trace + [e], if e.Consumed? then e.action.Disconnect? else muted)
  {
    var all := trace + [e];
    var muted' := if e.Consumed? then e.action.Disconnect? else muted;
    forall i | 0 <= i < |all| && all[i] == Consumed(Disconnect) && !muted'
      ensures exists k :: i < k < |all| && all[k] == Consumed(Reconnect)
    {
      if e == Consumed(Reconnect) {
        assert all[|trace|] == Consumed(Reconnect);
      } else {
        var k :| i < k < |trace| && trace[k] == Consumed(Reconnect);
        assert all[k] == Consumed(Reconnect);
      }
    }
  }

  lemma ObeyedStep(trace: seq<Entry>, muted: bool, e: Entry)
    requires Obeyed(trace) && MutedSince(trace, muted)
    requires e == Emit(Connecting) ==> !muted
    ensures Obeyed(trace + [e])
  {
    var all := trace + [e];
    forall i, j | 0 <= i < j < |all| && all[i] == Consumed(Disconnect) && all[j] == Emit(Connecting)
      ensures exists k :: i < k < j && all[k] == Consumed(Reconnect)
    {
      assert trace[i] == Consumed(Disconnect);
      if j < |trace| {
        assert trace[j] == Emit(Connecting);
      }
      var k :| i < k < |trace| && k < j && trace[k] == Consumed(Reconnect);
      assert all[k] == Consumed(Reconnect);
    }
  }

  lemma ReadObeys(m: Summary, e: Entry)
    ensures Read(m, e).obeys ==> m.obeys && (e == Emit(Connecting) ==> !m.muted)
    ensures Read(m, e).muted == if e.Consumed? then e.action.Disconnect? else m.muted
  {
  }

  lemma {:induction false} ObeysMeans(trace: seq<Entry>)
    requires Summarise(trace).obeys
    ensures Obeyed(trace) && MutedSince(trace, Summarise(trace).muted)
  {
    if trace != [] {
      var init, e := trace[..|trace| - 1], trace[|trace| - 1];
      assert trace == init + [e];
      hide Obeyed, MutedSince, Summarise, Read;
      SummariseSnoc(init, e);
      ReadObeys(Summarise(init), e);
      ObeysMeans(init);
      MutedStep(init, Summarise(init).muted, e);
      ObeyedStep(init, Summarise(init).muted, e);
    }
  }

  /** In every run, once a Disconnect was consumed the host is not dialled until a Reconnect is. */
  lemma DisconnectObeyed(autoconnect: bool, inputs: seq<Input>)
    ensures Obeyed(Fold(Start(false, autoconnect), inputs).trace)
  {
    hide Summarise, Obeyed, Fold;
    RunInv(autoconnect, inputs);
    ObeysMeans(Fold(Start(false, autoconnect), inputs).trace);
  }

  // ---- theorems: the backoff ladder --------------------------------------------------------

  /** The waits since a Reconnect was consumed or a session was lost. */
  function Streak(trace: seq<Entry>): seq<nat> {
    if trace == [] then []
    else
      var e, init := trace[|trace| - 1], trace[..|trace| - 1];
      match e
      case Emit(_) => Streak(init)
      case Caps(_) => Streak(init)
      case Consumed(action) => if action.Reconnect? then [] else Streak(init)
      case Beat(_) => Streak(init)
      case Lost(_) => []
      case Wait(delay) => Streak(init) + [delay]
  }

  function Sum(s: seq<nat>): nat {
    if s == [] then 0 else Sum(s[..|s| - 1]) + s[|s| - 1]
  }

  /** The summary's count and verdict agree with the waits themselves. */
  ghost predicate LadderAgrees(m: Summary, waits: seq<nat>) {
    |waits| == m.tries && forall k :: 0 <= k < |waits| ==> waits[k] == Delay(k)
  }

  lemma StreakSnoc(trace: seq<Entry>, e: Entry)
    ensures Streak(trace + [e]) ==
            if e == Consumed(Reconnect) || e.Lost? then []
            else if e.Wait? then Streak(trace) + [e.delay] else Streak(trace)
  {
    assert (trace + [e])[..|trace|] == trace;
  }

  lemma {:induction false} LadderStreak(trace: seq<Entry>)
    requires Summarise(trace).laddered
    ensures LadderAgrees(Summarise(trace), Streak(trace))
  {
    if trace != [] {
      var init, e := trace[..|trace| - 1], trace[|trace| - 1];
      hide Summarise, Streak, Read, LadderAgrees;
      assert trace == init + [e];
      SummariseSnoc(init, e);
      StreakSnoc(init, e);
      LadderRead(Summarise(init), e);
      LadderStreak(init);
      LadderStep(Summarise(init), Streak(init), e);
    }
  }

  lemma LadderRead(m: Summary, e: Entry)
    ensures Read(m, e).laddered ==> m.laddered
  {
  }

  lemma LadderStep(m: Summary, waits: seq<nat>, e: Entry)
    requires LadderAgrees(m, waits) && Read(m, e).laddered
    ensures LadderAgrees(Read(m, e), if e == Consumed(Reconnect) || e.Lost? then []
                                     else if e.Wait? then waits + [e.delay] else waits)
  {
    hide Delay;
  }

  lemma {:induction false} LadderSum(s: seq<nat>)
    requires forall k :: 0 <= k < |s| ==> s[k] == Delay(k)
    ensures |s| >= 4 ==> Sum(s) == 23 + 60 * (|s| - 4)
  {
    if |s| > 4 {
      LadderSum(s[..|s| - 1]);
    } else if |s| == 4 {
      assert s == [1, 2, 5, 15];
      assert s[..3] == [1, 2, 5] && s[..3][..2] == [1, 2] && s[..3][..2][..1] == [1] && [1][..0] == [];
      assert Sum([1]) == 1 && Sum([1, 2]) == 3 && Sum([1, 2, 5]) == 8;
    }
  }

  /**
   In every run, the k-th wait since the last reset is 1, 2, 5 or 15 seconds and then a minute, so
   no wait is longer, and n >= 4 failures in a row have waited 23 + 60 (n - 4) seconds.
   */
  lemma BackoffLadder(autoconnect: bool, inputs: seq<Input>)
    ensures
      var waits := Streak(Fold(Start(false, autoconnect), inputs).trace);
      && (forall k :: 0 <= k < |waits| ==> waits[k] == [1, 2, 5, 15, 60][if k < 4 then k else 4])
      && (|waits| >= 4 ==> Sum(waits) == 23 + 60 * (|waits| - 4))
  {
    hide Summarise, Streak, Fold, Sum;
    RunInv(autoconnect, inputs);
    LadderStreak(Fold(Start(false, autoconnect), inputs).trace);
    LadderSum(Streak(Fold(Start(false, autoconnect), inputs).trace));
  }

  // ---- theorems: heartbeat and capabilities --------------------------------------------------

  /** Keepalives failed in a row since the dial. */
  function Misses(trace: seq<Entry>): nat {
    if trace == [] then 0
    else
      var e, init := trace[|trace| - 1], trace[..|trace| - 1];
      match e
      case Beat(ok) => if ok then 0 else Misses(init) + 1
      case Emit(state) => if state == Connecting then 0 else Misses(init)
      case _ => Misses(init)
  }

  /** A session is lost after three failed keepalives in a row and 90 s or more, and sends none after them. */
  ghost predicate LostOnThird(trace: seq<Entry>) {
    forall j :: 0 <= j < |trace| ==>
      match trace[j]
      case Lost(held) => Misses(trace[..j]) == 3 && held >= 90
      case Beat(_) => Misses(trace[..j]) < 3
      case _ => true
  }

  function MissesAfter(misses: nat, e: Entry): nat {
    match e
    case Beat(ok) => if ok then 0 else misses + 1
    case Emit(state) => if state == Connecting then 0 else misses
    case _ => misses
  }

  lemma MissesSnoc(trace: seq<Entry>, e: Entry)
    ensures Misses(trace + [e]) == MissesAfter(Misses(trace), e)
  {
    assert (trace + [e])[..|trace|] == trace;
  }

  lemma FaithfulRead(m: Summary, e: Entry)
    requires Read(m, e).faithful
    ensures m.faithful && Read(m, e).misses == MissesAfter(m.misses, e)
    ensures (e.Lost? ==> m.misses == 3 && e.held >= 90) && (e.Beat? ==> m.misses < 3)
  {
  }

  lemma {:induction false} FaithfulMeans(trace: seq<Entry>)
    requires Summarise(trace).faithful
    ensures LostOnThird(trace) && Misses(trace) == Summarise(trace).misses
  {
    if trace != [] {
      var init, e := trace[..|trace| - 1], trace[|trace| - 1];
      hide LostOnThird, Misses, MissesAfter, Summarise, Read;
      assert trace == init + [e];
      SummariseSnoc(init, e);
      MissesSnoc(init, e);
      FaithfulRead(Summarise(init), e);
      FaithfulMeans(init);
      LostOnThirdGrows(trace);
    }
  }

  lemma LostOnThirdGrows(trace: seq<Entry>)
    requires trace != [] && LostOnThird(trace[..|trace| - 1])
    requires var init, e := trace[..|trace| - 1], trace[|trace| - 1];
      (e.Lost? ==> Misses(init) == 3 && e.held >= 90) && (e.Beat? ==> Misses(init) < 3)
    ensures LostOnThird(trace)
  {
    var init := trace[..|trace| - 1];
    hide Misses;
    forall j | 0 <= j < |init| ensures trace[..j] == init[..j] && trace[j] == init[j] {
    }
  }

  /**
   In every run, a heartbeat ends the session exactly when it is the third failure in a row. The
   session then lasted 90 s or more, so the backoff restarts at one second, however short the
   reset threshold. A session that goes on shows Degraded exactly while failures are outstanding.
   */
  lemma HeartbeatDecides(autoconnect: bool, inputs: seq<Input>, ok: bool, late: nat)
    requires Fold(Start(false, autoconnect), inputs).point.Session?
    ensures
      var s := Fold(Start(false, autoconnect), inputs);
      var t := Next(s, Tick(ok, late));
      && LostOnThird(t.trace)
      && (t.point.Session? <==> Misses(t.trace) < 3)
      && (t.point.Session? ==> (t.point.shown == Degraded <==> Misses(t.trace) > 0))
      && (!t.point.Session? ==> t.point == Backoff(1) && Streak(t.trace) == [1] && !t.registered)
  {
    hide Fold, Heartbeat, Summarise, Misses, Streak, LostOnThird;
    var s := Fold(Start(false, autoconnect), inputs);
    var t := Next(s, Tick(ok, late));
    RunInv(autoconnect, inputs);
    StepInv(s, Tick(ok, late));
    FaithfulMeans(t.trace);
    LadderStreak(t.trace);
    if ok {
      BeatFits(s, late);
    } else if s.point.misses < 2 {
      MissFits(s, late);
    } else {
      LossFits(s, late);
    }
  }

  /**
   In every run, a supervisor advertises capabilities only between registering its session's
   agent and that session's end, during which the host is shown as Connected or Degraded.
   */
  lemma AdvertisedInSession(autoconnect: bool, inputs: seq<Input>)
    ensures
      var s := Fold(Start(false, autoconnect), inputs);
      && (s.registered ==> s.point.Session? && (s.point.shown == Connected || s.point.shown == Degraded)
                           && States(s.trace) != [] && States(s.trace)[|States(s.trace)| - 1] == s.point.shown)
      && (!s.registered ==> Summarise(s.trace).advertised == [])
  {
    hide Summarise, States, Fold, IsPath;
    RunInv(autoconnect, inputs);
    PathStates(Fold(Start(false, autoconnect), inputs).trace);
  }

  // ---- a host behind ProxyJump ------------------------------------------------------------------

  function Reconnects(trace: seq<Entry>): nat {
    if trace == [] then 0
    else Reconnects(trace[..|trace| - 1]) + if trace[|trace| - 1] == Consumed(Reconnect) then 1 else 0
  }

  lemma JumpSnoc(trace: seq<Entry>, e: Entry)
    ensures States(trace + [e]) == States(trace) + if e.Emit? then [e.state] else []
    ensures Reconnects(trace + [e]) == Reconnects(trace) + if e == Consumed(Reconnect) then 1 else 0
  {
    assert (trace + [e])[..|trace|] == trace;
  }

  /** In every run, a host behind ProxyJump is never dialled: it shows AuthFailed once, and once more per Reconnect. */
  lemma {:induction false} JumpNeverDials(autoconnect: bool, inputs: seq<Input>)
    ensures
      var s := Fold(Start(true, autoconnect), inputs);
      && (s.point.Parked? || s.point.Exited?) && !s.registered
      && |States(s.trace)| == 1 + Reconnects(s.trace)
      && forall k :: 0 <= k < |States(s.trace)| ==> States(s.trace)[k] == AuthFailed
  {
    if inputs == [] {
      JumpSnoc([], Emit(AuthFailed));
      assert [] + [Emit(AuthFailed)] == [Emit(AuthFailed)];
    } else {
      JumpNeverDials(autoconnect, inputs[..|inputs| - 1]);
      hide Next, States, Reconnects, Start;
      JumpStep(Fold(Start(true, autoconnect), inputs[..|inputs| - 1]), inputs[|inputs| - 1]);
    }
  }

  lemma JumpStep(s: Sup, input: Input)
    requires (s.point.Parked? || s.point.Exited?) && !s.registered && |States(s.trace)| == 1 + Reconnects(s.trace)
    requires forall k :: 0 <= k < |States(s.trace)| ==> States(s.trace)[k] == AuthFailed
    ensures
      var t := Next(s, input);
      && (t.point.Parked? || t.point.Exited?) && !t.registered && |States(t.trace)| == 1 + Reconnects(t.trace)
      && forall k :: 0 <= k < |States(t.trace)| ==> States(t.trace)[k] == AuthFailed
  {
    hide States, Reconnects;
    if s.point.Parked? && input.Act? {
      JumpSnoc(s.trace, Consumed(input.action));
      JumpSnoc(s.trace + [Consumed(input.action)], Emit(AuthFailed));
    }
  }
}

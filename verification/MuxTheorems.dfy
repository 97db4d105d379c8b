/** What holds of every run of the agent multiplexer. */
module MuxTheorems {
  import opened Wrappers
  import opened Routing
  import opened Mux
  import opened MuxInvariant
  import opened MuxHistory

  // ---- the three tables agree up to messages in flight ---------------------------

  function Queue(s: State): seq<ToAgent>
    requires s.handled <= |s.sent|
  {
    s.sent[s.handled..]
  }

  function RoutedSubs(s: State): set<nat> {
    set d | d in s.routing && s.routing[d].kind == Subscription
  }

  /** Subscriptions entered in the table whose message is not on the queue yet. */
  function RegisteredSubs(s: State): set<nat> {
    set c | c in s.clients && s.clients[c].pc.Registered? && KindOf(s.clients[c].pc.req.body) == Subscription
      :: s.clients[c].pc.id
  }

  /** Subscriptions taken out of the table whose Unsubscribe is not on the queue yet. */
  function UnsendingSubs(s: State): set<nat> {
    set c | c in s.clients && s.clients[c].pc.Unsending? :: s.clients[c].pc.id
  }

  lemma {:induction false} Simulation(alias: string, caps: set<Capability>, steps: seq<Step>)
    requires Runs(Init(alias, caps), steps)
    ensures var s := End(Init(alias, caps), steps);
      && s.handled <= |s.sent|
      && (Live(s) ==>
          && Replay(s.agentSubs, Queue(s)) + RegisteredSubs(s) == RoutedSubs(s) + UnsendingSubs(s)
          && Replay(s.agentSubs, Queue(s)) !! RegisteredSubs(s)
          && RoutedSubs(s) !! UnsendingSubs(s))
  {
    InitInv(alias, caps);
    RunInv(Init(alias, caps), steps);
    SimulationAt(End(Init(alias, caps), steps));
  }

  lemma SimulationAt(s: State)
    requires ControlInv(s)
    ensures s.handled <= |s.sent|
    ensures Live(s) ==>
      && Replay(s.agentSubs, Queue(s)) + RegisteredSubs(s) == RoutedSubs(s) + UnsendingSubs(s)
      && Replay(s.agentSubs, Queue(s)) !! RegisteredSubs(s)
      && RoutedSubs(s) !! UnsendingSubs(s)
  {
    QueueEffect(s);
    hide ControlInv, Replay, RegisteredSubs, UnsendingSubs, RoutedSubs;
    if Live(s) {
      forall d {
        SimulationOne(s, d);
      }
    }
  }

  /** Where one subscription stands, read off the table and read off the queue. */
  lemma SimulationOne(s: State, d: nat)
    requires ControlInv(s) && Live(s) && s.handled <= |s.sent|
    ensures
      var agent := Replay(s.agentSubs, Queue(s));
      && (d in agent || d in RegisteredSubs(s) <==> d in RoutedSubs(s) || d in UnsendingSubs(s))
      && !(d in agent && d in RegisteredSubs(s)) && !(d in RoutedSubs(s) && d in UnsendingSubs(s))
  {
    QueueEffect(s);
    RegisteredIs(s);
    UnsendingIs(s);
    hide Handles, FarSide, Wire, Pcs, Submitted, Cancelled, Replay, RegisteredSubs, UnsendingSubs;
    if IsSub(s.bound, d) {
      assert TableOk(d, s.bound[d], s.clients[s.bound[d].client].pc, d in s.routing,
                     d in Submitted(s.sent), d in Cancelled(s.sent));
    }
  }

  lemma QueueEffect(s: State)
    requires ControlInv(s)
    ensures s.handled <= |s.sent|
    ensures forall d :: d in Replay(s.agentSubs, Queue(s)) <==>
      d in Submitted(s.sent) && IsSub(s.bound, d) && d !in Cancelled(s.sent)
  {
    hide Ids, Pcs, Handles, FarSide, Tables, Submitted, Cancelled;
    assert s.sent == s.sent[..s.handled] + Queue(s);
    ReplayConcat({}, s.sent[..s.handled], Queue(s));
  }

  lemma RegisteredIs(s: State)
    requires ControlInv(s)
    ensures forall d :: d in RegisteredSubs(s) <==>
      IsSub(s.bound, d) && s.clients[s.bound[d].client].pc == Registered(s.bound[d].request, d)
    ensures forall d :: d in RegisteredSubs(s) ==> d !in Submitted(s.sent)
  {
    hide Handles, FarSide, Wire, Tables, Submitted, Cancelled;
    forall c | c in s.clients
      ensures PcOk(c, s.clients[c].pc, s.nextId, s.bound, s.routing, Submitted(s.sent), Cancelled(s.sent), s.writerOpen)
    {
    }
  }

  lemma UnsendingIs(s: State)
    requires ControlInv(s)
    ensures forall d :: d in UnsendingSubs(s) <==>
      IsSub(s.bound, d) && s.clients[s.bound[d].client].pc == Unsending(d)
    ensures forall d :: d in UnsendingSubs(s) ==> d in Submitted(s.sent) && d !in Cancelled(s.sent) && d !in s.routing
  {
    hide Handles, FarSide, Wire, Tables, Submitted, Cancelled;
    forall c | c in s.clients
      ensures PcOk(c, s.clients[c].pc, s.nextId, s.bound, s.routing, Submitted(s.sent), Cancelled(s.sent), s.writerOpen)
    {
    }
  }

  // ---- what a client sees of one request --------------------------------------------

  /**
   `l` is what the client behind `b` has heard, and `src` what the agent said: the first `k` words
   of the agent brought unaltered, then at most one notice that the agent has gone, then, only if
   nothing was handed over, at most one that the writer is dead. An action hears one word of the
   agent at most, and then nothing else.
   */
  ghost predicate Heard(alias: string, d: nat, b: Binding, submitted: bool,
                        l: seq<Delivery>, src: seq<FromAgent>, k: nat)
  {
    && k <= |src| && k <= |l| <= k + 2
    && (forall i :: 0 <= i < k ==> Carries(l[i], b.client, b.request.id, src[i]))
    && (forall i :: k <= i < |l| ==> TellsGone(l[i], d, b) || TellsDead(alias, l[i], d, b))
    && (forall i :: k <= i < |l| && TellsDead(alias, l[i], d, b) ==> k == 0 && !submitted && i == |l| - 1)
    && (|l| == k + 2 ==> TellsGone(l[k], d, b) && TellsDead(alias, l[k + 1], d, b))
    && (b.request.body.DockerAction? ==> k <= 1 && (k == 1 ==> |l| == 1))
  }

  /** What the client has heard is what the agent said, word for word. */
  ghost predicate Echoes(b: Binding, l: seq<Delivery>, src: seq<FromAgent>) {
    |l| == |src| && forall i :: 0 <= i < |l| ==> Carries(l[i], b.client, b.request.id, src[i])
  }

  lemma {:induction false} RenamedAllEchoes(src: seq<FromAgent>, b: Binding)
    requires AboutAgent(src)
    ensures Echoes(b, RenamedAll(src, RoutedOf(b)), src)
  {
    hide Renamed, Carries;
    if src != [] {
      RenamedAllEchoes(src[..|src| - 1], b);
      RenamedCarries(src[|src| - 1], RoutedOf(b));
    }
  }

  lemma ShapeHeard(alias: string, d: nat, b: Binding, submitted: bool, l: seq<Delivery>, src: seq<FromAgent>, k: nat)
    requires AboutAgent(src) && Shape(alias, d, b, submitted, l, src, k)
    ensures Heard(alias, d, b, submitted, l, src, k)
  {
    RenamedAllEchoes(src[..k], b);
    NoticesTell(alias, d, b);
    hide RenamedAll, Carries, RoutedOf, DrainNotice, DeadNotice, TellsFailure;
    assert forall i :: 0 <= i < k ==> l[i] == l[..k][i] && src[i] == src[..k][i];
    TailHeard(alias, d, b, submitted, k, l);
  }

  lemma TailHeard(alias: string, d: nat, b: Binding, submitted: bool, k: nat, l: seq<Delivery>)
    requires k <= |l| && Tail(alias, d, b, submitted, k, l[k..])
    ensures |l| <= k + 2
    ensures forall i :: k <= i < |l| ==> TellsGone(l[i], d, b) || TellsDead(alias, l[i], d, b)
    ensures forall i :: k <= i < |l| && TellsDead(alias, l[i], d, b) ==> k == 0 && !submitted && i == |l| - 1
    ensures |l| == k + 2 ==> TellsGone(l[k], d, b) && TellsDead(alias, l[k + 1], d, b)
  {
    NoticesTell(alias, d, b);
    hide RoutedOf, DrainNotice, DeadNotice, TellsFailure;
    assert forall i :: k <= i < |l| ==> l[i] == l[k..][i - k];
    if DeadNotice(alias, d, b) !in l[k..] {
      assert forall i :: k <= i < |l| ==> l[i] in l[k..];
    }
  }

  /**
   Remote refines local: what reaches the client for one request is the agent's own sequence cut
   off at some point, each word as the agent said it and in its order, then at most one notice
   from a drain and, only if the request never left, at most one about the dead writer. While the
   entry is in the table nothing heard has been lost.
   */
  lemma RemoteRefinesLocal(alias: string, caps: set<Capability>, steps: seq<Step>, d: nat)
    requires Runs(Init(alias, caps), steps)
    requires d in End(Init(alias, caps), steps).bound
    ensures var s := End(Init(alias, caps), steps);
      && s.taken <= |s.ret|
      && (exists k: nat ::
            Heard(s.alias, d, s.bound[d], d in Submitted(s.sent), OfId(s.log, d), FromId(s.ret, d), k))
      && (d in s.routing ==> Echoes(s.bound[d], OfId(s.log, d), FromId(s.ret[..s.taken], d)))
  {
    InitInv(alias, caps);
    RunInv(Init(alias, caps), steps);
    var s := End(Init(alias, caps), steps);
    FromIdPrefix(s.ret, s.taken, d);
    hide ControlInv, Submitted, OfId, FromId, Runs, Init, Heard, Echoes;
    assert HistoryAt(s, d);
    ShapeOfHistory(s, d);
    RenamedAllEchoes(Seen(s, d), s.bound[d]);
  }

  lemma ShapeOfHistory(s: State, d: nat)
    requires d in s.bound && s.bound[d].client in s.clients && s.taken <= |s.ret| && HistoryAt(s, d)
    requires Seen(s, d) <= FromId(s.ret, d)
    ensures exists k: nat ::
      Heard(s.alias, d, s.bound[d], d in Submitted(s.sent), OfId(s.log, d), FromId(s.ret, d), k)
  {
    hide Submitted, OfId, FromId, Heard;
    var k := HistoryShape(s.alias, d, s.bound[d], d in s.routing, d in Submitted(s.sent),
                          s.clients[s.bound[d].client].pc, OfId(s.log, d), Seen(s, d), FromId(s.ret, d));
    ShapeHeard(s.alias, d, s.bound[d], d in Submitted(s.sent), OfId(s.log, d), FromId(s.ret, d), k);
  }

  lemma HistoryShape(alias: string, d: nat, b: Binding, routed: bool, submitted: bool, pc: Pc,
                     l: seq<Delivery>, src: seq<FromAgent>, all: seq<FromAgent>) returns (k: nat)
    requires AboutAgent(src) && AboutAgent(all) && src <= all
    requires History(alias, d, b, routed, submitted, pc, l, src)
    ensures Shape(alias, d, b, submitted, l, all, k)
  {
    if routed {
      k := |src|;
      assert l[..|src|] == l && all[..|src|] == src && l[|src|..] == [];
    } else {
      k :| Shape(alias, d, b, submitted, l, src, k);
      assert all[..k] == src[..k];
    }
  }

  lemma {:induction false} FromIdPrefix(ms: seq<FromAgent>, n: nat, d: nat)
    requires n <= |ms|
    ensures FromId(ms[..n], d) <= FromId(ms, d)
  {
    if n < |ms| {
      FromIdPrefix(ms[..|ms| - 1], n, d);
      assert ms[..|ms| - 1][..n] == ms[..n];
    } else {
      assert ms[..n] == ms;
    }
  }

  /** The client behind `b` has heard one word of its action: the agent's own result, or that the agent has gone. */
  ghost predicate Answered(d: nat, b: Binding, l: seq<Delivery>, src: seq<FromAgent>) {
    && |l| == 1
    && (TellsGone(l[0], d, b)
        || exists m :: m in src && m.AgentResult? && m.id == d && b.request.body == DockerAction(m.container, m.action)
                       && Carries(l[0], b.client, b.request.id, m))
  }

  /** The client behind `b` has been told that its request met a dead writer, and at most that the agent had gone. */
  ghost predicate GivenUpOn(alias: string, d: nat, b: Binding, l: seq<Delivery>) {
    && 1 <= |l| <= 2
    && TellsDead(alias, l[|l| - 1], d, b)
    && (|l| == 2 ==> TellsGone(l[0], d, b))
  }

  /**
   A one-shot action is answered once and for all. Still in the table: not yet. Sent and
   gone from the table: exactly one message, the agent's own result for that container and that
   action or a failure that names them. Never sent and given up: the dead-writer failure,
   preceded by a drain's exactly when a drain ran between registering and withdrawing.
   */
  lemma OneShotAnswered(alias: string, caps: set<Capability>, steps: seq<Step>, d: nat)
    requires Runs(Init(alias, caps), steps)
    requires d in End(Init(alias, caps), steps).bound
    requires End(Init(alias, caps), steps).bound[d].request.body.DockerAction?
    ensures var s := End(Init(alias, caps), steps);
      var b, l := s.bound[d], OfId(s.log, d);
      && b.client in s.clients
      && (d in s.routing ==> l == [])
      && (d !in s.routing && d in Submitted(s.sent) ==> Answered(d, b, l, s.ret))
      && (d !in Submitted(s.sent) && !InFlight(s.clients[b.client].pc, d) ==> GivenUpOn(s.alias, d, b, l))
  {
    InitInv(alias, caps);
    RunInv(Init(alias, caps), steps);
    var s := End(Init(alias, caps), steps);
    hide Submitted, OfId, FromId, Runs, Init, Answered, GivenUpOn;
    assert HistoryAt(s, d);
    AnswerOfHistory(s, d);
  }

  lemma AnswerOfHistory(s: State, d: nat)
    requires ControlInv(s) && Grounded(s) && d in s.bound && HistoryAt(s, d)
    requires s.bound[d].request.body.DockerAction?
    ensures var b, l := s.bound[d], OfId(s.log, d);
      && (d in s.routing ==> l == [])
      && (d !in s.routing && d in Submitted(s.sent) ==> Answered(d, b, l, s.ret))
      && (d !in Submitted(s.sent) && !InFlight(s.clients[b.client].pc, d) ==> GivenUpOn(s.alias, d, b, l))
  {
    SeenResults(s, d);
    UnroutedWhileUnsent(s, d);
    NoticesTell(s.alias, d, s.bound[d]);
    hide ControlInv, Grounded, Submitted, OfId, FromId, Carries, TellsFailure, RoutedOf, DrainNotice, DeadNotice;
    var b, l, src := s.bound[d], OfId(s.log, d), Seen(s, d);
    if d !in s.routing {
      AnswerShape(s.alias, d, b, d in Submitted(s.sent), s.clients[b.client].pc, l, src);
      if src != [] {
        RenamedCarries(src[0], RoutedOf(b));
        RoutedIs(b);
      }
    }
  }

  lemma RoutedIs(b: Binding)
    ensures RoutedOf(b).client == b.client && RoutedOf(b).clientId == b.request.id
  {
  }

  lemma SeenResults(s: State, d: nat)
    requires ControlInv(s) && d in s.bound && s.bound[d].request.body.DockerAction?
    ensures s.taken <= |s.ret|
    ensures forall m :: m in Seen(s, d) ==>
      m in s.ret && m.AgentResult? && m.id == d && s.bound[d].request.body == DockerAction(m.container, m.action)
  {
    ControlRouted(s);
    hide Ids, Pcs, Handles, Wire, FarSide, Tables, Submitted, Cancelled;
    assert forall m :: m in s.ret[..s.taken] ==> m in s.ret;
  }

  lemma AnswerShape(alias: string, d: nat, b: Binding, submitted: bool, pc: Pc,
                    l: seq<Delivery>, src: seq<FromAgent>)
    requires AboutAgent(src) && History(alias, d, b, false, submitted, pc, l, src) && b.request.body.DockerAction?
    ensures submitted ==> l == [DrainNotice(d, RoutedOf(b))] || (src != [] && l == [Renamed(src[0], RoutedOf(b))])
    ensures !submitted && !InFlight(pc, d) ==>
      l == [DeadNotice(alias, d, b)] || l == [DrainNotice(d, RoutedOf(b)), DeadNotice(alias, d, b)]
  {
    var k: nat :| Shape(alias, d, b, submitted, l, src, k);
    if k == 1 {
      assert src[..1] == [src[0]];
      assert RenamedAll([src[0]], RoutedOf(b)) == [Renamed(src[0], RoutedOf(b))];
      assert l == l[..1] + l[1..];
    } else {
      assert l == l[0..];
    }
  }

  /** An entry whose session gave up on it has left the table. */
  lemma UnroutedWhileUnsent(s: State, d: nat)
    requires ControlInv(s) && Grounded(s) && d in s.bound && HistoryAt(s, d)
    ensures d !in Submitted(s.sent) && !InFlight(s.clients[s.bound[d].client].pc, d) ==> d !in s.routing
  {
    hide ControlInv, Submitted, OfId, FromId;
    if d in s.routing && d !in Submitted(s.sent) {
      assert OfId(s.log, d) == [];
    }
  }
}

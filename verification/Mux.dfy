/**
 One live agent connection as a transition system: the client sessions, the
 routing table, the daemon-to-agent queue, the agent's own tables, the
 agent-to-daemon queue and the supervisor that may tear it all down.

 A step is one lock-protected section or one channel operation of one task,
 together with the task-local work around it. Every interleaving of tasks is a
 sequence of steps. `sent`, `ret`, `bound`, `log` and `drained` record history:
 the queues are the unread ends of `sent` and `ret`.
 */
module Mux {
  import opened Wrappers
  import opened Routing

  datatype Request = Request(id: nat, body: Body)

  /** Who a daemon id was given to, and for what. */
  datatype Binding = Binding(client: nat, request: Request)

  /** Where a session task stands inside the command it is handling. */
  datatype Pc =
    | Idle
    | Looked(req: Request)               // connection found in the pool, capability present
    | Allocated(req: Request, id: nat)   // daemon id drawn
    | Registered(req: Request, id: nat)  // routing entry inserted, not yet sent
    | SendFailed(req: Request, id: nat)  // the writer was closed
    | Notifying(req: Request, id: nat)   // entry withdrawn, client not yet told
    | Dropping(id: nat)                  // handle taken, routing entry about to go
    | Unsending(id: nat)                 // entry gone, Unsubscribe about to be sent

  /** `subs` is the session's own map from the client's id to the daemon's. */
  datatype Session = Session(pc: Pc, subs: map<nat, nat>, ending: bool)

  datatype State = State(
    alias: string,
    caps: set<Capability>,
    pooled: bool,
    nextId: nat,
    routing: map<nat, Routed>,
    writerOpen: bool,
    parserAlive: bool,
    drained: bool,
    sent: seq<ToAgent>, handled: nat,
    agentSubs: set<nat>, spawned: set<nat>, running: map<nat, Body>,
    ret: seq<FromAgent>, taken: nat,
    clients: map<nat, Session>,
    bound: map<nat, Binding>,
    log: seq<Delivery>)

  function RoutedOf(b: Binding): Routed {
    Routed(b.client, b.request.id, KindOf(b.request.body), ScopeOf(b.request.body))
  }

  function Init(alias: string, caps: set<Capability>): State {
    State(alias, caps, true, 1, map[], true, true, false, [], 0, {}, {}, map[], [], 0, map[], map[], [])
  }

  datatype Step =
    // client sessions
    | Connect(c: nat)
    | Command(c: nat, req: Request)
    | AllocId(c: nat)
    | Register(c: nat)
    | Send(c: nat)
    | Withdraw(c: nat)
    | Notify(c: nat)
    | CancelCommand(c: nat, sid: nat)
    | DropRoute(c: nat)
    | SendUnsubscribe(c: nat)
    | EndSession(c: nat)
    | TeardownOne(c: nat, sid: nat)
    // agent
    | AgentReceive
    | AgentEmit(d: nat, event: Event)
    | AgentFinish(d: nat, outcome: Outcome)
    | AgentNoise
    // daemon side of the connection
    | ParserStep
    | ParserExit(order: seq<nat>)
    | WriterDies
    | PoolRemove
    | ShutdownDrain(order: seq<nat>)

  ghost predicate AtIdle(s: State, c: nat) {
    c in s.clients && s.clients[c].pc == Idle
  }

  ghost predicate Enabled(s: State, step: Step) {
    match step
    case Connect(c) => c !in s.clients
    case Command(c, _) => AtIdle(s, c) && !s.clients[c].ending
    case AllocId(c) => c in s.clients && s.clients[c].pc.Looked?
    case Register(c) => c in s.clients && s.clients[c].pc.Allocated?
    case Send(c) => c in s.clients && s.clients[c].pc.Registered?
    case Withdraw(c) => c in s.clients && s.clients[c].pc.SendFailed?
    case Notify(c) => c in s.clients && s.clients[c].pc.Notifying?
    case CancelCommand(c, _) => AtIdle(s, c) && !s.clients[c].ending
    case DropRoute(c) => c in s.clients && s.clients[c].pc.Dropping?
    case SendUnsubscribe(c) => c in s.clients && s.clients[c].pc.Unsending?
    case EndSession(c) => AtIdle(s, c) && !s.clients[c].ending
    case TeardownOne(c, sid) => AtIdle(s, c) && s.clients[c].ending && sid in s.clients[c].subs
    case AgentReceive => s.handled < |s.sent|
    case AgentEmit(d, _) => d in s.spawned
    case AgentFinish(d, _) => d in s.running && s.running[d].DockerAction?
    case AgentNoise => true
    case ParserStep => s.parserAlive && s.taken < |s.ret|
    case ParserExit(order) => s.parserAlive && DrainOrder(s.routing, order)
    case WriterDies => s.writerOpen
    case PoolRemove => s.pooled
    case ShutdownDrain(order) => !s.pooled && DrainOrder(s.routing, order)
  }

  function At(s: State, c: nat, pc: Pc): State
    requires c in s.clients
  {
    s.(clients := s.clients[c := s.clients[c].(pc := pc)])
  }

  function Deliver(s: State, x: Delivery): State {
    s.(log := s.log + [x])
  }

  /** Pool lookup and capability check; on a miss the client is refused at once. */
  function DoCommand(s: State, c: nat, req: Request): State
    requires c in s.clients
  {
    var target := Remote(s.alias);
    if !s.pooled then
      Deliver(s, Delivery(c, Rejection(req.id, req.body, AgentNotConnected, target), ByRefusal))
    else if Needs(req.body) !in s.caps then
      Deliver(s, Delivery(c, Rejection(req.id, req.body, MissingCapability, target), ByRefusal))
    else At(s, c, Looked(req))
  }

  function DoAllocId(s: State, c: nat): State
    requires c in s.clients && s.clients[c].pc.Looked?
  {
    At(s, c, Allocated(s.clients[c].pc.req, s.nextId)).(nextId := s.nextId + 1)
  }

  function DoRegister(s: State, c: nat): State
    requires c in s.clients && s.clients[c].pc.Allocated?
  {
    var Allocated(req, d) := s.clients[c].pc;
    var b := Binding(c, req);
    At(s, c, Registered(req, d)).(routing := s.routing[d := RoutedOf(b)], bound := s.bound[d := b])
  }

  /** Forwarding the request. Only a subscription leaves a handle in the session's map. */
  function DoSend(s: State, c: nat): State
    requires c in s.clients && s.clients[c].pc.Registered?
  {
    var Registered(req, d) := s.clients[c].pc;
    if !s.writerOpen then At(s, c, SendFailed(req, d))
    else
      var subs := s.clients[c].subs;
      var subs' := if KindOf(req.body) == Subscription then subs[req.id := d] else subs;
      s.(sent := s.sent + [Submit(d, req.body)],
         clients := s.clients[c := s.clients[c].(pc := Idle, subs := subs')])
  }

  function DoWithdraw(s: State, c: nat): State
    requires c in s.clients && s.clients[c].pc.SendFailed?
  {
    var SendFailed(req, d) := s.clients[c].pc;
    At(s, c, Notifying(req, d)).(routing := s.routing - {d})
  }

  function DeadWriterNotice(alias: string, c: nat, req: Request, d: nat): Delivery {
    Delivery(c, Rejection(req.id, req.body, WriterClosed, Remote(alias)), ByDeadWriter(d))
  }

  function DoNotify(s: State, c: nat): State
    requires c in s.clients && s.clients[c].pc.Notifying?
  {
    var Notifying(req, d) := s.clients[c].pc;
    Deliver(At(s, c, Idle), DeadWriterNotice(s.alias, c, req, d))
  }

  /** Taking one handle out of the session's map, on Unsubscribe and on teardown alike. */
  function DoTakeHandle(s: State, c: nat, sid: nat): State
    requires c in s.clients
  {
    var subs := s.clients[c].subs;
    if sid !in subs then s
    else
      var pc := if s.pooled then Dropping(subs[sid]) else s.clients[c].pc;
      s.(clients := s.clients[c := s.clients[c].(pc := pc, subs := subs - {sid})])
  }

  function DoDropRoute(s: State, c: nat): State
    requires c in s.clients && s.clients[c].pc.Dropping?
  {
    var d := s.clients[c].pc.id;
    At(s, c, Unsending(d)).(routing := s.routing - {d})
  }

  function DoSendUnsubscribe(s: State, c: nat): State
    requires c in s.clients && s.clients[c].pc.Unsending?
  {
    var d := s.clients[c].pc.id;
    var s' := At(s, c, Idle);
    if s.writerOpen then s'.(sent := s.sent + [Unsubscribe(d)]) else s'
  }

  /** The agent's dispatch of one message from the daemon. */
  function DoAgentReceive(s: State): State
    requires s.handled < |s.sent|
  {
    var m := s.sent[s.handled];
    s.(handled := s.handled + 1, agentSubs := Replay1(s.agentSubs, m),
       spawned := Spawned1(s.spawned, m), running := Running1(s.running, m))
  }

  /** Forwarder tasks ever started. An abort is only a request, so one may still speak after it. */
  function Spawned1(spawned: set<nat>, m: ToAgent): set<nat> {
    if m.Submit? && KindOf(m.body) == Subscription then spawned + {m.id} else spawned
  }

  /** One-shot actions under way. */
  function Running1(running: map<nat, Body>, m: ToAgent): map<nat, Body> {
    if m.Submit? && KindOf(m.body) == OneShot then running[m.id := m.body] else running
  }

  function DoParserStep(s: State): State
    requires s.taken < |s.ret|
  {
    var (routing, out) := Route(s.routing, s.ret[s.taken]);
    s.(routing := routing, taken := s.taken + 1,
       log := s.log + match out case None => [] case Some(x) => [x])
  }

  function DoDrain(s: State, order: seq<nat>): State
    requires forall d :: d in order ==> d in s.routing
  {
    s.(routing := map[], drained := true, log := s.log + DrainNotices(s.routing, order))
  }

  function Apply(s: State, step: Step): State
    requires Enabled(s, step)
  {
    match step
    case Connect(c) => s.(clients := s.clients[c := Session(Idle, map[], false)])
    case Command(c, req) => DoCommand(s, c, req)
    case AllocId(c) => DoAllocId(s, c)
    case Register(c) => DoRegister(s, c)
    case Send(c) => DoSend(s, c)
    case Withdraw(c) => DoWithdraw(s, c)
    case Notify(c) => DoNotify(s, c)
    case CancelCommand(c, sid) => DoTakeHandle(s, c, sid)
    case DropRoute(c) => DoDropRoute(s, c)
    case SendUnsubscribe(c) => DoSendUnsubscribe(s, c)
    case EndSession(c) => s.(clients := s.clients[c := s.clients[c].(ending := true)])
    case TeardownOne(c, sid) => DoTakeHandle(s, c, sid)
    case AgentReceive => DoAgentReceive(s)
    case AgentEmit(d, event) => s.(ret := s.ret + [AgentEvent(d, event)])
    case AgentFinish(d, outcome) =>
      s.(running := s.running - {d},
         ret := s.ret + [AgentResult(d, s.running[d].container, s.running[d].action, outcome, Local)])
    case AgentNoise => s.(ret := s.ret + [AgentOther])
    case ParserStep => DoParserStep(s)
    case ParserExit(order) => DoDrain(s, order).(parserAlive := false)
    case WriterDies => s.(writerOpen := false)
    case PoolRemove => s.(pooled := false)
    case ShutdownDrain(order) => DoDrain(s, order)
  }

  // ---- what a step leaves alone ------------------------------------------

  /** The step is of the connection, not of a client session. */
  predicate OfConnection(step: Step) {
    step.AgentReceive? || step.AgentEmit? || step.AgentFinish? || step.AgentNoise? || step.ParserStep?
    || step.ParserExit? || step.WriterDies? || step.PoolRemove? || step.ShutdownDrain?
  }

  /** The step is of a session taking up a request, up to its sending. */
  predicate OfOpening(step: Step) {
    step.Connect? || step.Command? || step.AllocId? || step.Register? || step.Send?
  }

  /** The step dispatches what the agent said, or empties the table. */
  predicate Reads(step: Step) {
    step.ParserStep? || step.ParserExit? || step.ShutdownDrain?
  }

  /** The agent says something. */
  predicate ByTheAgent(step: Step) {
    step.AgentEmit? || step.AgentFinish? || step.AgentNoise?
  }

  /** No session but `c` moves. */
  predicate OneMoves(c: nat, clients: map<nat, Session>, clients': map<nat, Session>) {
    clients' == clients || (c in clients' && clients' == clients[c := clients'[c]])
  }

  /** Few steps bind, send or deliver; sessions move alone; and what has gone stays gone. */
  predicate Frames(s: State, step: Step, s': State) {
    && (if OfConnection(step) then s'.clients == s.clients else OneMoves(step.c, s.clients, s'.clients))
    && (!step.Register? ==> s'.bound == s.bound)
    && (!step.Send? && !step.SendUnsubscribe? ==> s'.sent == s.sent)
    && (!ByTheAgent(step) ==> s'.ret == s.ret)
    && (!step.Command? && !step.Notify? && !Reads(step) ==> s'.log == s.log)
    && (!step.Register? && !step.Withdraw? && !step.DropRoute? && !Reads(step) ==> s'.routing == s.routing)
    && (s'.parserAlive ==> s.parserAlive) && (s'.writerOpen ==> s.writerOpen) && (s'.pooled ==> s.pooled)
    && (s.drained ==> s'.drained) && ((step.ParserExit? || step.ShutdownDrain?) ==> s'.drained)
  }

  lemma CommandFrames(s: State, c: nat, req: Request)
    requires c in s.clients
    ensures Frames(s, Command(c, req), DoCommand(s, c, req))
  {
    hide Rejection, Needs, Frames;
    if !s.pooled || Needs(req.body) !in s.caps {
      RefusedFrames(s, c, req, DoCommand(s, c, req).log);
    } else {
      LookedFrames(s, c, req);
    }
  }

  lemma RefusedFrames(s: State, c: nat, req: Request, log: seq<Delivery>)
    ensures Frames(s, Command(c, req), s.(log := log))
  {
  }

  lemma LookedFrames(s: State, c: nat, req: Request)
    requires c in s.clients
    ensures Frames(s, Command(c, req), At(s, c, Looked(req)))
  {
  }

  lemma SendFrames(s: State, c: nat)
    requires c in s.clients && s.clients[c].pc.Registered?
    ensures Frames(s, Send(c), DoSend(s, c))
  {
  }

  lemma OpeningFrames(s: State, step: Step)
    requires Enabled(s, step) && OfOpening(step)
    ensures Frames(s, step, Apply(s, step))
  {
    hide RoutedOf, DoCommand, DoSend;
    if step.Command? {
      CommandFrames(s, step.c, step.req);
      hide Frames;
    } else if step.Send? {
      SendFrames(s, step.c);
      hide Frames;
    }
  }

  lemma TakeFrames(s: State, c: nat, sid: nat)
    requires c in s.clients
    ensures Frames(s, CancelCommand(c, sid), DoTakeHandle(s, c, sid))
    ensures Frames(s, TeardownOne(c, sid), DoTakeHandle(s, c, sid))
  {
    hide Frames;
    if sid in s.clients[c].subs {
      TakenFrames(s, c, DoTakeHandle(s, c, sid).clients[c], CancelCommand(c, sid));
      TakenFrames(s, c, DoTakeHandle(s, c, sid).clients[c], TeardownOne(c, sid));
    } else {
      UntakenFrames(s, c, sid);
    }
  }

  lemma TakenFrames(s: State, c: nat, sess: Session, step: Step)
    requires c in s.clients && (step.CancelCommand? || step.TeardownOne?) && step.c == c
    ensures Frames(s, step, s.(clients := s.clients[c := sess]))
  {
  }

  lemma UntakenFrames(s: State, c: nat, sid: nat)
    ensures Frames(s, CancelCommand(c, sid), s) && Frames(s, TeardownOne(c, sid), s)
  {
  }

  lemma WithdrawFrames(s: State, c: nat)
    requires c in s.clients && s.clients[c].pc.SendFailed?
    ensures Frames(s, Withdraw(c), DoWithdraw(s, c))
  {
  }

  lemma NotifyFrames(s: State, c: nat)
    requires c in s.clients && s.clients[c].pc.Notifying?
    ensures Frames(s, Notify(c), DoNotify(s, c))
  {
    hide DeadWriterNotice;
  }

  lemma DropFrames(s: State, c: nat)
    requires c in s.clients
    ensures s.clients[c].pc.Dropping? ==> Frames(s, DropRoute(c), DoDropRoute(s, c))
    ensures s.clients[c].pc.Unsending? ==> Frames(s, SendUnsubscribe(c), DoSendUnsubscribe(s, c))
  {
  }

  lemma ClosingFrames(s: State, step: Step)
    requires Enabled(s, step) && !OfOpening(step) && !OfConnection(step)
    ensures Frames(s, step, Apply(s, step))
  {
    hide DoTakeHandle, DoWithdraw, DoNotify, DoDropRoute, DoSendUnsubscribe, Frames;
    match step
    case CancelCommand(c, sid) => TakeFrames(s, c, sid);
    case TeardownOne(c, sid) => TakeFrames(s, c, sid);
    case Withdraw(c) => WithdrawFrames(s, c);
    case Notify(c) => NotifyFrames(s, c);
    case DropRoute(c) => DropFrames(s, c);
    case SendUnsubscribe(c) => DropFrames(s, c);
    case EndSession(c) => EndFrames(s, c);
  }

  lemma EndFrames(s: State, c: nat)
    requires c in s.clients
    ensures Frames(s, EndSession(c), s.(clients := s.clients[c := s.clients[c].(ending := true)]))
  {
  }

  lemma ConnectionFrames(s: State, step: Step)
    requires Enabled(s, step) && OfConnection(step)
    ensures Frames(s, step, Apply(s, step))
  {
    hide Route, DrainNotices, Replay1, Spawned1, Running1;
  }

  lemma StepFrames(s: State, step: Step)
    requires Enabled(s, step)
    ensures Frames(s, step, Apply(s, step))
  {
    hide Enabled, Apply, Frames;
    if OfConnection(step) {
      ConnectionFrames(s, step);
    } else if OfOpening(step) {
      OpeningFrames(s, step);
    } else {
      ClosingFrames(s, step);
    }
  }

  /** `steps` is a run from `s`: each step is enabled where it is taken. */
  ghost predicate Runs(s: State, steps: seq<Step>)
    decreases steps
  {
    steps == [] || (Enabled(s, steps[0]) && Runs(Apply(s, steps[0]), steps[1..]))
  }

  ghost function End(s: State, steps: seq<Step>): State
    requires Runs(s, steps)
    decreases steps
  {
    if steps == [] then s else End(Apply(s, steps[0]), steps[1..])
  }

  // ---- what a message log amounts to -------------------------------------

  /** The agent's subscription table after one more message. */
  function Replay1(subs: set<nat>, m: ToAgent): set<nat> {
    match m
    case Unsubscribe(d) => subs - {d}
    case Submit(d, body) => if KindOf(body) == Subscription then subs + {d} else subs
  }

  function Replay(subs: set<nat>, ms: seq<ToAgent>): set<nat> {
    if ms == [] then subs else Replay1(Replay(subs, ms[..|ms| - 1]), ms[|ms| - 1])
  }

  /** Ids whose request was handed to the writer. */
  function Submitted(ms: seq<ToAgent>): set<nat> {
    if ms == [] then {}
    else
      var m := ms[|ms| - 1];
      Submitted(ms[..|ms| - 1]) + if m.Submit? then {m.id} else {}
  }

  /** Ids whose Unsubscribe was handed to the writer, with multiplicity. */
  function Cancelled(ms: seq<ToAgent>): multiset<nat> {
    if ms == [] then multiset{}
    else
      var m := ms[|ms| - 1];
      Cancelled(ms[..|ms| - 1]) + if m.Unsubscribe? then multiset{m.id} else multiset{}
  }

  lemma SentAppend(ms: seq<ToAgent>, m: ToAgent)
    ensures Submitted(ms + [m]) == Submitted(ms) + if m.Submit? then {m.id} else {}
    ensures Cancelled(ms + [m]) == Cancelled(ms) + if m.Unsubscribe? then multiset{m.id} else multiset{}
    ensures forall subs :: Replay(subs, ms + [m]) == Replay1(Replay(subs, ms), m)
  {
    assert (ms + [m])[..|ms|] == ms;
  }

  lemma {:induction false} ReplayConcat(subs: set<nat>, a: seq<ToAgent>, b: seq<ToAgent>)
    ensures Replay(subs, a + b) == Replay(Replay(subs, a), b)
  {
    if b == [] {
      assert a + b == a;
    } else {
      var b' := b[..|b| - 1];
      assert (a + b)[..|a + b| - 1] == a + b';
      ReplayConcat(subs, a, b');
    }
  }

  // ---- projections on one daemon id --------------------------------------

  predicate Concerns(m: FromAgent, d: nat) {
    !m.AgentOther? && m.id == d
  }

  function FromId(ms: seq<FromAgent>, d: nat): (r: seq<FromAgent>)
    ensures forall m :: m in r ==> Concerns(m, d) && m in ms
  {
    if ms == [] then []
    else
      var m := ms[|ms| - 1];
      FromId(ms[..|ms| - 1], d) + if Concerns(m, d) then [m] else []
  }

  lemma FromIdAppend(ms: seq<FromAgent>, m: FromAgent, d: nat)
    ensures FromId(ms + [m], d) == FromId(ms, d) + if Concerns(m, d) then [m] else []
  {
    assert (ms + [m])[..|ms|] == ms;
  }

  predicate Names(x: Delivery, d: nat) {
    !x.origin.ByRefusal? && x.origin.id == d
  }

  function OfId(log: seq<Delivery>, d: nat): seq<Delivery> {
    if log == [] then []
    else
      var x := log[|log| - 1];
      OfId(log[..|log| - 1], d) + if Names(x, d) then [x] else []
  }

  lemma OfIdAppend(log: seq<Delivery>, x: Delivery, d: nat)
    ensures OfId(log + [x], d) == OfId(log, d) + if Names(x, d) then [x] else []
  {
    assert (log + [x])[..|log|] == log;
  }

  /** A drain adds exactly one notice about `d` when `d` was routed, and none otherwise. */
  lemma {:induction false} OfIdDrain(log: seq<Delivery>, routing: map<nat, Routed>, order: seq<nat>, d: nat)
    requires NoDuplicates(order)
    requires forall e :: e in order ==> e in routing
    ensures OfId(log + DrainNotices(routing, order), d)
      == OfId(log, d) + if d in order then [DrainNotice(d, routing[d])] else []
  {
    if order == [] {
      assert log + DrainNotices(routing, order) == log;
    } else {
      var init, last := order[..|order| - 1], order[|order| - 1];
      OfIdDrain(log, routing, init, d);
      var before, x := DrainNotices(routing, init), DrainNotice(last, routing[last]);
      assert DrainNotices(routing, order) == before + [x];
      hide DrainNotices, OfId;
      assert log + (before + [x]) == (log + before) + [x];
      OfIdAppend(log + before, x, d);
      LastOne(order, d);
      hide DrainNotice;
    }
  }

  lemma LastOne(order: seq<nat>, d: nat)
    requires order != [] && NoDuplicates(order)
    ensures var init, last := order[..|order| - 1], order[|order| - 1];
      NoDuplicates(init) && last !in init && (d in order <==> d in init || d == last)
  {
    assert order == order[..|order| - 1] + [order[|order| - 1]];
  }

  /** What the agent's messages `src` become for the client behind `r`. */
  function RenamedAll(src: seq<FromAgent>, r: Routed): (out: seq<Delivery>)
    requires forall m :: m in src ==> !m.AgentOther?
    ensures |out| == |src|
  {
    if src == [] then []
    else RenamedAll(src[..|src| - 1], r) + [Renamed(src[|src| - 1], r)]
  }

  lemma RenamedAllAppend(src: seq<FromAgent>, m: FromAgent, r: Routed)
    requires forall m' :: m' in src ==> !m'.AgentOther?
    requires !m.AgentOther?
    ensures RenamedAll(src + [m], r) == RenamedAll(src, r) + [Renamed(m, r)]
  {
    assert (src + [m])[..|src|] == src;
  }
}

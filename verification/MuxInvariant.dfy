/** The simulation invariant of the agent multiplexer, and that every step keeps it. */
module MuxInvariant {
  import opened Wrappers
  import opened Routing
  import opened Mux

  type Clients = map<nat, Session>
  type Bound = map<nat, Binding>
  type Table = map<nat, Routed>

  predicate IsSub(bound: Bound, d: nat) {
    d in bound && KindOf(bound[d].request.body) == Subscription
  }

  /** Ids are drawn once, and the table never disagrees with what was first bound. */
  ghost predicate Ids(nextId: nat, bound: Bound, routing: Table, clients: Clients) {
    && 1 <= nextId
    && (forall d :: d in bound ==> 1 <= d < nextId && bound[d].client in clients)
    && (forall d :: d in routing ==> d in bound && routing[d] == RoutedOf(bound[d]))
  }

  /** Where a session may stand, given what its id was bound to and what was sent for it. */
  ghost predicate PcOk(c: nat, pc: Pc, nextId: nat, bound: Bound, routing: Table,
                       submitted: set<nat>, cancelled: multiset<nat>, open: bool)
  {
    match pc
    case Idle => true
    case Looked(_) => true
    case Allocated(_, d) => 1 <= d < nextId && d !in bound
    case Registered(req, d) => d in bound && bound[d] == Binding(c, req) && d !in submitted
    case SendFailed(req, d) => d in bound && bound[d] == Binding(c, req) && d !in submitted && !open
    case Notifying(req, d) =>
      d in bound && bound[d] == Binding(c, req) && d !in submitted && !open && d !in routing
    case Dropping(d) => IsSub(bound, d) && bound[d].client == c && d in submitted && d !in cancelled
    case Unsending(d) =>
      IsSub(bound, d) && bound[d].client == c && d in submitted && d !in cancelled && d !in routing
  }

  predicate Distinct(p: Pc, q: Pc) {
    p.Allocated? && q.Allocated? ==> p.id != q.id
  }

  ghost predicate Pcs(clients: Clients, nextId: nat, bound: Bound, routing: Table,
                      submitted: set<nat>, cancelled: multiset<nat>, open: bool)
  {
    && (forall c :: c in clients ==> PcOk(c, clients[c].pc, nextId, bound, routing, submitted, cancelled, open))
    && (forall c, c' :: c in clients && c' in clients && c != c' ==> Distinct(clients[c].pc, clients[c'].pc))
  }

  /** `d` is a live handle of client `c` for its own id `sid`. */
  predicate HandleOk(c: nat, pc: Pc, sid: nat, d: nat, bound: Bound, submitted: set<nat>, cancelled: multiset<nat>) {
    && IsSub(bound, d)
    && bound[d].client == c
    && bound[d].request.id == sid
    && d in submitted
    && d !in cancelled
    && pc != Dropping(d)
    && pc != Unsending(d)
  }

  ghost predicate Handles(clients: Clients, bound: Bound, submitted: set<nat>, cancelled: multiset<nat>) {
    forall c, sid :: c in clients && sid in clients[c].subs ==>
      HandleOk(c, clients[c].pc, sid, clients[c].subs[sid], bound, submitted, cancelled)
  }

  /** What was sent, and the agent's subscription table as a function of it. */
  ghost predicate Wire(sent: seq<ToAgent>, handled: nat, agentSubs: set<nat>, bound: Bound,
                       submitted: set<nat>, cancelled: multiset<nat>)
  {
    && handled <= |sent|
    && agentSubs == Replay({}, sent[..handled])
    && (forall d :: d in submitted ==> d in bound)
    && (forall m :: m in sent && m.Submit? ==> m.id in submitted && m.body == bound[m.id].request.body)
    && (forall d :: d in cancelled ==> d in submitted && cancelled[d] == 1)
    && (forall d :: d in Replay({}, sent) <==> d in submitted && IsSub(bound, d) && d !in cancelled)
  }

  /** What the agent says under id `d` belongs to a request it was sent. */
  predicate Truthful(m: FromAgent, bound: Bound, submitted: set<nat>) {
    m.AgentOther? ||
    (&& m.id in submitted
     && m.id in bound
     && m.AgentEvent? == IsSub(bound, m.id)
     && (m.AgentResult? ==> DockerAction(m.container, m.action) == bound[m.id].request.body && m.target == Local))
  }

  ghost predicate FarSide(spawned: set<nat>, running: map<nat, Body>, ret: seq<FromAgent>,
                          bound: Bound, submitted: set<nat>)
  {
    && (forall d :: d in spawned ==> d in submitted && IsSub(bound, d))
    && (forall d :: d in running ==>
      d in submitted && d in bound && running[d] == bound[d].request.body && running[d].DockerAction?)
    && (forall m :: m in ret ==> Truthful(m, bound, submitted))
  }

  /** The connection has neither lost its writer nor been drained. */
  predicate Live(s: State) {
    s.writerOpen && !s.drained
  }

  predicate TableOk(d: nat, b: Binding, pc: Pc, routed: bool, submitted: bool, cancelled: bool) {
    && (submitted || pc == Registered(b.request, d))
    && (routed <==> !cancelled && pc != Unsending(d))
  }

  ghost predicate Tables(clients: Clients, bound: Bound, routing: Table,
                         submitted: set<nat>, cancelled: multiset<nat>)
  {
    forall d :: IsSub(bound, d) && bound[d].client in clients ==>
      TableOk(d, bound[d], clients[bound[d].client].pc, d in routing, d in submitted, d in cancelled)
  }

  ghost predicate ControlInv(s: State) {
    var submitted, cancelled := Submitted(s.sent), Cancelled(s.sent);
    && Ids(s.nextId, s.bound, s.routing, s.clients)
    && Pcs(s.clients, s.nextId, s.bound, s.routing, submitted, cancelled, s.writerOpen)
    && Handles(s.clients, s.bound, submitted, cancelled)
    && Wire(s.sent, s.handled, s.agentSubs, s.bound, submitted, cancelled)
    && FarSide(s.spawned, s.running, s.ret, s.bound, submitted)
    && s.taken <= |s.ret|
    && (Live(s) ==> Tables(s.clients, s.bound, s.routing, submitted, cancelled))
  }

  lemma InitControl(alias: string, caps: set<Capability>)
    ensures ControlInv(Init(alias, caps))
  {
  }

  // ---- one component at a time ---------------------------------------------

  lemma PcAt(c: nat, clients: Clients, nextId: nat, bound: Bound, routing: Table,
             submitted: set<nat>, cancelled: multiset<nat>, open: bool)
    requires Pcs(clients, nextId, bound, routing, submitted, cancelled, open) && c in clients
    ensures PcOk(c, clients[c].pc, nextId, bound, routing, submitted, cancelled, open)
  {
  }

  /** One session moves; ids may have been drawn, entries may have gone, the writer may have closed. */
  lemma PcsMove(c: nat, sess: Session, clients: Clients, nextId: nat, bound: Bound, routing: Table,
                submitted: set<nat>, cancelled: multiset<nat>, open: bool,
                nextId': nat, routing': Table, open': bool)
    requires Pcs(clients, nextId, bound, routing, submitted, cancelled, open)
    requires nextId <= nextId' && routing'.Keys <= routing.Keys && (open' ==> open)
    requires PcOk(c, sess.pc, nextId', bound, routing', submitted, cancelled, open')
    requires sess.pc.Allocated? ==>
      sess.pc.id >= nextId || (c in clients && clients[c].pc.Allocated? && clients[c].pc.id == sess.pc.id)
    ensures Pcs(clients[c := sess], nextId', bound, routing', submitted, cancelled, open')
  {
    forall c' | c' in clients
      ensures PcOk(c', clients[c'].pc, nextId', bound, routing', submitted, cancelled, open')
    {
      assert PcOk(c', clients[c'].pc, nextId, bound, routing, submitted, cancelled, open);
    }
  }

  lemma PcsWeaken(clients: Clients, nextId: nat, bound: Bound, routing: Table,
                  submitted: set<nat>, cancelled: multiset<nat>, open: bool, routing': Table, open': bool)
    requires Pcs(clients, nextId, bound, routing, submitted, cancelled, open)
    requires routing'.Keys <= routing.Keys && (open' ==> open)
    ensures Pcs(clients, nextId, bound, routing', submitted, cancelled, open')
  {
    forall c' | c' in clients
      ensures PcOk(c', clients[c'].pc, nextId, bound, routing', submitted, cancelled, open')
    {
      assert PcOk(c', clients[c'].pc, nextId, bound, routing, submitted, cancelled, open);
    }
  }

  lemma HandlesMove(c: nat, sess: Session, clients: Clients, bound: Bound, submitted: set<nat>, cancelled: multiset<nat>)
    requires Handles(clients, bound, submitted, cancelled)
    requires sess.subs == map[] || (c in clients && sess.subs == clients[c].subs)
    requires !sess.pc.Dropping?
    requires sess.pc.Unsending? ==> c in clients && clients[c].pc == Dropping(sess.pc.id)
    ensures Handles(clients[c := sess], bound, submitted, cancelled)
  {
    forall sid | sid in sess.subs
      ensures HandleOk(c, sess.pc, sid, sess.subs[sid], bound, submitted, cancelled)
    {
      assert HandleOk(c, clients[c].pc, sid, clients[c].subs[sid], bound, submitted, cancelled);
    }
  }

  lemma TablesMove(c: nat, sess: Session, clients: Clients, bound: Bound, routing: Table,
                   submitted: set<nat>, cancelled: multiset<nat>)
    requires Tables(clients, bound, routing, submitted, cancelled)
    requires c in clients || (forall d :: d in bound ==> bound[d].client != c)
    requires c in clients ==> !clients[c].pc.Registered? && !clients[c].pc.Unsending?
    requires !sess.pc.Registered? && !sess.pc.Unsending?
    ensures Tables(clients[c := sess], bound, routing, submitted, cancelled)
  {
    forall d | IsSub(bound, d) && bound[d].client in clients
      ensures TableOk(d, bound[d], clients[c := sess][bound[d].client].pc, d in routing, d in submitted, d in cancelled)
    {
      assert TableOk(d, bound[d], clients[bound[d].client].pc, d in routing, d in submitted, d in cancelled);
    }
  }

  /** One session moves between quiet places and nothing else changes. */
  lemma MoveControl(s: State, s': State, c: nat, sess: Session)
    requires ControlInv(s)
    requires s' == s.(clients := s.clients[c := sess], nextId := s'.nextId, pooled := s'.pooled, log := s'.log)
    requires s.nextId <= s'.nextId
    requires PcOk(c, sess.pc, s'.nextId, s.bound, s.routing, Submitted(s.sent), Cancelled(s.sent), s.writerOpen)
    requires sess.pc.Allocated? ==> sess.pc.id >= s.nextId
    requires sess.subs == map[] || (c in s.clients && sess.subs == s.clients[c].subs)
    requires !sess.pc.Dropping? && !sess.pc.Unsending? && !sess.pc.Registered?
    requires c in s.clients ==> !s.clients[c].pc.Unsending? && (s.clients[c].pc.Registered? ==> !s.writerOpen)
    ensures ControlInv(s')
  {
    hide Pcs, Handles, Wire, FarSide, Tables, PcOk, Submitted, Cancelled;
    var sub, can := Submitted(s.sent), Cancelled(s.sent);
    PcsMove(c, sess, s.clients, s.nextId, s.bound, s.routing, sub, can, s.writerOpen,
            s'.nextId, s.routing, s.writerOpen);
    HandlesMove(c, sess, s.clients, s.bound, sub, can);
    if Live(s) {
      TablesMove(c, sess, s.clients, s.bound, s.routing, sub, can);
    }
  }

  // ---- every step keeps the control invariant -------------------------------

  lemma CommandControl(s: State, c: nat, req: Request)
    requires ControlInv(s) && AtIdle(s, c)
    ensures ControlInv(DoCommand(s, c, req))
  {
    hide ControlInv, Rejection, Needs;
    if !s.pooled || Needs(req.body) !in s.caps {
      LogControl(s, DoCommand(s, c, req).log);
    } else {
      LookControl(s, c, req);
    }
  }

  lemma LogControl(s: State, log: seq<Delivery>)
    requires ControlInv(s)
    ensures ControlInv(s.(log := log))
  {
    hide Ids, Pcs, Handles, Wire, FarSide, Tables, Submitted, Cancelled;
  }

  lemma LookControl(s: State, c: nat, req: Request)
    requires ControlInv(s) && AtIdle(s, c)
    ensures ControlInv(At(s, c, Looked(req)))
  {
    hide ControlInv, Submitted, Cancelled;
    MoveControl(s, At(s, c, Looked(req)), c, s.clients[c].(pc := Looked(req)));
  }

  lemma AllocIdControl(s: State, c: nat)
    requires ControlInv(s) && c in s.clients && s.clients[c].pc.Looked?
    ensures ControlInv(DoAllocId(s, c))
  {
    hide Pcs, Handles, Wire, FarSide, Tables;
    MoveControl(s, DoAllocId(s, c), c, s.clients[c].(pc := Allocated(s.clients[c].pc.req, s.nextId)));
  }

  lemma NotifyControl(s: State, c: nat)
    requires ControlInv(s) && c in s.clients && s.clients[c].pc.Notifying?
    ensures ControlInv(DoNotify(s, c))
  {
    hide Ids, Pcs, Handles, Wire, FarSide, Tables;
    MoveControl(s, DoNotify(s, c), c, s.clients[c].(pc := Idle));
  }

  // Register: a fresh id is bound and routed.

  lemma RegisterPcs(c: nat, req: Request, d: nat, sess: Session, clients: Clients, nextId: nat, bound: Bound,
                    routing: Table, submitted: set<nat>, cancelled: multiset<nat>, open: bool)
    requires Pcs(clients, nextId, bound, routing, submitted, cancelled, open)
    requires c in clients && clients[c].pc == Allocated(req, d)
    requires sess.pc == Registered(req, d)
    requires d !in submitted
    ensures Pcs(clients[c := sess], nextId, bound[d := Binding(c, req)], routing[d := RoutedOf(Binding(c, req))],
                submitted, cancelled, open)
  {
    forall c' | c' in clients && c' != c
      ensures PcOk(c', clients[c'].pc, nextId, bound[d := Binding(c, req)],
                   routing[d := RoutedOf(Binding(c, req))], submitted, cancelled, open)
    {
      assert PcOk(c', clients[c'].pc, nextId, bound, routing, submitted, cancelled, open);
      assert Distinct(clients[c].pc, clients[c'].pc);
    }
  }

  lemma RegisterHandles(c: nat, req: Request, d: nat, sess: Session, clients: Clients, bound: Bound,
                        submitted: set<nat>, cancelled: multiset<nat>)
    requires Handles(clients, bound, submitted, cancelled)
    requires c in clients && sess.pc == Registered(req, d) && sess.subs == clients[c].subs
    requires d !in bound
    ensures Handles(clients[c := sess], bound[d := Binding(c, req)], submitted, cancelled)
  {
    forall c', sid | c' in clients && sid in clients[c'].subs
      ensures HandleOk(c', clients[c := sess][c'].pc, sid, clients[c'].subs[sid],
                       bound[d := Binding(c, req)], submitted, cancelled)
    {
      assert HandleOk(c', clients[c'].pc, sid, clients[c'].subs[sid], bound, submitted, cancelled);
    }
  }

  lemma RegisterWire(d: nat, b: Binding, sent: seq<ToAgent>, handled: nat, agentSubs: set<nat>, bound: Bound,
                     submitted: set<nat>, cancelled: multiset<nat>)
    requires Wire(sent, handled, agentSubs, bound, submitted, cancelled)
    requires d !in bound
    ensures Wire(sent, handled, agentSubs, bound[d := b], submitted, cancelled)
  {
  }

  lemma RegisterFarSide(d: nat, b: Binding, spawned: set<nat>, running: map<nat, Body>, ret: seq<FromAgent>,
                        bound: Bound, submitted: set<nat>)
    requires FarSide(spawned, running, ret, bound, submitted)
    requires d !in bound
    ensures FarSide(spawned, running, ret, bound[d := b], submitted)
  {
    forall m | m in ret ensures Truthful(m, bound[d := b], submitted) {
      assert Truthful(m, bound, submitted);
    }
  }

  lemma RegisterTables(c: nat, req: Request, d: nat, sess: Session, clients: Clients, bound: Bound, routing: Table,
                       submitted: set<nat>, cancelled: multiset<nat>)
    requires Tables(clients, bound, routing, submitted, cancelled)
    requires c in clients && clients[c].pc.Allocated? && sess.pc == Registered(req, d)
    requires d !in bound && d !in cancelled
    ensures Tables(clients[c := sess], bound[d := Binding(c, req)], routing[d := RoutedOf(Binding(c, req))],
                   submitted, cancelled)
  {
    var bound' := bound[d := Binding(c, req)];
    forall e | IsSub(bound', e) && bound'[e].client in clients
      ensures TableOk(e, bound'[e], clients[c := sess][bound'[e].client].pc,
                      e in routing[d := RoutedOf(Binding(c, req))], e in submitted, e in cancelled)
    {
      if e != d {
        assert TableOk(e, bound[e], clients[bound[e].client].pc, e in routing, e in submitted, e in cancelled);
      }
    }
  }

  lemma RegisterIds(c: nat, d: nat, b: Binding, sess: Session, clients: Clients, nextId: nat, bound: Bound, routing: Table)
    requires Ids(nextId, bound, routing, clients)
    requires c in clients && b.client == c && 1 <= d < nextId && d !in bound
    ensures Ids(nextId, bound[d := b], routing[d := RoutedOf(b)], clients[c := sess])
  {
  }

  lemma RegisterControl(s: State, c: nat)
    requires ControlInv(s) && c in s.clients && s.clients[c].pc.Allocated?
    ensures ControlInv(DoRegister(s, c))
  {
    var sub, can := Submitted(s.sent), Cancelled(s.sent);
    var Allocated(req, d) := s.clients[c].pc;
    var sess := s.clients[c].(pc := Registered(req, d));
    RegisterFresh(s, c);
    hide Ids, Pcs, Handles, Wire, FarSide, Tables, Submitted, Cancelled, RoutedOf;
    RegisterIds(c, d, Binding(c, req), sess, s.clients, s.nextId, s.bound, s.routing);
    RegisterPcs(c, req, d, sess, s.clients, s.nextId, s.bound, s.routing, sub, can, s.writerOpen);
    RegisterHandles(c, req, d, sess, s.clients, s.bound, sub, can);
    RegisterWire(d, Binding(c, req), s.sent, s.handled, s.agentSubs, s.bound, sub, can);
    RegisterFarSide(d, Binding(c, req), s.spawned, s.running, s.ret, s.bound, sub);
    if Live(s) {
      RegisterTables(c, req, d, sess, s.clients, s.bound, s.routing, sub, can);
    }
  }

  lemma RegisterFresh(s: State, c: nat)
    requires ControlInv(s) && c in s.clients && s.clients[c].pc.Allocated?
    ensures var d := s.clients[c].pc.id;
      1 <= d < s.nextId && d !in s.bound && d !in Submitted(s.sent) && d !in Cancelled(s.sent)
  {
    hide Ids, Handles, FarSide, Tables;
    PcAt(c, s.clients, s.nextId, s.bound, s.routing, Submitted(s.sent), Cancelled(s.sent), s.writerOpen);
  }

  // Send: a registered request is handed to the writer.

  lemma SendPcs(c: nat, req: Request, d: nat, sess: Session, clients: Clients, nextId: nat, bound: Bound,
                routing: Table, submitted: set<nat>, cancelled: multiset<nat>, open: bool)
    requires Pcs(clients, nextId, bound, routing, submitted, cancelled, open)
    requires c in clients && clients[c].pc == Registered(req, d) && sess.pc == Idle
    ensures Pcs(clients[c := sess], nextId, bound, routing, submitted + {d}, cancelled, open)
  {
    PcAt(c, clients, nextId, bound, routing, submitted, cancelled, open);
    forall c' | c' in clients && c' != c
      ensures PcOk(c', clients[c'].pc, nextId, bound, routing, submitted + {d}, cancelled, open)
    {
      assert PcOk(c', clients[c'].pc, nextId, bound, routing, submitted, cancelled, open);
    }
  }

  lemma SendHandles(c: nat, req: Request, d: nat, sess: Session, clients: Clients, bound: Bound,
                    submitted: set<nat>, cancelled: multiset<nat>)
    requires Handles(clients, bound, submitted, cancelled)
    requires c in clients && clients[c].pc == Registered(req, d) && sess.pc == Idle
    requires d in bound && bound[d] == Binding(c, req) && d !in cancelled
    requires sess.subs == if KindOf(req.body) == Subscription then clients[c].subs[req.id := d] else clients[c].subs
    ensures Handles(clients[c := sess], bound, submitted + {d}, cancelled)
  {
    var after := clients[c := sess];
    forall c', sid | c' in after && sid in after[c'].subs
      ensures HandleOk(c', after[c'].pc, sid, after[c'].subs[sid], bound, submitted + {d}, cancelled)
    {
      if sid in clients[c'].subs {
        assert HandleOk(c', clients[c'].pc, sid, clients[c'].subs[sid], bound, submitted, cancelled);
      }
    }
  }

  lemma SubmitWire(m: ToAgent, sent: seq<ToAgent>, handled: nat, agentSubs: set<nat>, bound: Bound,
                   submitted: set<nat>, cancelled: multiset<nat>)
    requires Wire(sent, handled, agentSubs, bound, submitted, cancelled)
    requires m.Submit? && m.id in bound && m.id !in submitted && m.body == bound[m.id].request.body
    requires Replay({}, sent + [m]) == Replay1(Replay({}, sent), m)
    ensures Wire(sent + [m], handled, agentSubs, bound, submitted + {m.id}, cancelled)
  {
    assert (sent + [m])[..handled] == sent[..handled];
    hide Replay;
  }

  lemma UnsubscribeWire(d: nat, sent: seq<ToAgent>, handled: nat, agentSubs: set<nat>, bound: Bound,
                        submitted: set<nat>, cancelled: multiset<nat>)
    requires Wire(sent, handled, agentSubs, bound, submitted, cancelled)
    requires d in bound && d in submitted && d !in cancelled
    requires Replay({}, sent + [Unsubscribe(d)]) == Replay1(Replay({}, sent), Unsubscribe(d))
    ensures Wire(sent + [Unsubscribe(d)], handled, agentSubs, bound, submitted, cancelled + multiset{d})
  {
    assert (sent + [Unsubscribe(d)])[..handled] == sent[..handled];
    hide Replay;
  }

  lemma SendWire(m: ToAgent, sent: seq<ToAgent>, handled: nat, agentSubs: set<nat>, bound: Bound)
    requires Wire(sent, handled, agentSubs, bound, Submitted(sent), Cancelled(sent))
    requires m.id in bound
    requires m.Submit? ==> m.id !in Submitted(sent) && m.body == bound[m.id].request.body
    requires m.Unsubscribe? ==> m.id in Submitted(sent) && m.id !in Cancelled(sent)
    ensures Wire(sent + [m], handled, agentSubs, bound, Submitted(sent + [m]), Cancelled(sent + [m]))
  {
    SentAppend(sent, m);
    hide Wire, Replay, Submitted, Cancelled;
    assert Submitted(sent) + {} == Submitted(sent) && Cancelled(sent) + multiset{} == Cancelled(sent);
    if m.Submit? {
      SubmitWire(m, sent, handled, agentSubs, bound, Submitted(sent), Cancelled(sent));
    } else {
      assert m == Unsubscribe(m.id);
      UnsubscribeWire(m.id, sent, handled, agentSubs, bound, Submitted(sent), Cancelled(sent));
    }
  }

  lemma SendFarSide(spawned: set<nat>, running: map<nat, Body>, ret: seq<FromAgent>,
                    bound: Bound, submitted: set<nat>, submitted': set<nat>)
    requires FarSide(spawned, running, ret, bound, submitted)
    requires submitted <= submitted'
    ensures FarSide(spawned, running, ret, bound, submitted')
  {
    forall m | m in ret ensures Truthful(m, bound, submitted') {
      assert Truthful(m, bound, submitted);
    }
  }

  lemma SendTables(c: nat, d: nat, sess: Session, clients: Clients, bound: Bound, routing: Table,
                   submitted: set<nat>, cancelled: multiset<nat>)
    requires Tables(clients, bound, routing, submitted, cancelled)
    requires c in clients && clients[c].pc.Registered? && clients[c].pc.id == d && sess.pc == Idle
    ensures Tables(clients[c := sess], bound, routing, submitted + {d}, cancelled)
  {
    forall e | IsSub(bound, e) && bound[e].client in clients
      ensures TableOk(e, bound[e], clients[c := sess][bound[e].client].pc,
                      e in routing, e in submitted + {d}, e in cancelled)
    {
      assert TableOk(e, bound[e], clients[bound[e].client].pc, e in routing, e in submitted, e in cancelled);
    }
  }

  lemma IdsMove(c: nat, sess: Session, clients: Clients, nextId: nat, bound: Bound, routing: Table, routing': Table)
    requires Ids(nextId, bound, routing, clients)
    requires forall d :: d in routing' ==> d in routing && routing'[d] == routing[d]
    ensures Ids(nextId, bound, routing', clients[c := sess])
  {
  }

  lemma SendControl(s: State, c: nat)
    requires ControlInv(s) && c in s.clients && s.clients[c].pc.Registered?
    ensures ControlInv(DoSend(s, c))
  {
    var Registered(req, d) := s.clients[c].pc;
    RegisteredUnsent(s, c);
    hide Ids, Pcs, Handles, Wire, FarSide, Tables, Submitted, Cancelled;
    if !s.writerOpen {
      MoveControl(s, DoSend(s, c), c, s.clients[c].(pc := SendFailed(req, d)));
    } else {
      SendOpenControl(s, c, req, d);
    }
  }

  lemma SendOpenControl(s: State, c: nat, req: Request, d: nat)
    requires ControlInv(s) && c in s.clients && s.clients[c].pc == Registered(req, d) && s.writerOpen
    requires d in s.bound && s.bound[d] == Binding(c, req) && d !in Submitted(s.sent) && d !in Cancelled(s.sent)
    ensures ControlInv(DoSend(s, c))
  {
    hide Ids, Pcs, Handles, Wire, FarSide, Tables, Submitted, Cancelled;
    var sub, can := Submitted(s.sent), Cancelled(s.sent);
    var m := Submit(d, req.body);
    var sess := DoSend(s, c).clients[c];
    SentAppend(s.sent, m);
    IdsMove(c, sess, s.clients, s.nextId, s.bound, s.routing, s.routing);
    SendPcs(c, req, d, sess, s.clients, s.nextId, s.bound, s.routing, sub, can, s.writerOpen);
    SendHandles(c, req, d, sess, s.clients, s.bound, sub, can);
    SendWire(m, s.sent, s.handled, s.agentSubs, s.bound);
    SendFarSide(s.spawned, s.running, s.ret, s.bound, sub, sub + {d});
    if Live(s) {
      SendTables(c, d, sess, s.clients, s.bound, s.routing, sub, can);
    }
    assert Submitted(s.sent + [m]) == sub + {d};
    assert Cancelled(s.sent + [m]) == can;
  }

  lemma RegisteredUnsent(s: State, c: nat)
    requires ControlInv(s) && c in s.clients && s.clients[c].pc.Registered?
    ensures var Registered(req, d) := s.clients[c].pc;
      d in s.bound && s.bound[d] == Binding(c, req) && d !in Submitted(s.sent) && d !in Cancelled(s.sent)
  {
    hide Ids, Handles, FarSide, Tables;
    PcAt(c, s.clients, s.nextId, s.bound, s.routing, Submitted(s.sent), Cancelled(s.sent), s.writerOpen);
  }

  lemma WithdrawControl(s: State, c: nat)
    requires ControlInv(s) && c in s.clients && s.clients[c].pc.SendFailed?
    ensures ControlInv(DoWithdraw(s, c))
  {
    var sub, can := Submitted(s.sent), Cancelled(s.sent);
    var SendFailed(req, d) := s.clients[c].pc;
    var sess := s.clients[c].(pc := Notifying(req, d));
    hide Ids, Pcs, Handles, Wire, FarSide, Tables, Submitted, Cancelled;
    PcAt(c, s.clients, s.nextId, s.bound, s.routing, sub, can, s.writerOpen);
    PcsMove(c, sess, s.clients, s.nextId, s.bound, s.routing, sub, can, s.writerOpen,
            s.nextId, s.routing - {d}, s.writerOpen);
    HandlesMove(c, sess, s.clients, s.bound, sub, can);
    IdsMove(c, sess, s.clients, s.nextId, s.bound, s.routing, s.routing - {d});
  }

  // Unsubscribe and teardown: the handle, then the entry, then the message.

  lemma TakeHandles(c: nat, sid: nat, sess: Session, clients: Clients, bound: Bound,
                    submitted: set<nat>, cancelled: multiset<nat>)
    requires Handles(clients, bound, submitted, cancelled)
    requires c in clients && sid in clients[c].subs && sess.subs == clients[c].subs - {sid}
    requires sess.pc == Dropping(clients[c].subs[sid]) || sess.pc == clients[c].pc
    ensures HandleOk(c, clients[c].pc, sid, clients[c].subs[sid], bound, submitted, cancelled)
    ensures Handles(clients[c := sess], bound, submitted, cancelled)
  {
    assert HandleOk(c, clients[c].pc, sid, clients[c].subs[sid], bound, submitted, cancelled);
    forall sid' | sid' in sess.subs
      ensures HandleOk(c, sess.pc, sid', sess.subs[sid'], bound, submitted, cancelled)
    {
      assert HandleOk(c, clients[c].pc, sid', clients[c].subs[sid'], bound, submitted, cancelled);
    }
  }

  lemma TakeHandleControl(s: State, c: nat, sid: nat)
    requires ControlInv(s) && AtIdle(s, c)
    ensures ControlInv(DoTakeHandle(s, c, sid))
  {
    if sid in s.clients[c].subs {
      var sub, can := Submitted(s.sent), Cancelled(s.sent);
      var sess := DoTakeHandle(s, c, sid).clients[c];
      hide Ids, Pcs, Handles, Wire, FarSide, Tables, Submitted, Cancelled;
      TakeHandles(c, sid, sess, s.clients, s.bound, sub, can);
      IdsMove(c, sess, s.clients, s.nextId, s.bound, s.routing, s.routing);
      PcsMove(c, sess, s.clients, s.nextId, s.bound, s.routing, sub, can, s.writerOpen,
              s.nextId, s.routing, s.writerOpen);
      if Live(s) {
        TablesMove(c, sess, s.clients, s.bound, s.routing, sub, can);
      }
    }
  }

  lemma DropTables(c: nat, d: nat, sess: Session, clients: Clients, bound: Bound, routing: Table,
                   submitted: set<nat>, cancelled: multiset<nat>)
    requires Tables(clients, bound, routing, submitted, cancelled)
    requires c in clients && clients[c].pc == Dropping(d) && sess.pc == Unsending(d)
    requires IsSub(bound, d) && bound[d].client == c
    ensures Tables(clients[c := sess], bound, routing - {d}, submitted, cancelled)
  {
    forall e | IsSub(bound, e) && bound[e].client in clients
      ensures TableOk(e, bound[e], clients[c := sess][bound[e].client].pc,
                      e in routing - {d}, e in submitted, e in cancelled)
    {
      assert TableOk(e, bound[e], clients[bound[e].client].pc, e in routing, e in submitted, e in cancelled);
    }
  }

  lemma DropRouteControl(s: State, c: nat)
    requires ControlInv(s) && c in s.clients && s.clients[c].pc.Dropping?
    ensures ControlInv(DoDropRoute(s, c))
  {
    var sub, can := Submitted(s.sent), Cancelled(s.sent);
    var d := s.clients[c].pc.id;
    var sess := s.clients[c].(pc := Unsending(d));
    PcAt(c, s.clients, s.nextId, s.bound, s.routing, sub, can, s.writerOpen);
    hide Ids, Pcs, Handles, Wire, FarSide, Tables, Submitted, Cancelled;
    PcsMove(c, sess, s.clients, s.nextId, s.bound, s.routing, sub, can, s.writerOpen,
            s.nextId, s.routing - {d}, s.writerOpen);
    HandlesMove(c, sess, s.clients, s.bound, sub, can);
    IdsMove(c, sess, s.clients, s.nextId, s.bound, s.routing, s.routing - {d});
    if Live(s) {
      DropTables(c, d, sess, s.clients, s.bound, s.routing, sub, can);
    }
  }

  lemma UnsendPcs(c: nat, d: nat, sess: Session, clients: Clients, nextId: nat, bound: Bound,
                  routing: Table, submitted: set<nat>, cancelled: multiset<nat>, open: bool)
    requires Pcs(clients, nextId, bound, routing, submitted, cancelled, open)
    requires c in clients && clients[c].pc == Unsending(d) && sess.pc == Idle
    ensures Pcs(clients[c := sess], nextId, bound, routing, submitted, cancelled + multiset{d}, open)
  {
    PcAt(c, clients, nextId, bound, routing, submitted, cancelled, open);
    forall c' | c' in clients && c' != c
      ensures PcOk(c', clients[c'].pc, nextId, bound, routing, submitted, cancelled + multiset{d}, open)
    {
      assert PcOk(c', clients[c'].pc, nextId, bound, routing, submitted, cancelled, open);
    }
  }

  lemma UnsendHandles(c: nat, d: nat, sess: Session, clients: Clients, bound: Bound,
                      submitted: set<nat>, cancelled: multiset<nat>)
    requires Handles(clients, bound, submitted, cancelled)
    requires c in clients && clients[c].pc == Unsending(d) && sess == clients[c].(pc := Idle)
    requires IsSub(bound, d) && bound[d].client == c
    ensures Handles(clients[c := sess], bound, submitted, cancelled + multiset{d})
  {
    forall c', sid | c' in clients && sid in clients[c'].subs
      ensures HandleOk(c', clients[c := sess][c'].pc, sid, clients[c'].subs[sid],
                       bound, submitted, cancelled + multiset{d})
    {
      assert HandleOk(c', clients[c'].pc, sid, clients[c'].subs[sid], bound, submitted, cancelled);
    }
  }

  lemma UnsendTables(c: nat, d: nat, sess: Session, clients: Clients, bound: Bound, routing: Table,
                     submitted: set<nat>, cancelled: multiset<nat>)
    requires Tables(clients, bound, routing, submitted, cancelled)
    requires c in clients && clients[c].pc == Unsending(d) && sess.pc == Idle
    requires d !in routing
    ensures Tables(clients[c := sess], bound, routing, submitted, cancelled + multiset{d})
  {
    forall e | IsSub(bound, e) && bound[e].client in clients
      ensures TableOk(e, bound[e], clients[c := sess][bound[e].client].pc,
                      e in routing, e in submitted, e in cancelled + multiset{d})
    {
      assert TableOk(e, bound[e], clients[bound[e].client].pc, e in routing, e in submitted, e in cancelled);
    }
  }

  lemma SendUnsubscribeOpen(s: State, c: nat, d: nat, sess: Session)
    requires ControlInv(s) && c in s.clients && s.clients[c].pc == Unsending(d) && s.writerOpen
    requires sess == s.clients[c].(pc := Idle)
    ensures ControlInv(s.(clients := s.clients[c := sess], sent := s.sent + [Unsubscribe(d)]))
  {
    hide Ids, Pcs, Handles, Wire, FarSide, Tables, Submitted, Cancelled;
    var sub, can := Submitted(s.sent), Cancelled(s.sent);
    PcAt(c, s.clients, s.nextId, s.bound, s.routing, sub, can, s.writerOpen);
    IdsMove(c, sess, s.clients, s.nextId, s.bound, s.routing, s.routing);
    SentAppend(s.sent, Unsubscribe(d));
    UnsendPcs(c, d, sess, s.clients, s.nextId, s.bound, s.routing, sub, can, s.writerOpen);
    UnsendHandles(c, d, sess, s.clients, s.bound, sub, can);
    SendWire(Unsubscribe(d), s.sent, s.handled, s.agentSubs, s.bound);
    if Live(s) {
      UnsendTables(c, d, sess, s.clients, s.bound, s.routing, sub, can);
    }
    assert Submitted(s.sent + [Unsubscribe(d)]) == sub;
  }

  lemma SendUnsubscribeClosed(s: State, c: nat, sess: Session)
    requires ControlInv(s) && c in s.clients && s.clients[c].pc.Unsending? && !s.writerOpen
    requires sess == s.clients[c].(pc := Idle)
    ensures ControlInv(s.(clients := s.clients[c := sess]))
  {
    var sub, can := Submitted(s.sent), Cancelled(s.sent);
    hide Ids, Pcs, Handles, Wire, FarSide, Tables, Submitted, Cancelled;
    IdsMove(c, sess, s.clients, s.nextId, s.bound, s.routing, s.routing);
    PcsMove(c, sess, s.clients, s.nextId, s.bound, s.routing, sub, can, s.writerOpen,
            s.nextId, s.routing, s.writerOpen);
    HandlesMove(c, sess, s.clients, s.bound, sub, can);
  }

  lemma SendUnsubscribeControl(s: State, c: nat)
    requires ControlInv(s) && c in s.clients && s.clients[c].pc.Unsending?
    ensures ControlInv(DoSendUnsubscribe(s, c))
  {
    hide ControlInv;
    if s.writerOpen {
      SendUnsubscribeOpen(s, c, s.clients[c].pc.id, s.clients[c].(pc := Idle));
    } else {
      SendUnsubscribeClosed(s, c, s.clients[c].(pc := Idle));
    }
  }

  // The agent.

  lemma AgentReceiveControl(s: State)
    requires ControlInv(s) && s.handled < |s.sent|
    ensures ControlInv(DoAgentReceive(s))
  {
    hide Ids, Pcs, Handles, Tables, Wire, FarSide, Submitted, Cancelled, Replay, Replay1, Spawned1, Running1;
    ReceiveWire(s.sent, s.handled, s.agentSubs, s.bound, Submitted(s.sent), Cancelled(s.sent));
    ReceiveFarSide(s.sent, s.handled, s.agentSubs, s.spawned, s.running, s.ret, s.bound,
                   Submitted(s.sent), Cancelled(s.sent));
  }

  lemma ReceiveFarSide(sent: seq<ToAgent>, handled: nat, agentSubs: set<nat>, spawned: set<nat>,
                       running: map<nat, Body>, ret: seq<FromAgent>, bound: Bound, submitted: set<nat>,
                       cancelled: multiset<nat>)
    requires Wire(sent, handled, agentSubs, bound, submitted, cancelled)
    requires FarSide(spawned, running, ret, bound, submitted)
    requires handled < |sent|
    ensures FarSide(Spawned1(spawned, sent[handled]), Running1(running, sent[handled]), ret, bound, submitted)
  {
    hide Replay;
    assert sent[handled] in sent;
  }

  lemma ReceiveWire(sent: seq<ToAgent>, handled: nat, agentSubs: set<nat>, bound: Bound,
                    submitted: set<nat>, cancelled: multiset<nat>)
    requires Wire(sent, handled, agentSubs, bound, submitted, cancelled)
    requires handled < |sent|
    ensures Wire(sent, handled + 1, Replay1(agentSubs, sent[handled]), bound, submitted, cancelled)
  {
    assert sent[..handled + 1] == sent[..handled] + [sent[handled]];
    SentAppend(sent[..handled], sent[handled]);
  }

  lemma SpeakFarSide(m: FromAgent, spawned: set<nat>, running: map<nat, Body>, running': map<nat, Body>,
                     ret: seq<FromAgent>, bound: Bound, submitted: set<nat>)
    requires FarSide(spawned, running, ret, bound, submitted)
    requires Truthful(m, bound, submitted)
    requires forall d :: d in running' ==> d in running && running'[d] == running[d]
    ensures FarSide(spawned, running', ret + [m], bound, submitted)
  {
    forall x | x in ret + [m] ensures Truthful(x, bound, submitted) {
      assert x in ret || x == m;
    }
  }

  /** The agent may only speak for ids it serves, and then truthfully. */
  lemma SpeakControl(s: State, step: Step)
    requires ControlInv(s) && Enabled(s, step)
    requires step.AgentEmit? || step.AgentFinish? || step.AgentNoise?
    ensures ControlInv(Apply(s, step))
  {
    hide Ids, Pcs, Handles, Wire, FarSide, Tables, Submitted, Cancelled, Truthful;
    var s' := Apply(s, step);
    var m := s'.ret[|s.ret|];
    SpeakTruthful(s, step, m);
    SpeakFarSide(m, s.spawned, s.running, s'.running, s.ret, s.bound, Submitted(s.sent));
  }

  lemma SpeakTruthful(s: State, step: Step, m: FromAgent)
    requires FarSide(s.spawned, s.running, s.ret, s.bound, Submitted(s.sent))
    requires match step
      case AgentEmit(d, event) => d in s.spawned && m == AgentEvent(d, event)
      case AgentFinish(d, outcome) => d in s.running && s.running[d].DockerAction?
        && m == AgentResult(d, s.running[d].container, s.running[d].action, outcome, Local)
      case _ => m == AgentOther
    ensures Truthful(m, s.bound, Submitted(s.sent))
  {
  }

  // The daemon's side of the connection.

  lemma ParserStepControl(s: State)
    requires ControlInv(s) && s.taken < |s.ret|
    ensures ControlInv(DoParserStep(s))
  {
    hide Ids, Pcs, Handles, Wire, FarSide, Tables, Submitted, Cancelled, Route;
    var sub, can := Submitted(s.sent), Cancelled(s.sent);
    var routing' := Route(s.routing, s.ret[s.taken]).0;
    RouteEffect(s.taken, s.spawned, s.running, s.ret, s.clients, s.nextId, s.bound, s.routing, sub);
    IdsShrink(s.clients, s.nextId, s.bound, s.routing, routing');
    PcsWeaken(s.clients, s.nextId, s.bound, s.routing, sub, can, s.writerOpen, routing', s.writerOpen);
    if Live(s) {
      TablesParser(s.clients, s.bound, s.routing, routing', sub, can);
    }
  }

  /** Dispatch only ever withdraws entries, and never a subscription's. */
  lemma RouteEffect(taken: nat, spawned: set<nat>, running: map<nat, Body>, ret: seq<FromAgent>, clients: Clients,
                    nextId: nat, bound: Bound, routing: Table, submitted: set<nat>)
    requires Ids(nextId, bound, routing, clients)
    requires FarSide(spawned, running, ret, bound, submitted)
    requires taken < |ret|
    ensures var routing' := Route(routing, ret[taken]).0;
      && (forall d :: d in routing' ==> d in routing && routing'[d] == routing[d])
      && (forall d :: IsSub(bound, d) ==> (d in routing <==> d in routing'))
  {
    assert Truthful(ret[taken], bound, submitted);
  }

  lemma IdsShrink(clients: Clients, nextId: nat, bound: Bound, routing: Table, routing': Table)
    requires Ids(nextId, bound, routing, clients)
    requires forall d :: d in routing' ==> d in routing && routing'[d] == routing[d]
    ensures Ids(nextId, bound, routing', clients)
  {
  }

  lemma TablesParser(clients: Clients, bound: Bound, routing: Table, routing': Table,
                     submitted: set<nat>, cancelled: multiset<nat>)
    requires Tables(clients, bound, routing, submitted, cancelled)
    requires forall d :: IsSub(bound, d) ==> (d in routing <==> d in routing')
    ensures Tables(clients, bound, routing', submitted, cancelled)
  {
    forall e | IsSub(bound, e) && bound[e].client in clients
      ensures TableOk(e, bound[e], clients[bound[e].client].pc, e in routing', e in submitted, e in cancelled)
    {
      assert TableOk(e, bound[e], clients[bound[e].client].pc, e in routing, e in submitted, e in cancelled);
    }
  }

  lemma DrainControl(s: State, order: seq<nat>)
    requires ControlInv(s) && DrainOrder(s.routing, order)
    ensures ControlInv(DoDrain(s, order))
  {
    hide Handles, Pcs, Wire, FarSide, Tables, Submitted, Cancelled;
    PcsWeaken(s.clients, s.nextId, s.bound, s.routing, Submitted(s.sent), Cancelled(s.sent),
              s.writerOpen, map[], s.writerOpen);
  }

  lemma ClosingControl(s: State, open: bool, alive: bool, pooled: bool)
    requires ControlInv(s) && (open ==> s.writerOpen)
    ensures ControlInv(s.(writerOpen := open, parserAlive := alive, pooled := pooled))
  {
    hide Ids, Handles, Pcs, Wire, FarSide, Tables, Submitted, Cancelled;
    PcsWeaken(s.clients, s.nextId, s.bound, s.routing, Submitted(s.sent), Cancelled(s.sent),
              s.writerOpen, s.routing, open);
  }

  lemma StepControl(s: State, step: Step)
    requires ControlInv(s) && Enabled(s, step)
    ensures ControlInv(Apply(s, step))
  {
    hide ControlInv;
    match step
    case Connect(c) => QuietControl(s, step);
    case Command(c, req) => CommandControl(s, c, req);
    case AllocId(c) => AllocIdControl(s, c);
    case Register(c) => RegisterControl(s, c);
    case Send(c) => SendControl(s, c);
    case Withdraw(c) => WithdrawControl(s, c);
    case Notify(c) => NotifyControl(s, c);
    case CancelCommand(c, sid) => TakeHandleControl(s, c, sid);
    case DropRoute(c) => DropRouteControl(s, c);
    case SendUnsubscribe(c) => SendUnsubscribeControl(s, c);
    case EndSession(c) => QuietControl(s, step);
    case TeardownOne(c, sid) => TakeHandleControl(s, c, sid);
    case AgentReceive => AgentReceiveControl(s);
    case AgentEmit(d, event) => SpeakControl(s, step);
    case AgentFinish(d, outcome) => SpeakControl(s, step);
    case AgentNoise => SpeakControl(s, step);
    case ParserStep => ParserStepControl(s);
    case ParserExit(order) =>
      DrainControl(s, order);
      ClosingControl(DoDrain(s, order), s.writerOpen, false, s.pooled);
    case WriterDies => ClosingControl(s, false, s.parserAlive, s.pooled);
    case PoolRemove => ClosingControl(s, s.writerOpen, s.parserAlive, false);
    case ShutdownDrain(order) => DrainControl(s, order);
  }

  lemma QuietControl(s: State, step: Step)
    requires ControlInv(s) && Enabled(s, step) && (step.Connect? || step.EndSession?)
    ensures ControlInv(Apply(s, step))
  {
    hide Pcs, Handles, Wire, FarSide, Tables;
    MoveControl(s, Apply(s, step), step.c, Apply(s, step).clients[step.c]);
  }
}

/**
 The daemon's objects behind the transition system: the pooled agent connection with
 its locked routing table, and one client session's own bookkeeping. Each method is one
 task's code run without interference; the steps of module Mux are its lock-sized pieces.
 */
module AgentConnection {
  import opened Wrappers
  import opened Routing
  import opened Mux
  import opened MuxSteps

  /** A state with the given connection. */
  function Joined(base: State, alias: string, caps: set<Capability>, nextId: nat, routing: map<nat, Routed>,
                  open: bool, sent: seq<ToAgent>, bound: map<nat, Binding>): (s: State)
    ensures s.clients == base.clients
  {
    base.(alias := alias, caps := caps, nextId := nextId, routing := routing, writerOpen := open, sent := sent,
          bound := bound)
  }

  /** A state with the given session, idle, its messages delivered after those of the state. */
  function Seated(base: State, client: nat, subs: map<nat, nat>, queue: seq<Delivery>, pooled: bool): (s: State)
    requires client in base.clients
    ensures client in s.clients
  {
    var sess := Session(Idle, subs, base.clients[client].ending);
    base.(clients := base.clients[client := sess], log := base.log + queue, pooled := pooled)
  }

  lemma QueuedIs(base: State, client: nat, req: Request, subs: map<nat, nat>, queue: seq<Delivery>, alias: string,
                 caps: set<Capability>, d: nat, routing: map<nat, Routed>, sent: seq<ToAgent>, bound: map<nat, Binding>)
    requires client in base.clients
    ensures
      var b := Binding(client, req);
      var subs' := if KindOf(req.body) == Subscription then subs[req.id := d] else subs;
      var s := Joined(Seated(base, client, subs, queue, true), alias, caps, d, routing, true, sent, bound);
      Joined(Seated(base, client, subs', queue, true), alias, caps, d + 1, routing[d := RoutedOf(b)], true,
             sent + [Submit(d, req.body)], bound[d := b]) == Queued(s, client, req)
  {
    hide RoutedOf;
  }

  lemma GivenUpIs(base: State, client: nat, req: Request, subs: map<nat, nat>, queue: seq<Delivery>, alias: string,
                  caps: set<Capability>, d: nat, routing: map<nat, Routed>, sent: seq<ToAgent>, bound: map<nat, Binding>)
    requires client in base.clients
    ensures
      var s := Joined(Seated(base, client, subs, queue, true), alias, caps, d, routing, false, sent, bound);
      Joined(Seated(base, client, subs, queue + [DeadWriterNotice(alias, client, req, d)], true), alias, caps, d + 1,
             routing, false, sent, bound[d := Binding(client, req)]) == GivenUp(s, client, req)
  {
    hide DeadWriterNotice;
    var x := DeadWriterNotice(alias, client, req, d);
    assert base.log + (queue + [x]) == base.log + queue + [x];
  }

  /** Giving up handle `id`, when the session is joined to a connection in the pool. */
  lemma CancelIs(base: State, client: nat, id: nat, subs: map<nat, nat>, queue: seq<Delivery>, alias: string,
                 caps: set<Capability>, next: nat, routing: map<nat, Routed>, open: bool, sent: seq<ToAgent>,
                 bound: map<nat, Binding>)
    requires client in base.clients && id in subs
    ensures
      var d := subs[id];
      Joined(Seated(base, client, subs - {id}, queue, true), alias, caps, next, routing - {d}, open,
             if open then sent + [Unsubscribe(d)] else sent, bound)
      == CancelEffect(Joined(Seated(base, client, subs, queue, true), alias, caps, next, routing, open, sent, bound),
                      client, id)
  {
  }

  /** The parser's step on a joined connection. */
  lemma RoutedIs(base: State, alias: string, caps: set<Capability>, next: nat, routing: map<nat, Routed>, open: bool,
                 sent: seq<ToAgent>, bound: map<nat, Binding>, m: FromAgent)
    requires base.parserAlive && base.taken < |base.ret| && base.ret[base.taken] == m
    ensures
      var s := Joined(base, alias, caps, next, routing, open, sent, bound);
      var (after, out) := Route(routing, m);
      && Enabled(s, ParserStep)
      && Apply(s, ParserStep) ==
         Joined(base.(taken := base.taken + 1, log := base.log + if out.Some? then [out.value] else []), alias, caps,
                next, after, open, sent, bound)
  {
    ParserIs(Joined(base, alias, caps, next, routing, open, sent, bound));
    hide Enabled, Apply, Route;
  }

  /** The drain of a joined connection. */
  lemma DrainedIs(base: State, alias: string, caps: set<Capability>, next: nat, routing: map<nat, Routed>, open: bool,
                  sent: seq<ToAgent>, bound: map<nat, Binding>, order: seq<nat>)
    requires !base.pooled && DrainOrder(routing, order)
    ensures
      var s := Joined(base, alias, caps, next, routing, open, sent, bound);
      && Enabled(s, ShutdownDrain(order))
      && Apply(s, ShutdownDrain(order)) ==
         Joined(base.(drained := true, log := base.log + DrainNotices(routing, order)), alias, caps, next, map[], open,
                sent, bound)
  {
    ShutdownIs(Joined(base, alias, caps, next, routing, open, sent, bound), order);
    hide Enabled, Apply, DrainNotices;
  }

  /** Giving up handle `id` after the connection has left the pool. */
  lemma CancelAlone(base: State, client: nat, id: nat, subs: map<nat, nat>, queue: seq<Delivery>)
    requires client in base.clients && id in subs
    ensures Seated(base, client, subs - {id}, queue, false) ==
            CancelEffect(Seated(base, client, subs, queue, false), client, id)
  {
  }

  class Connection {
    const alias: string
    const capabilities: set<Capability>
    var nextSubId: nat
    var routing: map<nat, Routed>
    var writerOpen: bool
    /** Everything the writer accepted, oldest first. */
    var writerQ: seq<ToAgent>
    /** Who each id was given to. */
    ghost var bound: map<nat, Binding>

    ghost predicate Valid()
      reads this
    {
      1 <= nextSubId && forall d :: d in routing ==> 1 <= d < nextSubId
    }

    constructor (alias: string, capabilities: set<Capability>)
      ensures Valid() && routing == map[] && writerOpen && writerQ == [] && nextSubId == 1
      ensures this.alias == alias && this.capabilities == capabilities
    {
      this.alias, this.capabilities := alias, capabilities;
      nextSubId, routing, writerOpen, writerQ := 1, map[], true, [];
      bound := map[];
    }

    /** The state of the transition system that `base` becomes with this object as its connection. */
    ghost function In(base: State): State
      reads this
    {
      Joined(base, alias, capabilities, nextSubId, routing, writerOpen, writerQ, bound)
    }

    /** Ids count up from one and are never handed out twice. */
    method AllocId() returns (id: nat)
      requires Valid()
      modifies this`nextSubId
      ensures Valid()
      ensures id == old(nextSubId) && nextSubId == old(nextSubId) + 1 && id !in routing
    {
      id := nextSubId;
      nextSubId := nextSubId + 1;
    }

    method Send(m: ToAgent) returns (ok: bool)
      modifies this`writerQ
      ensures ok == writerOpen
      ensures writerQ == if ok then old(writerQ) + [m] else old(writerQ)
    {
      ok := writerOpen;
      if ok {
        writerQ := writerQ + [m];
      }
    }

    /**
     The parser's dispatch of one agent message. An event goes to the client behind its entry, if
     there is one; a result takes its entry out and goes to the client if that asked for an action.
     What is forwarded says what the agent said, under the client's own id.
     */
    method RouteAgentEnvelope(m: FromAgent, ghost base: State) returns (out: Option<Delivery>)
      requires Valid()
      requires base.parserAlive && base.taken < |base.ret| && base.ret[base.taken] == m
      modifies this`routing
      ensures Valid()
      ensures Enabled(old(In(base)), ParserStep)
      ensures Apply(old(In(base)), ParserStep) ==
              In(base.(taken := base.taken + 1, log := base.log + if out.Some? then [out.value] else []))
      ensures routing == if m.AgentResult? then old(routing) - {m.id} else old(routing)
      ensures out.Some? <==>
        !m.AgentOther? && m.id in old(routing) && (m.AgentResult? ==> old(routing)[m.id].kind == OneShot)
      ensures out.Some? ==> Carries(out.value, old(routing)[m.id].client, old(routing)[m.id].clientId, m)
    {
      RoutedIs(base, alias, capabilities, nextSubId, routing, writerOpen, writerQ, bound, m);
      hide Apply, Enabled, Joined, RoutedOf;
      out := None;
      match m {
        case AgentEvent(d, event) =>
          if d in routing {
            var r := routing[d];
            out := Some(Delivery(r.client, ClientEvent(r.clientId, event), ByAgent(d)));
          }
        case AgentResult(d, container, action, outcome, target) =>
          if d in routing {
            var r := routing[d];
            routing := routing - {d};
            if r.kind == OneShot {
              out := Some(Delivery(r.client, ClientResult(r.clientId, container, action, outcome, target), ByAgent(d)));
            }
          }
        case AgentOther =>
      }
    }

    /** Empties the table; every entry's client is told once, in the order the entries came out. */
    method DrainRouting(ghost base: State) returns (order: seq<nat>, out: seq<Delivery>)
      requires Valid() && !base.pooled
      modifies this`routing
      ensures Valid() && routing == map[]
      ensures Enabled(old(In(base)), ShutdownDrain(order))
      ensures Apply(old(In(base)), ShutdownDrain(order)) == In(base.(drained := true, log := base.log + out))
      ensures DrainOrder(old(routing), order)
      ensures TellsEach(old(routing), order, out)
    {
      ghost var table := routing;
      hide Apply, Enabled, Joined, Taken, DrainNotice, DrainNotices, DrainOrder, TellsEach;
      order, out := [], [];
      NoneTaken(table);
      while routing != map[]
        invariant Taken(table, order, routing, out)
        decreases |routing|
      {
        var d :| d in routing;
        var r := routing[d];
        TakenNext(table, order, routing, out, d);
        routing := routing - {d};
        order, out := order + [d], out + [DrainNotice(d, r)];
      }
      TakenAll(table, order, out);
      DrainedIs(base, alias, capabilities, nextSubId, table, writerOpen, writerQ, bound, order);
    }
  }

  /** A drain that has taken the entries `order` out of `table`. */
  ghost predicate Taken(table: map<nat, Routed>, order: seq<nat>, left: map<nat, Routed>, out: seq<Delivery>) {
    && NoDuplicates(order)
    && (forall d :: d in order ==> d in table)
    && (forall d :: d in left <==> d in table && d !in order)
    && (forall d :: d in left ==> left[d] == table[d])
    && out == DrainNotices(table, order)
  }

  lemma NoneTaken(table: map<nat, Routed>)
    ensures Taken(table, [], table, [])
  {
  }

  lemma TakenNext(table: map<nat, Routed>, order: seq<nat>, left: map<nat, Routed>, out: seq<Delivery>, d: nat)
    requires Taken(table, order, left, out) && d in left
    ensures Taken(table, order + [d], left - {d}, out + [DrainNotice(d, left[d])])
    ensures |left - {d}| < |left|
  {
    assert (order + [d])[..|order|] == order;
    assert (left - {d}).Keys == left.Keys - {d};
    assert |left.Keys - {d}| < |left.Keys|;
    assert DrainNotices(table, order + [d]) == DrainNotices(table, order) + [DrainNotice(d, table[d])];
    hide DrainNotices, DrainNotice;
    forall x ensures x in order + [d] <==> x in order || x == d {
    }
  }

  lemma TakenAll(table: map<nat, Routed>, order: seq<nat>, out: seq<Delivery>)
    requires Taken(table, order, map[], out)
    ensures DrainOrder(table, order) && out == DrainNotices(table, order) && TellsEach(table, order, out)
  {
    hide DrainNotices, TellsEach;
    DrainNoticesAt(table, order);
    var none: map<nat, Routed> := map[];
    assert forall d :: d !in none;
  }

  /** The client is told, last of all, that its request was in vain, and nothing said before is taken back. */
  predicate Told(before: seq<Delivery>, after: seq<Delivery>, client: nat, req: Request, reason: Reason, alias: string,
                 origin: Origin)
  {
    && |after| == |before| + 1 && after[..|before|] == before
    && after[|before|].client == client && after[|before|].origin == origin
    && TellsFailure(after[|before|].msg, req.id, req.body, reason, Remote(alias))
  }

  lemma RefusalTold(queue: seq<Delivery>, client: nat, req: Request, alias: string)
    ensures forall why: Reason ::
      Told(queue, queue + [Delivery(client, Rejection(req.id, req.body, why, Remote(alias)), ByRefusal)], client, req, why,
           alias, ByRefusal)
  {
    hide Rejection, TellsFailure;
    forall why: Reason
      ensures Told(queue, queue + [Delivery(client, Rejection(req.id, req.body, why, Remote(alias)), ByRefusal)], client, req,
                   why, alias, ByRefusal)
    {
      RejectionTells(req.id, req.body, why, Remote(alias));
    }
  }

  lemma DeadWriterTold(queue: seq<Delivery>, client: nat, req: Request, alias: string, d: nat)
    ensures Told(queue, queue + [DeadWriterNotice(alias, client, req, d)], client, req, WriterClosed, alias, ByDeadWriter(d))
  {
    hide Rejection, TellsFailure;
    RejectionTells(req.id, req.body, WriterClosed, Remote(alias));
  }

  function Unsubscribes(ids: seq<nat>): seq<ToAgent> {
    if ids == [] then [] else Unsubscribes(ids[..|ids| - 1]) + [Unsubscribe(ids[|ids| - 1])]
  }

  class ClientSession {
    const client: nat
    /** The session's own map from its client's ids to the connection's. */
    var agentSubs: map<nat, nat>
    /** Messages put on the client's queue. */
    var queue: seq<Delivery>

    /**
     The state of the transition system that `base` becomes with this object as its session,
     idle between commands, and with `conn` as the connection in the pool.
     */
    ghost function In(base: State, conn: Connection?): (s: State)
      reads this, conn
      requires client in base.clients
      ensures client in s.clients && s.clients[client] == Session(Idle, agentSubs, base.clients[client].ending)
      ensures s.pooled <==> conn != null
    {
      var s := Seated(base, client, agentSubs, queue, conn != null);
      if conn == null then s else conn.In(s)
    }

    constructor (client: nat)
      ensures this.client == client && agentSubs == map[] && queue == []
    {
      this.client := client;
      agentSubs, queue := map[], [];
    }

    /**
     Routing of a remote request, subscription or one-shot. A null connection is a pool miss.
     Either the client is told why not and the table is as before, or the request is on the
     writer's queue under a fresh id with its entry in the table.
     */
    method RouteRemote(conn: Connection?, alias: string, req: Request, ghost base: State)
      requires conn != null ==> conn.Valid() && conn.alias == alias
      requires client in base.clients && !base.clients[client].ending && base.alias == alias
      modifies this, conn
      ensures conn != null ==> conn.Valid()
      ensures Runs(old(In(base, conn)), CommandSteps(old(In(base, conn)), client, req))
      ensures In(base, conn) == End(old(In(base, conn)), CommandSteps(old(In(base, conn)), client, req))
      ensures conn == null ==>
        Told(old(queue), queue, client, req, AgentNotConnected, alias, ByRefusal) && agentSubs == old(agentSubs)
      ensures conn != null && !Serves(conn.capabilities, req.body) ==>
        && Told(old(queue), queue, client, req, MissingCapability, alias, ByRefusal)
        && agentSubs == old(agentSubs) && conn.routing == old(conn.routing) && conn.writerQ == old(conn.writerQ)
      ensures conn != null && Serves(conn.capabilities, req.body) && !conn.writerOpen ==>
        && Told(old(queue), queue, client, req, WriterClosed, alias, ByDeadWriter(old(conn.nextSubId)))
        && agentSubs == old(agentSubs) && conn.routing == old(conn.routing) && conn.writerQ == old(conn.writerQ)
      ensures conn != null && Serves(conn.capabilities, req.body) && conn.writerOpen ==>
        var d := old(conn.nextSubId);
        && queue == old(queue)
        && d !in old(conn.routing)
        && conn.routing == old(conn.routing)[d := RoutedOf(Binding(client, req))]
        && conn.writerQ == old(conn.writerQ) + [Submit(d, req.body)]
        && agentSubs == if KindOf(req.body) == Subscription then old(agentSubs)[req.id := d] else old(agentSubs)
    {
      ghost var s := In(base, conn);
      hide Runs, End, CommandSteps, DeadWriterNotice, Needs, RoutedOf, Rejection, Told, Serves;
      CommandEnds(s, client, req);
      RefusalTold(queue, client, req, alias);
      if conn != null {
        NeedsServes(conn.capabilities, req.body);
        DeadWriterTold(queue, client, req, alias, conn.nextSubId);
      }
      if conn == null {
        queue := queue + [Delivery(client, Rejection(req.id, req.body, AgentNotConnected, Remote(alias)), ByRefusal)];
        return;
      }
      if Needs(req.body) !in conn.capabilities {
        queue := queue + [Delivery(client, Rejection(req.id, req.body, MissingCapability, Remote(alias)), ByRefusal)];
        return;
      }
      Forward(conn, req, base);
      hide Queued, GivenUp;
    }

    /** The request goes to a connection that can serve it; a dead writer undoes the entry. */
    method Forward(conn: Connection, req: Request, ghost base: State)
      requires conn.Valid() && Needs(req.body) in conn.capabilities
      requires client in base.clients && !base.clients[client].ending
      modifies this, conn
      ensures conn.Valid()
      ensures conn.writerOpen ==> In(base, conn) == Queued(old(In(base, conn)), client, req)
      ensures !conn.writerOpen ==> In(base, conn) == GivenUp(old(In(base, conn)), client, req)
      ensures conn.writerOpen == old(conn.writerOpen)
      ensures !conn.writerOpen ==>
        queue == old(queue) + [DeadWriterNotice(conn.alias, client, req, old(conn.nextSubId))]
        && agentSubs == old(agentSubs) && conn.routing == old(conn.routing) && conn.writerQ == old(conn.writerQ)
      ensures conn.writerOpen ==>
        var d := old(conn.nextSubId);
        && queue == old(queue)
        && d !in old(conn.routing)
        && conn.routing == old(conn.routing)[d := RoutedOf(Binding(client, req))]
        && conn.writerQ == old(conn.writerQ) + [Submit(d, req.body)]
        && agentSubs == if KindOf(req.body) == Subscription then old(agentSubs)[req.id := d] else old(agentSubs)
    {
      hide Needs, Rejection, DeadWriterNotice, RoutedOf, Joined, Seated, Queued, GivenUp;
      QueuedIs(base, client, req, agentSubs, queue, conn.alias, conn.capabilities, conn.nextSubId, conn.routing,
               conn.writerQ, conn.bound);
      GivenUpIs(base, client, req, agentSubs, queue, conn.alias, conn.capabilities, conn.nextSubId, conn.routing,
                conn.writerQ, conn.bound);
      var d := conn.AllocId();
      Enter(conn, d, req);
      var ok := conn.Send(Submit(d, req.body));
      if !ok {
        Withdraw(conn, d, req);
        assert conn.routing == old(conn.routing);
      } else if KindOf(req.body) == Subscription {
        agentSubs := agentSubs[req.id := d];
      }
    }

    method Enter(conn: Connection, d: nat, req: Request)
      modifies conn`routing, conn`bound
      ensures conn.routing == old(conn.routing)[d := RoutedOf(Binding(client, req))]
      ensures conn.bound == old(conn.bound)[d := Binding(client, req)]
    {
      conn.routing := conn.routing[d := Routed(client, req.id, KindOf(req.body), ScopeOf(req.body))];
      conn.bound := conn.bound[d := Binding(client, req)];
    }

    /** The writer was closed: the entry goes again and the client is told. */
    method Withdraw(conn: Connection, d: nat, req: Request)
      modifies this`queue, conn`routing
      ensures conn.routing == old(conn.routing) - {d}
      ensures queue == old(queue) + [DeadWriterNotice(conn.alias, client, req, d)]
    {
      conn.routing := conn.routing - {d};
      queue := queue + [Delivery(client, Rejection(req.id, req.body, WriterClosed, Remote(conn.alias)), ByDeadWriter(d))];
    }

    /** The Unsubscribe arm for ids routed through the agent. */
    method CancelRemote(conn: Connection?, id: nat, ghost base: State)
      requires conn != null ==> conn.Valid()
      requires client in base.clients && (base.clients[client].ending ==> id in agentSubs)
      modifies this`agentSubs, conn
      ensures conn != null ==> conn.Valid()
      ensures Runs(old(In(base, conn)), CancelSteps(old(In(base, conn)), client, id))
      ensures In(base, conn) == End(old(In(base, conn)), CancelSteps(old(In(base, conn)), client, id))
      ensures queue == old(queue)
      ensures agentSubs == old(agentSubs) - {id}
      ensures conn != null ==>
        conn.nextSubId == old(conn.nextSubId) && conn.bound == old(conn.bound) && conn.writerOpen == old(conn.writerOpen)
      ensures conn != null && id !in old(agentSubs) ==>
        conn.routing == old(conn.routing) && conn.writerQ == old(conn.writerQ)
      ensures conn != null && id in old(agentSubs) ==>
        var d := old(agentSubs)[id];
        && conn.routing == old(conn.routing) - {d}
        && conn.writerQ == old(conn.writerQ) + if conn.writerOpen then [Unsubscribe(d)] else []
    {
      hide Joined, Seated, Runs, End, CancelSteps;
      ghost var s := In(base, conn);
      CancelEnds(s, client, id);
      if id !in agentSubs {
        assert agentSubs - {id} == agentSubs;
        return;
      }
      hide CancelEffect;
      var d := agentSubs[id];
      if conn == null {
        CancelAlone(base, client, id, agentSubs, queue);
        agentSubs := agentSubs - {id};
      } else {
        CancelIs(base, client, id, agentSubs, queue, conn.alias, conn.capabilities, conn.nextSubId, conn.routing,
                 conn.writerOpen, conn.writerQ, conn.bound);
        agentSubs := agentSubs - {id};
        conn.routing := conn.routing - {d};
        var _ := conn.Send(Unsubscribe(d));
      }
    }

    /**
     Session teardown: the map is emptied, each handle's entry leaves the table, and each
     handle's Unsubscribe goes to the agent once, in some order of the client's ids. A null
     connection is a pool the host has left: then only the map is emptied.
     */
    method Teardown(conn: Connection?, ghost base: State) returns (order: seq<nat>)
      requires conn != null ==> conn.Valid()
      requires client in base.clients && base.clients[client].ending
      modifies this`agentSubs, conn
      ensures agentSubs == map[] && (conn != null ==> conn.Valid())
      ensures Runs(old(In(base, conn)), TeardownSteps(old(In(base, conn)), client, order))
      ensures In(base, conn) == End(old(In(base, conn)), TeardownSteps(old(In(base, conn)), client, order))
      ensures NoDuplicates(order) && forall sid :: sid in order <==> sid in old(agentSubs)
      ensures conn != null ==>
        && conn.routing == old(conn.routing) - old(agentSubs).Values
        && conn.writerOpen == old(conn.writerOpen)
        && conn.writerQ == old(conn.writerQ)
           + if conn.writerOpen then Unsubscribes(HandlesOf(old(agentSubs), order)) else []
    {
      hide ClientSession.In, TornDown, NoDuplicates, Runs, End, TeardownSteps, TeardownEffect, CancelSteps, CancelEffect;
      ghost var s0 := In(base, conn);
      NothingTornDown(s0, client);
      order := [];
      ghost var subs := agentSubs;
      ghost var table, queued, open := map[], [], false;
      if conn != null {
        table, queued, open := conn.routing, conn.writerQ, conn.writerOpen;
      }
      ghost var routing, sent := table, queued;
      TornDownStart(subs, table, queued, open);
      while agentSubs != map[]
        invariant conn != null ==> conn.Valid() && conn.writerOpen == open && conn.routing == routing && conn.writerQ == sent
        invariant Runs(s0, TeardownSteps(s0, client, order))
        invariant In(base, conn) == End(s0, TeardownSteps(s0, client, order)) == TeardownEffect(s0, client, order)
        invariant TornDown(subs, table, queued, open, order, agentSubs, routing, sent)
        decreases |agentSubs|
      {
        var sid :| sid in agentSubs;
        TornDownNext(subs, table, queued, open, order, agentSubs, routing, sent, sid);
        routing, sent := routing - {agentSubs[sid]}, sent + if open then [Unsubscribe(agentSubs[sid])] else [];
        ghost var before := agentSubs;
        TeardownMore(s0, client, order, sid);
        CancelEnds(In(base, conn), client, sid);
        CancelRemote(conn, sid, base);
        assert |before.Keys - {sid}| < |before.Keys|;
        assert agentSubs.Keys == before.Keys - {sid};
        order := order + [sid];
      }
      TornDownDone(subs, table, queued, open, order, routing, sent);
    }
  }

  /** How far a teardown has come after taking the handles `order`. */
  ghost predicate TornDown(subs: map<nat, nat>, table: map<nat, Routed>, queued: seq<ToAgent>, open: bool,
                           order: seq<nat>, left: map<nat, nat>, routing: map<nat, Routed>, writerQ: seq<ToAgent>)
  {
    && NoDuplicates(order)
    && (forall sid :: sid in order ==> sid in subs)
    && (forall sid :: sid in left <==> sid in subs && sid !in order)
    && (forall sid :: sid in left ==> left[sid] == subs[sid])
    && routing == table - Gone(subs, order)
    && writerQ == queued + if open then Unsubscribes(HandlesOf(subs, order)) else []
  }

  lemma TornDownStart(subs: map<nat, nat>, table: map<nat, Routed>, queued: seq<ToAgent>, open: bool)
    ensures TornDown(subs, table, queued, open, [], subs, table, queued)
  {
    assert table - {} == table;
  }

  lemma TornDownNext(subs: map<nat, nat>, table: map<nat, Routed>, queued: seq<ToAgent>, open: bool, order: seq<nat>,
                     left: map<nat, nat>, routing: map<nat, Routed>, writerQ: seq<ToAgent>, sid: nat)
    requires TornDown(subs, table, queued, open, order, left, routing, writerQ) && sid in left
    ensures TornDown(subs, table, queued, open, order + [sid], left - {sid}, routing - {left[sid]},
                     writerQ + if open then [Unsubscribe(left[sid])] else [])
  {
    hide HandlesOf, Unsubscribes, Gone;
    GoneAppend(subs, order, sid);
    TornDownQueue(subs, queued, open, order, sid);
    forall x ensures x in order + [sid] <==> x in order || x == sid {
    }
  }

  lemma GoneAppend(subs: map<nat, nat>, order: seq<nat>, sid: nat)
    requires sid in subs && forall x :: x in order ==> x in subs
    ensures Gone(subs, order + [sid]) == Gone(subs, order) + {subs[sid]}
  {
    assert (order + [sid])[..|order|] == order;
  }

  lemma TornDownQueue(subs: map<nat, nat>, queued: seq<ToAgent>, open: bool, order: seq<nat>, sid: nat)
    requires sid in subs && forall x :: x in order ==> x in subs
    ensures queued + (if open then Unsubscribes(HandlesOf(subs, order + [sid])) else [])
      == queued + (if open then Unsubscribes(HandlesOf(subs, order)) else [])
         + if open then [Unsubscribe(subs[sid])] else []
  {
    HandlesOfAppend(subs, order, sid);
    UnsubscribesAppend(HandlesOf(subs, order), subs[sid]);
  }

  function Gone(subs: map<nat, nat>, order: seq<nat>): set<nat>
    requires forall sid :: sid in order ==> sid in subs
  {
    if order == [] then {} else Gone(subs, order[..|order| - 1]) + {subs[order[|order| - 1]]}
  }

  lemma {:induction false} GoneHas(subs: map<nat, nat>, order: seq<nat>)
    requires forall sid :: sid in order ==> sid in subs
    ensures forall sid :: sid in order ==> subs[sid] in Gone(subs, order)
    ensures Gone(subs, order) <= subs.Values
  {
    if order != [] {
      GoneHas(subs, order[..|order| - 1]);
      assert order == order[..|order| - 1] + [order[|order| - 1]];
    }
  }

  lemma TornDownDone(subs: map<nat, nat>, table: map<nat, Routed>, queued: seq<ToAgent>, open: bool, order: seq<nat>,
                     routing: map<nat, Routed>, writerQ: seq<ToAgent>)
    requires TornDown(subs, table, queued, open, order, map[], routing, writerQ)
    ensures NoDuplicates(order) && forall sid :: sid in order <==> sid in subs
    ensures routing == table - subs.Values
    ensures writerQ == queued + if open then Unsubscribes(HandlesOf(subs, order)) else []
  {
    var none: map<nat, nat> := map[];
    assert forall sid :: sid !in none;
    GoneHas(subs, order);
    assert Gone(subs, order) == subs.Values;
  }

  function HandlesOf(subs: map<nat, nat>, order: seq<nat>): (ids: seq<nat>)
    requires forall sid :: sid in order ==> sid in subs
    ensures |ids| == |order| && forall i :: 0 <= i < |ids| ==> ids[i] == subs[order[i]]
  {
    if order == [] then []
    else HandlesOf(subs, order[..|order| - 1]) + [subs[order[|order| - 1]]]
  }

  lemma HandlesOfAppend(subs: map<nat, nat>, order: seq<nat>, sid: nat)
    requires sid in subs && forall x :: x in order ==> x in subs
    ensures HandlesOf(subs, order + [sid]) == HandlesOf(subs, order) + [subs[sid]]
  {
  }

  lemma UnsubscribesAppend(ids: seq<nat>, d: nat)
    ensures Unsubscribes(ids + [d]) == Unsubscribes(ids) + [Unsubscribe(d)]
  {
    assert (ids + [d])[..|ids|] == ids;
  }

  /** The daemon's pool of connections, one per host alias. */
  class SharedState {
    var agentConns: map<string, Connection>

    ghost predicate Valid()
      reads this, agentConns.Values
    {
      forall a :: a in agentConns ==> agentConns[a].Valid() && agentConns[a].alias == a
    }

    constructor ()
      ensures Valid() && agentConns == map[]
    {
      agentConns := map[];
    }

    /** A deployed agent takes the host's place in the pool; the one it replaces is shut down and its clients told. */
    method Register(conn: Connection) returns (order: seq<nat>, out: seq<Delivery>)
      requires Valid() && conn.Valid() && conn !in agentConns.Values
      modifies this, if conn.alias in agentConns then {agentConns[conn.alias]} else {}
      ensures Valid()
      ensures agentConns == old(agentConns)[conn.alias := conn]
      ensures conn.alias !in old(agentConns) ==> out == []
      ensures conn.alias in old(agentConns) ==>
        var prev := old(agentConns)[conn.alias];
        prev != conn && prev.routing == map[]
        && DrainOrder(old(agentConns[conn.alias].routing), order)
        && TellsEach(old(agentConns[conn.alias].routing), order, out)
    {
      order, out := RemoveAndShutdown(conn.alias);
      agentConns := agentConns[conn.alias := conn];
    }

    /** Whatever connection the host has leaves the pool and is shut down; other hosts keep theirs. */
    method RemoveAndShutdown(alias: string) returns (order: seq<nat>, out: seq<Delivery>)
      requires Valid()
      modifies this, if alias in agentConns then {agentConns[alias]} else {}
      ensures Valid()
      ensures agentConns == old(agentConns) - {alias}
      ensures alias !in old(agentConns) ==> order == [] && out == []
      ensures alias in old(agentConns) ==>
        var prev := old(agentConns)[alias];
        prev.routing == map[] && prev.writerQ == old(agentConns[alias].writerQ)
        && DrainOrder(old(agentConns[alias].routing), order)
        && TellsEach(old(agentConns[alias].routing), order, out)
    {
      order, out := [], [];
      if alias in agentConns {
        var prev := agentConns[alias];
        agentConns := agentConns - {alias};
        order, out := prev.DrainRouting(Init(alias, {}).(pooled := false));
      }
    }
  }
}

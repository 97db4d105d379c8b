/**
 Messages that travel between a client session, the daemon's agent connection
 and the agent, and the pure part of the daemon's routing: how one agent reply
 is dispatched, and what an emptied routing table owes its clients.
 */
module Routing {
  import opened Wrappers

  datatype ActionKind = Start | Stop | Restart | Kill | Remove

  datatype Target = Local | Remote(alias: string)

  /** What a client asks an agent for: one of five subscriptions, or a one-shot action. */
  datatype Body =
    | DockerList
    | DockerLogs(container: string, follow: bool, tail: nat)
    | DockerStats(container: string)
    | Ports
    | Processes
    | DockerAction(container: string, action: ActionKind)

  datatype Capability = CapDocker | CapPorts | CapProcesses

  datatype Kind = Subscription | OneShot

  datatype Scope =
    | ScopeDocker
    | ScopeLogs
    | ScopeStats
    | ScopePorts
    | ScopeProcesses
    | ScopeAction(container: string, action: ActionKind)

  function ScopeOf(b: Body): Scope {
    match b
    case DockerList => ScopeDocker
    case DockerLogs(_, _, _) => ScopeLogs
    case DockerStats(_) => ScopeStats
    case Ports => ScopePorts
    case Processes => ScopeProcesses
    case DockerAction(container, action) => ScopeAction(container, action)
  }

  function KindOf(b: Body): Kind {
    if b.DockerAction? then OneShot else Subscription
  }

  /** The capability an agent must have advertised to be asked. */
  function Needs(b: Body): Capability {
    match b
    case Ports => CapPorts
    case Processes => CapProcesses
    case _ => CapDocker
  }

  /** Port lists and process lists are served by agents that can list them, anything else by those with an engine. */
  predicate Serves(caps: set<Capability>, b: Body) {
    && (b.Ports? ==> CapPorts in caps)
    && (b.Processes? ==> CapProcesses in caps)
    && (b.DockerList? || b.DockerLogs? || b.DockerStats? || b.DockerAction? ==> CapDocker in caps)
  }

  lemma NeedsServes(caps: set<Capability>, b: Body)
    ensures Needs(b) in caps <==> Serves(caps, b)
  {
  }

  /** Human-readable reasons are opaque: only who gave one is kept. */
  datatype Reason =
    | AgentDisconnected
    | AgentNotConnected
    | MissingCapability
    | WriterClosed
    | FromEngine(text: string)

  datatype Event =
    | Data(text: string)
    | DockerUnavailable(reason: Reason)
    | StreamEnded(reason: Reason)
    | PortsUnavailable(reason: Reason)
    | ProcessesUnavailable(reason: Reason)

  datatype Outcome = Success | Failure(reason: Reason)

  /** Daemon to agent. Every request travels with a Local target under the daemon's own id. */
  datatype ToAgent =
    | Submit(id: nat, body: Body)
    | Unsubscribe(id: nat)

  /** Agent to daemon. */
  datatype FromAgent =
    | AgentEvent(id: nat, event: Event)
    | AgentResult(id: nat, container: string, action: ActionKind, outcome: Outcome, target: Target)
    | AgentOther

  /** Daemon to client. */
  datatype ClientMsg =
    | ClientEvent(subscription: nat, event: Event)
    | ClientResult(request: nat, container: string, action: ActionKind, outcome: Outcome, target: Target)

  /** One routing-table entry. */
  datatype Routed = Routed(client: nat, clientId: nat, kind: Kind, scope: Scope)

  /** Why a message was put on a client's queue. Bookkeeping only: it does not travel. */
  datatype Origin =
    | ByAgent(id: nat)
    | ByDrain(id: nat)
    | ByDeadWriter(id: nat)
    | ByRefusal

  datatype Delivery = Delivery(client: nat, msg: ClientMsg, origin: Origin)

  /** The "unavailable" event each scope shows when nothing serves it. */
  function Unavailable(scope: Scope, reason: Reason): Event {
    match scope
    case ScopeDocker | ScopeAction(_, _) => DockerUnavailable(reason)
    case ScopeLogs | ScopeStats => StreamEnded(reason)
    case ScopePorts => PortsUnavailable(reason)
    case ScopeProcesses => ProcessesUnavailable(reason)
  }

  /**
   `msg` tells whoever asked for `body` as `id` that it was in vain: the action asked for has
   failed, the log or the statistics have ended, the list asked for is unavailable.
   */
  predicate TellsFailure(msg: ClientMsg, id: nat, body: Body, reason: Reason, target: Target) {
    && (body.DockerAction? ==> msg == ClientResult(id, body.container, body.action, Failure(reason), target))
    && (body.DockerList? ==> msg == ClientEvent(id, DockerUnavailable(reason)))
    && (body.DockerLogs? || body.DockerStats? ==> msg == ClientEvent(id, StreamEnded(reason)))
    && (body.Ports? ==> msg == ClientEvent(id, PortsUnavailable(reason)))
    && (body.Processes? ==> msg == ClientEvent(id, ProcessesUnavailable(reason)))
  }

  /** `x` tells the owner of an entry that the agent has gone: an action as failed, other scopes by their own event. */
  predicate TellsOwner(x: Delivery, r: Routed) {
    var id, why := r.clientId, AgentDisconnected;
    && x.client == r.client
    && (r.scope.ScopeAction? ==> x.msg == ClientResult(id, r.scope.container, r.scope.action, Failure(why), Local))
    && (r.scope == ScopeDocker ==> x.msg == ClientEvent(id, DockerUnavailable(why)))
    && (r.scope == ScopeLogs || r.scope == ScopeStats ==> x.msg == ClientEvent(id, StreamEnded(why)))
    && (r.scope == ScopePorts ==> x.msg == ClientEvent(id, PortsUnavailable(why)))
    && (r.scope == ScopeProcesses ==> x.msg == ClientEvent(id, ProcessesUnavailable(why)))
  }

  /** The failure a client is told for a request the daemon could not place. */
  function Rejection(clientId: nat, body: Body, reason: Reason, target: Target): ClientMsg {
    match body
    case DockerAction(container, action) => ClientResult(clientId, container, action, Failure(reason), target)
    case _ => ClientEvent(clientId, Unavailable(ScopeOf(body), reason))
  }

  lemma RejectionTells(clientId: nat, body: Body, reason: Reason, target: Target)
    ensures TellsFailure(Rejection(clientId, body, reason, target), clientId, body, reason, target)
  {
  }

  /** What a drain sends for the entry it removes under daemon id `id`. */
  function DrainNotice(id: nat, r: Routed): Delivery {
    var msg := match r.scope
      case ScopeAction(container, action) =>
        ClientResult(r.clientId, container, action, Failure(AgentDisconnected), Local)
      case _ => ClientEvent(r.clientId, Unavailable(r.scope, AgentDisconnected));
    Delivery(r.client, msg, ByDrain(id))
  }

  lemma DrainNoticeTells(id: nat, r: Routed)
    ensures DrainNotice(id, r).origin == ByDrain(id) && TellsOwner(DrainNotice(id, r), r)
  {
  }

  /** `x` brings client `client` what the agent said in `m`, unaltered, under the client's own id. */
  predicate Carries(x: Delivery, client: nat, id: nat, m: FromAgent) {
    && x.client == client
    && !m.AgentOther?
    && x.origin == ByAgent(m.id)
    && (m.AgentEvent? ==> x.msg == ClientEvent(id, m.event))
    && (m.AgentResult? ==> x.msg == ClientResult(id, m.container, m.action, m.outcome, m.target))
  }

  /** An agent message with the daemon's id replaced by the client's. */
  function Renamed(m: FromAgent, r: Routed): Delivery
    requires !m.AgentOther?
  {
    match m
    case AgentEvent(d, event) => Delivery(r.client, ClientEvent(r.clientId, event), ByAgent(d))
    case AgentResult(d, container, action, outcome, target) =>
      Delivery(r.client, ClientResult(r.clientId, container, action, outcome, target), ByAgent(d))
  }

  lemma RenamedCarries(m: FromAgent, r: Routed)
    requires !m.AgentOther?
    ensures Carries(Renamed(m, r), r.client, r.clientId, m)
  {
  }

  /** Dispatch of one agent message: the table afterwards and what is forwarded, if anything. */
  function Route(routing: map<nat, Routed>, m: FromAgent): (map<nat, Routed>, Option<Delivery>) {
    match m
    case AgentEvent(d, _) =>
      (routing, if d in routing then Some(Renamed(m, routing[d])) else None)
    case AgentResult(d, _, _, _, _) =>
      if d !in routing then (routing, None)
      else (routing - {d}, if routing[d].kind == OneShot then Some(Renamed(m, routing[d])) else None)
    case AgentOther => (routing, None)
  }

  ghost predicate NoDuplicates<T>(s: seq<T>) {
    forall i, j :: 0 <= i < j < |s| ==> s[i] != s[j]
  }

  /** `order` lists the keys of `routing`, each once: one order a drain may take. */
  ghost predicate DrainOrder(routing: map<nat, Routed>, order: seq<nat>) {
    && NoDuplicates(order)
    && (forall d :: d in order <==> d in routing)
  }

  function DrainNotices(routing: map<nat, Routed>, order: seq<nat>): (out: seq<Delivery>)
    requires forall d :: d in order ==> d in routing
  {
    if order == [] then []
    else
      var last := order[|order| - 1];
      DrainNotices(routing, order[..|order| - 1]) + [DrainNotice(last, routing[last])]
  }

  /** `out` tells the owner of each entry taken out of `routing`, once, in the order they came out. */
  ghost predicate TellsEach(routing: map<nat, Routed>, order: seq<nat>, out: seq<Delivery>) {
    && |out| == |order|
    && forall i :: 0 <= i < |order| ==>
      order[i] in routing && out[i].origin == ByDrain(order[i]) && TellsOwner(out[i], routing[order[i]])
  }

  lemma DrainNoticesAt(routing: map<nat, Routed>, order: seq<nat>)
    requires forall d :: d in order ==> d in routing
    ensures TellsEach(routing, order, DrainNotices(routing, order))
  {
    hide DrainNotice, TellsOwner;
    if order != [] {
      DrainNoticeTells(order[|order| - 1], routing[order[|order| - 1]]);
      DrainNoticesAt(routing, order[..|order| - 1]);
    }
  }
}

/**
 What one client sees of one request, over a whole run: the agent's own messages
 in the agent's order, renamed, then at most one notice of each kind.
 */
module MuxHistory {
  import opened Wrappers
  import opened Routing
  import opened Mux
  import opened MuxInvariant

  function DeadNotice(alias: string, d: nat, b: Binding): Delivery {
    DeadWriterNotice(alias, b.client, b.request, d)
  }

  /** `x` tells the client behind `b` that the agent its request was sent to has gone. */
  predicate TellsGone(x: Delivery, d: nat, b: Binding) {
    && x.client == b.client && x.origin == ByDrain(d)
    && TellsFailure(x.msg, b.request.id, b.request.body, AgentDisconnected, Local)
  }

  /** `x` tells the client behind `b` that its request could not be handed to the agent. */
  predicate TellsDead(alias: string, x: Delivery, d: nat, b: Binding) {
    && x.client == b.client && x.origin == ByDeadWriter(d)
    && TellsFailure(x.msg, b.request.id, b.request.body, WriterClosed, Remote(alias))
  }

  lemma NoticesTell(alias: string, d: nat, b: Binding)
    ensures TellsGone(DrainNotice(d, RoutedOf(b)), d, b)
    ensures TellsDead(alias, DeadNotice(alias, d, b), d, b)
  {
    RejectionTells(b.request.id, b.request.body, WriterClosed, Remote(alias));
    hide Rejection;
  }

  /** An entry keeps enough of the request to tell its client what became of it. */
  lemma OwnerIsClient(x: Delivery, d: nat, b: Binding)
    ensures x.origin == ByDrain(d) && TellsOwner(x, RoutedOf(b)) <==> TellsGone(x, d, b)
  {
  }

  /** After the agent's part: at most one drain notice, then at most one dead-writer notice. */
  predicate Tail(alias: string, d: nat, b: Binding, submitted: bool, k: nat, tail: seq<Delivery>) {
    var drain, dead := DrainNotice(d, RoutedOf(b)), DeadNotice(alias, d, b);
    && (tail == [] || tail == [drain] || tail == [dead] || tail == [drain, dead])
    && (dead in tail ==> k == 0 && !submitted)
    && (k > 0 && KindOf(b.request.body) == OneShot ==> tail == [])
  }

  predicate AboutAgent(src: seq<FromAgent>) {
    forall m :: m in src ==> !m.AgentOther?
  }

  /** `l` forwards the first `k` of the agent's messages `src`, renamed, and ends in an allowed tail. */
  ghost predicate Shape(alias: string, d: nat, b: Binding, submitted: bool,
                        l: seq<Delivery>, src: seq<FromAgent>, k: nat)
    requires AboutAgent(src)
  {
    && k <= |src| && k <= |l|
    && l[..k] == RenamedAll(src[..k], RoutedOf(b))
    && Tail(alias, d, b, submitted, k, l[k..])
    && (KindOf(b.request.body) == OneShot ==> k <= 1)
  }

  predicate Settling(pc: Pc) {
    pc.Registered? || pc.SendFailed? || pc.Notifying?
  }

  /** The request behind `d` is registered and its own session has not settled its fate. */
  predicate InFlight(pc: Pc, d: nat) {
    Settling(pc) && pc.id == d
  }

  ghost predicate History(alias: string, d: nat, b: Binding, routed: bool, submitted: bool, pc: Pc,
                          l: seq<Delivery>, src: seq<FromAgent>)
    requires AboutAgent(src)
  {
    && (routed ==> l == RenamedAll(src, RoutedOf(b)) && (KindOf(b.request.body) == OneShot ==> src == []))
    && (!routed ==> exists k :: Shape(alias, d, b, submitted, l, src, k))
    && (!submitted ==> src == [])
    && (InFlight(pc, d) ==> !submitted)
    && (DeadNotice(alias, d, b) in l <==> !submitted && !InFlight(pc, d))
    && (InFlight(pc, d) && !pc.Notifying? && !routed ==> l == [DrainNotice(d, RoutedOf(b))])
    && (KindOf(b.request.body) == OneShot && submitted && !routed ==> |l| == 1)
  }

  // ---- how one history moves -------------------------------------------------

  lemma HistoryKeeps(alias: string, d: nat, b: Binding, routed: bool, submitted: bool, pc: Pc,
                     l: seq<Delivery>, src: seq<FromAgent>, pc': Pc)
    requires AboutAgent(src) && History(alias, d, b, routed, submitted, pc, l, src)
    requires InFlight(pc', d) == InFlight(pc, d) && (InFlight(pc, d) ==> pc.Notifying? == pc'.Notifying?)
    ensures History(alias, d, b, routed, submitted, pc', l, src)
  {
  }

  lemma HistoryStarts(alias: string, d: nat, b: Binding, pc: Pc)
    requires InFlight(pc, d)
    ensures History(alias, d, b, true, false, pc, [], [])
  {
  }

  lemma HistorySends(alias: string, d: nat, b: Binding, routed: bool, pc: Pc,
                     l: seq<Delivery>, src: seq<FromAgent>, pc': Pc)
    requires AboutAgent(src) && History(alias, d, b, routed, false, pc, l, src)
    requires pc.Registered? && InFlight(pc, d) && !InFlight(pc', d)
    ensures History(alias, d, b, routed, true, pc', l, src)
  {
    if !routed {
      var k: nat :| Shape(alias, d, b, false, l, src, k);
      assert forall x :: x in l[k..] ==> x in l;
      assert Shape(alias, d, b, true, l, src, k);
    }
  }

  /** The entry is withdrawn and nothing is said. */
  lemma HistoryUnroutes(alias: string, d: nat, b: Binding, routed: bool, submitted: bool, pc: Pc,
                        l: seq<Delivery>, src: seq<FromAgent>, pc': Pc)
    requires AboutAgent(src) && History(alias, d, b, routed, submitted, pc, l, src)
    requires InFlight(pc', d) == InFlight(pc, d) && (InFlight(pc', d) ==> pc'.Notifying?)
    requires submitted ==> KindOf(b.request.body) == Subscription
    ensures History(alias, d, b, false, submitted, pc', l, src)
  {
    if routed {
      assert l[..|src|] == l && src[..|src|] == src && l[|src|..] == [];
      assert Shape(alias, d, b, submitted, l, src, |src|);
    }
  }

  lemma HistoryDrains(alias: string, d: nat, b: Binding, submitted: bool, pc: Pc,
                      l: seq<Delivery>, src: seq<FromAgent>)
    requires AboutAgent(src) && History(alias, d, b, true, submitted, pc, l, src)
    ensures History(alias, d, b, false, submitted, pc, l + [DrainNotice(d, RoutedOf(b))], src)
  {
    var l' := l + [DrainNotice(d, RoutedOf(b))];
    assert l'[..|src|] == l && src[..|src|] == src && l'[|src|..] == [DrainNotice(d, RoutedOf(b))];
    assert Shape(alias, d, b, submitted, l', src, |src|);
  }

  lemma HistoryDies(alias: string, d: nat, b: Binding, pc: Pc, l: seq<Delivery>, src: seq<FromAgent>, pc': Pc)
    requires AboutAgent(src) && History(alias, d, b, false, false, pc, l, src)
    requires InFlight(pc, d) && !InFlight(pc', d)
    ensures History(alias, d, b, false, false, pc', l + [DeadNotice(alias, d, b)], src)
  {
    var dead := DeadNotice(alias, d, b);
    var k: nat :| Shape(alias, d, b, false, l, src, k);
    assert k == 0 && l[0..] == l;
    assert (l + [dead])[..0] == [] && (l + [dead])[0..] == l + [dead];
    if l != [] {
      assert l[|l| - 1] in l;
    }
    assert Shape(alias, d, b, false, l + [dead], src, 0);
  }

  /** The parser reads one more message about `d`. */
  lemma HistoryHears(alias: string, d: nat, b: Binding, routed: bool, pc: Pc,
                     l: seq<Delivery>, src: seq<FromAgent>, m: FromAgent)
    requires AboutAgent(src) && History(alias, d, b, routed, true, pc, l, src)
    requires Concerns(m, d)
    requires m.AgentEvent? <==> KindOf(b.request.body) == Subscription
    ensures History(alias, d, b, routed && m.AgentEvent?, true, pc,
                    if routed then l + [Renamed(m, RoutedOf(b))] else l, src + [m])
  {
    if !routed {
      HistoryIgnores(alias, d, b, pc, l, src, m);
      hide History;
    } else if m.AgentResult? {
      HistoryAnswered(alias, d, b, pc, m);
      assert l == [] && src == [];
      assert [] + [Renamed(m, RoutedOf(b))] == [Renamed(m, RoutedOf(b))] && [] + [m] == [m];
      hide History, RenamedAll;
    } else {
      RenamedAllAppend(src, m, RoutedOf(b));
      assert DeadNotice(alias, d, b) != Renamed(m, RoutedOf(b));
      hide RenamedAll, DeadNotice;
    }
  }

  lemma HistoryIgnores(alias: string, d: nat, b: Binding, pc: Pc, l: seq<Delivery>, src: seq<FromAgent>, m: FromAgent)
    requires AboutAgent(src) && History(alias, d, b, false, true, pc, l, src) && Concerns(m, d)
    ensures History(alias, d, b, false, true, pc, l, src + [m])
  {
    var k: nat :| Shape(alias, d, b, true, l, src, k);
    assert (src + [m])[..k] == src[..k];
    hide RenamedAll, Tail;
    assert Shape(alias, d, b, true, l, src + [m], k);
  }

  lemma HistoryAnswered(alias: string, d: nat, b: Binding, pc: Pc, m: FromAgent)
    requires m.AgentResult? && Concerns(m, d) && KindOf(b.request.body) == OneShot && !InFlight(pc, d)
    ensures History(alias, d, b, false, true, pc, [Renamed(m, RoutedOf(b))], [m])
  {
    var l := [Renamed(m, RoutedOf(b))];
    assert l[..1] == l && l[1..] == [] && [m][..1] == [m] && [m][..0] == [];
    assert RenamedAll([m], RoutedOf(b)) == l;
    assert Shape(alias, d, b, true, l, [m], 1);
  }

  // ---- every history of a state ----------------------------------------------

  ghost function Seen(s: State, d: nat): seq<FromAgent>
    requires s.taken <= |s.ret|
  {
    FromId(s.ret[..s.taken], d)
  }

  ghost predicate HistoryAt(s: State, d: nat)
    requires d in s.bound && s.bound[d].client in s.clients && s.taken <= |s.ret|
  {
    History(s.alias, d, s.bound[d], d in s.routing, d in Submitted(s.sent), s.clients[s.bound[d].client].pc,
            OfId(s.log, d), Seen(s, d))
  }

  ghost predicate Grounded(s: State) {
    s.taken <= |s.ret| && forall d :: d in s.bound ==> s.bound[d].client in s.clients
  }

  ghost predicate Histories(s: State)
    requires Grounded(s)
  {
    && (forall d :: d in s.bound ==> HistoryAt(s, d))
    && (forall d :: d !in s.bound ==> OfId(s.log, d) == [])
  }

  ghost predicate Inv(s: State) {
    ControlInv(s) && Grounded(s) && Histories(s)
  }

  // ---- every step keeps every history ------------------------------------------

  /** A session's place around a step that settles no request. */
  predicate Unsettled(before: Pc, after: Pc) {
    after == before || (!Settling(before) && !Settling(after))
  }

  ghost predicate Unhurried(s: State, s': State) {
    forall c :: c in s.clients ==> c in s'.clients && Unsettled(s.clients[c].pc, s'.clients[c].pc)
  }

  /** A step that says nothing, hears nothing and settles nothing. */
  lemma QuietHistories(s: State, s': State)
    requires Grounded(s) && Histories(s) && Grounded(s')
    requires s'.taken == s.taken && s.ret <= s'.ret && s'.log == s.log
    requires s'.bound == s.bound && s'.routing == s.routing && s'.alias == s.alias
    requires Submitted(s'.sent) == Submitted(s.sent)
    requires Unhurried(s, s')
    ensures Histories(s')
  {
    hide History, OfId, FromId, Submitted;
    assert s'.ret[..s.taken] == s.ret[..s.taken];
    forall d | d in s.bound ensures HistoryAt(s', d) {
      assert HistoryAt(s, d);
      var c := s.bound[d].client;
      assert Unsettled(s.clients[c].pc, s'.clients[c].pc);
      HistoryKeeps(s.alias, d, s.bound[d], d in s.routing, d in Submitted(s.sent), s.clients[c].pc,
                   OfId(s.log, d), Seen(s, d), s'.clients[c].pc);
    }
  }

  lemma ControlGrounded(s: State)
    requires ControlInv(s)
    ensures Grounded(s)
  {
    hide Pcs, Handles, Wire, FarSide, Tables, Submitted, Cancelled;
  }

  lemma PcFacts(s: State, c: nat)
    requires ControlInv(s) && c in s.clients
    ensures PcOk(c, s.clients[c].pc, s.nextId, s.bound, s.routing, Submitted(s.sent), Cancelled(s.sent), s.writerOpen)
  {
    hide Ids, Handles, Wire, FarSide, Tables, Submitted, Cancelled;
    PcAt(c, s.clients, s.nextId, s.bound, s.routing, Submitted(s.sent), Cancelled(s.sent), s.writerOpen);
  }

  /** A refusal carries no daemon id, so it enters no history. */
  lemma RefusalHistories(s: State, x: Delivery)
    requires Grounded(s) && Histories(s) && x.origin.ByRefusal?
    ensures Histories(Deliver(s, x))
  {
    hide History, FromId, Submitted, OfId;
    forall d ensures OfId(s.log + [x], d) == OfId(s.log, d) {
      OfIdAppend(s.log, x, d);
      assert OfId(s.log, d) + [] == OfId(s.log, d);
    }
    forall d | d in s.bound ensures HistoryAt(Deliver(s, x), d) {
      assert HistoryAt(s, d);
    }
  }

  lemma RegisterHistories(s: State, c: nat)
    requires Grounded(s) && Histories(s) && c in s.clients && s.clients[c].pc.Allocated?
    requires s.clients[c].pc.id !in s.bound && s.clients[c].pc.id !in Submitted(s.sent)
    requires Seen(s, s.clients[c].pc.id) == []
    ensures Grounded(DoRegister(s, c)) && Histories(DoRegister(s, c))
  {
    hide History, OfId, FromId, Submitted;
    var s' := DoRegister(s, c);
    var d := s.clients[c].pc.id;
    forall e | e in s'.bound ensures HistoryAt(s', e) {
      if e == d {
        HistoryStarts(s.alias, d, s'.bound[d], s'.clients[c].pc);
      } else {
        assert HistoryAt(s, e);
        HistoryKeeps(s.alias, e, s.bound[e], e in s.routing, e in Submitted(s.sent),
                     s.clients[s.bound[e].client].pc, OfId(s.log, e), Seen(s, e), s'.clients[s.bound[e].client].pc);
      }
    }
  }

  /** Nothing was heard about an id that was never sent. */
  lemma UnsentUnheard(s: State, d: nat)
    requires ControlInv(s) && d !in Submitted(s.sent)
    ensures Seen(s, d) == []
  {
    hide Ids, Pcs, Handles, Wire, Tables, Submitted, Cancelled;
    assert forall m :: m in s.ret[..s.taken] ==> m in s.ret && Truthful(m, s.bound, Submitted(s.sent));
    FromIdAbsent(s.ret[..s.taken], d);
  }

  lemma {:induction false} FromIdAbsent(ms: seq<FromAgent>, d: nat)
    requires forall m :: m in ms ==> !Concerns(m, d)
    ensures FromId(ms, d) == []
  {
    if ms != [] {
      assert ms[|ms| - 1] in ms;
      FromIdAbsent(ms[..|ms| - 1], d);
    }
  }

  lemma SendHistories(s: State, c: nat)
    requires Grounded(s) && Histories(s) && c in s.clients && s.clients[c].pc.Registered? && s.writerOpen
    requires s.clients[c].pc.id in s.bound && s.bound[s.clients[c].pc.id].client == c
    requires s.clients[c].pc.id !in Submitted(s.sent)
    ensures Grounded(DoSend(s, c)) && Histories(DoSend(s, c))
  {
    hide HistoryAt, DoSend, OfId, FromId, Submitted;
    var s', d := DoSend(s, c), s.clients[c].pc.id;
    SendGrounded(s, c);
    forall e | e in s'.bound ensures HistoryAt(s', e) {
      assert HistoryAt(s, e);
      SendHistoryAt(s, s', c, d, e);
    }
  }

  lemma SendGrounded(s: State, c: nat)
    requires Grounded(s) && c in s.clients && s.clients[c].pc.Registered? && s.writerOpen
    ensures
      var s' := DoSend(s, c);
      && Grounded(s') && s'.bound == s.bound && s'.log == s.log && s'.alias == s.alias
      && s'.routing == s.routing && s'.ret == s.ret && s'.taken == s.taken
      && Submitted(s'.sent) == Submitted(s.sent) + {s.clients[c].pc.id}
      && s'.clients.Keys == s.clients.Keys && s'.clients[c].pc == Idle
      && forall x :: x in s.clients && x != c ==> s'.clients[x] == s.clients[x]
  {
    SentAppend(s.sent, Submit(s.clients[c].pc.id, s.clients[c].pc.req.body));
    hide Submitted;
  }

  /** The request behind `d` has been sent by session `c`. */
  lemma SendHistoryAt(s: State, s': State, c: nat, d: nat, e: nat)
    requires Grounded(s) && Grounded(s') && c in s.clients && s.clients[c].pc.Registered? && s.clients[c].pc.id == d
    requires d in s.bound && s.bound[d].client == c && d !in Submitted(s.sent)
    requires s'.bound == s.bound && s'.log == s.log && s'.alias == s.alias
    requires s'.routing == s.routing && s'.ret == s.ret && s'.taken == s.taken
    requires Submitted(s'.sent) == Submitted(s.sent) + {d}
    requires s'.clients.Keys == s.clients.Keys && s'.clients[c].pc == Idle
    requires forall x :: x in s.clients && x != c ==> s'.clients[x] == s.clients[x]
    requires e in s.bound && HistoryAt(s, e)
    ensures HistoryAt(s', e)
  {
    hide History, OfId, FromId, Submitted;
    var owner := s.bound[e].client;
    if e == d {
      HistorySends(s.alias, d, s.bound[d], d in s.routing, s.clients[c].pc, OfId(s.log, d), Seen(s, d), Idle);
    } else {
      HistoryKeeps(s.alias, e, s.bound[e], e in s.routing, e in Submitted(s.sent),
                   s.clients[owner].pc, OfId(s.log, e), Seen(s, e), s'.clients[owner].pc);
    }
  }

  lemma SendFailHistories(s: State, c: nat)
    requires Grounded(s) && Histories(s) && c in s.clients && s.clients[c].pc.Registered? && !s.writerOpen
    ensures Grounded(DoSend(s, c)) && Histories(DoSend(s, c))
  {
    hide History, OfId, FromId, Submitted;
    var s' := DoSend(s, c);
    forall e | e in s'.bound ensures HistoryAt(s', e) {
      assert HistoryAt(s, e);
      HistoryKeeps(s.alias, e, s.bound[e], e in s.routing, e in Submitted(s.sent), s.clients[s.bound[e].client].pc,
                   OfId(s.log, e), Seen(s, e), s'.clients[s.bound[e].client].pc);
    }
  }

  /** A session withdraws the entry for `d` and moves to `pc`. */
  lemma UnrouteHistories(s: State, c: nat, d: nat, pc: Pc)
    requires Grounded(s) && Histories(s) && c in s.clients
    requires forall e :: InFlight(pc, e) == InFlight(s.clients[c].pc, e)
    requires Settling(pc) ==> pc.Notifying? && pc.id == d
    requires d in Submitted(s.sent) ==> IsSub(s.bound, d)
    requires d in s.bound ==> s.bound[d].client == c
    ensures var s' := At(s, c, pc).(routing := s.routing - {d}); Grounded(s') && Histories(s')
  {
    hide History, OfId, FromId, Submitted;
    var s' := At(s, c, pc).(routing := s.routing - {d});
    forall e | e in s'.bound ensures HistoryAt(s', e) {
      assert HistoryAt(s, e);
      var owner := s.bound[e].client;
      if e == d {
        HistoryUnroutes(s.alias, e, s.bound[e], e in s.routing, e in Submitted(s.sent),
                        s.clients[owner].pc, OfId(s.log, e), Seen(s, e), s'.clients[owner].pc);
      } else {
        HistoryKeeps(s.alias, e, s.bound[e], e in s.routing, e in Submitted(s.sent),
                     s.clients[owner].pc, OfId(s.log, e), Seen(s, e), s'.clients[owner].pc);
      }
    }
  }

  lemma NotifyHistories(s: State, c: nat)
    requires Grounded(s) && Histories(s) && c in s.clients && s.clients[c].pc.Notifying?
    requires var Notifying(req, d) := s.clients[c].pc;
      d in s.bound && s.bound[d] == Binding(c, req) && d !in s.routing && d !in Submitted(s.sent)
    ensures Grounded(DoNotify(s, c)) && Histories(DoNotify(s, c))
  {
    hide History, OfId, FromId, Submitted, DeadWriterNotice;
    var s' := DoNotify(s, c);
    var Notifying(req, d) := s.clients[c].pc;
    var x := DeadNotice(s.alias, d, s.bound[d]);
    NotifyNames(s.alias, c, req, d);
    forall e | e in s'.bound ensures HistoryAt(s', e) {
      assert HistoryAt(s, e);
      OfIdAppend(s.log, x, e);
      var owner := s.bound[e].client;
      if e == d {
        HistoryDies(s.alias, d, s.bound[d], s.clients[c].pc, OfId(s.log, d), Seen(s, d), Idle);
      } else {
        assert OfId(s.log, e) + [] == OfId(s.log, e);
        HistoryKeeps(s.alias, e, s.bound[e], e in s.routing, e in Submitted(s.sent),
                     s.clients[owner].pc, OfId(s.log, e), Seen(s, e), s'.clients[owner].pc);
      }
    }
    forall e | e !in s'.bound ensures OfId(s'.log, e) == [] {
      OfIdAppend(s.log, x, e);
    }
  }

  lemma NotifyNames(alias: string, c: nat, req: Request, d: nat)
    ensures forall e :: Names(DeadWriterNotice(alias, c, req, d), e) <==> e == d
  {
  }

  lemma DrainHistories(s: State, order: seq<nat>)
    requires Grounded(s) && Histories(s) && DrainOrder(s.routing, order)
    requires forall d :: d in s.routing ==> d in s.bound && s.routing[d] == RoutedOf(s.bound[d])
    ensures Grounded(DoDrain(s, order)) && Histories(DoDrain(s, order))
  {
    var s' := DoDrain(s, order);
    forall d ensures OfId(s'.log, d) == OfId(s.log, d) + if d in s.routing then [DrainNotice(d, s.routing[d])] else [] {
      OfIdDrain(s.log, s.routing, order, d);
    }
    hide History, OfId, FromId, Submitted, RoutedOf, DrainNotices;
    forall e | e in s'.bound ensures HistoryAt(s', e) {
      assert HistoryAt(s, e);
      if e in s.routing {
        HistoryDrains(s.alias, e, s.bound[e], e in Submitted(s.sent), s.clients[s.bound[e].client].pc,
                      OfId(s.log, e), Seen(s, e));
      } else {
        assert OfId(s.log, e) + [] == OfId(s.log, e);
      }
    }
  }

  lemma ParserHistories(s: State)
    requires Grounded(s) && Histories(s) && s.taken < |s.ret|
    requires forall d :: d in s.routing ==> d in s.bound && s.routing[d] == RoutedOf(s.bound[d])
    requires Truthful(s.ret[s.taken], s.bound, Submitted(s.sent))
    ensures Grounded(DoParserStep(s)) && Histories(DoParserStep(s))
  {
    hide History, OfId, FromId, Submitted, RoutedOf, Route, Renamed, Truthful;
    var s' := DoParserStep(s);
    forall e | e in s'.bound ensures HistoryAt(s', e) {
      ParserHistoryAt(s, e);
    }
    forall e | e !in s'.bound ensures OfId(s'.log, e) == [] {
      ParserLog(s, e);
    }
  }

  lemma ParserHistoryAt(s: State, d: nat)
    requires Grounded(s) && s.taken < |s.ret| && d in s.bound && HistoryAt(s, d)
    requires forall e :: e in s.routing ==> e in s.bound && s.routing[e] == RoutedOf(s.bound[e])
    requires Truthful(s.ret[s.taken], s.bound, Submitted(s.sent))
    ensures HistoryAt(DoParserStep(s), d)
  {
    hide History, OfId, FromId, Submitted, RoutedOf, Renamed, Route, HistoryAt;
    var m := s.ret[s.taken];
    assert s.ret[..s.taken + 1] == s.ret[..s.taken] + [m];
    FromIdAppend(s.ret[..s.taken], m, d);
    ParserLog(s, d);
    ParserRouting(s, d);
    ParserHistoryMoves(s, DoParserStep(s), d, m);
  }

  lemma ParserRouting(s: State, d: nat)
    requires s.taken < |s.ret|
    ensures var m := s.ret[s.taken];
      d in DoParserStep(s).routing <==> d in s.routing && !(Concerns(m, d) && m.AgentResult?)
  {
    hide Renamed;
  }

  lemma ParserHistoryMoves(s: State, s': State, d: nat, m: FromAgent)
    requires s.taken <= |s.ret| && s'.taken <= |s'.ret|
    requires d in s.bound && s'.bound == s.bound && s.bound[d].client in s.clients && s'.clients == s.clients
    requires s'.alias == s.alias && s'.sent == s.sent
    requires HistoryAt(s, d)
    requires d in s.routing ==> s.routing[d] == RoutedOf(s.bound[d])
    requires d in s'.routing <==> d in s.routing && !(Concerns(m, d) && m.AgentResult?)
    requires Seen(s', d) == Seen(s, d) + if Concerns(m, d) then [m] else []
    requires OfId(s'.log, d) == OfId(s.log, d) + if Concerns(m, d) && d in s.routing then [Renamed(m, s.routing[d])] else []
    requires Concerns(m, d) ==> d in Submitted(s.sent) && m.AgentEvent? == IsSub(s.bound, d)
    ensures HistoryAt(s', d)
  {
    hide History, OfId, FromId, Submitted, RoutedOf, Renamed;
    assert OfId(s.log, d) + [] == OfId(s.log, d) && Seen(s, d) + [] == Seen(s, d);
    if Concerns(m, d) {
      HistoryHears(s.alias, d, s.bound[d], d in s.routing, s.clients[s.bound[d].client].pc,
                   OfId(s.log, d), Seen(s, d), m);
    }
  }

  lemma ParserLog(s: State, d: nat)
    requires Grounded(s) && s.taken < |s.ret|
    requires forall e :: e in s.routing ==> e in s.bound && s.routing[e] == RoutedOf(s.bound[e])
    requires Truthful(s.ret[s.taken], s.bound, Submitted(s.sent))
    ensures var m := s.ret[s.taken];
      OfId(DoParserStep(s).log, d) == OfId(s.log, d)
        + if Concerns(m, d) && d in s.routing then [Renamed(m, s.routing[d])] else []
  {
    hide OfId;
    var m := s.ret[s.taken];
    match Route(s.routing, m).1
    case None =>
      assert s.log + [] == s.log && OfId(s.log, d) + [] == OfId(s.log, d);
    case Some(x) =>
      OfIdAppend(s.log, x, d);
      assert OfId(s.log, d) + [] == OfId(s.log, d);
  }

  lemma ControlRouted(s: State)
    requires ControlInv(s)
    ensures forall d :: d in s.routing ==> d in s.bound && s.routing[d] == RoutedOf(s.bound[d])
    ensures forall m :: m in s.ret ==> Truthful(m, s.bound, Submitted(s.sent))
  {
    hide Pcs, Handles, Wire, Tables, Submitted, Cancelled, Truthful;
  }

  lemma InitInv(alias: string, caps: set<Capability>)
    ensures Inv(Init(alias, caps))
  {
    InitControl(alias, caps);
  }

  lemma StepInv(s: State, step: Step)
    requires Inv(s) && Enabled(s, step)
    ensures Inv(Apply(s, step))
  {
    StepControl(s, step);
    ControlGrounded(Apply(s, step));
    hide ControlInv, Histories, Grounded, Apply;
    if step.Register? || step.Send? {
      SendingHistories(s, step, step.c);
    } else if step.Withdraw? || step.Notify? || step.DropRoute? {
      ClosingHistories(s, step, step.c);
    } else if step.ParserStep? || step.ParserExit? || step.ShutdownDrain? {
      ConnectionHistories(s, step);
    } else {
      OtherHistories(s, step);
    }
  }

  lemma ConnectionHistories(s: State, step: Step)
    requires Inv(s) && Enabled(s, step) && Grounded(Apply(s, step))
    requires step.ParserStep? || step.ParserExit? || step.ShutdownDrain?
    ensures Histories(Apply(s, step))
  {
    hide ControlInv, Histories, DrainNotices, DoDrain, DoParserStep, Truthful, RoutedOf, Submitted;
    ControlRouted(s);
    match step
    case ParserStep => ParserHistories(s);
    case ParserExit(order) => ExitHistories(s, order);
    case ShutdownDrain(order) => DrainHistories(s, order);
  }

  lemma ExitHistories(s: State, order: seq<nat>)
    requires Grounded(s) && Histories(s) && DrainOrder(s.routing, order)
    requires forall d :: d in s.routing ==> d in s.bound && s.routing[d] == RoutedOf(s.bound[d])
    ensures var s' := DoDrain(s, order).(parserAlive := false); Grounded(s') && Histories(s')
  {
    hide Histories, DrainNotices, RoutedOf;
    DrainHistories(s, order);
    QuietStep(DoDrain(s, order), DoDrain(s, order).(parserAlive := false));
  }

  lemma OtherHistories(s: State, step: Step)
    requires Inv(s) && Enabled(s, step) && Grounded(Apply(s, step))
    requires !(step.Register? || step.Send? || step.Withdraw? || step.Notify? || step.DropRoute?)
    requires !(step.ParserStep? || step.ParserExit? || step.ShutdownDrain?)
    ensures Histories(Apply(s, step))
  {
    hide ControlInv, Histories, Grounded, DoCommand, DoSendUnsubscribe, DoAllocId, DoTakeHandle;
    match step
    case Command(c, req) => CommandHistories(s, c, req);
    case SendUnsubscribe(c) => UnsubscribeHistories(s, c);
    case AllocId(c) => ClientHistories(s, step, c);
    case CancelCommand(c, sid) => HandleHistories(s, c, sid);
    case TeardownOne(c, sid) => HandleHistories(s, c, sid);
    case Connect(c) => ClientHistories(s, step, c);
    case EndSession(c) => ClientHistories(s, step, c);
    case _ => AgentHistories(s, step);
  }

  lemma ClientHistories(s: State, step: Step, c: nat)
    requires Inv(s) && Enabled(s, step) && Grounded(Apply(s, step))
    requires step.AllocId? || step.Connect? || step.EndSession?
    requires step.c == c
    ensures Histories(Apply(s, step))
  {
    hide ControlInv, Histories, Grounded;
    SessionQuiet(s, Apply(s, step), c);
  }

  lemma HandleHistories(s: State, c: nat, sid: nat)
    requires Grounded(s) && Histories(s) && AtIdle(s, c) && Grounded(DoTakeHandle(s, c, sid))
    ensures Histories(DoTakeHandle(s, c, sid))
  {
    hide Histories, Grounded;
    if sid in s.clients[c].subs {
      SessionQuiet(s, DoTakeHandle(s, c, sid), c);
    }
  }

  lemma SessionQuiet(s: State, s': State, c: nat)
    requires Grounded(s) && Histories(s) && Grounded(s')
    requires c in s'.clients && s'.clients == s.clients[c := s'.clients[c]]
    requires c in s.clients ==> Unsettled(s.clients[c].pc, s'.clients[c].pc)
    requires s'.taken == s.taken && s'.ret == s.ret && s'.log == s.log && s'.sent == s.sent
    requires s'.bound == s.bound && s'.routing == s.routing && s'.alias == s.alias
    ensures Histories(s')
  {
    hide Histories, Grounded;
    QuietStep(s, s');
  }

  lemma AgentHistories(s: State, step: Step)
    requires Inv(s) && Enabled(s, step) && Grounded(Apply(s, step))
    requires step.AgentReceive? || step.AgentEmit? || step.AgentFinish? || step.AgentNoise?
      || step.WriterDies? || step.PoolRemove?
    ensures Histories(Apply(s, step))
  {
    hide ControlInv, Histories, Grounded;
    assert Unhurried(s, Apply(s, step));
    QuietStep(s, Apply(s, step));
  }

  /** Steps that leave log, table, bindings and sent requests alone. */
  lemma QuietStep(s: State, s': State)
    requires Grounded(s) && Histories(s) && Grounded(s')
    requires s'.taken == s.taken && s.ret <= s'.ret && s'.log == s.log && s'.sent == s.sent
    requires s'.bound == s.bound && s'.routing == s.routing && s'.alias == s.alias
    requires Unhurried(s, s')
    ensures Histories(s')
  {
    hide Histories, Grounded, Unhurried, Submitted;
    QuietHistories(s, s');
  }

  lemma UnsubscribeHistories(s: State, c: nat)
    requires Grounded(s) && Histories(s) && c in s.clients && s.clients[c].pc.Unsending?
    ensures Histories(DoSendUnsubscribe(s, c))
  {
    hide Histories, Submitted;
    SentAppend(s.sent, Unsubscribe(s.clients[c].pc.id));
    UnsentSame(s, c);
    QuietHistories(s, DoSendUnsubscribe(s, c));
  }

  lemma UnsentSame(s: State, c: nat)
    requires Grounded(s) && c in s.clients && s.clients[c].pc.Unsending?
    ensures
      var s' := DoSendUnsubscribe(s, c);
      && Grounded(s') && Unhurried(s, s')
      && s'.taken == s.taken && s'.ret == s.ret && s'.log == s.log
      && s'.bound == s.bound && s'.routing == s.routing && s'.alias == s.alias
  {
  }

  lemma CommandHistories(s: State, c: nat, req: Request)
    requires c in s.clients && s.clients[c].pc.Idle?
    requires Grounded(DoCommand(s, c, req))
    requires Grounded(s) && Histories(s)
    ensures Histories(DoCommand(s, c, req))
  {
    hide Histories, Submitted, Rejection;
    var target := Remote(s.alias);
    if !s.pooled {
      RefusalHistories(s, Delivery(c, Rejection(req.id, req.body, AgentNotConnected, target), ByRefusal));
    } else if Needs(req.body) !in s.caps {
      RefusalHistories(s, Delivery(c, Rejection(req.id, req.body, MissingCapability, target), ByRefusal));
    } else {
      QuietHistories(s, DoCommand(s, c, req));
    }
  }

  lemma SendingHistories(s: State, step: Step, c: nat)
    requires Inv(s) && Enabled(s, step) && Grounded(Apply(s, step))
    requires step.Register? || step.Send?
    requires step.c == c
    ensures Histories(Apply(s, step))
  {
    PcFacts(s, c);
    hide ControlInv, Histories, Submitted, Cancelled;
    match step
    case Register(_) =>
      RegisterFresh(s, c);
      UnsentUnheard(s, s.clients[c].pc.id);
      RegisterHistories(s, c);
    case Send(_) => if s.writerOpen { SendHistories(s, c); } else { SendFailHistories(s, c); }
  }

  /** What withdrawing a routing entry relies on. */
  lemma LeavingFacts(s: State, c: nat)
    requires ControlInv(s) && c in s.clients && (s.clients[c].pc.SendFailed? || s.clients[c].pc.Dropping?)
    ensures var d := s.clients[c].pc.id;
      && (d in Submitted(s.sent) ==> IsSub(s.bound, d))
      && (d in s.bound ==> s.bound[d].client == c)
  {
    PcFacts(s, c);
    hide ControlInv, Submitted, Cancelled;
  }

  lemma WithdrawHistories(s: State, c: nat)
    requires Inv(s) && c in s.clients && s.clients[c].pc.SendFailed?
    ensures Histories(DoWithdraw(s, c))
  {
    LeavingFacts(s, c);
    hide ControlInv, Histories, Grounded, Submitted, IsSub;
    var SendFailed(req, d) := s.clients[c].pc;
    UnrouteHistories(s, c, d, Notifying(req, d));
  }

  lemma UnsettledPcs(d: nat)
    ensures !Settling(Dropping(d)) && !Settling(Unsending(d))
  {
  }

  lemma DropHistories(s: State, c: nat)
    requires Inv(s) && c in s.clients && s.clients[c].pc.Dropping?
    ensures Histories(DoDropRoute(s, c))
  {
    LeavingFacts(s, c);
    hide ControlInv, Histories, Grounded, Submitted, IsSub;
    var Dropping(d) := s.clients[c].pc;
    hide Settling;
    UnsettledPcs(d);
    UnrouteHistories(s, c, d, Unsending(d));
  }

  lemma ClosingHistories(s: State, step: Step, c: nat)
    requires Inv(s) && Enabled(s, step)
    requires step.Withdraw? || step.Notify? || step.DropRoute?
    requires step.c == c
    ensures Histories(Apply(s, step))
  {
    hide ControlInv, Histories, Grounded, Submitted, Cancelled, DoWithdraw, DoNotify, DoDropRoute;
    match step
    case Withdraw(_) => WithdrawHistories(s, c);
    case Notify(_) => ToldHistories(s, c);
    case DropRoute(_) => DropHistories(s, c);
  }

  lemma ToldHistories(s: State, c: nat)
    requires Inv(s) && c in s.clients && s.clients[c].pc.Notifying?
    ensures Histories(DoNotify(s, c))
  {
    hide ControlInv, Histories, Grounded, Submitted, Cancelled, DoNotify;
    PcFacts(s, c);
    NotifyHistories(s, c);
  }

  lemma {:induction false} RunInv(s: State, steps: seq<Step>)
    requires Inv(s) && Runs(s, steps)
    ensures Inv(End(s, steps))
    decreases steps
  {
    hide Inv, Apply, Enabled;
    if steps != [] {
      StepInv(s, steps[0]);
      RunInv(Apply(s, steps[0]), steps[1..]);
    }
  }
}

/**
 The session's own map against the routing table, for clients that never subscribe an
 id they still hold; and what a finished session leaves behind.
 */
module MuxAgreement {
  import opened Wrappers
  import opened Routing
  import opened Mux
  import opened MuxInvariant
  import opened MuxHistory

  /** Live, and still the connection the pool hands out. */
  predicate Attached(s: State) {
    Live(s) && s.pooled
  }

  /** No session opens a subscription under an id its map already holds. */
  predicate Fresh(s: State, step: Step) {
    step.Command? && KindOf(step.req.body) == Subscription && step.c in s.clients ==>
      step.req.id !in s.clients[step.c].subs
  }

  ghost predicate NoReuse(s: State, steps: seq<Step>)
    requires Runs(s, steps)
    decreases steps
  {
    steps == [] || (Fresh(s, steps[0]) && NoReuse(Apply(s, steps[0]), steps[1..]))
  }

  predicate PendingFresh(sess: Session) {
    (sess.pc.Looked? || sess.pc.Allocated? || sess.pc.Registered?) && KindOf(sess.pc.req.body) == Subscription ==>
      sess.pc.req.id !in sess.subs
  }

  ghost predicate AllFresh(clients: Clients) {
    forall c :: c in clients ==> PendingFresh(clients[c])
  }

  /** The owner of `d` knows about it: in its map, or in the command it is handling. */
  predicate Held(sess: Session, d: nat, b: Binding) {
    || sess.pc == Registered(b.request, d)
    || sess.pc == Dropping(d)
    || (b.request.id in sess.subs && sess.subs[b.request.id] == d)
  }

  ghost predicate Owned(clients: Clients, bound: Bound, routing: Table) {
    forall d :: d in routing && IsSub(bound, d) && bound[d].client in clients ==>
      Held(clients[bound[d].client], d, bound[d])
  }

  /** While the connection is attached, every subscription entry is held by its owner. */
  ghost predicate OwnedInv(s: State) {
    Attached(s) ==> Owned(s.clients, s.bound, s.routing)
  }

  ghost predicate AgreeInv(s: State) {
    AllFresh(s.clients) && OwnedInv(s)
  }

  // ---- one component at a time -------------------------------------------------------

  lemma OwnedMove(c: nat, sess: Session, clients: Clients, bound: Bound, routing: Table)
    requires Owned(clients, bound, routing)
    requires c in clients ==> sess.subs == clients[c].subs && !clients[c].pc.Registered? && !clients[c].pc.Dropping?
    requires c !in clients ==> forall d :: d in bound ==> bound[d].client != c
    ensures Owned(clients[c := sess], bound, routing)
  {
    forall d | d in routing && IsSub(bound, d) && bound[d].client in clients[c := sess]
      ensures Held(clients[c := sess][bound[d].client], d, bound[d])
    {
      assert Held(clients[bound[d].client], d, bound[d]);
    }
  }

  lemma OwnedRegister(c: nat, req: Request, d: nat, sess: Session, clients: Clients, bound: Bound, routing: Table)
    requires Owned(clients, bound, routing)
    requires c in clients && clients[c].pc.Allocated? && sess == clients[c].(pc := Registered(req, d))
    requires d !in bound && forall e :: e in routing ==> e in bound
    ensures Owned(clients[c := sess], bound[d := Binding(c, req)], routing[d := RoutedOf(Binding(c, req))])
  {
    var bound' := bound[d := Binding(c, req)];
    forall e | e in routing[d := RoutedOf(Binding(c, req))] && IsSub(bound', e) && bound'[e].client in clients
      ensures Held(clients[c := sess][bound'[e].client], e, bound'[e])
    {
      if e != d {
        assert Held(clients[bound[e].client], e, bound[e]);
      }
    }
  }

  /** Recording a handle keeps every entry owned exactly when the client's id was free. */
  lemma OwnedSend(c: nat, req: Request, d: nat, sess: Session, clients: Clients, bound: Bound, routing: Table)
    requires Owned(clients, bound, routing)
    requires c in clients && clients[c].pc == Registered(req, d)
    requires d in bound && bound[d] == Binding(c, req)
    requires sess.pc == Idle
    requires sess.subs == if KindOf(req.body) == Subscription then clients[c].subs[req.id := d] else clients[c].subs
    requires req.id in clients[c].subs && KindOf(req.body) == Subscription ==>
      var e := clients[c].subs[req.id];
      e != d && e in routing && IsSub(bound, e) && bound[e].client == c && bound[e].request.id == req.id
    ensures Owned(clients[c := sess], bound, routing)
      <==> !(KindOf(req.body) == Subscription && req.id in clients[c].subs)
  {
    var after := clients[c := sess];
    if KindOf(req.body) == Subscription && req.id in clients[c].subs {
      assert !Held(after[c], clients[c].subs[req.id], bound[clients[c].subs[req.id]]);
    } else {
      forall e | e in routing && IsSub(bound, e) && bound[e].client in after
        ensures Held(after[bound[e].client], e, bound[e])
      {
        assert Held(clients[bound[e].client], e, bound[e]);
      }
    }
  }

  lemma OwnedTake(c: nat, sid: nat, sess: Session, clients: Clients, bound: Bound, routing: Table)
    requires Owned(clients, bound, routing)
    requires c in clients && clients[c].pc == Idle && sid in clients[c].subs
    requires sess.pc == Dropping(clients[c].subs[sid]) && sess.subs == clients[c].subs - {sid}
    ensures Owned(clients[c := sess], bound, routing)
  {
    forall d | d in routing && IsSub(bound, d) && bound[d].client in clients
      ensures Held(clients[c := sess][bound[d].client], d, bound[d])
    {
      assert Held(clients[bound[d].client], d, bound[d]);
    }
  }

  lemma OwnedDrop(c: nat, d: nat, sess: Session, clients: Clients, bound: Bound, routing: Table)
    requires Owned(clients, bound, routing)
    requires c in clients && clients[c].pc == Dropping(d) && sess == clients[c].(pc := Unsending(d))
    ensures Owned(clients[c := sess], bound, routing - {d})
  {
    forall e | e in routing - {d} && IsSub(bound, e) && bound[e].client in clients
      ensures Held(clients[c := sess][bound[e].client], e, bound[e])
    {
      assert Held(clients[bound[e].client], e, bound[e]);
    }
  }

  lemma OwnedShrink(clients: Clients, bound: Bound, routing: Table, routing': Table)
    requires Owned(clients, bound, routing) && routing'.Keys <= routing.Keys
    ensures Owned(clients, bound, routing')
  {
    forall d | d in routing' && IsSub(bound, d) && bound[d].client in clients
      ensures Held(clients[bound[d].client], d, bound[d])
    {
      assert d in routing.Keys;
    }
  }

  /** The handle a session holds is routed, while the connection is live. */
  lemma HandleRouted(s: State, c: nat, sid: nat)
    requires ControlInv(s) && Live(s) && c in s.clients && sid in s.clients[c].subs
    ensures var d := s.clients[c].subs[sid];
      IsSub(s.bound, d) && s.bound[d].client == c && s.bound[d].request.id == sid
      && d in s.routing && d in Submitted(s.sent)
  {
    hide Ids, Pcs, Wire, FarSide, Submitted, Cancelled;
    var d := s.clients[c].subs[sid];
    assert HandleOk(c, s.clients[c].pc, sid, d, s.bound, Submitted(s.sent), Cancelled(s.sent));
    assert TableOk(d, s.bound[d], s.clients[s.bound[d].client].pc, d in s.routing, d in Submitted(s.sent),
                   d in Cancelled(s.sent));
  }

  /**
   The exact condition: recording a subscription that has just been sent leaves every
   entry owned if and only if the session did not already hold that client id.
   */
  lemma SendOwnedIff(s: State, c: nat)
    requires ControlInv(s) && Live(s) && Owned(s.clients, s.bound, s.routing)
    requires c in s.clients && s.clients[c].pc.Registered?
    ensures Owned(DoSend(s, c).clients, DoSend(s, c).bound, DoSend(s, c).routing)
      <==> !(KindOf(s.clients[c].pc.req.body) == Subscription && s.clients[c].pc.req.id in s.clients[c].subs)
  {
    var Registered(req, d) := s.clients[c].pc;
    RegisteredUnsent(s, c);
    if req.id in s.clients[c].subs {
      HandleRouted(s, c, req.id);
    }
    hide ControlInv, Owned, Submitted, Cancelled;
    OwnedSend(c, req, d, DoSend(s, c).clients[c], s.clients, s.bound, s.routing);
  }

  // ---- every step ----------------------------------------------------------------------

  /** The step records a subscription under an id its session already holds. */
  ghost predicate Overwrites(s: State, step: Step) {
    && step.Send? && s.writerOpen
    && step.c in s.clients && s.clients[step.c].pc.Registered?
    && KindOf(s.clients[step.c].pc.req.body) == Subscription
    && s.clients[step.c].pc.req.id in s.clients[step.c].subs
  }

  lemma ConnectionOwned(s: State, step: Step)
    requires OwnedInv(s) && Enabled(s, step) && OfConnection(step)
    ensures OwnedInv(Apply(s, step)) && Apply(s, step).clients == s.clients
  {
    hide Owned, Enabled, Apply;
    var s' := Apply(s, step);
    StepFrames(s, step);
    ConnectionShrinks(s, step);
    if Attached(s') {
      AttachedBefore(s, step);
      OwnedShrink(s.clients, s.bound, s.routing, s'.routing);
    }
  }

  /** A connection that is attached was so before. */
  lemma AttachedBefore(s: State, step: Step)
    requires Enabled(s, step) && Attached(Apply(s, step))
    ensures Attached(s)
  {
    hide Enabled, Apply;
    StepFrames(s, step);
  }

  /** An id keeps the binding it was given. */
  lemma BoundStays(s: State, step: Step, d: nat)
    requires ControlInv(s) && Enabled(s, step) && d in s.bound
    ensures d in Apply(s, step).bound && Apply(s, step).bound[d] == s.bound[d]
  {
    hide ControlInv, RoutedOf;
    if step.Register? {
      RegisterFresh(s, step.c);
    } else {
      hide Apply, Enabled;
      StepFrames(s, step);
    }
  }

  lemma ConnectionShrinks(s: State, step: Step)
    requires Enabled(s, step) && OfConnection(step)
    ensures Apply(s, step).routing.Keys <= s.routing.Keys
  {
    if Reads(step) {
      hide Renamed, DrainNotices;
    } else {
      hide Enabled, Apply;
      StepFrames(s, step);
    }
  }

  /** A session moves, and neither registers, nor drops, nor records anything. */
  lemma QuietOwned(s: State, s': State, c: nat)
    requires OwnedInv(s)
    requires c in s'.clients && s'.clients == s.clients[c := s'.clients[c]]
    requires s'.bound == s.bound && s'.routing.Keys <= s.routing.Keys
    requires Attached(s') ==> Attached(s)
    requires c in s.clients ==> s'.clients[c].subs == s.clients[c].subs
    requires c in s.clients && Attached(s') ==> !s.clients[c].pc.Registered? && !s.clients[c].pc.Dropping?
    requires c !in s.clients ==> forall d :: d in s.bound ==> s.bound[d].client != c
    ensures OwnedInv(s')
  {
    hide Owned;
    if Attached(s') {
      OwnedMove(c, s'.clients[c], s.clients, s.bound, s.routing);
      OwnedShrink(s'.clients, s.bound, s.routing, s'.routing);
    }
  }

  /** Facts about the moving session that the proofs below need. */
  lemma PcPlace(s: State, c: nat)
    requires ControlInv(s)
    ensures c !in s.clients ==> forall d :: d in s.bound ==> s.bound[d].client != c
    ensures c in s.clients && s.clients[c].pc.SendFailed? ==> !s.writerOpen
  {
    if c in s.clients {
      PcFacts(s, c);
    }
    hide Pcs, Handles, Wire, FarSide, Tables, Submitted, Cancelled;
  }

  lemma MoveOwned(s: State, step: Step, c: nat)
    requires ControlInv(s) && OwnedInv(s) && Enabled(s, step)
    requires step.Connect? || step.AllocId? || step.Withdraw? || step.Notify? || step.SendUnsubscribe? || step.EndSession?
    requires c == step.c
    ensures OwnedInv(Apply(s, step))
  {
    hide ControlInv, OwnedInv;
    PcPlace(s, c);
    if Attached(Apply(s, step)) {
      AttachedBefore(s, step);
    }
    if step.Connect? || step.AllocId? || step.EndSession? {
      QuietOwned(s, Apply(s, step), c);
    } else {
      LeaveOwned(s, step, c);
    }
  }

  lemma LeaveOwned(s: State, step: Step, c: nat)
    requires OwnedInv(s) && Enabled(s, step) && (step.Withdraw? || step.Notify? || step.SendUnsubscribe?) && c == step.c
    requires Attached(Apply(s, step)) ==> Attached(s)
    requires s.clients[c].pc.SendFailed? ==> !s.writerOpen
    ensures OwnedInv(Apply(s, step))
  {
    hide OwnedInv, DeadWriterNotice;
    QuietOwned(s, Apply(s, step), c);
  }

  lemma CommandOwned(s: State, c: nat, req: Request)
    requires OwnedInv(s) && AtIdle(s, c)
    ensures OwnedInv(DoCommand(s, c, req))
  {
    hide OwnedInv, Rejection, Needs;
    if !s.pooled || Needs(req.body) !in s.caps {
      QuietOwned(s, DoCommand(s, c, req), c);
    } else {
      QuietOwned(s, At(s, c, Looked(req)), c);
    }
  }

  lemma RegisterOwned(s: State, c: nat)
    requires ControlInv(s) && OwnedInv(s) && c in s.clients && s.clients[c].pc.Allocated?
    ensures OwnedInv(DoRegister(s, c))
  {
    RegisterFresh(s, c);
    ControlRouted(s);
    hide ControlInv, Owned, Submitted, Cancelled, RoutedOf;
    var Allocated(req, d) := s.clients[c].pc;
    if Attached(s) {
      OwnedRegister(c, req, d, s.clients[c].(pc := Registered(req, d)), s.clients, s.bound, s.routing);
    }
  }

  lemma SendOwned(s: State, c: nat)
    requires ControlInv(s) && OwnedInv(s) && c in s.clients && s.clients[c].pc.Registered? && !Overwrites(s, Send(c))
    ensures OwnedInv(DoSend(s, c))
  {
    hide ControlInv, Owned;
    if Attached(s) {
      SendOwnedIff(s, c);
    }
  }

  lemma TakeOwned(s: State, c: nat, sid: nat)
    requires OwnedInv(s) && AtIdle(s, c)
    ensures OwnedInv(DoTakeHandle(s, c, sid))
  {
    if sid in s.clients[c].subs && Attached(s) {
      hide Owned;
      OwnedTake(c, sid, DoTakeHandle(s, c, sid).clients[c], s.clients, s.bound, s.routing);
    }
  }

  lemma DropOwned(s: State, c: nat)
    requires OwnedInv(s) && c in s.clients && s.clients[c].pc.Dropping?
    ensures OwnedInv(DoDropRoute(s, c))
  {
    hide Owned;
    var d := s.clients[c].pc.id;
    if Attached(s) {
      OwnedDrop(c, d, s.clients[c].(pc := Unsending(d)), s.clients, s.bound, s.routing);
    }
  }

  /** Every step but an overwriting one keeps every entry held. */
  lemma StepOwned(s: State, step: Step)
    requires ControlInv(s) && OwnedInv(s) && Enabled(s, step) && !Overwrites(s, step)
    ensures OwnedInv(Apply(s, step))
  {
    hide ControlInv, OwnedInv;
    if OfConnection(step) {
      ConnectionOwned(s, step);
    } else if step.Command? {
      CommandOwned(s, step.c, step.req);
    } else if step.Register? {
      RegisterOwned(s, step.c);
    } else if step.Send? {
      SendOwned(s, step.c);
    } else if step.CancelCommand? || step.TeardownOne? {
      TakeOwned(s, step.c, step.sid);
    } else if step.DropRoute? {
      DropOwned(s, step.c);
    } else {
      MoveOwned(s, step, step.c);
    }
  }

  // ---- sessions that never reuse an id ----------------------------------------------------

  lemma FreshMove(c: nat, sess: Session, clients: Clients)
    requires AllFresh(clients) && PendingFresh(sess)
    ensures AllFresh(clients[c := sess])
  {
  }

  lemma StepFresh(s: State, step: Step)
    requires AllFresh(s.clients) && Enabled(s, step) && Fresh(s, step)
    ensures AllFresh(Apply(s, step).clients)
  {
    hide AllFresh, Rejection, Needs, Enabled, Apply, Fresh;
    if OfConnection(step) {
      StepFrames(s, step);
    } else if OfOpening(step) {
      OpeningFresh(s, step);
    } else {
      ClosingFresh(s, step);
    }
  }

  lemma CommandFresh(s: State, c: nat, req: Request)
    requires AllFresh(s.clients) && AtIdle(s, c) && Fresh(s, Command(c, req))
    ensures AllFresh(DoCommand(s, c, req).clients)
  {
    hide AllFresh, Rejection, Needs;
    if s.pooled && Needs(req.body) in s.caps {
      FreshMove(c, s.clients[c].(pc := Looked(req)), s.clients);
    }
  }

  lemma OpeningFresh(s: State, step: Step)
    requires AllFresh(s.clients) && Enabled(s, step) && Fresh(s, step) && OfOpening(step)
    ensures AllFresh(Apply(s, step).clients)
  {
    var c := step.c;
    assert c in s.clients ==> PendingFresh(s.clients[c]);
    hide AllFresh, DoCommand;
    if step.Command? {
      CommandFresh(s, c, step.req);
    } else if step.Connect? {
      FreshMove(c, Session(Idle, map[], false), s.clients);
    } else {
      DrawnFresh(s, step);
    }
  }

  lemma DrawnFresh(s: State, step: Step)
    requires AllFresh(s.clients) && Enabled(s, step) && (step.AllocId? || step.Register? || step.Send?)
    ensures AllFresh(Apply(s, step).clients)
  {
    var c := step.c;
    assert PendingFresh(s.clients[c]);
    hide AllFresh, RoutedOf;
    FreshMove(c, Apply(s, step).clients[c], s.clients);
  }

  lemma ClosingFresh(s: State, step: Step)
    requires AllFresh(s.clients) && Enabled(s, step) && Fresh(s, step) && !OfConnection(step) && !OfOpening(step)
    ensures AllFresh(Apply(s, step).clients)
  {
    assert step.c in s.clients && PendingFresh(s.clients[step.c]);
    hide AllFresh, Fresh;
    ClosingPending(s, step);
    hide Enabled, Apply, PendingFresh;
    StepFrames(s, step);
    if Apply(s, step).clients != s.clients {
      FreshMove(step.c, Apply(s, step).clients[step.c], s.clients);
    }
  }

  lemma ClosingPending(s: State, step: Step)
    requires Enabled(s, step) && !OfConnection(step) && !OfOpening(step) && PendingFresh(s.clients[step.c])
    ensures step.c in Apply(s, step).clients && PendingFresh(Apply(s, step).clients[step.c])
  {
    hide DoTakeHandle, DoWithdraw, DoNotify, DoDropRoute, DoSendUnsubscribe, KindOf;
    match step
    case CancelCommand(c, sid) => TakePending(s, c, sid);
    case TeardownOne(c, sid) => TakePending(s, c, sid);
    case Withdraw(c) => WithdrawPending(s, c);
    case Notify(c) => NotifyPending(s, c);
    case DropRoute(c) => DropPending(s, c);
    case SendUnsubscribe(c) => UnsendPending(s, c);
    case EndSession(c) =>
  }

  lemma TakePending(s: State, c: nat, sid: nat)
    requires AtIdle(s, c)
    ensures c in DoTakeHandle(s, c, sid).clients && PendingFresh(DoTakeHandle(s, c, sid).clients[c])
  {
    hide KindOf;
  }

  lemma WithdrawPending(s: State, c: nat)
    requires c in s.clients && s.clients[c].pc.SendFailed?
    ensures c in DoWithdraw(s, c).clients && PendingFresh(DoWithdraw(s, c).clients[c])
  {
    hide KindOf;
  }

  lemma NotifyPending(s: State, c: nat)
    requires c in s.clients && s.clients[c].pc.Notifying?
    ensures c in DoNotify(s, c).clients && PendingFresh(DoNotify(s, c).clients[c])
  {
    hide KindOf, DeadWriterNotice;
  }

  lemma DropPending(s: State, c: nat)
    requires c in s.clients && s.clients[c].pc.Dropping?
    ensures c in DoDropRoute(s, c).clients && PendingFresh(DoDropRoute(s, c).clients[c])
  {
    hide KindOf;
  }

  lemma UnsendPending(s: State, c: nat)
    requires c in s.clients && s.clients[c].pc.Unsending?
    ensures c in DoSendUnsubscribe(s, c).clients && PendingFresh(DoSendUnsubscribe(s, c).clients[c])
  {
    hide KindOf;
  }

  lemma FreshNeverOverwrites(s: State, step: Step)
    requires AllFresh(s.clients)
    ensures !Overwrites(s, step)
  {
    if step.Send? && step.c in s.clients {
      assert PendingFresh(s.clients[step.c]);
    }
  }

  lemma {:induction false} RunAgree(s: State, steps: seq<Step>)
    requires Inv(s) && AgreeInv(s) && Runs(s, steps) && NoReuse(s, steps)
    ensures Inv(End(s, steps)) && AgreeInv(End(s, steps))
    decreases steps
  {
    hide ControlInv, Grounded, Histories, AllFresh, OwnedInv, Enabled, Apply, Fresh, Overwrites;
    if steps != [] {
      StepInv(s, steps[0]);
      FreshNeverOverwrites(s, steps[0]);
      StepFresh(s, steps[0]);
      StepOwned(s, steps[0]);
      RunAgree(Apply(s, steps[0]), steps[1..]);
    }
  }

  // ---- the theorems ----------------------------------------------------------------------

  /** A subscription entry of client `c` for its own id `sid`. */
  predicate Entry(s: State, c: nat, sid: nat, d: nat) {
    && d in s.routing
    && s.routing[d].kind == Subscription
    && s.routing[d].client == c
    && s.routing[d].clientId == sid
  }

  /** Client `c` holds `d` for `sid`: in its map, or in the command it is handling. */
  predicate Known(s: State, c: nat, sid: nat, d: nat) {
    && c in s.clients
    && (|| (sid in s.clients[c].subs && s.clients[c].subs[sid] == d)
        || (s.clients[c].pc.Registered? && s.clients[c].pc.id == d && s.clients[c].pc.req.id == sid
            && KindOf(s.clients[c].pc.req.body) == Subscription)
        || (s.clients[c].pc == Dropping(d) && d in s.bound && s.bound[d].request.id == sid))
  }

  /**
   Table agreement: in every run without id reuse, as long as the connection is live and in
   the pool, the subscription entries of the table and the handles of the sessions are the
   same relation.
   */
  lemma TableAgreement(alias: string, caps: set<Capability>, steps: seq<Step>, c: nat, sid: nat, d: nat)
    requires Runs(Init(alias, caps), steps) && NoReuse(Init(alias, caps), steps)
    requires Attached(End(Init(alias, caps), steps))
    ensures var s := End(Init(alias, caps), steps);
      Entry(s, c, sid, d) <==> Known(s, c, sid, d)
  {
    InitInv(alias, caps);
    RunAgree(Init(alias, caps), steps);
    AgreementAt(End(Init(alias, caps), steps), c, sid, d);
  }

  /** Once every subscription entry is held by its owner, entries and handles are the same relation. */
  lemma AgreementAt(s: State, c: nat, sid: nat, d: nat)
    requires ControlInv(s) && Attached(s) && Owned(s.clients, s.bound, s.routing)
    ensures Entry(s, c, sid, d) <==> Known(s, c, sid, d)
  {
    ControlRouted(s);
    if Entry(s, c, sid, d) {
      ControlGrounded(s);
      hide ControlInv;
      assert Held(s.clients[c], d, s.bound[d]);
    }
    if Known(s, c, sid, d) {
      KnownRouted(s, c, sid, d);
    }
  }

  lemma KnownRouted(s: State, c: nat, sid: nat, d: nat)
    requires ControlInv(s) && Live(s) && Known(s, c, sid, d)
    ensures Entry(s, c, sid, d)
  {
    ControlRouted(s);
    PcFacts(s, c);
    hide Pcs, Wire, FarSide, Submitted, Handles;
    if sid in s.clients[c].subs && s.clients[c].subs[sid] == d {
      HandleRouted(s, c, sid);
    } else {
      assert TableOk(d, s.bound[d], s.clients[c].pc, d in s.routing, d in Submitted(s.sent), d in Cancelled(s.sent));
    }
  }

  // ---- each request is handed over once ----------------------------------------------------

  /** Ids whose request was handed to the writer, with multiplicity. */
  function Submissions(ms: seq<ToAgent>): multiset<nat> {
    if ms == [] then multiset{}
    else
      var m := ms[|ms| - 1];
      Submissions(ms[..|ms| - 1]) + if m.Submit? then multiset{m.id} else multiset{}
  }

  ghost predicate EachOnce(ms: seq<ToAgent>) {
    forall d :: Submissions(ms)[d] <= 1
  }

  lemma {:induction false} SubmissionsAre(ms: seq<ToAgent>)
    ensures forall d :: d in Submissions(ms) <==> d in Submitted(ms)
  {
    if ms != [] {
      SubmissionsAre(ms[..|ms| - 1]);
    }
  }

  lemma EachOnceGrows(ms: seq<ToAgent>, m: ToAgent)
    requires EachOnce(ms) && (m.Submit? ==> m.id !in Submitted(ms))
    ensures EachOnce(ms + [m])
  {
    assert (ms + [m])[..|ms|] == ms;
    SubmissionsAre(ms);
    hide Submitted;
    assert Submissions(ms + [m]) == Submissions(ms) + if m.Submit? then multiset{m.id} else multiset{};
  }

  lemma StepEachOnce(s: State, step: Step)
    requires ControlInv(s) && Enabled(s, step) && EachOnce(s.sent)
    ensures EachOnce(Apply(s, step).sent)
  {
    hide EachOnce;
    if step.Send? {
      RegisteredUnsent(s, step.c);
      EachOnceGrows(s.sent, Submit(s.clients[step.c].pc.id, s.clients[step.c].pc.req.body));
      hide ControlInv, Submitted;
    } else if step.SendUnsubscribe? {
      EachOnceGrows(s.sent, Unsubscribe(s.clients[step.c].pc.id));
      hide ControlInv;
    } else {
      StepFrames(s, step);
      hide Apply, Enabled, ControlInv;
    }
  }

  lemma {:induction false} RunEachOnce(s: State, steps: seq<Step>)
    requires ControlInv(s) && EachOnce(s.sent) && Runs(s, steps)
    ensures EachOnce(End(s, steps).sent)
    decreases steps
  {
    hide ControlInv, EachOnce, Enabled, Apply;
    if steps != [] {
      StepControl(s, steps[0]);
      StepEachOnce(s, steps[0]);
      RunEachOnce(Apply(s, steps[0]), steps[1..]);
    }
  }

  /**
   Teardown: once a session has ended and emptied its map, no subscription entry of its
   client is left, and each subscription it ever opened was sent once and cancelled once.
   */
  lemma TeardownComplete(alias: string, caps: set<Capability>, steps: seq<Step>, c: nat, d: nat)
    requires Runs(Init(alias, caps), steps) && NoReuse(Init(alias, caps), steps)
    requires var s := End(Init(alias, caps), steps);
      Attached(s) && AtIdle(s, c) && s.clients[c].ending && s.clients[c].subs == map[]
    ensures var s := End(Init(alias, caps), steps);
      && !(d in s.routing && s.routing[d].client == c && s.routing[d].kind == Subscription)
      && (IsSub(s.bound, d) && s.bound[d].client == c ==>
            Submissions(s.sent)[d] == 1 && Cancelled(s.sent)[d] == 1)
  {
    InitInv(alias, caps);
    RunAgree(Init(alias, caps), steps);
    RunEachOnce(Init(alias, caps), steps);
    var s := End(Init(alias, caps), steps);
    TeardownAt(s, c, d);
    SubmissionsAre(s.sent);
  }

  lemma TeardownAt(s: State, c: nat, d: nat)
    requires ControlInv(s) && AgreeInv(s) && Attached(s) && AtIdle(s, c) && s.clients[c].subs == map[]
    ensures !(d in s.routing && s.routing[d].client == c && s.routing[d].kind == Subscription)
    ensures IsSub(s.bound, d) && s.bound[d].client == c ==>
      d in Submitted(s.sent) && Cancelled(s.sent)[d] == 1
  {
    if d in s.routing {
      AgreementAt(s, c, s.routing[d].clientId, d);
    }
    hide Pcs, FarSide, Handles, Owned, AllFresh, Submitted, Replay;
    if IsSub(s.bound, d) && s.bound[d].client == c {
      assert TableOk(d, s.bound[d], s.clients[c].pc, d in s.routing, d in Submitted(s.sent), d in Cancelled(s.sent));
    }
  }

  // ---- what clients must promise -----------------------------------------------------------

  /** A client's commands as they bear on its subscription ids. */
  datatype Use = Opens(id: nat) | Closes(id: nat)

  function LiveAfter(live: set<nat>, u: Use): set<nat> {
    match u
    case Opens(id) => live + {id}
    case Closes(id) => live - {id}
  }

  /** No id is opened while it is live. */
  predicate Disciplined(live: set<nat>, uses: seq<Use>)
    decreases uses
  {
    uses == [] || ((uses[0].Opens? ==> uses[0].id !in live) && Disciplined(LiveAfter(live, uses[0]), uses[1..]))
  }

  function UseOf(step: Step, c: nat): seq<Use> {
    match step
    case Command(c', req) => if c' == c && KindOf(req.body) == Subscription then [Opens(req.id)] else []
    case CancelCommand(c', sid) => if c' == c then [Closes(sid)] else []
    case _ => []
  }

  /** What client `c` asked for in a run, in order. */
  function Uses(steps: seq<Step>, c: nat): seq<Use> {
    if steps == [] then [] else UseOf(steps[0], c) + Uses(steps[1..], c)
  }

  /** The ids a session holds or is about to hold. */
  function Holds(sess: Session): set<nat> {
    sess.subs.Keys
    + if (sess.pc.Looked? || sess.pc.Allocated? || sess.pc.Registered?) && KindOf(sess.pc.req.body) == Subscription
      then {sess.pc.req.id} else {}
  }

  ghost predicate Covered(clients: Clients, live: nat -> set<nat>) {
    forall c :: c in clients ==> Holds(clients[c]) <= live(c)
  }

  function After(live: nat -> set<nat>, step: Step): nat -> set<nat> {
    c => var u := UseOf(step, c); if u == [] then live(c) else LiveAfter(live(c), u[0])
  }

  function HeldBefore(s: State, c: nat): set<nat> {
    if c in s.clients then Holds(s.clients[c]) else {}
  }

  /** A step adds to what a session holds only what it opens, and a cancel removes its id. */
  lemma StepHolds(s: State, step: Step, c: nat)
    requires Enabled(s, step) && c in Apply(s, step).clients
    ensures Holds(Apply(s, step).clients[c]) <=
      (match step
       case Command(c', req) => if c' == c && KindOf(req.body) == Subscription 
         then HeldBefore(s, c) + {req.id} else HeldBefore(s, c)
       case CancelCommand(c', sid) => if c' == c then HeldBefore(s, c) - {sid} else HeldBefore(s, c)
       case _ => HeldBefore(s, c))
  {
    hide DoCommand, DoTakeHandle, DoAllocId, DoRegister, DoSend, DoWithdraw, DoNotify, DoDropRoute,
      DoSendUnsubscribe, Holds;
    if OfConnection(step) {
      hide Apply, Enabled;
      StepFrames(s, step);
    } else if step.Command? {
      CommandHolds(s, step.c, step.req);
    } else if step.CancelCommand? || step.TeardownOne? {
      TakeHolds(s, step.c, step.sid);
    } else if step.Connect? {
      NewHolds();
    } else if step.EndSession? {
      EndHolds(s.clients[step.c]);
    } else {
      SettleHolds(s, step, step.c);
      hide Apply, Enabled;
    }
  }

  lemma NewHolds()
    ensures Holds(Session(Idle, map[], false)) == {}
  {
  }

  lemma EndHolds(sess: Session)
    ensures Holds(sess.(ending := true)) == Holds(sess)
  {
  }

  lemma CommandHolds(s: State, c: nat, req: Request)
    requires AtIdle(s, c)
    ensures DoCommand(s, c, req).clients == s.clients ||
      (&& DoCommand(s, c, req).clients == s.clients[c := DoCommand(s, c, req).clients[c]]
       && Holds(DoCommand(s, c, req).clients[c])
          == Holds(s.clients[c]) + if KindOf(req.body) == Subscription then {req.id} else {})
  {
    hide Rejection, Needs, KindOf;
    var looked := s.clients[c].(pc := Looked(req));
    assert Holds(looked) == Holds(s.clients[c]) + if KindOf(req.body) == Subscription then {req.id} else {};
    if s.pooled && Needs(req.body) in s.caps {
      assert DoCommand(s, c, req).clients == s.clients[c := looked];
    }
  }

  lemma TakeHolds(s: State, c: nat, sid: nat)
    requires AtIdle(s, c)
    ensures DoTakeHandle(s, c, sid).clients == s.clients[c := DoTakeHandle(s, c, sid).clients[c]]
    ensures Holds(DoTakeHandle(s, c, sid).clients[c]) == Holds(s.clients[c]) - {sid}
  {
    if sid !in s.clients[c].subs {
      assert s.clients == s.clients[c := s.clients[c]];
    }
  }

  lemma SettleHolds(s: State, step: Step, c: nat)
    requires Enabled(s, step)
    requires step.AllocId? || step.Register? || step.Send? || step.Withdraw? || step.Notify? || step.DropRoute?
      || step.SendUnsubscribe?
    requires c == step.c
    ensures Apply(s, step).clients == s.clients[c := Apply(s, step).clients[c]]
    ensures Holds(Apply(s, step).clients[c]) <= Holds(s.clients[c])
  {
    hide Holds;
    if step.AllocId? || step.Register? || step.Send? {
      DrawnHolds(s, step, c);
      hide Apply, Enabled;
    } else {
      LeavingHolds(s.clients[c]);
    }
  }

  lemma DrawnHolds(s: State, step: Step, c: nat)
    requires Enabled(s, step) && (step.AllocId? || step.Register? || step.Send?) && c == step.c
    ensures Apply(s, step).clients == s.clients[c := Apply(s, step).clients[c]]
    ensures Holds(Apply(s, step).clients[c]) <= Holds(s.clients[c])
  {
    hide RoutedOf;
  }

  lemma LeavingHolds(sess: Session)
    ensures forall pc: Pc :: !pc.Looked? && !pc.Allocated? && !pc.Registered? ==>
      Holds(sess.(pc := pc)) <= Holds(sess)
  {
  }

  lemma StepCovered(s: State, step: Step, live: nat -> set<nat>)
    requires Enabled(s, step) && Covered(s.clients, live)
    ensures Covered(Apply(s, step).clients, After(live, step))
  {
    hide Apply, Enabled, Holds;
    forall c | c in Apply(s, step).clients
      ensures Holds(Apply(s, step).clients[c]) <= After(live, step)(c)
    {
      StepHolds(s, step, c);
    }
  }

  /**
   If every client, over the whole run, only opens ids that are not open, then no session
   ever reuses an id: what `TableAgreement` and `TeardownComplete` ask of the run.
   */
  lemma {:induction false} DisciplineSuffices(s: State, steps: seq<Step>, live: nat -> set<nat>)
    requires Runs(s, steps) && Covered(s.clients, live)
    requires forall c :: Disciplined(live(c), Uses(steps, c))
    ensures NoReuse(s, steps)
    decreases steps
  {
    if steps != [] {
      FirstStepFresh(s, steps, live);
      StepCovered(s, steps[0], live);
      forall c ensures Disciplined(After(live, steps[0])(c), Uses(steps[1..], c)) {
        var u := UseOf(steps[0], c);
        assert Disciplined(live(c), u + Uses(steps[1..], c));
        if u != [] {
          assert (u + Uses(steps[1..], c))[1..] == Uses(steps[1..], c);
        } else {
          assert u + Uses(steps[1..], c) == Uses(steps[1..], c);
        }
      }
      hide Enabled, Apply, Disciplined, Uses, Covered;
      DisciplineSuffices(Apply(s, steps[0]), steps[1..], After(live, steps[0]));
    }
  }

  lemma FirstStepFresh(s: State, steps: seq<Step>, live: nat -> set<nat>)
    requires steps != [] && Covered(s.clients, live)
    requires forall c :: Disciplined(live(c), Uses(steps, c))
    ensures Fresh(s, steps[0])
  {
    if steps[0].Command? && KindOf(steps[0].req.body) == Subscription {
      var c := steps[0].c;
      assert Disciplined(live(c), [Opens(steps[0].req.id)] + Uses(steps[1..], c));
      assert c in s.clients ==> Holds(s.clients[c]) <= live(c);
    }
  }
}

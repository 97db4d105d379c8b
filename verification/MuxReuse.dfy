/**
 Reusing a live id, over whole runs: exactly when the daemon's table and its sessions'
 handles come apart, and a run in which they do.
 */
module MuxReuse {
  import opened Wrappers
  import opened Routing
  import opened Mux
  import opened MuxInvariant
  import opened MuxHistory
  import opened MuxAgreement
  import opened MuxSteps

  /** No Send of the run recorded a subscription under an id its session then held. */
  ghost predicate NeverOverwrites(s: State, steps: seq<Step>)
    requires Runs(s, steps)
    decreases steps
  {
    steps == [] || (!Overwrites(s, steps[0]) && NeverOverwrites(Apply(s, steps[0]), steps[1..]))
  }

  /** A connection that is attached was so all along. */
  lemma {:induction false} AttachedSince(s: State, steps: seq<Step>)
    requires Runs(s, steps) && Attached(End(s, steps))
    ensures Attached(s)
    decreases steps
  {
    if steps != [] {
      AttachedSince(Apply(s, steps[0]), steps[1..]);
      AttachedBefore(s, steps[0]);
    }
  }

  // ---- an entry nobody holds stays --------------------------------------------------------

  /** A subscription entry whose owner is there and has lost its handle. */
  predicate Orphan(s: State, d: nat) {
    && d in s.routing && IsSub(s.bound, d) && s.bound[d].client in s.clients
    && !Held(s.clients[s.bound[d].client], d, s.bound[d])
  }

  lemma OwnedIffNoOrphan(s: State)
    ensures Owned(s.clients, s.bound, s.routing) <==> forall d :: !Orphan(s, d)
  {
    if forall d :: !Orphan(s, d) {
      forall d | d in s.routing && IsSub(s.bound, d) && s.bound[d].client in s.clients
        ensures Held(s.clients[s.bound[d].client], d, s.bound[d])
      {
        assert !Orphan(s, d);
      }
    }
  }

  lemma OrphanRouted(s: State, step: Step, d: nat)
    requires ControlInv(s) && Enabled(s, step) && Orphan(s, d) && Attached(Apply(s, step))
    ensures d in Apply(s, step).routing
  {
    hide ControlInv, Submitted, Cancelled, DoParserStep, DoWithdraw, DoDropRoute;
    if step.ParserStep? {
      ParserKeepsSubs(s, d);
    } else if step.Withdraw? {
      hide Apply, Enabled, Held, IsSub;
      AttachedBefore(s, step);
      WriterGone(s, step);
    } else if step.DropRoute? {
      DropKeeps(s, step.c, d);
    } else {
      hide Apply, Enabled, Attached, Held;
      OtherStepsKeep(s, step);
    }
  }

  /** Nothing is withdrawn while the writer is open. */
  lemma WriterGone(s: State, step: Step)
    requires ControlInv(s) && Enabled(s, step) && step.Withdraw?
    ensures !Attached(s)
  {
    PcPlace(s, step.c);
    hide ControlInv;
  }

  /** A session drops the entry it has taken the handle of. */
  lemma DropKeeps(s: State, c: nat, d: nat)
    requires ControlInv(s) && c in s.clients && s.clients[c].pc.Dropping? && Orphan(s, d)
    ensures d in DoDropRoute(s, c).routing
  {
    PcFacts(s, c);
    hide ControlInv, Submitted, Cancelled;
  }

  lemma OtherStepsKeep(s: State, step: Step)
    requires Enabled(s, step) && Attached(Apply(s, step)) && !step.ParserStep? && !step.Withdraw? && !step.DropRoute?
    ensures s.routing.Keys <= Apply(s, step).routing.Keys
  {
    if !step.Register? {
      hide Enabled, Apply;
      StepFrames(s, step);
    }
    hide RoutedOf;
  }

  /** An agent answers only one-shot requests, so a result never takes a subscription's entry. */
  lemma ParserKeepsSubs(s: State, d: nat)
    requires ControlInv(s) && s.taken < |s.ret| && d in s.routing && IsSub(s.bound, d)
    ensures d in DoParserStep(s).routing
  {
    NextTruthful(s);
    ParserRouting(s, d);
    hide ControlInv, DoParserStep, Submitted;
  }

  lemma NextTruthful(s: State)
    requires ControlInv(s) && s.taken < |s.ret|
    ensures Truthful(s.ret[s.taken], s.bound, Submitted(s.sent))
  {
    hide Ids, Pcs, Handles, Wire, Tables, Submitted, Cancelled, Truthful;
    assert s.ret[s.taken] in s.ret;
  }

  lemma OthersStay(s: State, step: Step, c: nat)
    requires Enabled(s, step) && c in s.clients && (OfConnection(step) || step.c != c)
    ensures c in Apply(s, step).clients && Apply(s, step).clients[c] == s.clients[c]
  {
    hide Enabled, Apply;
    StepFrames(s, step);
  }

  /** What the owner of an entry it lost is not doing. */
  predicate Lost(sess: Session, d: nat, b: Binding) {
    && !Held(sess, d, b)
    && (forall sid :: sid in sess.subs && sess.subs[sid] == d ==> sid == b.request.id)
    && (sess.pc.Allocated? ==> sess.pc.id != d)
    && (sess.pc.Registered? && sess.pc.id == d ==> sess.pc.req == b.request)
  }

  lemma OrphanLost(s: State, d: nat)
    requires ControlInv(s) && Attached(s) && Orphan(s, d)
    ensures Lost(s.clients[s.bound[d].client], d, s.bound[d])
  {
    var c := s.bound[d].client;
    PcFacts(s, c);
    forall sid | sid in s.clients[c].subs && s.clients[c].subs[sid] == d ensures sid == s.bound[d].request.id {
      HandleRouted(s, c, sid);
    }
    hide ControlInv, Submitted, Cancelled, Live;
  }

  /** How a session's own step leaves it, unless it takes a handle. */
  predicate Proceeds(sess: Session, sess': Session) {
    if sess.pc.Registered? && sess'.pc == Idle && sess'.subs != sess.subs
    then sess'.subs == sess.subs[sess.pc.req.id := sess.pc.id]
    else
      && sess'.subs == sess.subs
      && (sess'.pc.Registered? ==>
            sess'.pc == sess.pc || (sess.pc.Allocated? && sess'.pc == Registered(sess.pc.req, sess.pc.id)))
      && (sess'.pc.Dropping? ==> sess'.pc == sess.pc)
  }

  /** A session that has lost `d` does not get it back. */
  lemma ProceedsLost(sess: Session, sess': Session, d: nat, b: Binding)
    requires Lost(sess, d, b) && Proceeds(sess, sess')
    ensures !Held(sess', d, b)
  {
  }

  lemma CommandProceeds(s: State, c: nat, req: Request)
    requires AtIdle(s, c)
    ensures c in DoCommand(s, c, req).clients && Proceeds(s.clients[c], DoCommand(s, c, req).clients[c])
  {
    hide Rejection, Needs;
    if s.pooled && Needs(req.body) in s.caps {
      assert DoCommand(s, c, req) == At(s, c, Looked(req));
    }
  }

  lemma SendProceeds(s: State, c: nat)
    requires c in s.clients && s.clients[c].pc.Registered?
    ensures c in DoSend(s, c).clients && Proceeds(s.clients[c], DoSend(s, c).clients[c])
  {
  }

  lemma OpeningProceeds(s: State, step: Step)
    requires Enabled(s, step) && OfOpening(step) && !step.Connect?
    ensures step.c in Apply(s, step).clients && Proceeds(s.clients[step.c], Apply(s, step).clients[step.c])
  {
    hide RoutedOf, DoCommand, DoSend;
    if step.Command? {
      CommandProceeds(s, step.c, step.req);
      hide Proceeds;
    } else if step.Send? {
      SendProceeds(s, step.c);
      hide Proceeds;
    }
  }

  lemma ClosingProceeds(s: State, step: Step)
    requires Enabled(s, step) && !OfConnection(step) && !OfOpening(step) && !step.TeardownOne? && !step.CancelCommand?
    ensures step.c in Apply(s, step).clients && Proceeds(s.clients[step.c], Apply(s, step).clients[step.c])
  {
    hide DeadWriterNotice;
  }

  lemma TakeLost(s: State, c: nat, sid: nat, d: nat, b: Binding)
    requires c in s.clients && Lost(s.clients[c], d, b)
    ensures c in DoTakeHandle(s, c, sid).clients && !Held(DoTakeHandle(s, c, sid).clients[c], d, b)
  {
  }

  lemma OrphanUnheld(s: State, step: Step, d: nat)
    requires ControlInv(s) && Enabled(s, step) && Orphan(s, d) && Attached(s)
    ensures
      var s' := Apply(s, step);
      && s.bound[d].client in s'.clients && d in s'.bound && s'.bound[d] == s.bound[d]
      && !Held(s'.clients[s.bound[d].client], d, s.bound[d])
  {
    var c := s.bound[d].client;
    BoundStays(s, step, d);
    OrphanLost(s, d);
    if OfConnection(step) || step.c != c {
      OthersStay(s, step, c);
      hide ControlInv, Apply, Enabled, Held;
    } else if step.CancelCommand? || step.TeardownOne? {
      TakeLost(s, c, step.sid, d, s.bound[d]);
      hide ControlInv, Held, Lost, DoTakeHandle;
    } else {
      assert !step.Connect?;
      hide ControlInv, Apply, Held, Lost, Proceeds;
      if OfOpening(step) {
        OpeningProceeds(s, step);
      } else {
        ClosingProceeds(s, step);
      }
      ProceedsLost(s.clients[c], Apply(s, step).clients[c], d, s.bound[d]);
    }
  }

  lemma OrphanStays(s: State, step: Step, d: nat)
    requires ControlInv(s) && Enabled(s, step) && Orphan(s, d) && Attached(Apply(s, step))
    ensures Orphan(Apply(s, step), d)
  {
    AttachedBefore(s, step);
    OrphanRouted(s, step, d);
    OrphanUnheld(s, step, d);
    hide ControlInv, Apply, Enabled, Attached, Held;
  }

  // ---- the exact condition -------------------------------------------------------------------

  lemma StepOwnedIff(s: State, step: Step)
    requires ControlInv(s) && Enabled(s, step) && Attached(Apply(s, step))
    ensures var s' := Apply(s, step);
      Owned(s'.clients, s'.bound, s'.routing) <==> Owned(s.clients, s.bound, s.routing) && !Overwrites(s, step)
  {
    AttachedBefore(s, step);
    var s' := Apply(s, step);
    if !Owned(s.clients, s.bound, s.routing) {
      OwnedIffNoOrphan(s);
      OwnedIffNoOrphan(s');
      var d :| Orphan(s, d);
      OrphanStays(s, step, d);
    } else if Overwrites(s, step) {
      SendOwnedIff(s, step.c);
    } else {
      StepOwned(s, step);
    }
  }

  lemma {:induction false} RunOwnedIff(s: State, steps: seq<Step>)
    requires ControlInv(s) && Runs(s, steps) && Attached(End(s, steps))
    ensures var s' := End(s, steps);
      && ControlInv(s')
      && (Owned(s'.clients, s'.bound, s'.routing) <==>
            Owned(s.clients, s.bound, s.routing) && NeverOverwrites(s, steps))
    decreases steps
  {
    hide ControlInv, Owned, Overwrites, Enabled, Apply, Attached;
    if steps != [] {
      StepControl(s, steps[0]);
      AttachedSince(Apply(s, steps[0]), steps[1..]);
      StepOwnedIff(s, steps[0]);
      RunOwnedIff(Apply(s, steps[0]), steps[1..]);
    }
  }

  /** The subscription entries of the table and the handles of the sessions are the same relation. */
  ghost predicate Agree(s: State) {
    forall c, sid, d :: Entry(s, c, sid, d) <==> Known(s, c, sid, d)
  }

  lemma OrphanDisagrees(s: State, d: nat)
    requires ControlInv(s) && Orphan(s, d)
    ensures !Agree(s)
  {
    var b := s.bound[d];
    ControlRouted(s);
    PcFacts(s, b.client);
    hide ControlInv, Submitted, Cancelled;
    assert Entry(s, b.client, b.request.id, d) && !Known(s, b.client, b.request.id, d);
  }

  lemma AgreeIffOwned(s: State)
    requires ControlInv(s) && Attached(s)
    ensures Agree(s) <==> Owned(s.clients, s.bound, s.routing)
  {
    hide ControlInv, Orphan, Entry, Known;
    OwnedIffNoOrphan(s);
    if Owned(s.clients, s.bound, s.routing) {
      forall c, sid, d ensures Entry(s, c, sid, d) <==> Known(s, c, sid, d) {
        AgreementAt(s, c, sid, d);
      }
    } else {
      var d :| Orphan(s, d);
      OrphanDisagrees(s, d);
    }
  }

  /**
   The exact condition, over whole runs. At the end of any run that leaves the connection live
   and in the pool, table and handles agree if and only if no session, anywhere in the run,
   recorded a subscription under an id it then held. What a drain or the agent's own end clears
   is not in question: after either the connection is no longer live.
   */
  lemma AgreesIffNeverOverwritten(alias: string, caps: set<Capability>, steps: seq<Step>)
    requires Runs(Init(alias, caps), steps) && Attached(End(Init(alias, caps), steps))
    ensures Agree(End(Init(alias, caps), steps)) <==> NeverOverwrites(Init(alias, caps), steps)
  {
    hide ControlInv, Agree, Attached, Runs, End, NeverOverwrites;
    var s := Init(alias, caps);
    InitInv(alias, caps);
    RunOwnedIff(s, steps);
    AgreeIffOwned(End(s, steps));
  }

  // ---- a run in which they come apart --------------------------------------------------------

  const TWICE := Request(1, DockerList)

  function OneClient(alias: string): State {
    Init(alias, {CapDocker}).(clients := map[0 := Session(Idle, map[], false)])
  }

  /** A client subscribes to the host's containers, and then again under the same id. */
  ghost function OrphanRun(alias: string): seq<Step> {
    [Connect(0)] + (CommandSteps(OneClient(alias), 0, TWICE)
                    + CommandSteps(Queued(OneClient(alias), 0, TWICE), 0, TWICE))
  }

  lemma OrphanRunEnds(alias: string)
    ensures Runs(Init(alias, {CapDocker}), OrphanRun(alias))
    ensures End(Init(alias, {CapDocker}), OrphanRun(alias)) == Queued(Queued(OneClient(alias), 0, TWICE), 0, TWICE)
  {
    var s, s1 := Init(alias, {CapDocker}), OneClient(alias);
    var s2 := Queued(s1, 0, TWICE);
    assert Enabled(s, Connect(0)) && Apply(s, Connect(0)) == s1;
    assert s1.nextId !in s1.routing && s2.nextId !in s2.routing;
    CommandEnds(s1, 0, TWICE);
    CommandEnds(s2, 0, TWICE);
    hide Runs, End, Enabled, Apply, CommandSteps, Queued;
    RunThen(s1, CommandSteps(s1, 0, TWICE), CommandSteps(s2, 0, TWICE));
    StepThen(s, Connect(0), CommandSteps(s1, 0, TWICE) + CommandSteps(s2, 0, TWICE));
  }

  /**
   The run is reachable, leaves the connection attached, and leaves the first subscription with
   an entry in the table that no session holds.
   */
  lemma ReuseOrphans(alias: string)
    ensures Runs(Init(alias, {CapDocker}), OrphanRun(alias))
    ensures
      var s := End(Init(alias, {CapDocker}), OrphanRun(alias));
      && Attached(s) && !Agree(s) && !NeverOverwrites(Init(alias, {CapDocker}), OrphanRun(alias))
      && Entry(s, 0, 1, 1) && !Known(s, 0, 1, 1) && Entry(s, 0, 1, 2) && Known(s, 0, 1, 2)
      && Submit(1, DockerList) in s.sent && Submit(2, DockerList) in s.sent
  {
    OrphanRunEnds(alias);
    var s1 := OneClient(alias);
    var s2 := Queued(s1, 0, TWICE);
    var s := Queued(s2, 0, TWICE);
    assert s.routing[1] == Routed(0, 1, Subscription, ScopeDocker);
    assert s.sent[0] == Submit(1, DockerList) && s.sent[1] == Submit(2, DockerList);
    assert Entry(s, 0, 1, 1) && !Known(s, 0, 1, 1);
    hide OrphanRun, Runs, End, NeverOverwrites, Queued;
    AgreesIffNeverOverwritten(alias, {CapDocker}, OrphanRun(alias));
  }

  /**
   Cancelling the id after that run releases the second subscription only: the session then
   holds nothing, the first entry stays, and the agent is never told to stop serving it.
   */
  lemma CancelLeavesOrphan(alias: string)
    ensures Runs(Init(alias, {CapDocker}), OrphanRun(alias))
    ensures
      var s := End(Init(alias, {CapDocker}), OrphanRun(alias));
      && 0 in s.clients && Runs(s, CancelSteps(s, 0, 1))
      && (var t := End(s, CancelSteps(s, 0, 1));
          0 in t.clients && t.clients[0].subs == map[] && Entry(t, 0, 1, 1) && Unsubscribe(1) !in t.sent)
  {
    OrphanRunEnds(alias);
    var s := Queued(Queued(OneClient(alias), 0, TWICE), 0, TWICE);
    CancelEnds(s, 0, 1);
    hide CancelSteps, OrphanRun, Runs, End;
    assert s.routing[1] == Routed(0, 1, Subscription, ScopeDocker);
    assert s.clients[0].subs - {1} == map[];
  }
}

/**
 What becomes of requests that were sent to an agent whose connection is coming down: once the
 reader has gone, only a drain of the table still tells a client anything.
 */
module MuxStranded {
  import opened Wrappers
  import opened Routing
  import opened Mux
  import opened MuxInvariant
  import opened MuxHistory
  import opened MuxSteps
  import opened MuxAgreement

  /** No shutdown of the run found `d` in the table. */
  ghost predicate NeverDrained(s: State, steps: seq<Step>, d: nat)
    requires Runs(s, steps)
    decreases steps
  {
    steps == [] || (!(steps[0].ShutdownDrain? && d in s.routing) && NeverDrained(Apply(s, steps[0]), steps[1..], d))
  }

  /** The request was handed over, and the reader of its connection has gone. */
  ghost predicate Unread(s: State, d: nat) {
    !s.parserAlive && d in Submitted(s.sent)
  }

  lemma UnreadStays(s: State, step: Step, d: nat)
    requires Enabled(s, step) && Unread(s, d)
    ensures Unread(Apply(s, step), d)
  {
    hide Submitted;
    StepFrames(s, step);
    if step.Send? {
      SentAppend(s.sent, Submit(s.clients[step.c].pc.id, s.clients[step.c].pc.req.body));
    } else if step.SendUnsubscribe? {
      SentAppend(s.sent, Unsubscribe(s.clients[step.c].pc.id));
    } else {
      hide Apply, Enabled;
    }
  }

  lemma CommandWord(s: State, c: nat, req: Request, d: nat)
    requires AtIdle(s, c)
    ensures OfId(DoCommand(s, c, req).log, d) == OfId(s.log, d)
  {
    hide Rejection, OfId;
    OfIdAppend(s.log, Delivery(c, Rejection(req.id, req.body, AgentNotConnected, Remote(s.alias)), ByRefusal), d);
    OfIdAppend(s.log, Delivery(c, Rejection(req.id, req.body, MissingCapability, Remote(s.alias)), ByRefusal), d);
    assert OfId(s.log, d) + [] == OfId(s.log, d);
  }

  lemma NotifyWord(s: State, c: nat, d: nat)
    requires ControlInv(s) && c in s.clients && s.clients[c].pc.Notifying? && d in Submitted(s.sent)
    ensures OfId(DoNotify(s, c).log, d) == OfId(s.log, d)
  {
    PcFacts(s, c);
    hide ControlInv, Submitted, Cancelled, OfId, DeadWriterNotice;
    var Notifying(req, e) := s.clients[c].pc;
    NotifyNames(s.alias, c, req, e);
    OfIdAppend(s.log, DeadWriterNotice(s.alias, c, req, e), d);
    assert OfId(s.log, d) + [] == OfId(s.log, d);
  }

  /** Without a reader, a step says something about a request that was handed over only by draining it. */
  lemma StepWord(s: State, step: Step, d: nat)
    requires ControlInv(s) && Enabled(s, step) && Unread(s, d)
    ensures OfId(Apply(s, step).log, d)
      == OfId(s.log, d) + if step.ShutdownDrain? && d in s.routing then [DrainNotice(d, s.routing[d])] else []
  {
    hide OfId, DrainNotice, DrainNotices, Rejection, ControlInv, Submitted, DoCommand, DoNotify, DoDrain;
    if step.ShutdownDrain? {
      DrainWord(s, step.order, d);
    } else {
      assert OfId(s.log, d) + [] == OfId(s.log, d);
      if step.Command? {
        CommandWord(s, step.c, step.req, d);
      } else if step.Notify? {
        NotifyWord(s, step.c, d);
      } else {
        SilentStep(s, step);
        hide Apply, Enabled;
      }
    }
  }

  /** The reader is gone, so its steps are not to come. */
  lemma SilentStep(s: State, step: Step)
    requires Enabled(s, step) && !s.parserAlive && !step.Command? && !step.Notify? && !step.ShutdownDrain?
    ensures Apply(s, step).log == s.log
  {
    assert !Reads(step);
    hide Enabled, Apply;
    StepFrames(s, step);
  }

  lemma DrainWord(s: State, order: seq<nat>, d: nat)
    requires DrainOrder(s.routing, order)
    ensures OfId(DoDrain(s, order).log, d) == OfId(s.log, d) + if d in s.routing then [DrainNotice(d, s.routing[d])] else []
  {
    hide OfId, DrainNotice, DrainNotices;
    OfIdDrain(s.log, s.routing, order, d);
  }

  lemma {:induction false} RunWord(s: State, steps: seq<Step>, d: nat)
    requires ControlInv(s) && Runs(s, steps) && Unread(s, d)
    ensures OfId(s.log, d) <= OfId(End(s, steps).log, d)
    ensures OfId(End(s, steps).log, d) == OfId(s.log, d) <==> NeverDrained(s, steps, d)
    decreases steps
  {
    hide ControlInv, Enabled, Apply, OfId, Unread, DrainNotice;
    if steps != [] {
      StepControl(s, steps[0]);
      UnreadStays(s, steps[0], d);
      StepWord(s, steps[0], d);
      RunWord(Apply(s, steps[0]), steps[1..], d);
    }
  }

  /**
   In every run, once the reader of a connection has gone, a request that was handed to it is
   heard of again if and only if a later shutdown still finds its entry in the table.
   */
  lemma HeardAgainIff(alias: string, caps: set<Capability>, before: seq<Step>, after: seq<Step>, d: nat)
    requires Runs(Init(alias, caps), before) && Runs(End(Init(alias, caps), before), after)
    requires Unread(End(Init(alias, caps), before), d)
    ensures
      var mid := End(Init(alias, caps), before);
      OfId(End(mid, after).log, d) != OfId(mid.log, d) <==> !NeverDrained(mid, after, d)
  {
    hide ControlInv, Grounded, Histories, OfId, Unread, NeverDrained;
    InitInv(alias, caps);
    RunInv(Init(alias, caps), before);
    RunWord(End(Init(alias, caps), before), after, d);
  }

  // ---- actions, which only a drain takes out of the table -----------------------------------------

  predicate NoShutdown(steps: seq<Step>) {
    forall x :: x in steps ==> !x.ShutdownDrain?
  }

  /** An action was handed over, and its entry is in the table. */
  ghost predicate ActionWaits(s: State, d: nat) {
    Unread(s, d) && d in s.routing && d in s.bound && s.bound[d].request.body.DockerAction?
  }

  lemma ActionKept(s: State, step: Step, d: nat)
    requires ControlInv(s) && Enabled(s, step) && ActionWaits(s, d) && !step.ShutdownDrain?
    ensures ActionWaits(Apply(s, step), d)
  {
    hide ControlInv, Submitted, Apply, Enabled, Unread;
    UnreadStays(s, step, d);
    BoundStays(s, step, d);
    ActionRouted(s, step, d);
  }

  lemma ActionRouted(s: State, step: Step, d: nat)
    requires ControlInv(s) && Enabled(s, step) && ActionWaits(s, d) && !step.ShutdownDrain?
    ensures d in Apply(s, step).routing
  {
    hide ControlInv, Submitted, DoWithdraw, DoDropRoute;
    if step.Withdraw? {
      WithdrawOther(s, step.c, d);
    } else if step.DropRoute? {
      DropOther(s, step.c, d);
    } else if step.Register? {
      hide RoutedOf;
    } else {
      assert !Reads(step);
      hide Apply, Enabled;
      StepFrames(s, step);
    }
  }

  /** A session withdraws only what it failed to hand over. */
  lemma WithdrawOther(s: State, c: nat, d: nat)
    requires ControlInv(s) && c in s.clients && s.clients[c].pc.SendFailed? && d in Submitted(s.sent) && d in s.routing
    ensures d in DoWithdraw(s, c).routing
  {
    PcFacts(s, c);
    hide ControlInv, Submitted, Cancelled;
  }

  /** A session drops only entries of subscriptions. */
  lemma DropOther(s: State, c: nat, d: nat)
    requires ControlInv(s) && c in s.clients && s.clients[c].pc.Dropping?
    requires d in s.bound && s.bound[d].request.body.DockerAction? && d in s.routing
    ensures d in DoDropRoute(s, c).routing
  {
    PcFacts(s, c);
    hide ControlInv, Submitted, Cancelled;
  }

  lemma ShutdownFirst(steps: seq<Step>)
    requires steps != []
    ensures NoShutdown(steps) <==> !steps[0].ShutdownDrain? && NoShutdown(steps[1..])
  {
    assert steps == [steps[0]] + steps[1..];
  }

  lemma {:induction false} ActionNeverDrained(s: State, steps: seq<Step>, d: nat)
    requires ControlInv(s) && Runs(s, steps) && ActionWaits(s, d)
    ensures NeverDrained(s, steps, d) <==> NoShutdown(steps)
    decreases steps
  {
    if steps == [] {
      assert NoShutdown([]);
    } else {
      assert d in s.routing;
      hide ControlInv, Enabled, Apply, ActionWaits, NoShutdown;
      ShutdownFirst(steps);
      if !steps[0].ShutdownDrain? {
        StepControl(s, steps[0]);
        ActionKept(s, steps[0], d);
        ActionNeverDrained(Apply(s, steps[0]), steps[1..], d);
      }
    }
  }

  /**
   In every run, an action that was handed over and is in the table when the reader has gone is
   answered if and only if the connection is shut down at some time after that.
   */
  lemma ActionAnsweredIff(alias: string, caps: set<Capability>, before: seq<Step>, after: seq<Step>, d: nat)
    requires Runs(Init(alias, caps), before) && Runs(End(Init(alias, caps), before), after)
    requires ActionWaits(End(Init(alias, caps), before), d)
    ensures
      var mid := End(Init(alias, caps), before);
      OfId(End(mid, after).log, d) != OfId(mid.log, d) <==> !NoShutdown(after)
  {
    hide ControlInv, Grounded, Histories, OfId, NeverDrained, NoShutdown, Submitted;
    InitInv(alias, caps);
    RunInv(Init(alias, caps), before);
    HeardAgainIff(alias, caps, before, after, d);
    ActionNeverDrained(End(Init(alias, caps), before), after, d);
  }

  // ---- a request that every drain misses -----------------------------------------------------------

  const RESTART := Request(1, DockerAction("db", Restart))

  /** A session looks the connection up, the agent goes and is shut down, and the session goes on. */
  const STRANDED: seq<Step> :=
    [Connect(0), Command(0, RESTART)]
    + ([ParserExit([]), PoolRemove, ShutdownDrain([])] + [AllocId(0), Register(0), Send(0)])

  function LookedUp(alias: string): State {
    Init(alias, {CapDocker}).(clients := map[0 := Session(Looked(RESTART), map[], false)])
  }

  function ShutDown(alias: string): State {
    LookedUp(alias).(parserAlive := false, pooled := false, drained := true)
  }

  lemma LookupRuns(alias: string)
    ensures Runs(Init(alias, {CapDocker}), [Connect(0), Command(0, RESTART)])
    ensures End(Init(alias, {CapDocker}), [Connect(0), Command(0, RESTART)]) == LookedUp(alias)
  {
    var s0 := Init(alias, {CapDocker});
    var s1 := s0.(clients := map[0 := Session(Idle, map[], false)]);
    assert Apply(s0, Connect(0)) == s1;
    assert At(s1, 0, Looked(RESTART)).clients == LookedUp(alias).clients;
    NoSteps(LookedUp(alias));
    StepThen(s1, Command(0, RESTART), []);
    StepThen(s0, Connect(0), [Command(0, RESTART)] + []);
    hide Runs, End;
    assert [Connect(0)] + ([Command(0, RESTART)] + []) == [Connect(0), Command(0, RESTART)];
  }

  lemma ShutdownRuns(alias: string)
    ensures Runs(LookedUp(alias), [ParserExit([]), PoolRemove, ShutdownDrain([])])
    ensures End(LookedUp(alias), [ParserExit([]), PoolRemove, ShutdownDrain([])]) == ShutDown(alias)
  {
    hide Runs, End;
    var s0 := LookedUp(alias);
    var s1 := s0.(drained := true, parserAlive := false);
    var s2 := s1.(pooled := false);
    assert DrainOrder(s0.routing, []) && s0.log + [] == s0.log;
    NoSteps(ShutDown(alias));
    StepThen(s2, ShutdownDrain([]), []);
    StepThen(s1, PoolRemove, [ShutdownDrain([])] + []);
    StepThen(s0, ParserExit([]), [PoolRemove] + ([ShutdownDrain([])] + []));
    hide Runs, End;
    assert [ParserExit([])] + ([PoolRemove] + ([ShutdownDrain([])] + [])) == [ParserExit([]), PoolRemove, ShutdownDrain([])];
  }

  lemma SendRuns(alias: string)
    ensures Runs(ShutDown(alias), [AllocId(0), Register(0), Send(0)])
    ensures End(ShutDown(alias), [AllocId(0), Register(0), Send(0)])
         == DoSend(DoRegister(DoAllocId(ShutDown(alias), 0), 0), 0)
  {
    var s0 := ShutDown(alias);
    var s1 := DoAllocId(s0, 0);
    var s2 := DoRegister(s1, 0);
    NoSteps(DoSend(s2, 0));
    StepThen(s2, Send(0), []);
    StepThen(s1, Register(0), [Send(0)] + []);
    StepThen(s0, AllocId(0), [Register(0)] + ([Send(0)] + []));
    hide Runs, End;
    assert [AllocId(0)] + ([Register(0)] + ([Send(0)] + [])) == [AllocId(0), Register(0), Send(0)];
  }

  function Stranded(alias: string): State {
    DoSend(DoRegister(DoAllocId(ShutDown(alias), 0), 0), 0)
  }

  lemma StrandedRuns(alias: string)
    ensures Runs(Init(alias, {CapDocker}), STRANDED)
    ensures End(Init(alias, {CapDocker}), STRANDED) == Stranded(alias)
  {
    var look := [Connect(0), Command(0, RESTART)];
    var down := [ParserExit([]), PoolRemove, ShutdownDrain([])];
    var send := [AllocId(0), Register(0), Send(0)];
    LookupRuns(alias);
    ShutdownRuns(alias);
    SendRuns(alias);
    hide Runs, End, Init, LookedUp, DoSend, DoRegister, DoAllocId;
    RunThen(LookedUp(alias), down, send);
    RunThen(Init(alias, {CapDocker}), look, down + send);
    assert STRANDED == look + (down + send);
  }

  lemma StrandedIs(alias: string)
    ensures
      var s := Stranded(alias);
      && s.bound == map[1 := Binding(0, RESTART)] && Submitted(s.sent) == {1} && 1 in s.routing
      && !s.parserAlive && !s.pooled && s.drained && s.log == []
  {
    var s := Stranded(alias);
    assert s.sent == [] + [Submit(1, RESTART.body)];
    SentAppend([], Submit(1, RESTART.body));
    assert Submitted([]) == {};
    hide Submitted;
  }

  /**
   That is a run. Its action was handed over after the last drain: the client has been told
   nothing, and whatever happens next, it is told something only by another shutdown of the same
   connection.
   */
  lemma ActionStranded(alias: string, after: seq<Step>)
    ensures Runs(Init(alias, {CapDocker}), STRANDED)
    ensures
      var s := End(Init(alias, {CapDocker}), STRANDED);
      && s.bound == map[1 := Binding(0, RESTART)] && 1 in s.routing && 1 in Submitted(s.sent)
      && !s.parserAlive && !s.pooled && s.drained && s.log == []
      && (Runs(s, after) ==> (OfId(End(s, after).log, 1) == [] <==> NoShutdown(after)))
  {
    StrandedRuns(alias);
    StrandedIs(alias);
    var s := Stranded(alias);
    assert OfId([], 1) == [];
    hide Init, Stranded, Submitted, OfId, NoShutdown;
    if Runs(s, after) {
      ActionAnsweredIff(alias, {CapDocker}, STRANDED, after, 1);
    }
  }
}

/** Runs of the multiplexer seen from its clients: isolation, table agreement, teardown. */
module MuxClients {
  import opened Wrappers
  import opened Routing
  import opened Mux
  import opened MuxInvariant
  import opened MuxHistory
  import opened MuxTheorems
  import opened MuxSteps

  // ---- delivery isolation ------------------------------------------------------------

  predicate Extends(before: map<nat, Binding>, after: map<nat, Binding>) {
    forall d :: d in before ==> d in after && after[d] == before[d]
  }

  lemma StepBindings(s: State, step: Step)
    requires Inv(s) && Enabled(s, step)
    ensures Extends(s.bound, Apply(s, step).bound)
  {
    hide ControlInv, Grounded, Histories;
    if step.Register? {
      RegisterFresh(s, step.c);
      hide RoutedOf;
    } else {
      hide Enabled, Apply;
      StepFrames(s, step);
    }
  }

  lemma {:induction false} RunBindings(s: State, steps: seq<Step>)
    requires Inv(s) && Runs(s, steps)
    ensures Extends(s.bound, End(s, steps).bound)
    decreases steps
  {
    hide Inv, Enabled, Apply;
    if steps != [] {
      StepInv(s, steps[0]);
      StepBindings(s, steps[0]);
      RunBindings(Apply(s, steps[0]), steps[1..]);
    }
  }

  function AddressOf(msg: ClientMsg): nat {
    match msg
    case ClientEvent(sub, _) => sub
    case ClientResult(req, _, _, _, _) => req
  }

  /** A delivery made under a bound id reached the bound client under the client's own id. */
  predicate Addressed(x: Delivery, b: Binding) {
    x.client == b.client && AddressOf(x.msg) == b.request.id
  }

  lemma {:induction false} OfIdHolds(log: seq<Delivery>, x: Delivery, d: nat)
    requires x in log && Names(x, d)
    ensures x in OfId(log, d)
  {
    if x != log[|log| - 1] {
      var i :| 0 <= i < |log| && log[i] == x;
      assert log[..|log| - 1][i] == x;
      OfIdHolds(log[..|log| - 1], x, d);
    }
  }

  lemma {:induction false} RenamedAddressed(src: seq<FromAgent>, b: Binding)
    requires AboutAgent(src)
    ensures forall x :: x in RenamedAll(src, RoutedOf(b)) ==> Addressed(x, b)
  {
    if src != [] {
      RenamedAddressed(src[..|src| - 1], b);
    }
  }

  lemma HistoryAddressed(alias: string, d: nat, b: Binding, routed: bool, submitted: bool, pc: Pc,
                         l: seq<Delivery>, src: seq<FromAgent>)
    requires AboutAgent(src) && History(alias, d, b, routed, submitted, pc, l, src)
    ensures forall x :: x in l ==> Addressed(x, b)
  {
    var k := HistoryShape(alias, d, b, routed, submitted, pc, l, src, src);
    RenamedAddressed(src[..k], b);
    assert l == l[..k] + l[k..];
  }

  /**
   Delivery isolation: whatever a run does after `before`, a daemon id bound by then stays
   bound to the same client and client id, and every message ever delivered under it went
   to that client under that id.
   */
  lemma DeliveryIsolation(alias: string, caps: set<Capability>, before: seq<Step>, after: seq<Step>, d: nat)
    requires Runs(Init(alias, caps), before)
    requires Runs(End(Init(alias, caps), before), after)
    requires d in End(Init(alias, caps), before).bound
    ensures var mid := End(Init(alias, caps), before);
      var s := End(mid, after);
      && d in s.bound && s.bound[d] == mid.bound[d]
      && (forall x :: x in s.log && Names(x, d) ==> Addressed(x, mid.bound[d]))
  {
    var mid := End(Init(alias, caps), before);
    InitInv(alias, caps);
    RunInv(Init(alias, caps), before);
    RunInv(mid, after);
    RunBindings(mid, after);
    hide ControlInv, Runs, Init, Submitted, OfId, FromId;
    var s := End(mid, after);
    assert HistoryAt(s, d);
    HistoryAddressed(s.alias, d, s.bound[d], d in s.routing, d in Submitted(s.sent),
                     s.clients[s.bound[d].client].pc, OfId(s.log, d), Seen(s, d));
    forall x | x in s.log && Names(x, d) ensures Addressed(x, mid.bound[d]) {
      OfIdHolds(s.log, x, d);
    }
  }

  // ---- drains ---------------------------------------------------------------------------

  /**
   One drain tells each routed client once and touches nobody else's history. What it says is told
   from the entry, and is the failure of whatever request the entry was made for.
   */
  lemma DrainTellsEachOnce(s: State, order: seq<nat>, d: nat)
    requires DrainOrder(s.routing, order)
    ensures DoDrain(s, order).routing == map[]
    ensures d !in s.routing ==> OfId(DoDrain(s, order).log, d) == OfId(s.log, d)
    ensures d in s.routing ==>
      var l, l' := OfId(s.log, d), OfId(DoDrain(s, order).log, d);
      && |l'| == |l| + 1 && l'[..|l|] == l
      && l'[|l|].origin == ByDrain(d) && TellsOwner(l'[|l|], s.routing[d])
      && forall b: Binding :: s.routing[d] == RoutedOf(b) ==> TellsGone(l'[|l|], d, b)
  {
    OfIdDrain(s.log, s.routing, order, d);
    hide DrainNotices, OfId, TellsOwner, TellsGone, RoutedOf, DrainNotice;
    if d in s.routing {
      DrainNoticeTells(d, s.routing[d]);
      var x := DrainNotice(d, s.routing[d]);
      forall b: Binding | s.routing[d] == RoutedOf(b) ensures TellsGone(x, d, b) {
        OwnerIsClient(x, d, b);
      }
    } else {
      assert OfId(s.log, d) + [] == OfId(s.log, d);
    }
  }

  lemma {:induction false} OfIdPair(log: seq<Delivery>, i: nat, j: nat, d: nat) returns (m: nat, n: nat)
    requires i < j < |log| && Names(log[i], d) && Names(log[j], d)
    ensures m < n < |OfId(log, d)| && OfId(log, d)[m] == log[i] && OfId(log, d)[n] == log[j]
  {
    var init := log[..|log| - 1];
    if j < |init| {
      m, n := OfIdPair(init, i, j, d);
    } else {
      m := OfIdAt(init, i, d);
      n := |OfId(init, d)|;
    }
  }

  lemma {:induction false} OfIdAt(log: seq<Delivery>, i: nat, d: nat) returns (m: nat)
    requires i < |log| && Names(log[i], d)
    ensures m < |OfId(log, d)| && OfId(log, d)[m] == log[i]
  {
    var init := log[..|log| - 1];
    if i < |init| {
      m := OfIdAt(init, i, d);
    } else {
      m := |OfId(init, d)|;
    }
  }

  /** After a drain notice a history holds no word of the agent and no other drain notice. */
  lemma ShapeAfterDrain(alias: string, d: nat, b: Binding, submitted: bool, l: seq<Delivery>, src: seq<FromAgent>,
                        k: nat, m: nat, n: nat)
    requires AboutAgent(src) && Shape(alias, d, b, submitted, l, src, k)
    requires m < n < |l| && l[m].origin == ByDrain(d)
    ensures l[m] == DrainNotice(d, RoutedOf(b)) && l[n] == DeadNotice(alias, d, b)
  {
    AgentFirst(src[..k], RoutedOf(b));
    PrefixFromAgent(l, k);
    hide RenamedAll;
    assert l[k..][m - k] == l[m] && l[k..][n - k] == l[n];
  }

  lemma PrefixFromAgent(l: seq<Delivery>, k: nat)
    requires k <= |l| && forall x :: x in l[..k] ==> x.origin.ByAgent?
    ensures forall i :: 0 <= i < k ==> l[i].origin.ByAgent?
  {
    assert forall i :: 0 <= i < k ==> l[i] == l[..k][i];
  }

  lemma {:induction false} AgentFirst(src: seq<FromAgent>, r: Routed)
    requires AboutAgent(src)
    ensures forall x :: x in RenamedAll(src, r) ==> x.origin.ByAgent?
  {
    if src != [] {
      AgentFirst(src[..|src| - 1], r);
    }
  }

  /**
   However many drains a run holds, at the agent's exit and at shutdowns, and whatever happens
   between them: an id's drain notice is in the log once, and the only thing said under that id
   afterwards is that its request, never sent, met a dead writer.
   */
  lemma DrainedOnce(alias: string, caps: set<Capability>, steps: seq<Step>, i: nat, j: nat, d: nat)
    requires Runs(Init(alias, caps), steps)
    requires i < j < |End(Init(alias, caps), steps).log|
    requires var log := End(Init(alias, caps), steps).log; log[i].origin == ByDrain(d) && Names(log[j], d)
    ensures
      var s := End(Init(alias, caps), steps);
      && d in s.bound && TellsGone(s.log[i], d, s.bound[d]) && TellsDead(s.alias, s.log[j], d, s.bound[d])
      && d !in Submitted(s.sent)
  {
    InitInv(alias, caps);
    RunInv(Init(alias, caps), steps);
    var s := End(Init(alias, caps), steps);
    hide ControlInv, Submitted, FromId, Runs, Init, End;
    var m, n := OfIdPair(s.log, i, j, d);
    hide OfId;
    assert HistoryAt(s, d);
    var k := HistoryShape(s.alias, d, s.bound[d], d in s.routing, d in Submitted(s.sent),
                          s.clients[s.bound[d].client].pc, OfId(s.log, d), Seen(s, d), Seen(s, d));
    ShapeAfterDrain(s.alias, d, s.bound[d], d in Submitted(s.sent), OfId(s.log, d), Seen(s, d), k, m, n);
    NoticesTell(s.alias, d, s.bound[d]);
  }

  /**
   The one case of two failure notices. A session that found the writer closed is still to
   withdraw its entry; its client ends up told twice exactly when a drain took the entry first.
   */
  lemma ToldTwiceIff(alias: string, caps: set<Capability>, steps: seq<Step>, c: nat)
    requires Runs(Init(alias, caps), steps)
    requires c in End(Init(alias, caps), steps).clients
    requires End(Init(alias, caps), steps).clients[c].pc.SendFailed?
    ensures var s := End(Init(alias, caps), steps);
      var SendFailed(req, d) := s.clients[c].pc;
      && d in s.bound
      && (var b, l := s.bound[d], OfId(DoNotify(DoWithdraw(s, c), c).log, d);
          && |l| == (if d in s.routing then 1 else 2)
          && TellsDead(s.alias, l[|l| - 1], d, b)
          && (d !in s.routing ==> TellsGone(l[0], d, b)))
  {
    InitInv(alias, caps);
    RunInv(Init(alias, caps), steps);
    var s := End(Init(alias, caps), steps);
    PcFacts(s, c);
    hide ControlInv, Submitted, Cancelled;
    assert HistoryAt(s, s.clients[c].pc.id);
    ToldTwiceAt(s, c);
    hide OfId, DoNotify, DoWithdraw, DrainNotice, DeadNotice, RoutedOf;
    NoticesTell(s.alias, s.clients[c].pc.id, s.bound[s.clients[c].pc.id]);
  }

  lemma ToldTwiceAt(s: State, c: nat)
    requires c in s.clients && s.clients[c].pc.SendFailed?
    requires s.clients[c].pc.id in s.bound && s.bound[s.clients[c].pc.id] == Binding(c, s.clients[c].pc.req)
    requires s.clients[c].pc.id !in Submitted(s.sent)
    requires s.taken <= |s.ret| && HistoryAt(s, s.clients[c].pc.id)
    ensures var SendFailed(req, d) := s.clients[c].pc;
      && (var dead := DeadNotice(s.alias, d, s.bound[d]);
          OfId(DoNotify(DoWithdraw(s, c), c).log, d)
            == if d in s.routing then [dead] else [DrainNotice(d, RoutedOf(s.bound[d])), dead])
  {
    var d := s.clients[c].pc.id;
    var dead := DeadNotice(s.alias, d, s.bound[d]);
    NotifyNames(s.alias, c, s.clients[c].pc.req, d);
    assert DoNotify(DoWithdraw(s, c), c).log == s.log + [dead];
    hide Submitted, OfId, FromId, History, RoutedOf, DrainNotice, DoNotify, DoWithdraw, DeadWriterNotice, Names;
    FailedHistory(s.alias, d, s.bound[d], d in s.routing, s.clients[c].pc, OfId(s.log, d), Seen(s, d));
    OfIdAppend(s.log, dead, d);
  }

  lemma FailedHistory(alias: string, d: nat, b: Binding, routed: bool, pc: Pc, l: seq<Delivery>, src: seq<FromAgent>)
    requires AboutAgent(src) && History(alias, d, b, routed, false, pc, l, src)
    requires pc.SendFailed? && pc.id == d
    ensures l == if routed then [] else [DrainNotice(d, RoutedOf(b))]
  {
  }

  // ---- a run in which a client is told twice ---------------------------------------------------

  const ASKED := Request(1, DockerList)

  /** The agent goes away between registering a subscription and finding the writer closed. */
  const TOLD_TWICE: seq<Step> :=
    [Connect(0), Command(0, ASKED), AllocId(0), Register(0), WriterDies, Send(0), ParserExit([1])]

  lemma ToldTwiceRuns(alias: string)
    ensures Runs(Init(alias, {CapDocker}), TOLD_TWICE)
    ensures
      var s := End(Init(alias, {CapDocker}), TOLD_TWICE);
      0 in s.clients && s.clients[0].pc == SendFailed(ASKED, 1) && s.routing == map[]
      && s.bound == map[1 := Binding(0, ASKED)] && s.alias == alias
  {
    var s0 := Init(alias, {CapDocker});
    var s1 := Apply(s0, Connect(0));
    var s4 := RegisteredState(s1, 0, ASKED);
    var rest := [Send(0), ParserExit([1])];
    assert s4.clients[0].pc == Registered(ASKED, 1) && s4.routing.Keys == {1} && s4.bound == map[1 := Binding(0, ASKED)];
    hide Runs, End, RegisteredState;
    CutOff(s4.(writerOpen := false));
    DiesThen(s4, rest);
    RegisterEnds(s1, 0, ASKED, [WriterDies] + rest);
    var head := [Command(0, ASKED), AllocId(0), Register(0)];
    StepThen(s0, Connect(0), head + ([WriterDies] + rest));
    assert [Connect(0)] + (head + ([WriterDies] + rest)) == TOLD_TWICE;
  }

  /** The send finds the writer closed, and the agent's exit drains the table before the session goes on. */
  lemma CutOff(s: State)
    requires 0 in s.clients && s.clients[0].pc == Registered(ASKED, 1) && s.routing.Keys == {1}
    requires !s.writerOpen && s.parserAlive
    ensures Runs(s, [Send(0), ParserExit([1])])
    ensures
      var t := End(s, [Send(0), ParserExit([1])]);
      0 in t.clients && t.clients[0].pc == SendFailed(ASKED, 1) && t.routing == map[] && t.bound == s.bound
      && t.alias == s.alias
  {
    var s1 := At(s, 0, SendFailed(ASKED, 1));
    assert DrainOrder(s1.routing, [1]);
    hide DrainNotices;
    NoSteps(DoDrain(s1, [1]).(parserAlive := false));
    StepThen(s1, ParserExit([1]), []);
    StepThen(s, Send(0), [ParserExit([1])] + []);
    hide Runs, End;
    assert [Send(0)] + ([ParserExit([1])] + []) == [Send(0), ParserExit([1])];
  }

  /** That run, with the session's two last steps, is reachable and reports one request twice. */
  lemma ToldTwice(alias: string)
    ensures Runs(Init(alias, {CapDocker}), TOLD_TWICE + [Withdraw(0), Notify(0)])
    ensures
      var s := End(Init(alias, {CapDocker}), TOLD_TWICE + [Withdraw(0), Notify(0)]);
      && s.bound == map[1 := Binding(0, ASKED)]
      && OfId(s.log, 1) == [Delivery(0, ClientEvent(1, DockerUnavailable(AgentDisconnected)), ByDrain(1)),
                            Delivery(0, ClientEvent(1, DockerUnavailable(WriterClosed)), ByDeadWriter(1))]
  {
    var s0, b := Init(alias, {CapDocker}), Binding(0, ASKED);
    ToldTwiceRuns(alias);
    ToldTwiceIff(alias, {CapDocker}, TOLD_TWICE, 0);
    var s := End(s0, TOLD_TWICE);
    var s' := DoWithdraw(s, 0);
    NoSteps(DoNotify(s', 0));
    StepThen(s', Notify(0), []);
    StepThen(s, Withdraw(0), [Notify(0)] + []);
    assert [Withdraw(0)] + ([Notify(0)] + []) == [Withdraw(0), Notify(0)];
    hide Runs, End, Init, OfId, DrainNotice, DeadNotice, RoutedOf;
    RunThen(s0, TOLD_TWICE, [Withdraw(0), Notify(0)]);
  }

  // ---- what the agent says ---------------------------------------------------------------------

  function AgentSteps(steps: seq<Step>): seq<Step> {
    if steps == [] then []
    else (if ByTheAgent(steps[0]) then [steps[0]] else []) + AgentSteps(steps[1..])
  }

  /** `m` is what the agent says in `step`. */
  predicate Says(step: Step, m: FromAgent) {
    && (step.AgentEmit? ==> m == AgentEvent(step.d, step.event))
    && (step.AgentFinish? ==> m.AgentResult? && m.id == step.d && m.outcome == step.outcome && m.target == Local)
    && (step.AgentNoise? ==> m == AgentOther)
  }

  lemma AgentSpeaks(s: State, step: Step)
    requires Enabled(s, step) && ByTheAgent(step)
    ensures var ret := Apply(s, step).ret;
      |ret| == |s.ret| + 1 && ret[..|s.ret|] == s.ret && Says(step, ret[|s.ret|])
  {
  }

  /** After `before`, `ret` holds what the agent said in `said`. */
  ghost predicate Spoken(before: seq<FromAgent>, ret: seq<FromAgent>, said: seq<Step>) {
    && |ret| == |before| + |said| && ret[..|before|] == before
    && forall k :: 0 <= k < |said| ==> Says(said[k], ret[|before| + k])
  }

  lemma SpokenFirst(before: seq<FromAgent>, mid: seq<FromAgent>, ret: seq<FromAgent>, step: Step, said: seq<Step>)
    requires |mid| == |before| + 1 && mid[..|before|] == before && Says(step, mid[|before|])
    requires Spoken(mid, ret, said)
    ensures Spoken(before, ret, [step] + said)
  {
    hide Says;
    assert ret[..|mid|][..|before|] == ret[..|before|] && ret[..|mid|][|before|] == ret[|before|];
  }

  lemma {:induction false} RunSpeaks(s: State, steps: seq<Step>)
    requires Runs(s, steps)
    ensures Spoken(s.ret, End(s, steps).ret, AgentSteps(steps))
    decreases steps
  {
    hide Enabled, Apply, Says;
    if steps == [] {
      assert s.ret[..|s.ret|] == s.ret;
    } else {
      hide Spoken;
      var t, rest := Apply(s, steps[0]), steps[1..];
      RunSpeaks(t, rest);
      if ByTheAgent(steps[0]) {
        AgentSpeaks(s, steps[0]);
        SpokenFirst(s.ret, t.ret, End(s, steps).ret, steps[0], AgentSteps(rest));
      } else {
        StepFrames(s, steps[0]);
        assert [] + AgentSteps(rest) == AgentSteps(rest);
      }
    }
  }

  /**
   In every run, what the agent has said is what its forwarders and its actions came up with, in
   that order: each event as it was emitted, each result with the outcome of its action. A result is
   the answer to an action that was handed over, and names its container and kind.
   */
  lemma AgentHeard(alias: string, caps: set<Capability>, steps: seq<Step>)
    requires Runs(Init(alias, caps), steps)
    ensures
      var s, said := End(Init(alias, caps), steps), AgentSteps(steps);
      && |s.ret| == |said|
      && forall k :: 0 <= k < |said| ==>
        && Says(said[k], s.ret[k])
        && (said[k].AgentFinish? ==>
              var d := said[k].d;
              d in s.bound && d in Submitted(s.sent)
              && s.bound[d].request.body == DockerAction(s.ret[k].container, s.ret[k].action))
  {
    InitInv(alias, caps);
    RunInv(Init(alias, caps), steps);
    RunSpeaks(Init(alias, caps), steps);
    var s, said := End(Init(alias, caps), steps), AgentSteps(steps);
    hide Runs, End, Histories, AgentSteps;
    forall k | 0 <= k < |said|
      ensures Says(said[k], s.ret[k])
      ensures said[k].AgentFinish? ==>
        var d := said[k].d;
        d in s.bound && d in Submitted(s.sent)
        && s.bound[d].request.body == DockerAction(s.ret[k].container, s.ret[k].action)
    {
      RetTruthful(s, k);
    }
  }

  lemma RetTruthful(s: State, k: nat)
    requires ControlInv(s) && k < |s.ret|
    ensures Truthful(s.ret[k], s.bound, Submitted(s.sent))
  {
    hide Ids, Pcs, Handles, Wire, Tables, Submitted, Cancelled, Truthful;
  }
}

/** What a session's commands come to when nothing else takes a step in between. */
module MuxSteps {
  import opened Wrappers
  import opened Routing
  import opened Mux

  lemma NoSteps(s: State)
    ensures Runs(s, []) && End(s, []) == s
  {
  }

  lemma StepThen(s: State, a: Step, rest: seq<Step>)
    requires Enabled(s, a) && Runs(Apply(s, a), rest)
    ensures Runs(s, [a] + rest) && End(s, [a] + rest) == End(Apply(s, a), rest)
  {
    assert ([a] + rest)[1..] == rest;
  }

  lemma {:induction false} RunThen(s: State, a: seq<Step>, b: seq<Step>)
    requires Runs(s, a) && Runs(End(s, a), b)
    ensures Runs(s, a + b) && End(s, a + b) == End(End(s, a), b)
    decreases a
  {
    hide Enabled, Apply;
    if a == [] {
      assert a + b == b;
    } else {
      assert (a + b)[1..] == a[1..] + b;
      RunThen(Apply(s, a[0]), a[1..], b);
    }
  }

  // ---- a remote request -------------------------------------------------------------------

  function CommandSteps(s: State, c: nat, req: Request): seq<Step> {
    if !s.pooled || Needs(req.body) !in s.caps then [Command(c, req)]
    else if s.writerOpen then [Command(c, req), AllocId(c), Register(c), Send(c)]
    else [Command(c, req), AllocId(c), Register(c), Send(c), Withdraw(c), Notify(c)]
  }

  /** The request is on the queue under a fresh id, entered in the table and, if a subscription, in the session's map. */
  function Queued(s: State, c: nat, req: Request): State
    requires c in s.clients
  {
    var d, b, subs := s.nextId, Binding(c, req), s.clients[c].subs;
    var subs' := if KindOf(req.body) == Subscription then subs[req.id := d] else subs;
    s.(nextId := d + 1, bound := s.bound[d := b], routing := s.routing[d := RoutedOf(b)],
       sent := s.sent + [Submit(d, req.body)], clients := s.clients[c := s.clients[c].(subs := subs')])
  }

  /** An id is spent, the client is told, and nothing else has changed. */
  function GivenUp(s: State, c: nat, req: Request): State {
    s.(nextId := s.nextId + 1, bound := s.bound[s.nextId := Binding(c, req)],
       log := s.log + [DeadWriterNotice(s.alias, c, req, s.nextId)])
  }

  /** Refused, given up, or queued. */
  function CommandEffect(s: State, c: nat, req: Request): State
    requires c in s.clients
  {
    if !s.pooled || Needs(req.body) !in s.caps then DoCommand(s, c, req)
    else if s.writerOpen then Queued(s, c, req)
    else GivenUp(s, c, req)
  }

  /** Handing a registered request to a dead writer: the entry is withdrawn again and the client told. */
  lemma DeadWriterEnds(s: State, c: nat)
    requires c in s.clients && s.clients[c].pc.Registered? && !s.writerOpen
    ensures
      var Registered(req, d) := s.clients[c].pc;
      var steps := [Send(c), Withdraw(c), Notify(c)];
      && Runs(s, steps)
      && End(s, steps) ==
         At(s, c, Idle).(routing := s.routing - {d}, log := s.log + [DeadWriterNotice(s.alias, c, req, d)])
  {
    hide DeadWriterNotice;
    var s1 := DoSend(s, c);
    var s2 := DoWithdraw(s1, c);
    NoSteps(DoNotify(s2, c));
    StepThen(s2, Notify(c), []);
    StepThen(s1, Withdraw(c), [Notify(c)] + []);
    StepThen(s, Send(c), [Withdraw(c)] + ([Notify(c)] + []));
    assert [Send(c)] + ([Withdraw(c)] + ([Notify(c)] + [])) == [Send(c), Withdraw(c), Notify(c)];
    hide Runs, End;
    assert DoNotify(s2, c).clients == At(s, c, Idle).clients;
  }

  lemma SendEnds(s: State, c: nat)
    requires c in s.clients && s.clients[c].pc.Registered? && s.writerOpen
    ensures Runs(s, [Send(c)]) && End(s, [Send(c)]) == DoSend(s, c)
  {
    NoSteps(DoSend(s, c));
    StepThen(s, Send(c), []);
    assert [Send(c)] + [] == [Send(c)];
  }

  lemma RegisterEnds(s: State, c: nat, req: Request, rest: seq<Step>)
    requires AtIdle(s, c) && !s.clients[c].ending && s.pooled && Needs(req.body) in s.caps
    requires Runs(DoRegister(DoAllocId(At(s, c, Looked(req)), c), c), rest)
    ensures Runs(s, [Command(c, req), AllocId(c), Register(c)] + rest)
    ensures End(s, [Command(c, req), AllocId(c), Register(c)] + rest)
         == End(DoRegister(DoAllocId(At(s, c, Looked(req)), c), c), rest)
  {
    hide Runs, End, Needs, RoutedOf, Rejection;
    var s1 := At(s, c, Looked(req));
    var s2 := DoAllocId(s1, c);
    StepThen(s2, Register(c), rest);
    StepThen(s1, AllocId(c), [Register(c)] + rest);
    StepThen(s, Command(c, req), [AllocId(c)] + ([Register(c)] + rest));
    assert [Command(c, req)] + ([AllocId(c)] + ([Register(c)] + rest)) == [Command(c, req), AllocId(c), Register(c)] + rest;
  }

  /** A remote request handled in one go ends as `CommandEffect` says. */
  lemma CommandEnds(s: State, c: nat, req: Request)
    requires AtIdle(s, c) && !s.clients[c].ending && (s.pooled ==> s.nextId !in s.routing)
    ensures Runs(s, CommandSteps(s, c, req))
    ensures End(s, CommandSteps(s, c, req)) == CommandEffect(s, c, req)
  {
    hide Runs, End, Needs, RoutedOf, Rejection, DeadWriterNotice;
    if !s.pooled || Needs(req.body) !in s.caps {
      NoSteps(DoCommand(s, c, req));
      StepThen(s, Command(c, req), []);
      assert [Command(c, req)] + [] == [Command(c, req)];
    } else {
      RegisteredEnds(s, c, req);
    }
  }

  function RegisteredState(s: State, c: nat, req: Request): State
    requires c in s.clients
  {
    DoRegister(DoAllocId(At(s, c, Looked(req)), c), c)
  }

  lemma SentEffect(s: State, c: nat, req: Request)
    requires AtIdle(s, c) && s.pooled && Needs(req.body) in s.caps && s.writerOpen
    ensures DoSend(RegisteredState(s, c, req), c) == CommandEffect(s, c, req)
  {
    assert DoSend(RegisteredState(s, c, req), c).clients == CommandEffect(s, c, req).clients;
  }

  lemma DeadEffect(s: State, c: nat, req: Request)
    requires AtIdle(s, c) && s.pooled && Needs(req.body) in s.caps && !s.writerOpen && s.nextId !in s.routing
    ensures
      var s3 := RegisteredState(s, c, req);
      At(s3, c, Idle).(routing := s3.routing - {s.nextId},
                       log := s3.log + [DeadWriterNotice(s3.alias, c, req, s.nextId)]) == CommandEffect(s, c, req)
  {
    var s3 := RegisteredState(s, c, req);
    assert s3.routing - {s.nextId} == s.routing;
    assert At(s3, c, Idle).clients == s.clients;
  }

  lemma RegisteredEnds(s: State, c: nat, req: Request)
    requires AtIdle(s, c) && !s.clients[c].ending && s.nextId !in s.routing
    requires s.pooled && Needs(req.body) in s.caps
    ensures Runs(s, CommandSteps(s, c, req))
    ensures End(s, CommandSteps(s, c, req)) == CommandEffect(s, c, req)
  {
    var s3 := RegisteredState(s, c, req);
    var head := [Command(c, req), AllocId(c), Register(c)];
    assert s3.clients[c].pc == Registered(req, s.nextId) && s3.writerOpen == s.writerOpen;
    hide Runs, End, Needs, RoutedOf, Rejection, DeadWriterNotice, CommandEffect;
    if s.writerOpen {
      SendEnds(s3, c);
      RegisterEnds(s, c, req, [Send(c)]);
      assert head + [Send(c)] == CommandSteps(s, c, req);
      SentEffect(s, c, req);
    } else {
      DeadWriterEnds(s3, c);
      RegisterEnds(s, c, req, [Send(c), Withdraw(c), Notify(c)]);
      assert head + [Send(c), Withdraw(c), Notify(c)] == CommandSteps(s, c, req);
      DeadEffect(s, c, req);
    }
  }

  // ---- giving up a handle ---------------------------------------------------------------------

  /** Taking a handle starts a cancel, on Unsubscribe or, once the session is ending, on teardown. */
  function CancelSteps(s: State, c: nat, sid: nat): seq<Step>
    requires c in s.clients
  {
    var take := if s.clients[c].ending then TeardownOne(c, sid) else CancelCommand(c, sid);
    if sid in s.clients[c].subs && s.pooled then [take, DropRoute(c), SendUnsubscribe(c)] else [take]
  }

  function CancelEffect(s: State, c: nat, sid: nat): State
    requires c in s.clients
  {
    var sess := s.clients[c];
    if sid !in sess.subs then s
    else
      var s' := s.(clients := s.clients[c := sess.(subs := sess.subs - {sid})]);
      if !s.pooled then s'
      else
        var d := sess.subs[sid];
        s'.(routing := s.routing - {d}, sent := if s.writerOpen then s.sent + [Unsubscribe(d)] else s.sent)
  }

  lemma CancelEnds(s: State, c: nat, sid: nat)
    requires AtIdle(s, c) && (s.clients[c].ending ==> sid in s.clients[c].subs)
    ensures Runs(s, CancelSteps(s, c, sid))
    ensures End(s, CancelSteps(s, c, sid)) == CancelEffect(s, c, sid)
  {
    var take := if s.clients[c].ending then TeardownOne(c, sid) else CancelCommand(c, sid);
    var s1 := DoTakeHandle(s, c, sid);
    assert Enabled(s, take) && Apply(s, take) == s1;
    TakeEffect(s, c, sid);
    hide Runs, End, Enabled, Apply, DoTakeHandle, CancelEffect;
    if sid in s.clients[c].subs && s.pooled {
      DropEnds(s1, c);
      StepThen(s, take, [DropRoute(c), SendUnsubscribe(c)]);
      assert [take] + [DropRoute(c), SendUnsubscribe(c)] == CancelSteps(s, c, sid);
    } else {
      NoSteps(s1);
      StepThen(s, take, []);
      assert [take] + [] == CancelSteps(s, c, sid);
    }
  }

  lemma TakeEffect(s: State, c: nat, sid: nat)
    requires AtIdle(s, c)
    ensures
      var s1 := DoTakeHandle(s, c, sid);
      if sid in s.clients[c].subs && s.pooled then
        var d := s.clients[c].subs[sid];
        && c in s1.clients && s1.clients[c].pc == Dropping(d)
        && At(s1, c, Idle).(routing := s1.routing - {d},
                            sent := if s1.writerOpen then s1.sent + [Unsubscribe(d)] else s1.sent)
           == CancelEffect(s, c, sid)
      else s1 == CancelEffect(s, c, sid)
  {
    var s1 := DoTakeHandle(s, c, sid);
    if sid in s.clients[c].subs {
      assert At(s1, c, Idle).clients == CancelEffect(s, c, sid).clients;
    }
  }

  lemma DropEnds(s: State, c: nat)
    requires c in s.clients && s.clients[c].pc.Dropping?
    ensures
      var d := s.clients[c].pc.id;
      && Runs(s, [DropRoute(c), SendUnsubscribe(c)])
      && End(s, [DropRoute(c), SendUnsubscribe(c)]) ==
         At(s, c, Idle).(routing := s.routing - {d}, sent := if s.writerOpen then s.sent + [Unsubscribe(d)] else s.sent)
  {
    hide Runs, End;
    var s1 := DoDropRoute(s, c);
    UnsendEnds(s1, c);
    StepThen(s, DropRoute(c), [SendUnsubscribe(c)]);
    assert [DropRoute(c)] + [SendUnsubscribe(c)] == [DropRoute(c), SendUnsubscribe(c)];
    assert DoSendUnsubscribe(s1, c).clients == At(s, c, Idle).clients;
  }

  lemma UnsendEnds(s: State, c: nat)
    requires c in s.clients && s.clients[c].pc.Unsending?
    ensures Runs(s, [SendUnsubscribe(c)]) && End(s, [SendUnsubscribe(c)]) == DoSendUnsubscribe(s, c)
  {
    hide DoSendUnsubscribe;
    NoSteps(DoSendUnsubscribe(s, c));
    StepThen(s, SendUnsubscribe(c), []);
    assert [SendUnsubscribe(c)] + [] == [SendUnsubscribe(c)];
  }

  /** Cancels one after the other. */
  function TeardownSteps(s: State, c: nat, order: seq<nat>): seq<Step>
    requires c in s.clients
  {
    if order == [] then []
    else
      var init, last := order[..|order| - 1], order[|order| - 1];
      TeardownSteps(s, c, init) + CancelSteps(TeardownEffect(s, c, init), c, last)
  }

  function TeardownEffect(s: State, c: nat, order: seq<nat>): (r: State)
    requires c in s.clients
    ensures c in r.clients
  {
    if order == [] then s
    else CancelEffect(TeardownEffect(s, c, order[..|order| - 1]), c, order[|order| - 1])
  }

  /** One more handle given up. */
  lemma TeardownMore(s: State, c: nat, order: seq<nat>, sid: nat)
    requires c in s.clients && Runs(s, TeardownSteps(s, c, order))
    requires End(s, TeardownSteps(s, c, order)) == TeardownEffect(s, c, order)
    requires var t := TeardownEffect(s, c, order); AtIdle(t, c) && (t.clients[c].ending ==> sid in t.clients[c].subs)
    ensures Runs(s, TeardownSteps(s, c, order + [sid]))
    ensures End(s, TeardownSteps(s, c, order + [sid])) == TeardownEffect(s, c, order + [sid])
    ensures TeardownEffect(s, c, order + [sid]) == CancelEffect(TeardownEffect(s, c, order), c, sid)
  {
    assert (order + [sid])[..|order|] == order;
    var t := TeardownEffect(s, c, order);
    CancelEnds(t, c, sid);
    RunThen(s, TeardownSteps(s, c, order), CancelSteps(t, c, sid));
    hide Runs, End, CancelSteps, CancelEffect;
  }

  lemma NothingTornDown(s: State, c: nat)
    requires c in s.clients
    ensures Runs(s, TeardownSteps(s, c, [])) && End(s, TeardownSteps(s, c, [])) == s == TeardownEffect(s, c, [])
  {
  }

  // ---- the connection's own steps ---------------------------------------------------------------

  lemma ParserIs(s: State)
    requires s.parserAlive && s.taken < |s.ret|
    ensures
      var (routing, out) := Route(s.routing, s.ret[s.taken]);
      && Enabled(s, ParserStep)
      && Apply(s, ParserStep) ==
         s.(routing := routing, taken := s.taken + 1, log := s.log + if out.Some? then [out.value] else [])
  {
    assert s.log + [] == s.log;
  }

  lemma ShutdownIs(s: State, order: seq<nat>)
    requires !s.pooled && DrainOrder(s.routing, order)
    ensures Enabled(s, ShutdownDrain(order))
    ensures Apply(s, ShutdownDrain(order)) ==
            s.(routing := map[], drained := true, log := s.log + DrainNotices(s.routing, order))
  {
    hide DrainNotices;
  }

  lemma DiesThen(s: State, rest: seq<Step>)
    requires s.writerOpen && Runs(s.(writerOpen := false), rest)
    ensures Runs(s, [WriterDies] + rest) && End(s, [WriterDies] + rest) == End(s.(writerOpen := false), rest)
  {
    hide Runs, End;
    StepThen(s, WriterDies, rest);
  }
}

/**
 The daemon's pool of agents, for one host. Every Fleet subscription runs a supervisor of its
 own for the host, so several may be at it at once; the pool holds one entry for the alias,
 which a registration replaces and the end of any session removes, whoever put it there.
 */
module AgentPool {
  import opened Wrappers
  import opened Supervisor
  import opened SupervisorTheorems

  /** The entry of the pool: which supervisor registered it, and what the agent said it serves. */
  datatype Agent = Agent(owner: nat, caps: seq<Capability>)

  /** `sups` are the supervisors ever begun for the host. An aborted one stays as it was. */
  datatype World = World(sups: map<nat, Sup>, aborted: set<nat>, pool: Option<Agent>)

  datatype Event =
    | Begin(i: nat, jump: bool, autoconnect: bool)
    | On(i: nat, input: Input)
    | Abort(i: nat) // the subscription is gone, and its supervisor with it, wherever it stood

  predicate Live(w: World, i: nat) {
    i in w.sups && i !in w.aborted
  }

  /** What the supervisor's event puts in the pool, if anything. */
  function Registers(s: Sup, input: Input): Option<seq<Capability>> {
    if Applicable(s.point, input) && input.DialDone? && input.dial.Established? then input.dial.agent else None
  }

  /** The event ends a session, and with it removes the host's entry. */
  predicate Cleans(s: Sup, input: Input) {
    s.point.Session? && !Next(s, input).point.Session?
  }

  function Step(w: World, e: Event): World {
    match e
    case Begin(i, jump, autoconnect) => if i in w.sups then w else w.(sups := w.sups[i := Start(jump, autoconnect)])
    case On(i, input) =>
      if !Live(w, i) then w
      else
        var s := w.sups[i];
        var put := Registers(s, input);
        var pool := if put.Some? then Some(Agent(i, put.value)) else if Cleans(s, input) then None else w.pool;
        w.(sups := w.sups[i := Next(s, input)], pool := pool)
    case Abort(i) => if i in w.sups then w.(aborted := w.aborted + {i}) else w
  }

  function Play(evs: seq<Event>): World {
    if evs == [] then World(map[], {}, None) else Step(Play(evs[..|evs| - 1]), evs[|evs| - 1])
  }

  /** The capabilities the supervisor's client last heard of. */
  function Advertised(s: Sup): seq<Capability> {
    Summarise(s.trace).advertised
  }

  /** The event replaces or removes the host's entry. */
  predicate Touches(w: World, e: Event) {
    e.On? && Live(w, e.i) && (Registers(w.sups[e.i], e.input).Some? || Cleans(w.sups[e.i], e.input))
  }

  // ---- one supervisor ---------------------------------------------------------------------

  predicate SupOk(s: Sup) {
    Inv(s) || ((s.point.Parked? || s.point.Exited?) && !s.registered && Advertised(s) == [])
  }

  lemma StartOk(jump: bool, autoconnect: bool)
    ensures SupOk(Start(jump, autoconnect)) && !Start(jump, autoconnect).registered
  {
    RunInv(autoconnect, []);
    SummariseSnoc([], Emit(AuthFailed));
    assert [] + [Emit(AuthFailed)] == [Emit(AuthFailed)];
    hide Summarise;
    assert Fold(Start(false, autoconnect), []) == Start(false, autoconnect);
  }

  lemma NextOk(s: Sup, input: Input)
    requires SupOk(s)
    ensures SupOk(Next(s, input))
  {
    if Inv(s) {
      StepInv(s, input);
      hide Inv, Next;
    } else if input.Act? {
      SummariseSnoc(s.trace, Consumed(input.action));
      SummariseSnoc(s.trace + [Consumed(input.action)], Emit(AuthFailed));
      hide Summarise, Inv;
    }
  }

  lemma RegisteredHolds(s: Sup)
    requires SupOk(s)
    ensures if s.registered then s.point.Session? && (s.point.shown == Connected || s.point.shown == Degraded)
            else Advertised(s) == []
  {
    hide Summarise;
  }

  lemma RegistersAdvertises(s: Sup, input: Input)
    requires Registers(s, input).Some?
    ensures Next(s, input).registered && Advertised(Next(s, input)) == Registers(s, input).value
  {
    SummariseSnoc(s.trace, Emit(Connected));
    SummariseSnoc(s.trace + [Emit(Connected)], Caps(input.dial.agent.value));
  }

  lemma HeldAdvertises(s: Sup, input: Input)
    requires s.point.Session? && Next(s, input).point.Session?
    ensures Next(s, input).registered == s.registered && Advertised(Next(s, input)) == Advertised(s)
  {
    hide Heartbeat, Summarise, Retry;
    if input.Tick? {
      BeatAdvertises(s, input.ok, input.late);
    }
  }

  lemma BeatAdvertises(s: Sup, ok: bool, late: nat)
    requires s.point.Session? && Heartbeat(s, ok, late).point.Session?
    ensures
      var t := Heartbeat(s, ok, late);
      t.registered == s.registered && Advertised(t) == Advertised(s)
  {
    hide Summarise, NextDue, TickTime;
    SummariseSnoc(s.trace, Beat(ok));
    SummariseSnoc(s.trace + [Beat(ok)], Emit(Connected));
    SummariseSnoc(s.trace + [Beat(ok)], Emit(Degraded));
    if !ok && s.point.misses + 1 >= DISCONNECTED_AT {
      SessionLeaves(s, ok, late);
    }
  }

  lemma SessionLeaves(s: Sup, ok: bool, late: nat)
    requires s.point.Session? && !ok && s.point.misses + 1 >= DISCONNECTED_AT
    ensures !Heartbeat(s, ok, late).point.Session?
  {
  }

  lemma FreshSession(s: Sup, input: Input)
    requires !s.point.Session? && !s.registered && Registers(s, input).None?
    ensures !Next(s, input).registered
  {
    hide Summarise;
  }

  /** Between registering and the session's end nothing else is advertised. */
  lemma SessionAdvertises(s: Sup, input: Input)
    requires SupOk(s) && Registers(s, input).None?
    ensures Next(s, input).registered <==> s.registered && !Cleans(s, input)
    ensures Next(s, input).registered ==> Advertised(Next(s, input)) == Advertised(s)
  {
    NextOk(s, input);
    RegisteredHolds(s);
    RegisteredHolds(Next(s, input));
    hide SupOk, Next, Advertised, Registers;
    if !s.point.Session? {
      FreshSession(s, input);
    } else if Next(s, input).point.Session? {
      HeldAdvertises(s, input);
    }
  }

  // ---- the pool's entry is its owner's -------------------------------------------------------

  /** Whatever is in the pool was put there by the session its owner holds, and advertised by it. */
  predicate PoolOk(w: World) {
    w.pool.Some? ==>
      var a := w.pool.value;
      a.owner in w.sups && w.sups[a.owner].registered && Advertised(w.sups[a.owner]) == a.caps
  }

  predicate WorldOk(w: World) {
    (forall i :: i in w.sups ==> SupOk(w.sups[i])) && PoolOk(w)
  }

  lemma StepOk(w: World, e: Event)
    requires WorldOk(w)
    ensures WorldOk(Step(w, e))
  {
    hide SupOk, Registers, Cleans, Advertised, Start, Next;
    match e
    case Begin(_, jump, autoconnect) => StartOk(jump, autoconnect);
    case On(i, input) =>
      if Live(w, i) {
        NextOk(w.sups[i], input);
        if Registers(w.sups[i], input).Some? {
          RegistersAdvertises(w.sups[i], input);
        } else {
          SessionAdvertises(w.sups[i], input);
        }
      }
    case Abort(_) =>
  }

  lemma {:induction false} PlayOk(evs: seq<Event>)
    ensures WorldOk(Play(evs))
  {
    hide WorldOk, Step;
    if evs == [] {
      NothingOk();
    } else {
      PlayOk(evs[..|evs| - 1]);
      StepOk(Play(evs[..|evs| - 1]), evs[|evs| - 1]);
    }
  }

  lemma NothingOk()
    ensures WorldOk(World(map[], {}, None))
  {
  }

  predicate Owns(w: World, i: nat) {
    w.pool.Some? && w.pool.value.owner == i
  }

  /**
   In every run, whatever any number of supervisors do, an agent in the pool is one that its
   owner's session registered; that session is still held, unless its supervisor was aborted in
   it; and what the agent serves is what that supervisor's client was told.
   */
  lemma PoolEntryOwned(evs: seq<Event>, i: nat)
    requires Owns(Play(evs), i)
    ensures
      var w := Play(evs);
      && i in w.sups && w.sups[i].registered && w.sups[i].point.Session?
      && (w.sups[i].point.shown == Connected || w.sups[i].point.shown == Degraded)
      && Advertised(w.sups[i]) == w.pool.value.caps
  {
    hide Play, SupOk, Advertised;
    PlayOk(evs);
    RegisteredHolds(Play(evs).sups[i]);
  }

  // ---- the exact condition ------------------------------------------------------------------

  /** One event, as one supervisor sees it that has registered an agent and still holds the session. */
  lemma KeepsOwning(w: World, e: Event, i: nat)
    requires WorldOk(w) && i in Step(w, e).sups && Step(w, e).sups[i].registered
    requires !(e.On? && e.i == i && Live(w, i) && Registers(w.sups[i], e.input).Some?)
    ensures i in w.sups && w.sups[i].registered && Advertised(Step(w, e).sups[i]) == Advertised(w.sups[i])
    ensures Owns(Step(w, e), i) <==> Owns(w, i) && !(e.i != i && Touches(w, e))
    ensures e.i == i ==> !Touches(w, e)
  {
    hide SupOk, Registers, Cleans, Advertised, Start, Next;
    if e.Begin? {
      StartOk(e.jump, e.autoconnect);
    } else if e.On? && e.i == i && Live(w, i) {
      SessionAdvertises(w.sups[i], e.input);
    }
  }

  /** No supervisor but `i` replaced or removed the host's entry from event `from` on. */
  predicate Untouched(evs: seq<Event>, i: nat, from: nat) {
    forall m {:trigger evs[m]} :: from <= m < |evs| ==> evs[m].i == i || !Touches(Play(evs[..m]), evs[m])
  }

  lemma UntouchedSnoc(evs: seq<Event>, i: nat, from: nat)
    requires evs != [] && from < |evs|
    ensures
      var init, e := evs[..|evs| - 1], evs[|evs| - 1];
      Untouched(evs, i, from) <==> Untouched(init, i, from) && (e.i == i || !Touches(Play(init), e))
  {
    hide Play, Touches;
    var init := evs[..|evs| - 1];
    assert forall m :: 0 <= m < |init| ==> init[m] == evs[m] && init[..m] == evs[..m];
  }

  /** Event `k` is supervisor `i` registering an agent that serves `caps`; it has held that session since. */
  predicate RegisteredAt(evs: seq<Event>, i: nat, k: nat, caps: seq<Capability>) {
    && k < |evs| && evs[k].On? && evs[k].i == i && Live(Play(evs[..k]), i)
    && Registers(Play(evs[..k]).sups[i], evs[k].input) == Some(caps)
    && forall m {:trigger evs[m]} :: k < m < |evs| && evs[m].i == i ==> !Touches(Play(evs[..m]), evs[m])
  }

  lemma StillRegistered(evs: seq<Event>, i: nat, k: nat, caps: seq<Capability>)
    requires evs != [] && RegisteredAt(evs[..|evs| - 1], i, k, caps)
    requires var e := evs[|evs| - 1]; e.i == i ==> !Touches(Play(evs[..|evs| - 1]), e)
    ensures RegisteredAt(evs, i, k, caps)
  {
    hide Play, Touches, Registers;
    var init := evs[..|evs| - 1];
    assert forall m :: 0 <= m < |init| ==> init[m] == evs[m] && init[..m] == evs[..m];
  }

  /**
   The exact condition, in every run. A supervisor with an agent registered put it there at some
   event `k`, has held that session since, and has advertised what that agent serves. The entry
   in the pool is still its own if and only if no other supervisor of the host has registered an
   agent or ended a session since.
   */
  lemma {:induction false} OwnEntryIff(evs: seq<Event>, i: nat) returns (k: nat)
    requires i in Play(evs).sups && Play(evs).sups[i].registered
    ensures RegisteredAt(evs, i, k, Advertised(Play(evs).sups[i]))
    ensures Owns(Play(evs), i) <==> Untouched(evs, i, k + 1)
  {
    assert evs != [];
    var init, e := evs[..|evs| - 1], evs[|evs| - 1];
    var w := Play(init);
    PlayOk(init);
    PlaySnoc(evs);
    if e.On? && e.i == i && Live(w, i) && Registers(w.sups[i], e.input).Some? {
      k := |init|;
      JustRegistered(w, e.i, e.input);
      NoneAfter(evs, i);
      hide Play, WorldOk, Registers, Touches, Untouched, Advertised, Step;
    } else {
      KeepsOwning(w, e, i);
      hide Play, WorldOk, Registers, Touches, Untouched, Advertised, Step, RegisteredAt;
      k := OwnEntryIff(init, i);
      assert k < |init| by { BeforeEnd(init, i, k, Advertised(w.sups[i])); }
      UntouchedSnoc(evs, i, k + 1);
      StillRegistered(evs, i, k, Advertised(w.sups[i]));
    }
  }

  lemma BeforeEnd(evs: seq<Event>, i: nat, k: nat, caps: seq<Capability>)
    requires RegisteredAt(evs, i, k, caps)
    ensures k < |evs|
  {
  }

  lemma PlaySnoc(evs: seq<Event>)
    requires evs != []
    ensures Play(evs) == Step(Play(evs[..|evs| - 1]), evs[|evs| - 1])
  {
  }

  lemma NoneAfter(evs: seq<Event>, i: nat)
    ensures Untouched(evs, i, |evs|)
  {
  }

  lemma JustRegistered(w: World, i: nat, input: Input)
    requires Live(w, i) && Registers(w.sups[i], input).Some?
    ensures var w' := Step(w, On(i, input));
      Owns(w', i) && i in w'.sups && Registers(w.sups[i], input) == Some(Advertised(w'.sups[i]))
  {
    RegistersAdvertises(w.sups[i], input);
  }

  /** What a client asking for the host would find. */
  function Serves(w: World): seq<Capability> {
    if w.pool.Some? then w.pool.value.caps else []
  }

  /**
   With one Fleet subscription the pool is that subscription's: there is an agent exactly while
   its supervisor has one registered, and it serves exactly what the client was told.
   */
  lemma {:induction false} AloneAgrees(evs: seq<Event>, i: nat)
    requires forall e :: e in evs ==> e.i == i
    ensures
      var w := Play(evs);
      && w.sups.Keys <= {i}
      && (i in w.sups ==> (w.pool.Some? <==> w.sups[i].registered) && Serves(w) == Advertised(w.sups[i]))
      && (i !in w.sups ==> w.pool.None?)
  {
    if evs != [] {
      var init, e := evs[..|evs| - 1], evs[|evs| - 1];
      AloneAgrees(init, i);
      PlayOk(init);
      PlayOk(evs);
      hide Play, SupOk, Registers, Cleans, Advertised, Start, Next;
      AloneStep(Play(init), e, i);
    }
  }

  lemma AloneStep(w: World, e: Event, i: nat)
    requires WorldOk(w) && WorldOk(Step(w, e)) && e.i == i && w.sups.Keys <= {i}
    requires i in w.sups ==> (w.pool.Some? <==> w.sups[i].registered)
    requires i !in w.sups ==> w.pool.None?
    ensures
      var w' := Step(w, e);
      && w'.sups.Keys <= {i}
      && (i in w'.sups ==> (w'.pool.Some? <==> w'.sups[i].registered) && Serves(w') == Advertised(w'.sups[i]))
      && (i !in w'.sups ==> w'.pool.None?)
  {
    hide SupOk, Registers, Cleans, Advertised, Start, Next;
    if e.Begin? {
      StartOk(e.jump, e.autoconnect);
    } else if e.On? && Live(w, i) {
      if Registers(w.sups[i], e.input).Some? {
        RegistersAdvertises(w.sups[i], e.input);
      } else {
        SessionAdvertises(w.sups[i], e.input);
      }
    }
    var w' := Step(w, e);
    if i in w'.sups {
      RegisteredHolds(w'.sups[i]);
    }
  }

  // ---- runs in which the two come apart ---------------------------------------------------------

  lemma PlayNext(evs: seq<Event>, n: nat)
    requires n < |evs|
    ensures Play(evs[..n + 1]) == Step(Play(evs[..n]), evs[n])
  {
    assert evs[..n + 1][..n] == evs[..n];
  }

  function Connects(i: nat, caps: seq<Capability>): Event {
    On(i, DialDone(Established(Some(caps), 0), 0))
  }

  /** Two clients subscribe to the fleet, both are connected to the host, and the first disconnects. */
  function TwoClients(caps: seq<Capability>): seq<Event> {
    [Begin(0, false, true), Begin(1, false, true), Connects(0, caps), Connects(1, caps), On(0, Act(Disconnect, 0))]
  }

  function Dialled(): Sup {
    Start(false, true)
  }

  function Connected1(caps: seq<Capability>): Sup {
    Next(Dialled(), DialDone(Established(Some(caps), 0), 0))
  }

  lemma ConnectedIs(caps: seq<Capability>)
    ensures Registers(Dialled(), DialDone(Established(Some(caps), 0), 0)) == Some(caps)
    ensures var s := Connected1(caps);
      s.registered && s.point.Session? && s.point.shown == Connected && Advertised(s) == caps
      && Registers(s, Act(Disconnect, 0)).None? && Cleans(s, Act(Disconnect, 0))
  {
    RegistersAdvertises(Dialled(), DialDone(Established(Some(caps), 0), 0));
    hide Summarise;
  }

  /**
   The second client's registration replaces the first's agent, and the first's disconnect then
   takes the second's away: it is still shown Connected, with capabilities that nothing serves.
   */
  lemma SharedEntryLost(caps: seq<Capability>)
    ensures
      var evs := TwoClients(caps);
      var mid, w := Play(evs[..4]), Play(evs);
      && 0 in mid.sups && mid.sups[0].registered && Advertised(mid.sups[0]) == caps && mid.pool == Some(Agent(1, caps))
      && 1 in w.sups && w.sups[1].registered && Advertised(w.sups[1]) == caps && w.pool == None
      && w.sups[1].point.Session? && w.sups[1].point.shown == Connected && Live(w, 1)
  {
    var evs := TwoClients(caps);
    ConnectedIs(caps);
    hide Play, Registers, Cleans, Advertised, Next;
    var w1 := World(map[0 := Dialled()], {}, None);
    var w2 := World(map[0 := Dialled(), 1 := Dialled()], {}, None);
    var w3 := World(map[0 := Connected1(caps), 1 := Dialled()], {}, Some(Agent(0, caps)));
    var w4 := World(map[0 := Connected1(caps), 1 := Connected1(caps)], {}, Some(Agent(1, caps)));
    assert evs[..0] == [];
    assert Play([]) == World(map[], {}, None) by { PlayNothing(); }
    PlayNext(evs, 0);
    assert Play(evs[..1]) == w1;
    PlayNext(evs, 1);
    assert Play(evs[..2]) == w2;
    PlayNext(evs, 2);
    assert Play(evs[..3]) == w3;
    PlayNext(evs, 3);
    assert Play(evs[..4]) == w4;
    PlayNext(evs, 4);
    assert evs[..5] == evs;
  }

  lemma PlayNothing()
    ensures Play([]) == World(map[], {}, None)
  {
  }

  /** A client connects to the host and goes away; another subscribes and leaves the host alone. */
  function Abandoned(caps: seq<Capability>): seq<Event> {
    [Begin(0, false, true), Connects(0, caps), Abort(0), Begin(1, false, false)]
  }

  /** The first client's agent stays in the pool, though no live supervisor holds a session. */
  lemma EntryOutlivesClient(caps: seq<Capability>)
    ensures
      var w := Play(Abandoned(caps));
      && w.pool == Some(Agent(0, caps)) && !Live(w, 0)
      && Live(w, 1) && w.sups[1].point == Idle && Advertised(w.sups[1]) == []
      && forall i :: Live(w, i) ==> i == 1
  {
    var evs := Abandoned(caps);
    ConnectedIs(caps);
    StartOk(false, false);
    RegisteredHolds(Start(false, false));
    hide Play, Registers, Cleans, Advertised, Next, SupOk;
    var w1 := World(map[0 := Dialled()], {}, None);
    var w2 := World(map[0 := Connected1(caps)], {}, Some(Agent(0, caps)));
    assert evs[..0] == [];
    assert Play([]) == World(map[], {}, None) by { PlayNothing(); }
    PlayNext(evs, 0);
    assert Play(evs[..1]) == w1;
    PlayNext(evs, 1);
    assert Play(evs[..2]) == w2;
    PlayNext(evs, 2);
    assert Play(evs[..3]) == w2.(aborted := {0});
    PlayNext(evs, 3);
    assert evs[..4] == evs;
  }

  // ---- supervisors apart from the pool -----------------------------------------------------------

  /** What reached supervisor `i`: the events at it while it was live. */
  function Reached(evs: seq<Event>, i: nat): seq<Input> {
    if evs == [] then []
    else
      var init, e := evs[..|evs| - 1], evs[|evs| - 1];
      Reached(init, i) + if e.On? && e.i == i && Live(Play(init), i) then [e.input] else []
  }

  /** Event `k` began supervisor `i`. */
  ghost predicate Began(evs: seq<Event>, i: nat, k: nat, jump: bool, autoconnect: bool) {
    k < |evs| && evs[k] == Begin(i, jump, autoconnect)
    && forall j :: 0 <= j < k ==> !(evs[j].Begin? && evs[j].i == i)
  }

  lemma BeganStill(evs: seq<Event>, i: nat, k: nat, jump: bool, autoconnect: bool)
    requires evs != [] && Began(evs[..|evs| - 1], i, k, jump, autoconnect)
    ensures Began(evs, i, k, jump, autoconnect)
  {
    var init := evs[..|evs| - 1];
    assert forall j :: 0 <= j < |init| ==> evs[j] == init[j];
  }

  lemma FoldSnoc(s: Sup, inputs: seq<Input>, input: Input)
    ensures Fold(s, inputs + [input]) == Next(Fold(s, inputs), input)
  {
    hide Next;
    assert (inputs + [input])[..|inputs|] == inputs;
  }

  /**
   In every run, whatever the others do, a supervisor begins as it was begun first and then goes
   where its own events take it; those after its abort do not count. A supervisor that is not there
   was never begun.
   */
  lemma {:induction false} SupervisorsApart(evs: seq<Event>, i: nat)
    ensures
      i in Play(evs).sups ==> exists k: nat, jump, autoconnect ::
        Began(evs, i, k, jump, autoconnect) && Play(evs).sups[i] == Fold(Start(jump, autoconnect), Reached(evs, i))
    ensures i !in Play(evs).sups ==> Reached(evs, i) == [] && forall e :: e in evs ==> !(e.Begin? && e.i == i)
    ensures i in Play(evs).aborted ==> i in Play(evs).sups
  {
    if evs != [] {
      var init, e := evs[..|evs| - 1], evs[|evs| - 1];
      SupervisorsApart(init, i);
      StepAt(Play(init), e, i);
      hide Start, Next, Step, Fold, Began;
      assert evs == init + [e];
      assert Reached(init, i) + [] == Reached(init, i);
      if i in Play(init).sups {
        var k: nat, jump, autoconnect :|
          Began(init, i, k, jump, autoconnect) && Play(init).sups[i] == Fold(Start(jump, autoconnect), Reached(init, i));
        BeganStill(evs, i, k, jump, autoconnect);
        if e.On? && e.i == i && Live(Play(init), i) {
          FoldSnoc(Start(jump, autoconnect), Reached(init, i), e.input);
        }
      } else if e.Begin? && e.i == i {
        BeganNow(init, e);
        NothingYet(Start(e.jump, e.autoconnect));
      }
    }
  }

  lemma StepAt(w: World, e: Event, i: nat)
    requires i in w.aborted ==> i in w.sups
    ensures
      var w' := Step(w, e);
      && (i in w'.sups <==> i in w.sups || (e.Begin? && e.i == i))
      && (i in w.sups ==>
            w'.sups[i] == if e.On? && e.i == i && Live(w, i) then Next(w.sups[i], e.input) else w.sups[i])
      && (i !in w.sups && e.Begin? && e.i == i ==> w'.sups[i] == Start(e.jump, e.autoconnect))
      && (i in w'.aborted ==> i in w'.sups)
  {
    hide Start, Next, Registers, Cleans;
  }

  lemma NothingYet(s: Sup)
    ensures Fold(s, []) == s
  {
  }

  lemma BeganNow(init: seq<Event>, e: Event)
    requires e.Begin? && forall x :: x in init ==> !(x.Begin? && x.i == e.i)
    ensures Began(init + [e], e.i, |init|, e.jump, e.autoconnect)
  {
    assert forall j :: 0 <= j < |init| ==> (init + [e])[j] == init[j];
  }
}

/** What every run of the client guarantees, and what the daemon may rely on. */
module AppTheorems {
  import opened Wrappers
  import opened Routing
  import opened KeyParser
  import opened AppModel
  import opened AppInvariant
  import Mux
  import Agreement = MuxAgreement

  // ---- ids ------------------------------------------------------------------------------

  /** Every subscription id in use: tabs, tabs being opened, the four standing ones, the log. */
  function InUse(s: AppState): seq<nat> {
    TabIds(s) + [s.docker.sub, s.ports.sub, s.processes.sub, s.fleet.sub]
    + if s.docker.logs.Some? then [s.docker.logs.value] else []
  }

  lemma DistinctConcat(a: seq<nat>, b: seq<nat>)
    requires Distinct(a) && Distinct(b) && forall x :: x in a ==> x !in b
    ensures Distinct(a + b)
  {
    forall i, j | 0 <= i < j < |a + b| ensures (a + b)[i] != (a + b)[j] {
      if i < |a| <= j {
        assert a[i] in a && b[j - |a|] in b;
      }
    }
  }

  lemma InUseDistinct(s: AppState)
    requires Inv(s)
    ensures Distinct(InUse(s))
    ensures forall x :: x in InUse(s) ==> x < s.nextId && x !in s.actions
  {
    hide Tracked, Wired, TabIds;
    var standing := [s.docker.sub, s.ports.sub, s.processes.sub, s.fleet.sub];
    var log := if s.docker.logs.Some? then [s.docker.logs.value] else [];
    assert Distinct(standing) && Distinct(log);
    DistinctConcat(TabIds(s), standing);
    DistinctConcat(TabIds(s) + standing, log);
  }

  /**
   In every run, all ids in use, for subscriptions, panes being opened and requests in flight,
   are pairwise different and were drawn from the counter.
   */
  lemma IdsDistinct(pane: nat, tiny: bool, evs: seq<AppEvent>)
    ensures
      var s := Run(Launch(pane, tiny), evs);
      && Distinct(InUse(s))
      && (forall x :: x in InUse(s) ==> x < s.nextId)
      && (forall x :: x in s.actions ==> x < s.nextId && x !in InUse(s))
  {
    hide Run, InUse, TabIds, Tracked, Wired;
    RunInv(pane, tiny, evs);
    InUseDistinct(Run(Launch(pane, tiny), evs));
  }

  /** The conditions under which an event for `sub` could be taken. */
  predicate Claims(s: AppState, sub: nat, branch: Branch) {
    match branch
    case ToPane(i) => i < |s.tabs.panes| && s.tabs.panes[i].sub == sub
    case ToDocker => sub == s.docker.sub
    case ToLogs => s.docker.logs == Some(sub)
    case ToPorts => sub == s.ports.sub
    case ToProcesses => sub == s.processes.sub
    case ToFleet => sub == s.fleet.sub
    case Dropped => false
  }

  /** Where in `InUse` a claim stands, after `n` tabs. */
  function Slot(n: nat, branch: Branch): nat {
    match branch
    case ToPane(i) => i
    case ToDocker => n
    case ToPorts => n + 1
    case ToProcesses => n + 2
    case ToFleet => n + 3
    case ToLogs => n + 4
    case Dropped => 0
  }

  lemma ClaimsAt(s: AppState, sub: nat, branch: Branch)
    requires Claims(s, sub, branch)
    ensures Slot(|TabIds(s)|, branch) < |InUse(s)| && InUse(s)[Slot(|TabIds(s)|, branch)] == sub
    ensures branch.ToPane? ==> branch.index < |TabIds(s)|
  {
  }

  /** In every run, at most one handler can claim an event, and it is the one that gets it. */
  lemma OneBranch(pane: nat, tiny: bool, evs: seq<AppEvent>, sub: nat, branch: Branch)
    requires Claims(Run(Launch(pane, tiny), evs), sub, branch)
    ensures BranchOf(Run(Launch(pane, tiny), evs), sub) == branch
  {
    hide Run;
    var s := Run(Launch(pane, tiny), evs);
    IdsDistinct(pane, tiny, evs);
    hide Launch;
    BranchClaims(s, sub, branch);
    ClaimsAt(s, sub, branch);
    ClaimsAt(s, sub, BranchOf(s, sub));
    hide InUse, BranchOf;
    var j, k := Slot(|TabIds(s)|, branch), Slot(|TabIds(s)|, BranchOf(s, sub));
    assert j == k by { assert InUse(s)[j] == InUse(s)[k]; }
  }

  lemma BranchClaims(s: AppState, sub: nat, branch: Branch)
    requires Claims(s, sub, branch)
    ensures Claims(s, sub, BranchOf(s, sub))
  {
  }

  // ---- the wire ---------------------------------------------------------------------------

  /** What the client's messages mean for its subscription ids. */
  function Uses(sent: seq<Wire>): seq<Agreement.Use> {
    if sent == [] then []
    else
      Uses(sent[..|sent| - 1]) +
      match sent[|sent| - 1]
      case Subscribe(id, _, _) => [Agreement.Opens(id)]
      case Attach(_, id) => [Agreement.Opens(id)]
      case Cancel(id) => [Agreement.Closes(id)]
      case _ => []
  }

  function LiveAfterAll(live: set<nat>, uses: seq<Agreement.Use>): set<nat>
    decreases uses
  {
    if uses == [] then live else LiveAfterAll(Agreement.LiveAfter(live, uses[0]), uses[1..])
  }

  lemma {:induction false} DisciplinedConcat(live: set<nat>, a: seq<Agreement.Use>, b: seq<Agreement.Use>)
    ensures Agreement.Disciplined(live, a + b) <==>
            Agreement.Disciplined(live, a) && Agreement.Disciplined(LiveAfterAll(live, a), b)
    ensures LiveAfterAll(live, a + b) == LiveAfterAll(LiveAfterAll(live, a), b)
    decreases a
  {
    if a == [] {
      assert a + b == b;
    } else {
      assert (a + b)[1..] == a[1..] + b;
      DisciplinedConcat(Agreement.LiveAfter(live, a[0]), a[1..], b);
    }
  }

  lemma {:induction false} TrackedUses(sent: seq<Wire>)
    ensures Tracked(sent).ok <==> Agreement.Disciplined({}, Uses(sent))
    ensures Tracked(sent).live == LiveAfterAll({}, Uses(sent))
  {
    if sent != [] {
      var init, w := sent[..|sent| - 1], sent[|sent| - 1];
      TrackedUses(init);
      var last: seq<Agreement.Use> :=
        match w
        case Subscribe(id, _, _) => [Agreement.Opens(id)]
        case Attach(_, id) => [Agreement.Opens(id)]
        case Cancel(id) => [Agreement.Closes(id)]
        case _ => [];
      DisciplinedConcat({}, Uses(init), last);
      LastUse(LiveAfterAll({}, Uses(init)), last);
    }
  }

  lemma LastUse(live: set<nat>, last: seq<Agreement.Use>)
    requires |last| <= 1
    ensures LiveAfterAll(live, last) == if last == [] then live else Agreement.LiveAfter(live, last[0])
    ensures Agreement.Disciplined(live, last) <==> (last == [] || !(last[0].Opens? && last[0].id in live))
  {
    if last != [] {
      assert last[1..] == [];
    }
  }

  /**
   In every run, the client never subscribes or attaches under an id the daemon still holds
   open for it; and the daemon holds open every subscription the client shows.
   */
  lemma WireDisciplined(pane: nat, tiny: bool, evs: seq<AppEvent>)
    ensures
      var s := Run(Launch(pane, tiny), evs);
      var open := LiveAfterAll({}, Uses(s.sent));
      && Agreement.Disciplined({}, Uses(s.sent))
      && (forall x :: x in InUse(s) && x !in OpeningSubs(s.tabs.opening) ==> x in open)
  {
    hide Run, Launch, LiveAfterAll, Agreement.Disciplined;
    var s := Run(Launch(pane, tiny), evs);
    RunInv(pane, tiny, evs);
    TrackedUses(s.sent);
    hide Tracked, Uses;
    forall x | x in InUse(s) && x !in OpeningSubs(s.tabs.opening) ensures x in Tracked(s.sent).live {
      assert x in TabIds(s) ==> x in PaneSubs(s.tabs.panes);
    }
  }

  // ---- discharging the daemon's assumption ----------------------------------------------------

  /** `part` is `whole` with some openings left out: the subscriptions other hosts and the daemon itself serve. */
  ghost predicate Thinned(part: seq<Agreement.Use>, whole: seq<Agreement.Use>)
    decreases whole
  {
    if whole == [] then part == []
    else
      || (part != [] && part[0] == whole[0] && Thinned(part[1..], whole[1..]))
      || (whole[0].Opens? && Thinned(part, whole[1..]))
  }

  /** Leaving out openings keeps the discipline. */
  lemma {:induction false} ThinnedDisciplined(part: seq<Agreement.Use>, whole: seq<Agreement.Use>,
                                              fewer: set<nat>, live: set<nat>)
    requires Thinned(part, whole) && fewer <= live && Agreement.Disciplined(live, whole)
    ensures Agreement.Disciplined(fewer, part)
    decreases whole
  {
    if whole != [] {
      var live' := Agreement.LiveAfter(live, whole[0]);
      if part != [] && part[0] == whole[0] && Thinned(part[1..], whole[1..]) {
        ThinnedDisciplined(part[1..], whole[1..], Agreement.LiveAfter(fewer, whole[0]), live');
      } else {
        ThinnedDisciplined(part, whole[1..], fewer, live');
      }
    }
  }

  datatype Client = Client(pane: nat, tiny: bool, evs: seq<AppEvent>)

  function SentBy(client: Client): seq<Wire> {
    Run(Launch(client.pane, client.tiny), client.evs).sent
  }

  lemma {:induction false} UsesPrefix(sent: seq<Wire>, n: nat)
    requires n <= |sent|
    ensures Uses(sent[..n]) <= Uses(sent)
  {
    if n < |sent| {
      UsesPrefix(sent[..|sent| - 1], n);
      assert sent[..|sent| - 1][..n] == sent[..n];
    } else {
      assert sent[..n] == sent;
    }
  }

  /** The part of a run's messages that a session has received is disciplined too. */
  lemma ReceivedDisciplined(client: Client, received: seq<Wire>)
    requires received <= SentBy(client)
    ensures Agreement.Disciplined({}, Uses(received))
  {
    hide Run, Agreement.Disciplined, Uses;
    var sent := SentBy(client);
    WireDisciplined(client.pane, client.tiny, client.evs);
    assert sent[..|received|] == received;
    UsesPrefix(sent, |received|);
    DisciplinedConcat({}, Uses(received), Uses(sent)[|Uses(received)|..]);
    assert Uses(received) + Uses(sent)[|Uses(received)|..] == Uses(sent);
  }

  /** Session `c` was given what its client sent, up to some message, less what other hosts serve. */
  ghost predicate Fed(steps: seq<Mux.Step>, c: nat, client: Client, received: seq<Wire>) {
    received <= SentBy(client) && Thinned(Agreement.Uses(steps, c), Uses(received))
  }

  /**
   The assumption of the agent's table agreement and teardown theorems, discharged: if what every
   session has received about a host so far comes from a run of this client, no session reuses a
   live id.
   */
  lemma ClientsNeverReuse(alias: string, caps: set<Capability>, steps: seq<Mux.Step>, clients: nat -> Client,
                          received: nat -> seq<Wire>)
    requires Mux.Runs(Mux.Init(alias, caps), steps)
    requires forall c :: Fed(steps, c, clients(c), received(c))
    ensures Agreement.NoReuse(Mux.Init(alias, caps), steps)
  {
    hide Mux.Runs, Agreement.Disciplined, Agreement.Uses, Uses, Thinned, SentBy, Agreement.NoReuse;
    forall c ensures Agreement.Disciplined({}, Agreement.Uses(steps, c)) {
      assert Fed(steps, c, clients(c), received(c));
      ReceivedDisciplined(clients(c), received(c));
      ThinnedDisciplined(Agreement.Uses(steps, c), Uses(received(c)), {}, {});
    }
    var none: nat -> set<nat> := c => {};
    Agreement.DisciplineSuffices(Mux.Init(alias, caps), steps, none);
  }

  /**
   End to end: with these clients, however far each has got, the daemon's table and its sessions'
   handles agree, and a torn-down session leaves nothing.
   */
  lemma AgreementEndToEnd(alias: string, caps: set<Capability>, steps: seq<Mux.Step>, clients: nat -> Client,
                          received: nat -> seq<Wire>, c: nat, sid: nat, d: nat)
    requires Mux.Runs(Mux.Init(alias, caps), steps)
    requires forall c :: Fed(steps, c, clients(c), received(c))
    requires Agreement.Attached(Mux.End(Mux.Init(alias, caps), steps))
    ensures
      var s := Mux.End(Mux.Init(alias, caps), steps);
      && (Agreement.Entry(s, c, sid, d) <==> Agreement.Known(s, c, sid, d))
      && (Mux.AtIdle(s, c) && s.clients[c].ending && s.clients[c].subs == map[] ==>
            !(d in s.routing && s.routing[d].client == c && s.routing[d].kind == Subscription))
  {
    hide Mux.Runs, Mux.End, Fed, Agreement.NoReuse, Agreement.Entry, Agreement.Known;
    ClientsNeverReuse(alias, caps, steps, clients, received);
    Agreement.TableAgreement(alias, caps, steps, c, sid, d);
    var s := Mux.End(Mux.Init(alias, caps), steps);
    if Mux.AtIdle(s, c) && s.clients[c].ending && s.clients[c].subs == map[] {
      Agreement.TeardownComplete(alias, caps, steps, c, d);
    }
  }
}

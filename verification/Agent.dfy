/** The far side: the agent's dispatch loop with its table of forwarders, and the forwarder that polls an engine. */
module Agent {
  import opened Wrappers
  import opened Routing
  import Mux

  // ---- dispatch ----------------------------------------------------------------------

  /** What the agent reads: a message of its own protocol version, or a frame of another. */
  datatype Inbound = Current(m: ToAgent) | OtherVersion

  /** The messages ahead of the first frame of another version. */
  function Accepted(input: seq<Inbound>): seq<ToAgent> {
    if input == [] || input[0].OtherVersion? then [] else [input[0].m] + Accepted(input[1..])
  }

  lemma {:induction false} AcceptedSnoc(input: seq<Inbound>, k: nat)
    requires k < |input| && OtherVersion !in input[..k]
    ensures Accepted(input[..k + 1]) == Accepted(input[..k]) + if input[k].Current? then [input[k].m] else []
    ensures input[k].OtherVersion? ==> Accepted(input) == Accepted(input[..k])
    decreases k
  {
    if k == 0 {
      assert input[..1][1..] == [];
    } else {
      var rest := input[1..];
      assert input[..k + 1][1..] == rest[..k] && input[..k][1..] == rest[..k - 1];
      assert forall x :: x in rest[..k - 1] ==> x in input[..k];
      assert input[0] in input[..k];
      AcceptedSnoc(rest, k - 1);
    }
  }

  class Server {
    /** The ids whose forwarder is running. */
    var agentSubs: set<nat>
    /** One-shot actions under way; each was spawned on its own. */
    var running: map<nat, Body>
    /** Forwarders started, and forwarders told to stop, in order. */
    ghost var started: seq<nat>
    ghost var aborted: seq<nat>

    /** Every forwarder started was told to stop once, or is running. */
    ghost predicate Balanced()
      reads this
    {
      multiset(started) == multiset(aborted) + multiset(agentSubs)
    }

    constructor ()
      ensures agentSubs == {} && running == map[] && started == [] && aborted == [] && Balanced()
    {
      agentSubs, running := {}, map[];
      started, aborted := [], [];
    }

    /**
     A subscription starts a forwarder, in place of one that runs under its id; an action is under way
     on its own; an Unsubscribe stops the forwarder under its id, if there is one.
     */
    method HandleEnvelope(m: ToAgent)
      modifies this
      ensures agentSubs == Mux.Replay1(old(agentSubs), m)
      ensures running == Mux.Running1(old(running), m)
      ensures (set d | d in started) == Mux.Spawned1((set d | d in old(started)), m)
      ensures var subscribes := m.Submit? && !m.body.DockerAction?;
        && agentSubs == (if subscribes then old(agentSubs) + {m.id}
                         else if m.Unsubscribe? then old(agentSubs) - {m.id} else old(agentSubs))
        && running == (if m.Submit? && m.body.DockerAction? then old(running)[m.id := m.body] else old(running))
        && started == old(started) + (if subscribes then [m.id] else [])
        && aborted == old(aborted) + if (subscribes || m.Unsubscribe?) && m.id in old(agentSubs) then [m.id] else []
      ensures old(Balanced()) ==> Balanced()
    {
      match m
      case Submit(id, body) =>
        if KindOf(body) == Subscription {
          if id in agentSubs {
            agentSubs := agentSubs - {id};
            aborted := aborted + [id];
          }
          agentSubs := agentSubs + {id};
          started := started + [id];
        } else {
          running := running[id := body];
        }
      case Unsubscribe(id) =>
        if id in agentSubs {
          agentSubs := agentSubs - {id};
          aborted := aborted + [id];
        }
    }

    /**
     The read loop, to the end of the input or the first frame of another version; then every
     forwarder still running, `last` of them, is told to stop. What is running then is what the
     transition system's queue amounts to.
     */
    method Serve(input: seq<Inbound>) returns (mismatch: bool, ghost last: seq<nat>)
      modifies this
      ensures mismatch <==> OtherVersion in input
      ensures agentSubs == {}
      ensures NoDuplicates(last) && forall d :: d in last <==> d in Mux.Replay(old(agentSubs), Accepted(input))
      ensures |last| <= |aborted| && aborted[|aborted| - |last|..] == last
      ensures old(Balanced()) ==> multiset(started) == multiset(aborted)
    {
      hide Mux.Replay, Accepted;
      mismatch := ReadLoop(input);
      last := AbortAll();
    }

    /** Read and dispatch until the input ends or is of another version. */
    method ReadLoop(input: seq<Inbound>) returns (mismatch: bool)
      modifies this
      ensures mismatch <==> OtherVersion in input
      ensures agentSubs == Mux.Replay(old(agentSubs), Accepted(input))
      ensures old(Balanced()) ==> Balanced()
    {
      hide Balanced, Mux.Replay, Mux.Replay1, Mux.Running1, Accepted;
      NothingAccepted(old(agentSubs));
      for k := 0 to |input|
        invariant OtherVersion !in input[..k]
        invariant agentSubs == Mux.Replay(old(agentSubs), Accepted(input[..k]))
        invariant old(Balanced()) ==> Balanced()
      {
        AcceptedSnoc(input, k);
        assert Accepted(input[..k]) + [] == Accepted(input[..k]);
        if input[k].OtherVersion? {
          return true;
        }
        ReplayNext(old(agentSubs), Accepted(input[..k]), input[k].m);
        HandleEnvelope(input[k].m);
        assert input[..k + 1] == input[..k] + [input[k]];
      }
      assert input[..|input|] == input;
      return false;
    }

    /** Every running forwarder is told to stop, once. */
    method AbortAll() returns (ghost order: seq<nat>)
      modifies this`agentSubs, this`aborted
      ensures agentSubs == {} && aborted == old(aborted) + order
      ensures NoDuplicates(order) && forall d :: d in order <==> d in old(agentSubs)
      ensures old(Balanced()) ==> multiset(started) == multiset(aborted)
    {
      order := [];
      while agentSubs != {}
        invariant aborted == old(aborted) + order
        invariant NoDuplicates(order) && forall d :: d in old(agentSubs) <==> d in agentSubs || d in order
        invariant forall d :: d in order ==> d !in agentSubs
        invariant old(Balanced()) ==> Balanced()
        decreases |agentSubs|
      {
        var d :| d in agentSubs;
        agentSubs := agentSubs - {d};
        aborted := aborted + [d];
        order := order + [d];
      }
    }
  }

  lemma NothingAccepted(subs: set<nat>)
    ensures Accepted([]) == [] && Mux.Replay(subs, []) == subs
  {
  }

  lemma ReplayNext(subs: set<nat>, ms: seq<ToAgent>, m: ToAgent)
    ensures Mux.Replay(subs, ms + [m]) == Mux.Replay1(Mux.Replay(subs, ms), m)
  {
    assert (ms + [m])[..|ms|] == ms;
  }

  // ---- polling an engine ----------------------------------------------------------------

  type Listing = string

  /** How one attempt to connect to the engine, or to list its containers, went. */
  datatype Probe = Good(list: Listing) | Bad(reason: string)

  datatype Report = Containers(list: Listing) | Unavailable(reason: string)

  /** `connected`: the next probe lists; otherwise it connects. */
  datatype Poll = Poll(connected: bool, reports: seq<Report>)

  /** The last report was that the engine cannot be reached. */
  predicate Down(reports: seq<Report>) {
    reports != [] && reports[|reports| - 1].Unavailable?
  }

  /** A failure is reported only if the client does not know already. */
  function Probed(p: Poll, x: Probe): Poll {
    match x
    case Good(list) => if p.connected then p.(reports := p.reports + [Containers(list)]) else p.(connected := true)
    case Bad(reason) => Poll(false, if Down(p.reports) then p.reports else p.reports + [Unavailable(reason)])
  }

  function Polled(probes: seq<Probe>): Poll {
    if probes == [] then Poll(false, []) else Probed(Polled(probes[..|probes| - 1]), probes[|probes| - 1])
  }

  /** The listings among the probes, in order: those made while connected. */
  function Listings(probes: seq<Probe>): seq<Listing> {
    if probes == [] then []
    else
      var init, x := probes[..|probes| - 1], probes[|probes| - 1];
      Listings(init) + if x.Good? && Polled(init).connected then [x.list] else []
  }

  function Lists(reports: seq<Report>): seq<Listing> {
    if reports == [] then []
    else
      var r := reports[|reports| - 1];
      Lists(reports[..|reports| - 1]) + if r.Containers? then [r.list] else []
  }

  lemma ListsSnoc(reports: seq<Report>, r: Report)
    ensures Lists(reports + [r]) == Lists(reports) + if r.Containers? then [r.list] else []
  {
    assert (reports + [r])[..|reports|] == reports;
  }

  /** An attempt has failed and no listing has succeeded since. */
  ghost predicate FailedSince(probes: seq<Probe>) {
    exists i :: 0 <= i < |probes| && probes[i].Bad? && NoListing(probes, i)
  }

  ghost predicate NoListing(probes: seq<Probe>, i: nat) {
    forall j :: i < j < |probes| ==> probes[j].Bad? || !Polled(probes[..j]).connected
  }

  lemma FailedBefore(init: seq<Probe>, x: Probe)
    requires FailedSince(init + [x]) && x.Good?
    ensures FailedSince(init) && !Polled(init).connected
  {
    hide Polled;
    var all := init + [x];
    assert all[..|init|] == init;
    forall j | 0 <= j < |init| ensures all[..j] == init[..j] && all[j] == init[j] {
    }
    var i :| 0 <= i < |all| && all[i].Bad? && NoListing(all, i);
    assert init[i].Bad? && NoListing(init, i);
  }

  lemma FailedStep(init: seq<Probe>, x: Probe)
    ensures FailedSince(init + [x]) <==> x.Bad? || (FailedSince(init) && !Polled(init).connected)
  {
    hide Polled;
    var all := init + [x];
    assert all[..|init|] == init;
    forall j | 0 <= j < |init| ensures all[..j] == init[..j] && all[j] == init[j] {
    }
    if x.Bad? {
      assert all[|init|].Bad? && NoListing(all, |init|);
    } else {
      if FailedSince(init) && !Polled(init).connected {
        var i :| 0 <= i < |init| && init[i].Bad? && NoListing(init, i);
        assert all[i].Bad? && NoListing(all, i);
      }
      if FailedSince(all) {
        FailedBefore(init, x);
      }
    }
  }

  /** No two reports in a row say that the engine cannot be reached. */
  ghost predicate NeverRepeats(reports: seq<Report>) {
    forall k :: 0 < k < |reports| ==> reports[k - 1].Containers? || reports[k].Containers?
  }

  /**
   Whatever the engine does, the client is sent every listing in order, one for each success that
   follows a success; it is never told twice in a row that the engine is unreachable, and knows it
   is unreachable exactly when an attempt has failed and no listing has succeeded since.
   */
  lemma {:induction false} ForwarderReports(probes: seq<Probe>)
    ensures
      var reports := Polled(probes).reports;
      && Lists(reports) == Listings(probes) && NeverRepeats(reports)
      && (Down(reports) <==> FailedSince(probes))
    ensures Polled(probes).connected <==> probes != [] && probes[|probes| - 1].Good?
  {
    ConnectedIs(probes);
    if probes != [] {
      var init, x := probes[..|probes| - 1], probes[|probes| - 1];
      ForwarderReports(init);
      assert probes == init + [x];
      FailedStep(init, x);
      ReportStep(Polled(init), x);
      hide Lists, FailedSince, NeverRepeats, Down, Probed;
    }
  }

  /** A probe that lists after a success is passed on, a failure that is news is reported with its reason, and no more. */
  lemma ReportAdded(probes: seq<Probe>, x: Probe)
    ensures
      Polled(probes + [x]).reports == Polled(probes).reports +
      if x.Good? then (if probes != [] && probes[|probes| - 1].Good? then [Containers(x.list)] else [])
      else if FailedSince(probes) then [] else [Unavailable(x.reason)]
  {
    ForwarderReports(probes);
    assert (probes + [x])[..|probes|] == probes;
    hide FailedSince, Listings, Lists, NeverRepeats;
    assert Polled(probes).reports + [] == Polled(probes).reports;
  }

  lemma ConnectedIs(probes: seq<Probe>)
    ensures Polled(probes).connected <==> probes != [] && probes[|probes| - 1].Good?
  {
  }

  lemma ReportStep(p: Poll, x: Probe)
    requires NeverRepeats(p.reports)
    ensures NeverRepeats(Probed(p, x).reports)
    ensures Lists(Probed(p, x).reports) == Lists(p.reports) + if x.Good? && p.connected then [x.list] else []
    ensures Down(Probed(p, x).reports) <==> x.Bad? || (Down(p.reports) && !p.connected)
  {
    ListsSnoc(p.reports, if x.Good? then Containers(x.list) else Unavailable(x.reason));
    hide Lists;
    assert Lists(p.reports) + [] == Lists(p.reports);
  }

  /** The forwarder: connect, list until that fails, connect again. */
  method ForwardDocker(probes: seq<Probe>) returns (reports: seq<Report>)
    ensures reports == Polled(probes).reports
  {
    reports := [];
    var lastWasUnavailable: Option<bool> := None;
    var i := 0;
    while i < |probes|
      invariant i <= |probes| && Polled(probes[..i]) == Poll(false, reports)
      invariant Down(reports) <==> lastWasUnavailable == Some(true)
    {
      PolledNext(probes, i);
      match probes[i]
      case Bad(reason) =>
        i := i + 1;
        if lastWasUnavailable != Some(true) {
          reports := reports + [Unavailable(reason)];
        }
        lastWasUnavailable := Some(true);
      case Good(_) =>
        i := i + 1;
        var listing := true;
        while listing && i < |probes|
          invariant i <= |probes| && Polled(probes[..i]) == Poll(listing, reports)
          invariant Down(reports) <==> lastWasUnavailable == Some(true)
          decreases |probes| - i
        {
          PolledNext(probes, i);
          match probes[i] {
            case Good(list) =>
              reports := reports + [Containers(list)];
              lastWasUnavailable := Some(false);
            case Bad(reason) =>
              if lastWasUnavailable != Some(true) {
                reports := reports + [Unavailable(reason)];
              }
              lastWasUnavailable := Some(true);
              listing := false;
          }
          i := i + 1;
        }
        if listing {
          break;
        }
    }
    assert probes[..|probes|] == probes;
  }

  lemma PolledNext(probes: seq<Probe>, i: nat)
    requires i < |probes|
    ensures Polled(probes[..i + 1]) == Probed(Polled(probes[..i]), probes[i])
  {
    assert probes[..i + 1][..i] == probes[..i];
  }
}

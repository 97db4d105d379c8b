/**
 How much of a pane's output a client has been through when it is told of the exit. It is told
 either by the forwarder's one check whether the pane is alive, straight after the snapshot, or
 by the channel, where the exit is broadcast once.
 */
module PaneExit {
  import opened Wrappers
  import opened Bytes
  import opened Scrollback
  import opened PaneStream

  /** The step adds to the output. */
  predicate Outputs(step: Step) {
    (step.Read? || step.Take?) && step.bytes != []
  }

  predicate Quiet(steps: seq<Step>) {
    forall s :: s in steps ==> !Outputs(s)
  }

  /** The chunks a run appends. */
  function ChunksOf(steps: seq<Step>): seq<Chunk> {
    if steps == [] then []
    else (if steps[0].Read? || steps[0].Take? then [steps[0].bytes] else []) + ChunksOf(steps[1..])
  }

  lemma {:induction false} AllGrows(p: Pane, steps: seq<Step>)
    requires Runs(p, steps)
    ensures End(p, steps).all == p.all + ChunksOf(steps)
    decreases steps
  {
    if steps == [] {
      assert p.all + [] == p.all;
    } else {
      var s := steps[0];
      OneGrows(p, s);
      hide Apply, Enabled;
      AllGrows(Apply(p, s), steps[1..]);
      Regroup(p.all, if s.Read? || s.Take? then [s.bytes] else [], ChunksOf(steps[1..]));
    }
  }

  lemma Regroup<T>(a: seq<T>, b: seq<T>, c: seq<T>)
    ensures a + b + c == a + (b + c)
  {
  }

  lemma OneGrows(p: Pane, s: Step)
    requires Enabled(p, s)
    ensures Apply(p, s).all == p.all + if s.Read? || s.Take? then [s.bytes] else []
  {
    hide Append1, Flatten;
    assert p.all + [] == p.all;
  }

  lemma {:induction false} QuietChunks(steps: seq<Step>)
    ensures Flatten(ChunksOf(steps)) == [] <==> Quiet(steps)
  {
    EmptyFlatten();
    if steps != [] {
      var s, rest := steps[0], steps[1..];
      QuietChunks(rest);
      if s.Read? || s.Take? {
        FlattenOne(s.bytes);
        FlattenConcat([s.bytes], ChunksOf(rest));
      } else {
        assert [] + ChunksOf(rest) == ChunksOf(rest);
      }
      hide Flatten;
      assert Quiet(steps) <==> !Outputs(s) && Quiet(rest) by { assert steps == [s] + rest; }
    }
  }

  // ---- the two steps that matter ----------------------------------------------------------------

  /** A subscription is taken once, and its place is kept. */
  lemma {:induction false} PlaceKept(p: Pane, steps: seq<Step>, i: nat)
    requires Runs(p, steps) && i in p.subs
    ensures i in End(p, steps).subs && End(p, steps).subs[i].taken == p.subs[i].taken
    decreases steps
  {
    if steps != [] {
      OnePlaceKept(p, steps[0], i);
      hide Apply, Enabled;
      PlaceKept(Apply(p, steps[0]), steps[1..], i);
    }
  }

  lemma OnePlaceKept(p: Pane, step: Step, i: nat)
    requires Enabled(p, step) && i in p.subs
    ensures i in Apply(p, step).subs && Apply(p, step).subs[i].taken == p.subs[i].taken
  {
    hide Append1, Flatten;
  }

  /** What was output since a client subscribed is what the run appended after that step. */
  lemma {:induction false} SubscribedAt(p: Pane, steps: seq<Step>, i: nat) returns (k: nat)
    requires Runs(p, steps) && i !in p.subs && i in End(p, steps).subs
    ensures k < |steps| && steps[k] == Subscribe(i)
    ensures
      var q := End(p, steps);
      q.subs[i].taken <= |q.all| && q.all[q.subs[i].taken..] == ChunksOf(steps[k + 1..])
    decreases steps
  {
    var p', rest := Apply(p, steps[0]), steps[1..];
    if steps[0] == Subscribe(i) {
      k := 0;
      PlaceKept(p', rest, i);
      AllGrows(p', rest);
      hide Runs, End, ChunksOf, Append1, Flatten;
    } else {
      assert i !in p'.subs by { hide Append1, Flatten; }
      hide Apply, Enabled, ChunksOf;
      var m := SubscribedAt(p', rest, i);
      k := m + 1;
      assert steps[k + 1..] == rest[m + 1..];
    }
  }

  /** The exit is broadcast by one step, right after which everything output has been broadcast too. */
  lemma {:induction false} AnnouncedAt(p: Pane, steps: seq<Step>) returns (k: nat, q: Pane)
    requires Inv(p) && Runs(p, steps) && !p.announced && End(p, steps).announced
    ensures k < |steps| && steps[k] == Announce
    ensures q.ups != [] && q.ups[|q.ups| - 1].Exit? && Flatten(q.all) == DataOf(q.ups)
    ensures q.ups <= End(p, steps).ups && End(p, steps).all == q.all + ChunksOf(steps[k + 1..])
    ensures !q.alive && (End(p, steps).place == Remote ==> q.place == Remote) && Runs(q, steps[k + 1..])
    decreases steps
  {
    hide Inv, Apply, Enabled, ChunksOf, DataOf, Flatten;
    var p', rest := Apply(p, steps[0]), steps[1..];
    StepInv(p, steps[0]);
    OnlyAnnounce(p, steps[0]);
    if steps[0].Announce? {
      k, q := 0, p';
      DeadOutput(q);
      AllGrows(q, rest);
      UpsGrow(q, rest);
      assert steps[1..] == rest;
    } else {
      var m;
      m, q := AnnouncedAt(p', rest);
      k := m + 1;
      assert steps[k + 1..] == rest[m + 1..];
    }
  }

  lemma OnlyAnnounce(p: Pane, step: Step)
    requires Enabled(p, step)
    ensures
      var q := Apply(p, step);
      if step.Announce? then q.ups != [] && q.ups[|q.ups| - 1].Exit? && !q.alive
      else q.announced == p.announced
  {
    hide Append1, Flatten;
  }

  lemma DeadOutput(p: Pane)
    requires Inv(p) && !p.alive
    ensures Flatten(p.all) == DataOf(p.ups)
  {
    hide SubscriberOk, ExitOk, DataOf, Flatten, Held;
    assert DataOf(p.ups) + [] == DataOf(p.ups);
  }

  lemma {:induction false} UpsGrow(p: Pane, steps: seq<Step>)
    requires Runs(p, steps)
    ensures p.ups <= End(p, steps).ups && End(p, steps).place == p.place
    decreases steps
  {
    if steps != [] {
      OneUpGrows(p, steps[0]);
      hide Apply, Enabled;
      UpsGrow(Apply(p, steps[0]), steps[1..]);
    }
  }

  lemma OneUpGrows(p: Pane, step: Step)
    requires Enabled(p, step)
    ensures p.ups <= Apply(p, step).ups && Apply(p, step).place == p.place
  {
    hide Append1, Flatten;
  }

  // ---- how far a client got ------------------------------------------------------------------------

  /** How much of the output the client has been through: its snapshot, then the updates it has taken. */
  function Reached(p: Pane, x: Subscriber): nat
    requires Placed(p, x)
  {
    if x.start == x.pos then From(p, x) else |DataOf(p.ups[..x.pos])|
  }

  predicate Complete(p: Pane, x: Subscriber)
    requires Placed(p, x)
  {
    Reached(p, x) == |Flatten(p.all)|
  }

  lemma OutputSince(all: seq<Chunk>, taken: nat)
    requires taken <= |all|
    ensures Flatten(all) == Flatten(all[..taken]) + Flatten(all[taken..])
  {
    hide Flatten;
    FlattenConcat(all[..taken], all[taken..]);
    assert all == all[..taken] + all[taken..];
  }

  lemma CheckComplete(p0: Pane, steps: seq<Step>, i: nat) returns (k: nat)
    requires Runs(p0, steps) && i !in p0.subs && i in End(p0, steps).subs
    requires Placed(End(p0, steps), End(p0, steps).subs[i])
    ensures k < |steps| && steps[k] == Subscribe(i)
    ensures From(End(p0, steps), End(p0, steps).subs[i]) == |Flatten(End(p0, steps).all)| <==> Quiet(steps[k + 1..])
  {
    k := SubscribedAt(p0, steps, i);
    hide Runs, End, Quiet, ChunksOf, Flatten;
    var p := End(p0, steps);
    OutputSince(p.all, p.subs[i].taken);
    QuietChunks(steps[k + 1..]);
  }

  lemma ChannelComplete(p0: Pane, steps: seq<Step>, i: nat) returns (k: nat)
    requires Inv(p0) && Runs(p0, steps) && !p0.announced && Inv(End(p0, steps)) && i in End(p0, steps).subs
    requires var x := End(p0, steps).subs[i]; x.phase == Done && x.start < x.pos
    ensures k < |steps| && steps[k] == Announce
    ensures
      var p := End(p0, steps);
      var x := p.subs[i];
      x.pos <= |p.ups| && (|DataOf(p.ups[..x.pos])| == |Flatten(p.all)| <==> Quiet(steps[k + 1..]))
  {
    hide Runs, End, Quiet, ChunksOf, DataOf, Flatten, Held, Accounts;
    var p := End(p0, steps);
    var x := p.subs[i];
    assert SubscriberOk(p.place, p.capacity, p.all, p.ups, p.inflight, x);
    assert p.ups[x.pos - 1].Exit?;
    var q;
    k, q := AnnouncedAt(p0, steps);
    assert p.ups[|q.ups| - 1].Exit?;
    assert p.ups[..x.pos] == q.ups;
    FlattenConcat(q.all, ChunksOf(steps[k + 1..]));
    QuietChunks(steps[k + 1..]);
  }

  /** The last byte of the output is one the client was shown. */
  predicate EndShown(p: Pane, x: Subscriber)
    requires Placed(p, x)
  {
    var n := |Flatten(p.all)|;
    n == 0 || InSnapshot(p, x, n - 1) || InLive(p, x, n - 1)
  }

  /** The client was shown some byte. */
  predicate ShownAny(x: Subscriber)
    requires x.log != [] && x.log[0].Snapshot?
  {
    x.log[0].bytes != [] || Seen(x.log[1..]) != []
  }

  lemma EndShownIff(p: Pane, x: Subscriber, from: nat)
    requires WellAttached(p, x, from) && NoLag(x.log)
    ensures Placed(p, x)
    ensures EndShown(p, x) <==> Complete(p, x) && (Flatten(p.all) == [] || ShownAny(x))
  {
    hide WellAttached, NoLag, DataOf, Seen, Flatten, Piece;
    Places(p, x, from);
    LiveEnds(p, x, from);
  }

  lemma LiveEnds(p: Pane, x: Subscriber, from: nat)
    requires WellAttached(p, x, from) && NoLag(x.log)
    ensures |DataOf(p.ups[..x.pos])| == |DataOf(p.ups[..x.start])| + |Seen(x.log[1..])| <= |Flatten(p.all)|
    ensures from <= |Flatten(p.all)|
  {
    hide Accounts, DataOf, Seen, Held, Flatten, NoLag;
    SeenAll(x, p.ups[x.start..x.pos]);
    Splits(p.ups, x.start, x.pos);
  }

  /**
   The exact condition, on local and remote panes alike and in every interleaving. A client that
   was told of the exit has been through all the output if and only if nothing was output after
   one step `k`: its own Subscribe, if the alive check told it, or the exit's broadcast, if the
   channel did. If it did not lag, it was then shown the output to its last byte, unless it was
   shown nothing at all, the newest chunk being larger than the scrollback.
   */
  lemma ExitCompleteIff(place: Place, capacity: nat, channel: nat, steps: seq<Step>, i: nat) returns (k: nat)
    requires Runs(Open(place, capacity, channel), steps)
    requires i in After(place, capacity, channel, steps).subs
    requires After(place, capacity, channel, steps).subs[i].phase == Done
    ensures
      var p := After(place, capacity, channel, steps);
      var x := p.subs[i];
      && k < |steps| && steps[k] == (if x.start == x.pos then Subscribe(i) else Announce)
      && Placed(p, x) && (Complete(p, x) <==> Quiet(steps[k + 1..]))
      && (NoLag(x.log) ==> (EndShown(p, x) <==> Quiet(steps[k + 1..]) && (Flatten(p.all) == [] || ShownAny(x))))
  {
    hide Runs, End, Inv, WellAttached, NoLag, Quiet, DataOf, Seen, Flatten, EndShown, ShownAny;
    var p0 := Open(place, capacity, channel);
    var from := Attach(place, capacity, channel, steps, i);
    var p := After(place, capacity, channel, steps);
    var x := p.subs[i];
    AttachedPlaced(p, x, from);
    OpenInv(place, capacity, channel);
    AfterInv(place, capacity, channel, steps);
    if x.start == x.pos {
      k := CheckComplete(p0, steps, i);
    } else {
      k := ChannelComplete(p0, steps, i);
    }
    if NoLag(x.log) {
      EndShownIff(p, x, from);
    }
  }

  lemma AttachedPlaced(p: Pane, x: Subscriber, from: nat)
    requires WellAttached(p, x, from)
    ensures Placed(p, x)
  {
    hide Accounts, DataOf, Held, Flatten, Piece;
  }

  /** What the local reader has left to do is to read. */
  lemma LocalExitLosesLateOutput(capacity: nat, channel: nat, steps: seq<Step>, i: nat) returns (k: nat)
    requires Runs(Open(Local, capacity, channel), steps)
    requires i in After(Local, capacity, channel, steps).subs
    requires After(Local, capacity, channel, steps).subs[i].phase == Done
    ensures
      var p := After(Local, capacity, channel, steps);
      var x := p.subs[i];
      && k < |steps| && steps[k] == (if x.start == x.pos then Subscribe(i) else Announce)
      && Placed(p, x) && (Complete(p, x) <==> forall m :: k < m < |steps| ==> !steps[m].Read?)
  {
    k := ExitCompleteIff(Local, capacity, channel, steps, i);
    LocalSteps(Open(Local, capacity, channel), steps);
    hide Runs, After, Complete, Placed;
    var later := steps[k + 1..];
    assert forall m :: k < m < |steps| ==> steps[m] == later[m - k - 1];
    assert forall m {:trigger later[m]} :: 0 <= m < |later| ==> later[m] == steps[m + k + 1];
  }

  lemma {:induction false} LocalSteps(p: Pane, steps: seq<Step>)
    requires Runs(p, steps) && p.place == Local
    ensures forall s :: s in steps ==> (Outputs(s) <==> s.Read?)
    decreases steps
  {
    if steps != [] {
      OneUpGrows(p, steps[0]);
      LocalStep(p, steps[0]);
      hide Apply, Enabled, Outputs;
      LocalSteps(Apply(p, steps[0]), steps[1..]);
      assert steps == [steps[0]] + steps[1..];
    }
  }

  lemma LocalStep(p: Pane, step: Step)
    requires Enabled(p, step) && p.place == Local
    ensures Outputs(step) <==> step.Read?
  {
  }

  /**
   On a remote pane the driver is done when the exit is broadcast. So a client told by the channel
   has been through everything, and one told by the alive check if and only if the driver took no
   output after its Subscribe.
   */
  lemma RemoteExitIsLast(capacity: nat, channel: nat, steps: seq<Step>, i: nat) returns (k: nat)
    requires Runs(Open(Remote, capacity, channel), steps)
    requires i in After(Remote, capacity, channel, steps).subs
    requires After(Remote, capacity, channel, steps).subs[i].phase == Done
    ensures
      var p := After(Remote, capacity, channel, steps);
      var x := p.subs[i];
      && k < |steps| && steps[k] == Subscribe(i) && Placed(p, x)
      && (Complete(p, x) <==> x.start < x.pos || Quiet(steps[k + 1..]))
      && (x.start < x.pos ==> x.pos == |p.ups| && Flatten(p.all) == DataOf(p.ups))
  {
    hide Runs, End, Accounts, DataOf, Held, Flatten, Quiet, Piece;
    var from := Attach(Remote, capacity, channel, steps, i);
    AfterInv(Remote, capacity, channel, steps);
    var p := After(Remote, capacity, channel, steps);
    var x := p.subs[i];
    k := CheckComplete(Open(Remote, capacity, channel), steps, i);
    assert SubscriberOk(p.place, p.capacity, p.all, p.ups, p.inflight, x);
    if x.start < x.pos {
      assert p.ups[x.pos - 1].Exit? && p.ups[..x.pos] == p.ups;
      DeadOutput(p);
    }
  }

  // ---- runs that lose output ------------------------------------------------------------------------

  /** A chunk is output, and the pane dies, between a client's snapshot and its forwarder's check. */
  function DiesBeforeCheck(place: Place, c: Chunk): seq<Step> {
    if place == Local then [Subscribe(0), Read(c), Die, Check(0)]
    else [Subscribe(0), Take(c), Publish, Die, Check(0)]
  }

  /** Those are runs, and the client is done without having been shown the chunk. */
  lemma CheckLosesOutput(place: Place, c: Chunk, capacity: nat, channel: nat)
    requires c != []
    ensures Runs(Open(place, capacity, channel), DiesBeforeCheck(place, c))
    ensures
      var p := After(place, capacity, channel, DiesBeforeCheck(place, c));
      && p.all == [c] && p.subs.Keys == {0}
      && p.subs[0].phase == Done && p.subs[0].log == [Snapshot([]), Exited(None)]
  {
    hide Runs, End, Append1, Flatten;
    var p0 := Open(place, capacity, channel);
    var p1 := Apply(p0, Subscribe(0));
    assert Flatten([]) == [] by { EmptyFlatten(); }
    if place == Local {
      var p2 := Apply(p1, Read(c));
      FoundDead(p2);
      var r2 := [Die, Check(0)];
      StepThen(p1, r2, Read(c));
      StepThen(p0, [Read(c)] + r2, Subscribe(0));
      assert [Subscribe(0)] + ([Read(c)] + r2) == DiesBeforeCheck(place, c);
    } else {
      var p2 := Apply(p1, Take(c));
      var p3 := Apply(p2, Publish);
      FoundDead(p3);
      var r3 := [Die, Check(0)];
      StepThen(p2, r3, Publish);
      StepThen(p1, [Publish] + r3, Take(c));
      StepThen(p0, [Take(c)] + ([Publish] + r3), Subscribe(0));
      assert [Subscribe(0)] + ([Take(c)] + ([Publish] + r3)) == DiesBeforeCheck(place, c);
    }
  }

  lemma FoundDead(p: Pane)
    requires p.alive && p.inflight.None? && p.code.None? && p.subs.Keys == {0}
    requires p.subs[0].phase == Attached && p.subs[0].log == [Snapshot([])]
    ensures Runs(p, [Die, Check(0)])
    ensures
      var q := End(p, [Die, Check(0)]);
      && q.all == p.all && q.subs.Keys == {0}
      && q.subs[0].phase == Done && q.subs[0].log == [Snapshot([]), Exited(None)]
  {
    hide Runs, End;
    var p1 := Apply(p, Die);
    var p2 := Apply(p1, Check(0));
    NoSteps(p2);
    StepThen(p1, [], Check(0));
    StepThen(p, [Check(0)] + [], Die);
    assert [Die] + ([Check(0)] + []) == [Die, Check(0)];
  }

  /** The reader still holds a chunk when the waiter announces the exit. */
  function LateOutput(c: Chunk): seq<Step> {
    [Subscribe(0), Check(0), Die] + [Announce] + [Read(c), Receive(0)]
  }

  /** That is a run, and its client is done without having seen any output. */
  lemma LateOutputUnseen(c: Chunk, capacity: nat)
    requires c != []
    ensures Runs(Open(Local, capacity, 8), LateOutput(c))
    ensures
      var p := After(Local, capacity, 8, LateOutput(c));
      && p.all == [c] && p.ups == [Exit(None), Data(c)] && p.subs.Keys == {0}
      && p.subs[0].phase == Done && p.subs[0].log == [Snapshot([]), Exited(None)]
  {
    hide Runs, End, Append1, Flatten;
    var p0 := Open(Local, capacity, 8);
    var p1 := Apply(p0, Subscribe(0));
    var p2 := Apply(p1, Check(0));
    var p3 := Apply(p2, Die);
    var p4 := Apply(p3, Announce);
    assert Flatten([]) == [] by { EmptyFlatten(); }
    ExitAhead(p4, c);
    var r4 := [Read(c), Receive(0)];
    StepThen(p3, r4, Announce);
    var r3 := [Announce] + r4;
    StepThen(p2, r3, Die);
    var r2 := [Die] + r3;
    StepThen(p1, r2, Check(0));
    StepThen(p0, [Check(0)] + r2, Subscribe(0));
    assert [Subscribe(0)] + ([Check(0)] + r2) == LateOutput(c);
  }

  lemma ExitAhead(p: Pane, c: Chunk)
    requires c != [] && p.place == Local && p.channel == 8 && p.all == [] && p.ups == [Exit(None)]
    requires p.subs.Keys == {0} && p.subs[0].phase == Streaming && p.subs[0].pos == 0 && p.subs[0].log == [Snapshot([])]
    ensures Runs(p, [Read(c), Receive(0)])
    ensures
      var q := End(p, [Read(c), Receive(0)]);
      && q.all == [c] && q.ups == [Exit(None), Data(c)] && q.subs.Keys == {0}
      && q.subs[0].phase == Done && q.subs[0].log == [Snapshot([]), Exited(None)]
  {
    hide Runs, End, Append1;
    var p1 := Apply(p, Read(c));
    var p2 := Apply(p1, Receive(0));
    NoSteps(p2);
    StepThen(p1, [], Receive(0));
    StepThen(p, [Receive(0)] + [], Read(c));
    assert [Read(c)] + ([Receive(0)] + []) == [Read(c), Receive(0)];
  }
}

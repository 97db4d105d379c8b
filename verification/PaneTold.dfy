/** What a client is told besides the output: of the exit, with its code, and of updates it missed. */
module PaneTold {
  import opened Wrappers
  import opened Bytes
  import opened Scrollback
  import opened PaneStream

  // ---- the exit and its code ------------------------------------------------------------------

  /** `c` is the exit status the steps taught last, or `was` if they taught none. */
  ghost predicate Learnt(was: Option<int>, steps: seq<Step>, c: Option<int>) {
    || (exists k :: 0 <= k < |steps| && steps[k] == SetCode(c) && forall j :: k < j < |steps| ==> !steps[j].SetCode?)
    || (c == was && forall j :: 0 <= j < |steps| ==> !steps[j].SetCode?)
  }

  lemma LearntFirst(was: Option<int>, steps: seq<Step>, c: Option<int>)
    requires steps != []
    requires Learnt(if steps[0].SetCode? then steps[0].code else was, steps[1..], c)
    ensures Learnt(was, steps, c)
  {
    var rest := steps[1..];
    assert forall j :: 0 < j < |steps| ==> steps[j] == rest[j - 1];
    if k :| 0 <= k < |rest| && rest[k] == SetCode(c) && forall j :: k < j < |rest| ==> !rest[j].SetCode? {
      assert steps[k + 1] == SetCode(c);
    } else {
      assert forall j :: 0 < j < |steps| ==> !steps[j].SetCode?;
      if steps[0].SetCode? {
        assert steps[0] == SetCode(c);
      }
    }
  }

  /** Whoever is told of an exit is told it last, of a dead pane, with the pane's code. */
  ghost predicate CodeOk(p: Pane) {
    && (forall k :: 0 <= k < |p.ups| && p.ups[k].Exit? ==> !p.alive && p.ups[k].code == p.code)
    && (p.announced ==> !p.alive)
    && (forall i :: i in p.subs ==> ToldOk(p.alive, p.code, p.subs[i]))
  }

  predicate ToldOk(alive: bool, code: Option<int>, x: Subscriber) {
    && (forall k :: 0 <= k < |x.log| && x.log[k].Exited? ==> k == |x.log| - 1 && !alive && x.log[k].code == code)
    && (x.phase == Done <==> x.log != [] && x.log[|x.log| - 1].Exited?)
  }

  lemma ReceiveTold(p: Pane, x: Subscriber)
    requires CodeOk(p) && ToldOk(p.alive, p.code, x) && x.phase == Streaming && x.pos < |p.ups|
    ensures ToldOk(p.alive, p.code, Receive1(p.channel, p.ups, x))
  {
  }

  lemma StepCode(p: Pane, step: Step)
    requires CodeOk(p) && Enabled(p, step)
    ensures CodeOk(Apply(p, step))
    ensures Apply(p, step).code == if step.SetCode? then step.code else p.code
  {
    hide Append1, Flatten;
    if step.Receive? {
      ReceiveTold(p, p.subs[step.i]);
      hide ToldOk, Receive1;
    }
  }

  lemma {:induction false} RunCode(p: Pane, steps: seq<Step>)
    requires Runs(p, steps) && CodeOk(p)
    ensures CodeOk(End(p, steps)) && Learnt(p.code, steps, End(p, steps).code)
    decreases steps
  {
    if steps != [] {
      hide CodeOk, Apply, Enabled, Learnt;
      StepCode(p, steps[0]);
      RunCode(Apply(p, steps[0]), steps[1..]);
      LearntFirst(p.code, steps, End(p, steps).code);
    }
  }

  /**
   In every run, on either kind of pane, a client is told of an exit at most once and of nothing
   after it; the pane is dead by then, and the code told is the exit status learnt last, or none
   if none was learnt. A client is done exactly when it has been told.
   */
  lemma ExitToldTruly(place: Place, capacity: nat, channel: nat, steps: seq<Step>, i: nat)
    requires Runs(Open(place, capacity, channel), steps)
    requires i in After(place, capacity, channel, steps).subs
    ensures
      var p := After(place, capacity, channel, steps);
      var x := p.subs[i];
      && (forall k :: 0 <= k < |x.log| && x.log[k].Exited? ==>
            k == |x.log| - 1 && !p.alive && Learnt(None, steps, x.log[k].code))
      && (x.phase == Done <==> x.log != [] && x.log[|x.log| - 1].Exited?)
  {
    hide Runs, End, Learnt;
    RunCode(Open(place, capacity, channel), steps);
  }

  /** The one check tells a client of the exit exactly when the pane is dead, and says nothing else. */
  lemma CheckTells(p: Pane, i: nat)
    requires Enabled(p, Check(i))
    ensures i in Apply(p, Check(i)).subs
    ensures
      var x, x' := p.subs[i], Apply(p, Check(i)).subs[i];
      && (x'.phase == Done <==> !p.alive) && (x'.phase == Streaming <==> p.alive) && x'.pos == x.pos
      && x'.log == x.log + if p.alive then [] else [Exited(p.code)]
  {
    assert p.subs[i].log + [] == p.subs[i].log;
  }

  // ---- lag --------------------------------------------------------------------------------------

  /** At some receive of the run, the client was further behind than the channel is long. */
  ghost predicate Overrun(p: Pane, steps: seq<Step>, i: nat)
    requires Runs(p, steps)
    decreases steps
  {
    steps != []
    && ((steps[0] == Receive(i) && |p.ups| - p.subs[i].pos > p.channel) || Overrun(Apply(p, steps[0]), steps[1..], i))
  }

  /** Further behind than the channel is long, a client is told how many it missed; else it takes the next update. */
  lemma ReceiveIs(p: Pane, i: nat)
    requires Enabled(p, Receive(i))
    ensures i in Apply(p, Receive(i)).subs
    ensures
      var x, x' := p.subs[i], Apply(p, Receive(i)).subs[i];
      if |p.ups| - x.pos > p.channel
      then x'.pos == |p.ups| - p.channel && x'.log == x.log + [Lagged(x'.pos - x.pos)]
      else x'.pos == x.pos + 1
           && x'.log == x.log + [if p.ups[x.pos].Data? then Output(p.ups[x.pos].bytes) else Exited(p.ups[x.pos].code)]
  {
  }

  function LogOf(p: Pane, i: nat): seq<ClientEvent> {
    if i in p.subs then p.subs[i].log else []
  }

  lemma NoLagSnoc(log: seq<ClientEvent>, e: ClientEvent)
    ensures NoLag(log + [e]) <==> NoLag(log) && !e.Lagged?
    ensures NoLag([])
  {
    assert forall x :: x in log ==> x in log + [e];
    assert e in log + [e];
  }

  lemma StepLag(p: Pane, step: Step, i: nat)
    requires Enabled(p, step)
    ensures
      NoLag(LogOf(Apply(p, step), i)) <==>
      NoLag(LogOf(p, i)) && !(step == Receive(i) && |p.ups| - p.subs[i].pos > p.channel)
  {
    hide NoLag, Append1, Flatten, Receive1, Apply;
    if step == Receive(i) {
      ReceiveIs(p, i);
      NoLagSnoc(p.subs[i].log, LogOf(Apply(p, step), i)[|p.subs[i].log|]);
    } else if step == Check(i) {
      CheckTells(p, i);
      NoLagSnoc(p.subs[i].log, Exited(p.code));
      assert p.subs[i].log + [] == p.subs[i].log;
    } else {
      OtherLog(p, step, i);
      if step == Subscribe(i) {
        NoLagSnoc([], Snapshot(Flatten(p.held)));
      }
    }
  }

  lemma OtherLog(p: Pane, step: Step, i: nat)
    requires Enabled(p, step) && step != Receive(i) && step != Check(i)
    ensures LogOf(Apply(p, step), i) == if step == Subscribe(i) then [] + [Snapshot(Flatten(p.held))] else LogOf(p, i)
    ensures step == Subscribe(i) ==> LogOf(p, i) == []
  {
    hide Append1, Flatten, Receive1;
  }

  lemma {:induction false} RunLag(p: Pane, steps: seq<Step>, i: nat)
    requires Runs(p, steps)
    ensures NoLag(LogOf(End(p, steps), i)) <==> NoLag(LogOf(p, i)) && !Overrun(p, steps, i)
    decreases steps
  {
    hide Enabled, Apply, NoLag, LogOf;
    if steps != [] {
      StepLag(p, steps[0], i);
      RunLag(Apply(p, steps[0]), steps[1..], i);
    }
  }

  /**
   In every run, a client is told that it missed something if and only if at some receive it was
   further behind than the channel is long. Otherwise what `PaneStream` says of clients that did
   not lag holds of it.
   */
  lemma LagIff(place: Place, capacity: nat, channel: nat, steps: seq<Step>, i: nat)
    requires Runs(Open(place, capacity, channel), steps)
    requires i in After(place, capacity, channel, steps).subs
    ensures
      NoLag(After(place, capacity, channel, steps).subs[i].log) <==>
      !Overrun(Open(place, capacity, channel), steps, i)
  {
    hide Runs, End, Overrun;
    RunLag(Open(place, capacity, channel), steps, i);
  }
}

/**
 Attaching to a pane: the task that produces output, any number of late subscribers
 and the bounded broadcast channel between them, as interleaved steps.

 A local pane appends to the scrollback and broadcasts under one lock. A remote pane
 releases the lock in between, so a chunk can be appended and not yet broadcast.
 */
module PaneStream {
  import opened Wrappers
  import opened Bytes
  import opened Scrollback

  datatype Update = Data(bytes: Chunk) | Exit(code: Option<int>)

  datatype ClientEvent =
    | Snapshot(bytes: Chunk)
    | Output(bytes: Chunk)
    | Lagged(count: nat)
    | Exited(code: Option<int>)

  datatype Phase = Attached | Streaming | Done

  /**
   One forwarder: the broadcast position it reads next, the events it put on its client's
   queue, and as history where it began: position, chunks appended so far, chunk in flight.
   */
  datatype Subscriber = Subscriber(phase: Phase, pos: nat, log: seq<ClientEvent>,
                                   start: nat, taken: nat, lead: Option<Chunk>)

  datatype Place = Local | Remote

  /** `all` and `ups` are history: every chunk appended, every update broadcast. */
  datatype Pane = Pane(place: Place, capacity: nat, channel: nat,
                       held: seq<Chunk>, inflight: Option<Chunk>,
                       alive: bool, announced: bool, code: Option<int>,
                       all: seq<Chunk>, ups: seq<Update>, subs: map<nat, Subscriber>)

  datatype Step =
    | Read(bytes: Chunk)            // local reader thread: append and broadcast
    | Take(bytes: Chunk)            // remote driver: append
    | Publish                       // remote driver: broadcast what was appended
    | SetCode(code: Option<int>)    // exit status learnt
    | Die                           // marked dead
    | Announce                      // exit broadcast
    | Subscribe(i: nat)
    | Check(i: nat)                 // forwarder asks once whether the pane is alive
    | Receive(i: nat)

  function Open(place: Place, capacity: nat, channel: nat): Pane {
    Pane(place, capacity, channel, [], None, true, false, None, [], [], map[])
  }

  predicate Enabled(p: Pane, step: Step) {
    match step
    case Read(bytes) => p.place == Local && bytes != []
    case Take(bytes) => p.place == Remote && p.alive && p.inflight.None?
    case Publish => p.inflight.Some?
    case SetCode(_) => p.alive && p.inflight.None?
    case Die => p.alive && p.inflight.None?
    case Announce => !p.alive && !p.announced
    case Subscribe(i) => i !in p.subs
    case Check(i) => i in p.subs && p.subs[i].phase == Attached
    case Receive(i) => i in p.subs && p.subs[i].phase == Streaming && p.subs[i].pos < |p.ups|
  }

  function Pending(inflight: Option<Chunk>): Chunk {
    if inflight.Some? then inflight.value else []
  }

  /** Oldest update the channel still holds. */
  function Oldest(channel: nat, ups: seq<Update>): nat {
    if |ups| <= channel then 0 else |ups| - channel
  }

  /** One receive: a lagged receiver is moved to the oldest held update and told how many it missed. */
  function Receive1(channel: nat, ups: seq<Update>, x: Subscriber): Subscriber
    requires x.pos < |ups|
  {
    var oldest := Oldest(channel, ups);
    if x.pos < oldest then x.(pos := oldest, log := x.log + [Lagged(oldest - x.pos)])
    else
      match ups[x.pos]
      case Data(bytes) => x.(pos := x.pos + 1, log := x.log + [Output(bytes)])
      case Exit(code) => x.(pos := x.pos + 1, log := x.log + [Exited(code)], phase := Done)
  }

  function Apply(p: Pane, step: Step): Pane
    requires Enabled(p, step)
  {
    match step
    case Read(bytes) =>
      p.(held := Append1(p.held, bytes, p.capacity), all := p.all + [bytes], ups := p.ups + [Data(bytes)])
    case Take(bytes) =>
      p.(held := Append1(p.held, bytes, p.capacity), all := p.all + [bytes], inflight := Some(bytes))
    case Publish => p.(ups := p.ups + [Data(p.inflight.value)], inflight := None)
    case SetCode(code) => p.(code := code)
    case Die => p.(alive := false)
    case Announce => p.(announced := true, ups := p.ups + [Exit(p.code)])
    case Subscribe(i) =>
      var x := Subscriber(Attached, |p.ups|, [Snapshot(Flatten(p.held))], |p.ups|, |p.all|, p.inflight);
      p.(subs := p.subs[i := x])
    case Check(i) =>
      var x := p.subs[i];
      var x' := if p.alive then x.(phase := Streaming) else x.(phase := Done, log := x.log + [Exited(p.code)]);
      p.(subs := p.subs[i := x'])
    case Receive(i) => p.(subs := p.subs[i := Receive1(p.channel, p.ups, p.subs[i])])
  }

  ghost predicate Runs(p: Pane, steps: seq<Step>)
    decreases steps
  {
    steps == [] || (Enabled(p, steps[0]) && Runs(Apply(p, steps[0]), steps[1..]))
  }

  ghost function End(p: Pane, steps: seq<Step>): Pane
    requires Runs(p, steps)
    decreases steps
  {
    if steps == [] then p else End(Apply(p, steps[0]), steps[1..])
  }

  // ---- what a log says about the updates ---------------------------------------

  function DataOf(ups: seq<Update>): Chunk {
    if ups == [] then []
    else
      var u := ups[|ups| - 1];
      DataOf(ups[..|ups| - 1]) + if u.Data? then u.bytes else []
  }

  /** The live bytes a client was given. */
  function Seen(log: seq<ClientEvent>): Chunk {
    if log == [] then []
    else
      var e := log[|log| - 1];
      Seen(log[..|log| - 1]) + if e.Output? then e.bytes else []
  }

  /**
   `log` accounts for the updates `ups`, all of them and in order: an output or an exit for
   one, a Lagged(n) for exactly n consecutive ones. An exit read off the pane itself stands for none.
   */
  ghost predicate Accounts(log: seq<ClientEvent>, ups: seq<Update>)
    decreases log
  {
    if log == [] then ups == []
    else
      var e, init := log[|log| - 1], log[..|log| - 1];
      match e
      case Snapshot(_) => false
      case Output(bytes) => ups != [] && ups[|ups| - 1] == Data(bytes) && Accounts(init, ups[..|ups| - 1])
      case Lagged(n) => 0 < n <= |ups| && Accounts(init, ups[..|ups| - n])
      case Exited(code) =>
        (ups != [] && ups[|ups| - 1] == Exit(code) && Accounts(init, ups[..|ups| - 1])) || (init == [] && ups == [])
  }

  predicate NoLag(log: seq<ClientEvent>) {
    forall e :: e in log ==> !e.Lagged?
  }

  lemma {:induction false} DataOfConcat(a: seq<Update>, b: seq<Update>)
    ensures DataOf(a + b) == DataOf(a) + DataOf(b)
  {
    if b == [] {
      assert a + b == a;
    } else {
      var b', u := b[..|b| - 1], b[|b| - 1];
      assert (a + b)[..|a + b| - 1] == a + b';
      DataOfConcat(a, b');
      var bytes := if u.Data? then u.bytes else [];
      assert DataOf(a) + (DataOf(b') + bytes) == (DataOf(a) + DataOf(b')) + bytes;
    }
  }

  lemma DataOfAppend(ups: seq<Update>, u: Update)
    ensures DataOf(ups + [u]) == DataOf(ups) + if u.Data? then u.bytes else []
  {
    assert (ups + [u])[..|ups|] == ups;
  }

  /** Without lag, the client's live bytes are the updates' bytes: none missing, none twice. */
  lemma {:induction false} AccountsSeen(log: seq<ClientEvent>, ups: seq<Update>)
    requires Accounts(log, ups) && NoLag(log)
    ensures Seen(log) == DataOf(ups)
    decreases log
  {
    if log != [] {
      var e, init := log[|log| - 1], log[..|log| - 1];
      assert e in log;
      assert forall x :: x in init ==> x in log;
      if ups != [] {
        AccountsSeen(init, ups[..|ups| - 1]);
      }
    }
  }

  // ---- the invariant ------------------------------------------------------------

  /** What one subscriber was shown, against everything that was ever output. */
  ghost predicate SubscriberOk(place: Place, capacity: nat, all: seq<Chunk>, ups: seq<Update>,
                               inflight: Option<Chunk>, x: Subscriber)
  {
    && x.start <= x.pos <= |ups|
    && x.taken <= |all|
    && (place == Local ==> x.lead.None?)
    && Flatten(all[..x.taken]) == DataOf(ups[..x.start]) + Pending(x.lead)
    && (x.lead.Some? ==>
        if x.start < |ups| then ups[x.start] == Data(x.lead.value) else inflight == x.lead)
    && (x.lead.Some? ==> x.taken > 0 && all[x.taken - 1] == x.lead.value)
    && x.log != [] && x.log[0] == Snapshot(Flatten(Held(all[..x.taken], capacity)))
    && Accounts(x.log[1..], ups[x.start..x.pos])
    && (x.phase == Attached ==> |x.log| == 1)
    && (x.phase == Done && x.pos > x.start ==> ups[x.pos - 1].Exit?)
  }

  /** Exit is broadcast once; on a remote pane nothing follows it. */
  ghost predicate ExitOk(place: Place, announced: bool, ups: seq<Update>) {
    && (forall k :: 0 <= k < |ups| && ups[k].Exit? ==> announced)
    && (forall j, k :: 0 <= j < |ups| && 0 <= k < |ups| && ups[j].Exit? && ups[k].Exit? ==> j == k)
    && (place == Remote ==> forall k :: 0 <= k < |ups| && ups[k].Exit? ==> k == |ups| - 1)
  }

  ghost predicate Inv(p: Pane) {
    && Flatten(p.all) == DataOf(p.ups) + Pending(p.inflight)
    && p.held == Held(p.all, p.capacity)
    && (p.place == Local ==> p.inflight.None?)
    && (!p.alive ==> p.inflight.None?)
    && (p.inflight.Some? ==> p.all != [] && p.all[|p.all| - 1] == p.inflight.value)
    && (p.announced ==> !p.alive)
    && ExitOk(p.place, p.announced, p.ups)
    && (forall i :: i in p.subs ==> SubscriberOk(p.place, p.capacity, p.all, p.ups, p.inflight, p.subs[i]))
  }

  /** A subscriber keeps its account while the pane appends chunks and broadcasts updates. */
  lemma SubscriberGrows(place: Place, capacity: nat, all: seq<Chunk>, ups: seq<Update>, inflight: Option<Chunk>,
                        x: Subscriber, chunks: seq<Chunk>, more: seq<Update>, inflight': Option<Chunk>)
    requires SubscriberOk(place, capacity, all, ups, inflight, x)
    requires inflight.Some? && more == [] ==> inflight' == inflight
    requires inflight.Some? && more != [] ==> more[0] == Data(inflight.value)
    ensures SubscriberOk(place, capacity, all + chunks, ups + more, inflight', x)
  {
    hide Accounts, DataOf, Held;
    assert (all + chunks)[..x.taken] == all[..x.taken];
    assert (ups + more)[..x.start] == ups[..x.start];
    assert (ups + more)[x.start..x.pos] == ups[x.start..x.pos];
  }

  lemma AccountsStep(log: seq<ClientEvent>, ups: seq<Update>, start: nat, pos: nat, pos': nat, e: ClientEvent)
    requires start <= pos < pos' <= |ups|
    requires Accounts(log, ups[start..pos])
    requires match e
             case Snapshot(_) => false
             case Output(bytes) => pos' == pos + 1 && ups[pos] == Data(bytes)
             case Lagged(n) => n == pos' - pos
             case Exited(code) => pos' == pos + 1 && ups[pos] == Exit(code)
    ensures Accounts(log + [e], ups[start..pos'])
  {
    var seen := ups[start..pos'];
    assert (log + [e])[..|log|] == log;
    assert seen[..|seen| - (pos' - pos)] == ups[start..pos];
  }

  lemma ReceiveAccounts(channel: nat, ups: seq<Update>, x: Subscriber)
    requires x.start <= x.pos < |ups| && x.log != [] && Accounts(x.log[1..], ups[x.start..x.pos])
    ensures var x' := Receive1(channel, ups, x);
      && x.pos < x'.pos <= |ups| && |x.log| < |x'.log|
      && x'.log[0] == x.log[0] && Accounts(x'.log[1..], ups[x.start..x'.pos])
      && (x'.phase == Done ==> x.phase == Done || ups[x'.pos - 1].Exit?)
      && x' == x.(pos := x'.pos, log := x'.log, phase := x'.phase)
      && (x'.phase == x.phase || x'.phase == Done)
  {
    hide Accounts;
    var x' := Receive1(channel, ups, x);
    var e := x'.log[|x.log|];
    assert x'.log[1..] == x.log[1..] + [e];
    AccountsStep(x.log[1..], ups, x.start, x.pos, x'.pos, e);
  }

  lemma ReceiveOk(place: Place, capacity: nat, channel: nat, all: seq<Chunk>, ups: seq<Update>,
                  inflight: Option<Chunk>, x: Subscriber)
    requires SubscriberOk(place, capacity, all, ups, inflight, x)
    requires x.phase == Streaming && x.pos < |ups|
    ensures SubscriberOk(place, capacity, all, ups, inflight, Receive1(channel, ups, x))
  {
    hide DataOf, Held, Flatten, Accounts, Receive1;
    ReceiveAccounts(channel, ups, x);
  }

  lemma CheckOk(p: Pane, i: nat)
    requires Inv(p) && Enabled(p, Check(i))
    ensures SubscriberOk(p.place, p.capacity, p.all, p.ups, p.inflight, Apply(p, Check(i)).subs[i])
  {
    hide DataOf, Held, Flatten, Accounts, ExitOk;
    var x := p.subs[i];
    assert SubscriberOk(p.place, p.capacity, p.all, p.ups, p.inflight, x);
    NothingTaken(x.log, p.ups[x.start..x.pos]);
    if !p.alive {
      ToldAtOnce(x.log, p.code);
      assert p.ups[x.start..x.pos] == [];
    }
  }

  lemma NothingTaken(log: seq<ClientEvent>, ups: seq<Update>)
    requires |log| == 1 && Accounts(log[1..], ups)
    ensures ups == []
  {
    assert log[1..] == [];
  }

  /** An exit read off the pane itself stands for no update. */
  lemma ToldAtOnce(log: seq<ClientEvent>, code: Option<int>)
    requires |log| == 1
    ensures (log + [Exited(code)])[1..] == [Exited(code)] && Accounts([Exited(code)], [])
  {
    assert [Exited(code)][..0] == [];
  }

  lemma SubscribeOk(p: Pane, i: nat)
    requires Inv(p) && Enabled(p, Subscribe(i))
    ensures SubscriberOk(p.place, p.capacity, p.all, p.ups, p.inflight, Apply(p, Subscribe(i)).subs[i])
  {
    hide DataOf, Held, Flatten;
    assert p.all[..|p.all|] == p.all && p.ups[..|p.ups|] == p.ups;
  }

  /** Appending keeps what is held and what was output in step. */
  lemma AppendOk(all: seq<Chunk>, c: Chunk, capacity: nat)
    ensures Held(all + [c], capacity) == Append1(Held(all, capacity), c, capacity)
    ensures Flatten(all + [c]) == Flatten(all) + c
  {
    assert (all + [c])[..|all|] == all;
  }

  lemma SubscribersGrow(p: Pane, chunks: seq<Chunk>, more: seq<Update>, inflight': Option<Chunk>)
    requires Inv(p)
    requires p.inflight.Some? && more == [] ==> inflight' == p.inflight
    requires p.inflight.Some? && more != [] ==> more[0] == Data(p.inflight.value)
    ensures forall i :: i in p.subs ==>
        SubscriberOk(p.place, p.capacity, p.all + chunks, p.ups + more, inflight', p.subs[i])
  {
    hide SubscriberOk, Flatten, DataOf, Held, ExitOk;
    forall i | i in p.subs
      ensures SubscriberOk(p.place, p.capacity, p.all + chunks, p.ups + more, inflight', p.subs[i])
    {
      SubscriberGrows(p.place, p.capacity, p.all, p.ups, p.inflight, p.subs[i], chunks, more, inflight');
    }
  }

  /** Every step of reader, driver, waiter and forwarders keeps the invariant. */
  lemma StepInv(p: Pane, step: Step)
    requires Inv(p) && Enabled(p, step)
    ensures Inv(Apply(p, step))
  {
    hide SubscriberOk, Held, Append1, DataOf, Flatten;
    match step
    case Read(bytes) =>
      AppendOk(p.all, bytes, p.capacity);
      DataOfAppend(p.ups, Data(bytes));
      SubscribersGrow(p, [bytes], [Data(bytes)], None);
      assert DataOf(p.ups) + [] == DataOf(p.ups);
      assert DataOf(p.ups) + bytes + [] == DataOf(p.ups) + bytes;
    case Take(bytes) =>
      AppendOk(p.all, bytes, p.capacity);
      SubscribersGrow(p, [bytes], [], Some(bytes));
      assert DataOf(p.ups) + [] == DataOf(p.ups) && p.ups + [] == p.ups;
    case Publish =>
      DataOfAppend(p.ups, Data(p.inflight.value));
      SubscribersGrow(p, [], [Data(p.inflight.value)], None);
      assert p.all + [] == p.all;
      assert DataOf(p.ups) + p.inflight.value + [] == DataOf(p.ups) + p.inflight.value;
    case SetCode(code) =>
    case Die =>
    case Announce =>
      DataOfAppend(p.ups, Exit(p.code));
      SubscribersGrow(p, [], [Exit(p.code)], None);
      assert p.all + [] == p.all && DataOf(p.ups) + [] == DataOf(p.ups);
    case Subscribe(i) => SubscribeOk(p, i);
    case Check(i) => CheckOk(p, i);
    case Receive(i) => ReceiveOk(p.place, p.capacity, p.channel, p.all, p.ups, p.inflight, p.subs[i]);
  }

  lemma {:induction false} RunInv(p: Pane, steps: seq<Step>)
    requires Inv(p) && Runs(p, steps)
    ensures Inv(End(p, steps))
    ensures End(p, steps).place == p.place && End(p, steps).capacity == p.capacity
    decreases steps
  {
    hide Inv;
    if steps != [] {
      StepInv(p, steps[0]);
      RunInv(Apply(p, steps[0]), steps[1..]);
    }
  }

  lemma OpenInv(place: Place, capacity: nat, channel: nat)
    ensures Inv(Open(place, capacity, channel))
  {
  }

  // ---- what every run guarantees ---------------------------------------------------

  /** The state a run from a freshly opened pane ends in. */
  ghost function After(place: Place, capacity: nat, channel: nat, steps: seq<Step>): Pane
    requires Runs(Open(place, capacity, channel), steps)
  {
    End(Open(place, capacity, channel), steps)
  }

  lemma AfterInv(place: Place, capacity: nat, channel: nat, steps: seq<Step>)
    requires Runs(Open(place, capacity, channel), steps)
    ensures Inv(After(place, capacity, channel, steps))
    ensures After(place, capacity, channel, steps).place == place
    ensures After(place, capacity, channel, steps).capacity == capacity
  {
    hide Inv, Runs, End;
    OpenInv(place, capacity, channel);
    RunInv(Open(place, capacity, channel), steps);
  }

  lemma Slices(ups: seq<Update>, start: nat, pos: nat)
    requires start <= pos <= |ups|
    ensures ups[..pos] == ups[..start] + ups[start..pos] && ups == ups[..pos] + ups[pos..]
  {
  }

  lemma Splits(ups: seq<Update>, start: nat, pos: nat)
    requires start <= pos <= |ups|
    ensures DataOf(ups[..pos]) == DataOf(ups[..start]) + DataOf(ups[start..pos])
    ensures DataOf(ups) == DataOf(ups[..pos]) + DataOf(ups[pos..])
  {
    hide DataOf;
    DataOfConcat(ups[..start], ups[start..pos]);
    DataOfConcat(ups[..pos], ups[pos..]);
    Slices(ups, start, pos);
  }

  /** `s` is what stands at `at` in `out`. */
  ghost predicate Piece(s: Chunk, out: Chunk, at: int) {
    0 <= at <= at + |s| <= |out| && out[at..at + |s|] == s
  }

  lemma Pieces(a: Chunk, lead: Chunk, b: Chunk, c: Chunk, held: Chunk, rest: Chunk, out: Chunk)
    requires out == (a + b) + c && out == held + rest && held == a + lead
    ensures Piece(b, out, |held| - |lead|)
    ensures forall s :: Suffix(s, held) ==> Piece(s, out, |held| - |s|)
  {
  }

  /** `from` is how much had been output when the snapshot was taken. */
  ghost predicate WellAttached(p: Pane, x: Subscriber, from: nat) {
    && x.start <= x.pos <= |p.ups| && x.taken <= |p.all|
    && from == |Flatten(p.all[..x.taken])|
    && x.log != [] && x.log[0] == Snapshot(Flatten(Held(p.all[..x.taken], p.capacity)))
    && Piece(x.log[0].bytes, Flatten(p.all), from - |x.log[0].bytes|)
    && Accounts(x.log[1..], p.ups[x.start..x.pos])
    && Piece(DataOf(p.ups[x.start..x.pos]), Flatten(p.all), from - |Pending(x.lead)|)
    && (p.place == Local ==> x.lead == None)
    && (x.lead.Some? && x.start < x.pos ==> p.ups[x.start] == Data(x.lead.value))
    && (x.lead.Some? ==> x.taken > 0 && p.all[x.taken - 1] == x.lead.value)
    && |DataOf(p.ups[..x.start])| == from - |Pending(x.lead)|
  }

  /**
   Attaching, in every interleaving. The snapshot is what the scrollback held when `from`
   bytes had been output, and ends there. The client's log accounts for every update since, in
   order, so each Lagged(n) is n consecutive updates. The bytes of those updates are one
   contiguous piece of the output which starts at `from`, or earlier by exactly the one chunk
   the driver had appended but not yet broadcast, which is then the first update.
   */
  lemma Attach(place: Place, capacity: nat, channel: nat, steps: seq<Step>, i: nat) returns (from: nat)
    requires Runs(Open(place, capacity, channel), steps)
    requires i in After(place, capacity, channel, steps).subs
    ensures var p := After(place, capacity, channel, steps); WellAttached(p, p.subs[i], from)
  {
    hide Runs, After, Accounts, DataOf, Held, ExitOk, Flatten;
    AfterInv(place, capacity, channel, steps);
    var p := After(place, capacity, channel, steps);
    from := AttachOk(p, p.subs[i]);
  }

  lemma AttachOk(p: Pane, x: Subscriber) returns (from: nat)
    requires SubscriberOk(p.place, p.capacity, p.all, p.ups, p.inflight, x)
    requires Flatten(p.all) == DataOf(p.ups) + Pending(p.inflight)
    ensures WellAttached(p, x, from)
  {
    hide Accounts, DataOf, Held, Flatten, Piece, Suffix, Pending;
    var before := p.all[..x.taken];
    from := |Flatten(before)|;
    SnapshotIsRecent(before, p.capacity);
    FlattenConcat(before, p.all[x.taken..]);
    assert p.all == before + p.all[x.taken..];
    Splits(p.ups, x.start, x.pos);
    var live := DataOf(p.ups[x.start..x.pos]);
    var tail := DataOf(p.ups[x.pos..]) + Pending(p.inflight);
    assert Flatten(p.all) == (DataOf(p.ups[..x.start]) + live) + tail;
    Pieces(DataOf(p.ups[..x.start]), Pending(x.lead), live, tail, Flatten(before), Flatten(p.all[x.taken..]),
           Flatten(p.all));
  }

  lemma Joined(snap: Chunk, live: Chunk, out: Chunk, from: nat)
    requires Piece(snap, out, from - |snap|) && Piece(live, out, from)
    ensures snap + live == out[from - |snap|..from + |live|]
  {
    assert out[from - |snap|..from + |live|] == out[from - |snap|..from] + out[from..from + |live|];
  }

  /**
   Exactly once. A local client that did not lag was shown one contiguous piece of the
   output, each byte once, whatever was read, attached or received in between; once it is
   level with the channel, that piece runs to the end of the output.
   */
  lemma ExactlyOnce(capacity: nat, channel: nat, steps: seq<Step>, i: nat) returns (a: nat, b: nat)
    requires Runs(Open(Local, capacity, channel), steps)
    requires i in After(Local, capacity, channel, steps).subs
    requires NoLag(After(Local, capacity, channel, steps).subs[i].log)
    ensures
      var p := After(Local, capacity, channel, steps);
      var x := p.subs[i];
      && a <= b <= |Flatten(p.all)| && x.log != [] && x.log[0].Snapshot?
      && x.log[0].bytes + Seen(x.log[1..]) == Flatten(p.all)[a..b]
      && (x.pos == |p.ups| ==> b == |Flatten(p.all)|)
  {
    hide Runs, After, Accounts, DataOf, Seen, Held, Flatten, ExitOk, Piece, NoLag;
    var p := After(Local, capacity, channel, steps);
    var x := p.subs[i];
    var from := Attach(Local, capacity, channel, steps, i);
    AfterInv(Local, capacity, channel, steps);
    a, b := ShownOnce(p, x, from);
  }

  lemma SeenAll(x: Subscriber, ups: seq<Update>)
    requires x.log != [] && Accounts(x.log[1..], ups) && NoLag(x.log)
    ensures Seen(x.log[1..]) == DataOf(ups)
  {
    forall e | e in x.log[1..] ensures !e.Lagged? {
      assert e in x.log;
    }
    AccountsSeen(x.log[1..], ups);
  }

  lemma ShownOnce(p: Pane, x: Subscriber, from: nat) returns (a: nat, b: nat)
    requires WellAttached(p, x, from) && p.place == Local && p.inflight.None? && NoLag(x.log)
    requires Flatten(p.all) == DataOf(p.ups) + Pending(p.inflight)
    requires x.pos == |p.ups| ==> |Flatten(p.all[..x.taken])| == |DataOf(p.ups[..x.start])|
    ensures a <= b <= |Flatten(p.all)|
    ensures x.log[0].bytes + Seen(x.log[1..]) == Flatten(p.all)[a..b]
    ensures x.pos == |p.ups| ==> b == |Flatten(p.all)|
  {
    hide Accounts, DataOf, Seen, Held, Flatten, NoLag;
    var live := DataOf(p.ups[x.start..x.pos]);
    SeenAll(x, p.ups[x.start..x.pos]);
    a, b := from - |x.log[0].bytes|, from + |live|;
    Joined(x.log[0].bytes, live, Flatten(p.all), from);
    Splits(p.ups, x.start, x.pos);
    assert p.ups[..|p.ups|] == p.ups;
  }

  lemma LiveStarts(ups: seq<Update>, start: nat, pos: nat, lead: Option<Chunk>)
    requires start < pos <= |ups|
    requires lead.Some? ==> ups[start] == Data(lead.value)
    ensures |Pending(lead)| <= |DataOf(ups[start..pos])|
    ensures DataOf(ups[start..pos])[..|Pending(lead)|] == Pending(lead)
  {
    var first := ups[start..pos][..1];
    assert ups[start..pos] == first + ups[start + 1..pos];
    DataOfConcat(first, ups[start + 1..pos]);
    assert first[..0] == [] && DataOf([]) == [];
    assert first == [ups[start]];
  }

  // ---- where in the output the bytes a client was shown stand --------------------------------

  /** The client's first event is its snapshot, taken after the first `x.taken` chunks. */
  predicate Placed(p: Pane, x: Subscriber) {
    x.log != [] && x.log[0].Snapshot? && x.taken <= |p.all| && x.start <= x.pos <= |p.ups|
  }

  /** How much had been output when the snapshot was taken: where the snapshot ends. */
  function From(p: Pane, x: Subscriber): nat
    requires Placed(p, x)
  {
    |Flatten(p.all[..x.taken])|
  }

  /** The output position is inside the snapshot. */
  predicate InSnapshot(p: Pane, x: Subscriber, at: int)
    requires Placed(p, x)
  {
    From(p, x) - |x.log[0].bytes| <= at < From(p, x)
  }

  /** How much had been broadcast when the client subscribed: where its live bytes start. */
  function LiveAt(p: Pane, x: Subscriber): nat
    requires Placed(p, x)
  {
    |DataOf(p.ups[..x.start])|
  }

  /** The output position is among the client's live bytes. */
  predicate InLive(p: Pane, x: Subscriber, at: int)
    requires Placed(p, x)
  {
    LiveAt(p, x) <= at < LiveAt(p, x) + |Seen(x.log[1..])|
  }

  /**
   Remote panes, where append and broadcast are separate steps, by position in the output. A
   client that did not lag was shown the output that stands at its snapshot's and its live bytes'
   places, and once it has received anything no byte between the two is missing. The bytes it was
   shown twice are the last min(|snapshot|, |lead|) before the snapshot's end, `lead` being the
   chunk that was appended and not yet broadcast when it attached: all of that chunk if it fits the
   scrollback, none of it if it does not, for then the ring has evicted it whole. So each byte was
   shown once if and only if nothing has been received, nothing was in flight, or what was does
   not fit.
   */
  lemma ShownTwiceIff(place: Place, capacity: nat, channel: nat, steps: seq<Step>, i: nat)
    requires Runs(Open(place, capacity, channel), steps)
    requires i in After(place, capacity, channel, steps).subs
    requires NoLag(After(place, capacity, channel, steps).subs[i].log)
    ensures
      var p := After(place, capacity, channel, steps);
      var x := p.subs[i];
      Placed(p, x) && Overlap(p, x, capacity)
  {
    hide Runs, After, WellAttached, NoLag, Seen, DataOf, Flatten, Overlap;
    AfterInv(place, capacity, channel, steps);
    var p := After(place, capacity, channel, steps);
    var from := Attach(place, capacity, channel, steps, i);
    Overlaps(p, p.subs[i], from);
  }

  function Longer(a: nat, b: nat): nat {
    if a < b then b else a
  }

  function Shorter(a: nat, b: nat): nat {
    if a < b then a else b
  }

  /** What was shown is one stretch of the output, `lead` bytes being in flight at the attach. */
  ghost predicate OneStretch(p: Pane, x: Subscriber, lead: nat)
    requires Placed(p, x)
  {
    forall at :: InSnapshot(p, x, at) || InLive(p, x, at) <==>
      From(p, x) - Longer(|x.log[0].bytes|, lead) <= at < LiveAt(p, x) + |Seen(x.log[1..])|
  }

  /** What was shown twice is the stretch before the snapshot's end that both cover. */
  ghost predicate TwiceBefore(p: Pane, x: Subscriber, lead: nat)
    requires Placed(p, x)
  {
    forall at :: InSnapshot(p, x, at) && InLive(p, x, at) <==>
      From(p, x) - Shorter(|x.log[0].bytes|, lead) <= at < From(p, x)
  }

  ghost predicate EachOnce(p: Pane, x: Subscriber)
    requires Placed(p, x)
  {
    forall at :: !(InSnapshot(p, x, at) && InLive(p, x, at))
  }

  /** The chunk in flight is the end of the snapshot if it fits the scrollback; else the snapshot is empty. */
  predicate LeadHeld(p: Pane, x: Subscriber, capacity: nat)
    requires Placed(p, x)
  {
    var lead, snap, from := Pending(x.lead), x.log[0].bytes, From(p, x);
    if |lead| <= capacity
    then |lead| <= |snap| && |lead| <= from <= |Flatten(p.all)| && Flatten(p.all)[from - |lead|..from] == lead
    else snap == []
  }

  ghost predicate Overlap(p: Pane, x: Subscriber, capacity: nat)
    requires Placed(p, x)
  {
    var lead := |Pending(x.lead)|;
    && Piece(x.log[0].bytes, Flatten(p.all), From(p, x) - |x.log[0].bytes|)
    && Piece(Seen(x.log[1..]), Flatten(p.all), LiveAt(p, x))
    && (x.start < x.pos ==> OneStretch(p, x, lead) && TwiceBefore(p, x, lead))
    && LeadHeld(p, x, capacity)
    && (EachOnce(p, x) <==> x.start == x.pos || lead == 0 || lead > capacity)
  }

  lemma Overlaps(p: Pane, x: Subscriber, from: nat)
    requires WellAttached(p, x, from) && NoLag(x.log)
    ensures Placed(p, x) && Overlap(p, x, p.capacity)
  {
    hide WellAttached, DataOf, Seen, Held, Flatten, NoLag, Piece, From, LiveAt, InSnapshot, InLive, OneStretch,
      TwiceBefore, EachOnce, Fitting, LeadHeld;
    Places(p, x, from);
    LeadStands(p, x, from);
    Standing(p, x, from);
    if x.start < x.pos {
      Stretches(p, x, |Pending(x.lead)|);
      Repeats(p, x, |Pending(x.lead)|);
    }
    RepeatsNone(p, x, |Pending(x.lead)|, p.capacity);
  }

  lemma Standing(p: Pane, x: Subscriber, from: nat)
    requires WellAttached(p, x, from)
    ensures Placed(p, x) && from == From(p, x)
    ensures Piece(x.log[0].bytes, Flatten(p.all), from - |x.log[0].bytes|)
  {
    hide Accounts, DataOf, Held, Flatten, Piece;
  }

  /** The places fit together: `lead` bytes were appended and not yet broadcast. */
  predicate Fitting(p: Pane, x: Subscriber, lead: nat)
    requires Placed(p, x)
  {
    && LiveAt(p, x) == From(p, x) - lead
    && (if x.start < x.pos then lead <= |Seen(x.log[1..])| else Seen(x.log[1..]) == [])
  }

  lemma Stretches(p: Pane, x: Subscriber, lead: nat)
    requires Placed(p, x) && Fitting(p, x, lead) && x.start < x.pos
    ensures OneStretch(p, x, lead)
  {
    hide From, LiveAt, Seen;
  }

  lemma Repeats(p: Pane, x: Subscriber, lead: nat)
    requires Placed(p, x) && Fitting(p, x, lead) && x.start < x.pos
    ensures TwiceBefore(p, x, lead)
  {
    hide From, LiveAt, Seen;
  }

  lemma RepeatsNone(p: Pane, x: Subscriber, lead: nat, capacity: nat)
    requires Placed(p, x) && Fitting(p, x, lead) && lead == |Pending(x.lead)| && LeadHeld(p, x, capacity)
    ensures EachOnce(p, x) <==> x.start == x.pos || lead == 0 || lead > capacity
  {
    hide From, LiveAt, Seen, Flatten;
    if x.start < x.pos && 0 < lead <= capacity {
      assert InSnapshot(p, x, From(p, x) - 1) && InLive(p, x, From(p, x) - 1);
    }
  }

  lemma Places(p: Pane, x: Subscriber, from: nat)
    requires WellAttached(p, x, from) && NoLag(x.log)
    ensures Placed(p, x) && from == From(p, x) && Fitting(p, x, |Pending(x.lead)|)
    ensures Piece(Seen(x.log[1..]), Flatten(p.all), LiveAt(p, x))
  {
    hide Accounts, DataOf, Seen, Held, Flatten, NoLag, Piece;
    var ups := p.ups[x.start..x.pos];
    SeenAll(x, ups);
    if x.start < x.pos {
      LiveStarts(p.ups, x.start, x.pos, x.lead);
    } else {
      assert ups == [];
      NoData();
    }
  }

  lemma NoData()
    ensures DataOf([]) == []
  {
  }

  lemma LeadStands(p: Pane, x: Subscriber, from: nat)
    requires WellAttached(p, x, from)
    ensures Placed(p, x) && LeadHeld(p, x, p.capacity)
  {
    hide Accounts, DataOf, Held, Flatten, Piece, Suffix;
    LeadNewest(p.all[..x.taken], x.lead, x.log[0].bytes, p.capacity);
    if |Pending(x.lead)| <= p.capacity {
      SuffixStands(Pending(x.lead), x.log[0].bytes, Flatten(p.all), from);
    }
  }

  lemma LeadNewest(before: seq<Chunk>, lead: Option<Chunk>, snap: Chunk, capacity: nat)
    requires snap == Flatten(Held(before, capacity))
    requires lead.Some? ==> before != [] && before[|before| - 1] == lead.value
    ensures if |Pending(lead)| <= capacity then Suffix(Pending(lead), snap) else snap == []
  {
    hide Held, Flatten;
    if Pending(lead) != [] {
      NewestHeld(before, capacity);
    }
  }

  lemma SuffixStands(s: Chunk, whole: Chunk, out: Chunk, from: nat)
    requires Suffix(s, whole) && Piece(whole, out, from - |whole|)
    ensures |s| <= |whole| && |s| <= from <= |out| && out[from - |s|..from] == s
  {
    assert out[from - |whole|..from][|whole| - |s|..] == s;
  }

  /** A client that attaches between the append of a chunk and its broadcast. */
  function AttachBetween(c: Chunk): seq<Step> {
    [Take(c), Subscribe(0), Publish, Check(0), Receive(0)]
  }

  /** That is a run, and what its client is shown: a chunk that fits twice, one that does not once. */
  lemma AttachRepeats(c: Chunk, capacity: nat, channel: nat)
    requires c != [] && channel > 0
    ensures Runs(Open(Remote, capacity, channel), AttachBetween(c))
    ensures
      var p := After(Remote, capacity, channel, AttachBetween(c));
      && p.all == [c] && p.subs.Keys == {0} && p.subs[0].lead == Some(c)
      && p.subs[0].log == [Snapshot(if |c| <= capacity then c else []), Output(c)]
  {
    var p0 := Open(Remote, capacity, channel);
    var p1 := Apply(p0, Take(c));
    TakenFirst(p0, c);
    hide Runs, End, Apply, Enabled, Flatten;
    PublishedTo(p1, c);
    StepThen(p0, [Subscribe(0), Publish, Check(0), Receive(0)], Take(c));
    assert [Take(c)] + [Subscribe(0), Publish, Check(0), Receive(0)] == AttachBetween(c);
  }

  lemma TakenFirst(p: Pane, c: Chunk)
    requires c != [] && p == Open(Remote, p.capacity, p.channel)
    ensures Enabled(p, Take(c))
    ensures
      var q := Apply(p, Take(c));
      q == p.(held := q.held, all := [c], inflight := Some(c)) && Flatten(q.held) == if |c| <= p.capacity then c else []
  {
    OneHeld(c, p.capacity);
    FlattenOne(c);
    EmptyFlatten();
    hide Append1, Flatten;
  }

  /** A chunk in flight is broadcast to the client that attaches meanwhile. */
  lemma PublishedTo(p: Pane, c: Chunk)
    requires p.alive && p.channel > 0 && p.ups == [] && p.subs == map[] && p.inflight == Some(c)
    ensures Runs(p, [Subscribe(0), Publish, Check(0), Receive(0)])
    ensures
      var q := End(p, [Subscribe(0), Publish, Check(0), Receive(0)]);
      && q.all == p.all && q.subs.Keys == {0} && q.subs[0].lead == Some(c)
      && q.subs[0].log == [Snapshot(Flatten(p.held)), Output(c)]
  {
    hide Runs, End, Flatten;
    var p1 := Apply(p, Subscribe(0));
    var p2 := Apply(p1, Publish);
    TakesOne(p2, c);
    StepThen(p1, [Check(0), Receive(0)], Publish);
    StepThen(p, [Publish] + [Check(0), Receive(0)], Subscribe(0));
    assert [Subscribe(0)] + ([Publish] + [Check(0), Receive(0)]) == [Subscribe(0), Publish, Check(0), Receive(0)];
  }

  lemma TakesOne(p: Pane, c: Chunk)
    requires p.alive && p.channel > 0 && p.ups == [Data(c)] && p.subs.Keys == {0}
    requires p.subs[0].phase == Attached && p.subs[0].pos == 0 && |p.subs[0].log| == 1
    ensures Runs(p, [Check(0), Receive(0)])
    ensures
      var q := End(p, [Check(0), Receive(0)]);
      && q.all == p.all && q.subs.Keys == {0} && q.subs[0].lead == p.subs[0].lead
      && q.subs[0].log == p.subs[0].log + [Output(c)]
  {
    hide Runs, End;
    var p1 := Apply(p, Check(0));
    var p2 := Apply(p1, Receive(0));
    NoSteps(p2);
    StepThen(p1, [], Receive(0));
    StepThen(p, [Receive(0)] + [], Check(0));
    assert [Check(0)] + ([Receive(0)] + []) == [Check(0), Receive(0)];
  }

  lemma EmptyFlatten()
    ensures Flatten([]) == []
  {
  }

  lemma NoSteps(p: Pane)
    ensures Runs(p, []) && End(p, []) == p
  {
  }

  lemma StepThen(p: Pane, rest: seq<Step>, step: Step)
    requires Enabled(p, step) && Runs(Apply(p, step), rest)
    ensures Runs(p, [step] + rest) && End(p, [step] + rest) == End(Apply(p, step), rest)
  {
    assert ([step] + rest)[1..] == rest;
  }

  lemma OneHeld(c: Chunk, capacity: nat)
    requires c != []
    ensures Append1([], c, capacity) == if |c| <= capacity then [c] else []
  {
    var none: seq<Chunk> := [];
    FlattenOne(c);
    EvictLast(none, c, capacity);
    assert none + [c] == [c];
  }
}

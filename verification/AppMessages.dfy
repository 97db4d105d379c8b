/**
 What the client's messages answer to: which event calls for which message, and what becomes of the
 tabs closed and of the requests made.
 */
module AppMessages {
  import opened Wrappers
  import opened Routing
  import opened KeyParser
  import opened AppModel
  import opened AppInvariant
  import opened AppPrompt
  import opened AppEffects

  /** The tab shown is closed, by key or by click. */
  predicate Closes(s: AppState, ev: AppEvent) {
    Free(s) && HasTab(s)
    && ((ev.CloseKey? && s.view.focused == Pty)
        || (ev.Click? && ev.tile == Some(Pty) && InReach(s, Pty) && ev.hit == CloseTab))
  }

  /** A pane on `host` is asked for, by Enter or by a double click. */
  predicate AsksFor(s: AppState, ev: AppEvent, host: string) {
    || (KeyAt(s, ev, FleetTile) && !s.fleet.filter && ev.key == Enter && ev.selected == Some(host))
    || (Free(s) && ev.Click? && ev.tile == Some(FleetTile) && InReach(s, FleetTile) && ev.hit == DoubleClick(Some(host)))
  }

  /** `ev` calls for `w`. */
  predicate Causes(s: AppState, ev: AppEvent, w: Wire) {
    match w
    case Subscribe(id, topic, target) =>
      (match topic
       case AboutDocker => id == s.docker.sub && Picks(s, ev, PickDocker, target)
       case AboutPorts => id == s.ports.sub && Picks(s, ev, PickPorts, target)
       case AboutProcesses => id == s.processes.sub && Picks(s, ev, PickProcesses, target)
       case AboutFleet => false
       case AboutLogs(container) =>
         KeyAtList(s, ev) && ev.key == Letter('l') && ev.selected == Some(container)
         && id == s.nextId && target == s.docker.target)
    case Cancel(id) =>
      || (Closes(s, ev) && id == s.tabs.panes[s.tabs.active].sub)
      || (KeyAt(s, ev, DockerTile) && s.docker.logs == Some(id) && (ev.key == Escape || ev.key == Letter('q')))
      || (ev.Typed? && ev.row.UsableRow?
          && ((Picks(s, ev, PickDocker, ev.row.target) && (id == s.docker.sub || s.docker.logs == Some(id)))
              || (Picks(s, ev, PickPorts, ev.row.target) && id == s.ports.sub)
              || (Picks(s, ev, PickProcesses, ev.row.target) && id == s.processes.sub)))
    case Attach(pane, id) =>
      !s.panicked && ev == PaneOpened(pane) && s.tabs.opening != [] && id == s.tabs.opening[0].sub
    case OpenPane(alias) =>
      if alias.Some? then AsksFor(s, ev, alias.value) else Closes(s, ev) && |s.tabs.panes| == 1
    case ClosePane(pane) => Closes(s, ev) && pane == s.tabs.panes[s.tabs.active].pane
    case ResizePane(pane) =>
      !s.panicked
      && ((ev == PaneOpened(pane) && s.tabs.opening != [])
          || (ev.Resize? && exists k :: 0 <= k < |s.tabs.panes| && s.tabs.panes[k].pane == pane))
    case SendInput(pane) =>
      Free(s) && s.view.focused == Pty && (ev.Typed? || ev.Tab?) && HasTab(s) && pane == s.tabs.panes[s.tabs.active].pane
    case Act(request, container, action, target) =>
      request == s.nextId && target == s.docker.target
      && ((KeyAtList(s, ev) && ev.selected == Some(container)
           && ((ev.key == Letter('r') && action == Restart) || (ev.key == Letter('s') && action == Stop)))
          || (KeyAt(s, ev, DockerTile) && s.docker.logs.None? && (ev.key == Letter('y') || ev.key == Letter('Y'))
              && s.docker.confirm.Some? && s.docker.confirm.value.container == container
              && s.docker.confirm.value.action == action))
    case ReconnectHost(request, host) =>
      KeyAt(s, ev, FleetTile) && !s.fleet.filter && ev.key == Letter('r') && ev.selected == Some(host) && request == s.nextId
    case Detach =>
      !s.panicked && (ev.DetachKey? || (ev.PaneExited? && |s.tabs.panes| == 1 && s.tabs.panes[0].sub == ev.sub))
  }

  /** `ev` asks for something that is answered under a fresh id. */
  predicate Requests(s: AppState, ev: AppEvent) {
    || (KeyAtList(s, ev) && ev.selected.Some? && (ev.key == Letter('r') || ev.key == Letter('s')))
    || (KeyAt(s, ev, DockerTile) && s.docker.logs.None? && s.docker.confirm.Some?
        && (ev.key == Letter('y') || ev.key == Letter('Y')))
    || (KeyAt(s, ev, FleetTile) && !s.fleet.filter && ev.selected.Some? && ev.key == Letter('r'))
  }

  ghost predicate NoRepeat(out: seq<Wire>) {
    forall i, j :: 0 <= i < j < |out| ==> out[i] != out[j]
  }

  /** `out` is what `ev` makes the client say: what it calls for and nothing else, each once. */
  ghost predicate Answers(s: AppState, ev: AppEvent, out: seq<Wire>) {
    && Handle(s, ev).sent == s.sent + out
    && (forall w :: w in out <==> Causes(s, ev, w))
    && (!ev.Resize? ==> NoRepeat(out))
    && (IsInput(ev) || ev.Click? ==>
          Handle(s, ev).actions == if Requests(s, ev) then s.actions[s.nextId := ev.now + 30] else s.actions)
  }

  /** Nothing is said when nothing calls for anything. */
  lemma SaysNothing(s: AppState, ev: AppEvent)
    requires Handle(s, ev).sent == s.sent && forall w :: !Causes(s, ev, w)
    requires IsInput(ev) || ev.Click? ==> Handle(s, ev).actions == s.actions && !Requests(s, ev)
    ensures Answers(s, ev, [])
  {
    hide Handle, Causes, Requests;
    assert s.sent + [] == s.sent;
  }

  lemma DockerAnswers(s: AppState, ev: AppEvent) returns (out: seq<Wire>)
    requires KeyAt(s, ev, DockerTile)
    ensures Answers(s, ev, out)
  {
    hide Handle, Letter;
    if s.docker.logs.Some? {
      LogsEffect(s, ev);
      if ev.key == Escape || ev.key == Letter('q') {
        out := [Cancel(s.docker.logs.value)];
      } else {
        SaysNothing(s, ev);
        out := [];
      }
    } else if s.docker.confirm.Some? {
      PromptEffect(s, ev);
      if ev.key == Letter('y') || ev.key == Letter('Y') {
        out := [Act(s.nextId, s.docker.confirm.value.container, s.docker.confirm.value.action, s.docker.target)];
      } else {
        SaysNothing(s, ev);
        out := [];
      }
    } else if s.docker.filter {
      DockerFilterEffect(s, ev);
      SaysNothing(s, ev);
      out := [];
    } else {
      out := ListAnswers(s, ev);
      hide Answers;
    }
  }

  lemma LettersDiffer()
    ensures Letter('r') != Letter('s') && Letter('r') != Letter('l') && Letter('s') != Letter('l')
    ensures Letter('l') != Letter('K') && Letter('l') != Letter('X')
    ensures forall c :: Letter(c) != Enter && Letter(c) != Escape
  {
  }

  lemma ListAnswers(s: AppState, ev: AppEvent) returns (out: seq<Wire>)
    requires KeyAtList(s, ev)
    ensures Answers(s, ev, out)
  {
    LettersDiffer();
    hide Handle, Letter;
    ListEffect(s, ev);
    if ev.selected.Some? && ev.key == Letter('r') {
      out := [Act(s.nextId, ev.selected.value, Restart, s.docker.target)];
    } else if ev.selected.Some? && ev.key == Letter('s') {
      out := [Act(s.nextId, ev.selected.value, Stop, s.docker.target)];
    } else if ev.selected.Some? && ev.key == Letter('l') {
      out := [Subscribe(s.nextId, AboutLogs(ev.selected.value), s.docker.target)];
    } else {
      SaysNothing(s, ev);
      out := [];
    }
  }

  lemma FleetAnswers(s: AppState, ev: AppEvent) returns (out: seq<Wire>)
    requires KeyAt(s, ev, FleetTile)
    ensures Answers(s, ev, out)
  {
    hide Handle;
    FleetEffect(s, ev);
    out := [];
    assert s.sent + [] == s.sent;
    if !s.fleet.filter && ev.selected.Some? {
      if ev.key == Letter('r') {
        out := [ReconnectHost(s.nextId, ev.selected.value)];
      } else if ev.key == Enter {
        out := [OpenPane(ev.selected)];
      }
    }
  }

  lemma TypedAnswers(s: AppState, ev: AppEvent) returns (out: seq<Wire>)
    requires ev.Typed? && Free(s)
    ensures Answers(s, ev, out)
  {
    hide Handle;
    if s.view.focused == DockerTile {
      out := DockerAnswers(s, ev);
      hide Answers;
    } else if s.view.focused == FleetTile {
      out := FleetAnswers(s, ev);
      hide Answers;
    } else if s.view.focused == Pty {
      TypeEffect(s, ev);
      out := if HasTab(s) then [SendInput(s.tabs.panes[s.tabs.active].pane)] else [];
      assert s.sent + [] == s.sent;
    } else if s.view.focused == PortsTile {
      PortsEffect(s, ev);
      SaysNothing(s, ev);
      out := [];
    } else {
      OtherTileEffect(s, ev);
      SaysNothing(s, ev);
      out := [];
    }
  }

  lemma PickAnswers(s: AppState, ev: AppEvent, what: Picker, target: Target) returns (out: seq<Wire>)
    requires Inv(s) && Picks(s, ev, what, target)
    ensures Answers(s, ev, out)
  {
    hide Handle, Wired, Tracked, TabIds;
    match what
    case PickDocker =>
      PickDockerEffect(s, ev, target);
      out := (if s.docker.logs.Some? then [Cancel(s.docker.logs.value)] else [])
             + [Cancel(s.docker.sub), Subscribe(s.docker.sub, AboutDocker, target)];
    case PickPorts =>
      PickListEffect(s, ev, target);
      out := [Cancel(s.ports.sub), Subscribe(s.ports.sub, AboutPorts, target)];
    case PickProcesses =>
      PickListEffect(s, ev, target);
      out := [Cancel(s.processes.sub), Subscribe(s.processes.sub, AboutProcesses, target)];
  }

  /** Input and clicks while help or the picker is up. */
  lemma OverlayAnswers(s: AppState, ev: AppEvent) returns (out: seq<Wire>)
    requires Inv(s) && !s.panicked && !Free(s) && (ev.Click? || (IsInput(ev) && !ev.DetachKey?))
    ensures Answers(s, ev, out)
  {
    hide Handle, Inv;
    if s.view.help {
      HelpEffect(s, ev);
      SaysNothing(s, ev);
      out := [];
    } else if ev.Typed? && ev.row.UsableRow? && Picks(s, ev, s.view.picker.value, ev.row.target) {
      out := PickAnswers(s, ev, s.view.picker.value, ev.row.target);
      hide Answers;
    } else {
      PickerEffect(s, ev);
      SaysNothing(s, ev);
      out := [];
    }
  }

  lemma CloseAnswers(s: AppState, ev: AppEvent, u: AppState) returns (out: seq<Wire>)
    requires Closes(s, ev) && Free(u) && u.view.focused == Pty && u.tabs == s.tabs && u.sent == s.sent
    requires Handle(s, ev) == Handle(u, CloseKey) && u.actions == s.actions
    ensures Answers(s, ev, out)
  {
    hide Handle;
    CloseEffect(u);
    var gone := s.tabs.panes[s.tabs.active];
    var left := s.tabs.panes[..s.tabs.active] + s.tabs.panes[s.tabs.active + 1..];
    out := [ClosePane(gone.pane), Cancel(gone.sub)] + if left == [] then [OpenPane(None)] else [];
    assert |left| == |s.tabs.panes| - 1;
  }

  /** Keys that move the focus or bring up an overlay, and the key that closes a tab. */
  lemma KeyAnswers(s: AppState, ev: AppEvent) returns (out: seq<Wire>)
    requires Free(s) && IsInput(ev) && !ev.Typed? && !ev.DetachKey?
    ensures Answers(s, ev, out)
  {
    hide Handle;
    out := [];
    if ev.Tab? && s.view.focused == Pty {
      TypeEffect(s, ev);
      out := if HasTab(s) then [SendInput(s.tabs.panes[s.tabs.active].pane)] else [];
      assert s.sent + [] == s.sent;
    } else if Closes(s, ev) {
      out := CloseAnswers(s, ev, s);
      hide Answers;
    } else {
      QuietKey(s, ev);
      SaysNothing(s, ev);
    }
  }

  lemma QuietKey(s: AppState, ev: AppEvent)
    requires Free(s) && IsInput(ev) && !ev.Typed? && !ev.DetachKey?
    requires !(ev.Tab? && s.view.focused == Pty) && !Closes(s, ev)
    ensures Handle(s, ev).sent == s.sent && Handle(s, ev).tabs == s.tabs && Handle(s, ev).nextId == s.nextId
    ensures Handle(s, ev).actions == s.actions
  {
    hide Handle;
    if ev.Tab? || ev.FocusKey? {
      FocusEffect(s, ev);
    } else if ev.CloseKey? && s.view.focused == Pty {
      CloseEffect(s);
    } else if ev.CloseKey? {
      CloseElsewhere(s);
    } else {
      OverlayEffect(s);
    }
  }

  lemma ClickAnswers(s: AppState, ev: AppEvent) returns (out: seq<Wire>)
    requires Free(s) && ev.Click?
    ensures Answers(s, ev, out)
  {
    hide Handle;
    out := [];
    if ev.tile.None? || !InReach(s, ev.tile.value) {
      ClickNowhere(s, ev.tile, ev.hit);
      SaysNothing(s, ev);
    } else {
      var u := Handle(s, FocusKey(ev.tile.value));
      ClickEffect(s, ev.tile.value, ev.hit);
      QuietKey(s, FocusKey(ev.tile.value));
      if Closes(s, ev) {
        out := CloseAnswers(s, ev, u);
        hide Answers;
      } else if ev.tile == Some(FleetTile) && ev.hit.DoubleClick? && ev.hit.selected.Some? {
        out := [OpenPane(ev.hit.selected)];
        assert AsksFor(s, ev, ev.hit.selected.value);
      } else {
        QuietHit(s, u, ev);
        SaysNothing(s, ev);
      }
    }
  }

  lemma QuietHit(s: AppState, u: AppState, ev: AppEvent)
    requires Free(s) && ev.Click? && ev.tile.Some? && InReach(s, ev.tile.value) && u == Handle(s, FocusKey(ev.tile.value))
    requires !Closes(s, ev) && !(ev.tile == Some(FleetTile) && ev.hit.DoubleClick? && ev.hit.selected.Some?)
    ensures Handle(s, ev).sent == s.sent && Handle(s, ev).actions == s.actions
  {
    hide Handle;
    ClickEffect(s, ev.tile.value, ev.hit);
    QuietKey(s, FocusKey(ev.tile.value));
    OverlayEffect(u);
    if ev.tile == Some(Pty) && ev.hit.CloseTab? {
      CloseEffect(u);
    }
  }

  lemma DaemonAnswers(s: AppState, ev: AppEvent) returns (out: seq<Wire>)
    requires Shape(s) && !s.panicked && !IsInput(ev) && !ev.Click?
    ensures Answers(s, ev, out)
  {
    hide Handle;
    out := [];
    match ev
    case PaneOpened(pane) =>
      PaneOpenedEffect(s, pane);
      if s.tabs.opening != [] {
        out := [Attach(pane, s.tabs.opening[0].sub), ResizePane(pane)];
      }
      assert s.sent + [] == s.sent;
    case PaneExited(sub) => out := ExitAnswers(s, sub);
    case Failed(openFailure) =>
      FailedEffect(s, openFailure);
      SaysNothing(s, ev);
    case ActionDone(request) =>
      ReplyEffect(s, request);
      SaysNothing(s, ev);
    case ActionTimeout(request) =>
      ReplyEffect(s, request);
      SaysNothing(s, ev);
    case Tick(now) =>
      TickEffect(s, now);
      SaysNothing(s, ev);
    case Resize(tiny) => out := ResizeAnswers(s, tiny);
  }

  lemma ExitAnswers(s: AppState, sub: nat) returns (out: seq<Wire>)
    requires Shape(s) && !s.panicked
    ensures Answers(s, PaneExited(sub), out)
  {
    hide Handle;
    var at := FindPane(s.tabs.panes, sub);
    out := [];
    assert s.sent + [] == s.sent;
    if at.None? {
      PaneExitedUnknown(s, sub);
    } else {
      FirstFound(s.tabs.panes, sub);
      PaneExitedEffect(s, at.value);
      var left := s.tabs.panes[..at.value] + s.tabs.panes[at.value + 1..];
      assert |left| == |s.tabs.panes| - 1;
      if left == [] {
        out := [Detach];
      }
    }
    hide FindPane;
  }

  lemma {:induction false} FirstFound(panes: seq<Pane>, sub: nat)
    ensures
      var at := FindPane(panes, sub);
      at.Some? ==> forall j :: 0 <= j < at.value ==> panes[j].sub != sub
  {
    if panes != [] && panes[0].sub != sub {
      FirstFound(panes[1..], sub);
    }
  }

  lemma ResizeAnswers(s: AppState, tiny: bool) returns (out: seq<Wire>)
    requires !s.panicked
    ensures Answers(s, Resize(tiny), out)
  {
    hide Handle;
    ResizeEffect(s, tiny);
    var sent := Handle(s, Resize(tiny)).sent;
    out := sent[|s.sent|..];
    assert forall k :: 0 <= k < |s.tabs.panes| ==> out[k] == ResizePane(s.tabs.panes[k].pane);
  }

  lemma EventAnswers(s: AppState, ev: AppEvent) returns (out: seq<Wire>)
    requires Inv(s)
    ensures Answers(s, ev, out)
  {
    ShapeOf(s);
    hide Inv, Handle, Answers;
    if s.panicked {
      PanickedAnswers(s, ev);
      out := [];
    } else if ev.DetachKey? {
      out := DetachAnswers(s);
    } else if IsInput(ev) || ev.Click? {
      if !Free(s) {
        out := OverlayAnswers(s, ev);
      } else if ev.Click? {
        out := ClickAnswers(s, ev);
      } else if ev.Typed? {
        out := TypedAnswers(s, ev);
      } else {
        out := KeyAnswers(s, ev);
      }
    } else {
      out := DaemonAnswers(s, ev);
    }
  }

  lemma PanickedAnswers(s: AppState, ev: AppEvent)
    requires s.panicked
    ensures Answers(s, ev, [])
  {
    PanickedStays(s, ev);
    hide Handle;
    SaysNothing(s, ev);
  }

  lemma DetachAnswers(s: AppState) returns (out: seq<Wire>)
    requires !s.panicked
    ensures Answers(s, DetachKey, out)
  {
    DetachEffect(s);
    hide Handle;
    out := [Detach];
  }

  // ---- over whole runs --------------------------------------------------------------------------

  /**
   In every run, each event adds to the messages exactly those it calls for, each once, and takes
   nothing back.
   */
  lemma MessagesAnswer(pane: nat, tiny: bool, evs: seq<AppEvent>, k: nat, w: Wire)
    requires k < |evs|
    ensures
      var s, t := Before(Launch(pane, tiny), evs, k), Before(Launch(pane, tiny), evs, k + 1);
      && s.sent <= t.sent
      && (w in t.sent[|s.sent|..] <==> Causes(s, evs[k], w))
      && (!evs[k].Resize? ==> NoRepeat(t.sent[|s.sent|..]))
  {
    hide Handle, Causes, Inv, Run, Launch;
    var start := Launch(pane, tiny);
    RunInv(pane, tiny, evs[..k]);
    BeforeNext(start, evs, k);
    var s := Before(start, evs, k);
    var out := EventAnswers(s, evs[k]);
    assert (s.sent + out)[|s.sent|..] == out;
  }

  /** The tab shown is closed, whichever way. */
  lemma ClosedTab(s: AppState, ev: AppEvent)
    requires Closes(s, ev)
    ensures
      var a, t := s.tabs.active, Handle(s, ev);
      && t.tabs.panes == s.tabs.panes[..a] + s.tabs.panes[a + 1..]
      && (t.tabs.panes != [] ==>
            HasTab(t)
            && t.tabs.panes[t.tabs.active] == s.tabs.panes[if a + 1 < |s.tabs.panes| then a + 1 else a - 1])
      && t.sent == s.sent + [ClosePane(s.tabs.panes[a].pane), Cancel(s.tabs.panes[a].sub)]
                   + (if t.tabs.panes == [] then [OpenPane(None)] else [])
      && t.tabs.opening == s.tabs.opening + (if t.tabs.panes == [] then [Opening(s.nextId, None)] else [])
  {
    hide Handle;
    var u := s;
    if ev.Click? {
      u := Handle(s, FocusKey(Pty));
      ClickEffect(s, Pty, ev.hit);
      QuietKey(s, FocusKey(Pty));
    }
    CloseEffect(u);
    var a := s.tabs.active;
    var left := s.tabs.panes[..a] + s.tabs.panes[a + 1..];
    assert s.tabs.opening + [] == s.tabs.opening && |left| == |s.tabs.panes| - 1;
    assert s.sent + [ClosePane(s.tabs.panes[a].pane), Cancel(s.tabs.panes[a].sub), OpenPane(None)]
        == s.sent + [ClosePane(s.tabs.panes[a].pane), Cancel(s.tabs.panes[a].sub)] + [OpenPane(None)];
  }

  /**
   In every run, a pane the daemon was told to close is the one whose tab was shown when the user
   closed it: that tab left the stack with this very event, its subscription was cancelled next,
   the other tabs stayed in their order, and the one after it is shown, or the one before the last.
   */
  lemma CloseGoesWithTab(pane: nat, tiny: bool, evs: seq<AppEvent>, m: nat) returns (k: nat)
    requires m < |Run(Launch(pane, tiny), evs).sent| && Run(Launch(pane, tiny), evs).sent[m].ClosePane?
    ensures k < |evs|
    ensures
      var start, sent := Launch(pane, tiny), Run(Launch(pane, tiny), evs).sent;
      var s, t := Before(start, evs, k), Before(start, evs, k + 1);
      var a, n := s.tabs.active, |s.tabs.panes|;
      && Closes(s, evs[k]) && m == |s.sent|
      && sent[m] == ClosePane(s.tabs.panes[a].pane)
      && m + 1 < |sent| && sent[m + 1] == Cancel(s.tabs.panes[a].sub)
      && t.tabs.panes == s.tabs.panes[..a] + s.tabs.panes[a + 1..]
      && (n > 1 ==> HasTab(t) && t.tabs.panes[t.tabs.active] == s.tabs.panes[if a + 1 < n then a + 1 else a - 1])
      && (n == 1 ==> m + 2 < |sent| && sent[m + 2] == OpenPane(None))
  {
    var start := Launch(pane, tiny);
    assert Before(start, evs, 0) == start && evs[..|evs|] == evs;
    LaunchOpensOnly(pane, tiny);
    hide Handle, Run, Launch, Closes, HasTab, Inv;
    k := CloseSent(start, evs, m);
    RunInv(pane, tiny, evs[..k]);
    BeforeNext(start, evs, k);
    assert Inv(Before(start, evs, k));
    hide Before;
    ClosingMessage(Before(start, evs, k), evs[k], m);
  }

  /** The event that sent the message; what it added is still there at the end. */
  lemma CloseSent(start: AppState, evs: seq<AppEvent>, m: nat) returns (k: nat)
    requires m < |Before(start, evs, |evs|).sent| && Before(start, evs, |evs|).sent[m].ClosePane?
    requires forall w :: w in start.sent ==> !w.ClosePane?
    ensures k < |evs| && |Before(start, evs, k).sent| <= m < |Before(start, evs, k + 1).sent|
    ensures Before(start, evs, k + 1).sent <= Before(start, evs, |evs|).sent
  {
    assert Before(start, evs, 0) == start;
    hide Before;
    SentGrows(start, evs, 0, |evs|);
    k := AppPrompt.SentBy(start, evs, |evs|, m);
    SentGrows(start, evs, k + 1, |evs|);
  }

  /** A ClosePane among what an event adds is the first of it, and the rest goes with it. */
  lemma ClosingMessage(s: AppState, ev: AppEvent, m: nat)
    requires Inv(s) && |s.sent| <= m < |Handle(s, ev).sent| && Handle(s, ev).sent[m].ClosePane?
    ensures
      var t := Handle(s, ev);
      var a, n := s.tabs.active, |s.tabs.panes|;
      && Closes(s, ev) && m == |s.sent|
      && t.sent[m] == ClosePane(s.tabs.panes[a].pane)
      && m + 1 < |t.sent| && t.sent[m + 1] == Cancel(s.tabs.panes[a].sub)
      && t.tabs.panes == s.tabs.panes[..a] + s.tabs.panes[a + 1..]
      && (n > 1 ==> HasTab(t) && t.tabs.panes[t.tabs.active] == s.tabs.panes[if a + 1 < n then a + 1 else a - 1])
      && (n == 1 ==> m + 2 < |t.sent| && t.sent[m + 2] == OpenPane(None))
  {
    hide Handle, Causes, Inv;
    AddedIsCalled(s, ev, m);
    CloseCalled(s, ev, Handle(s, ev).sent[m]);
    ClosedTab(s, ev);
    CloseFirst(s, Handle(s, ev), m);
    hide Closes;
  }

  lemma AddedIsCalled(s: AppState, ev: AppEvent, m: nat)
    requires Inv(s) && |s.sent| <= m < |Handle(s, ev).sent|
    ensures Causes(s, ev, Handle(s, ev).sent[m])
  {
    hide Handle, Causes, Inv, Requests;
    var out := EventAnswers(s, ev);
    assert Handle(s, ev).sent[m] == out[m - |s.sent|];
  }

  lemma CloseFirst(s: AppState, t: AppState, m: nat)
    requires HasTab(s) && |s.sent| <= m < |t.sent| && t.sent[m].ClosePane?
    requires
      t.sent == s.sent + [ClosePane(s.tabs.panes[s.tabs.active].pane), Cancel(s.tabs.panes[s.tabs.active].sub)]
                + (if t.tabs.panes == [] then [OpenPane(None)] else [])
    requires t.tabs.panes == s.tabs.panes[..s.tabs.active] + s.tabs.panes[s.tabs.active + 1..]
    ensures m == |s.sent| && t.sent[m] == ClosePane(s.tabs.panes[s.tabs.active].pane)
    ensures m + 1 < |t.sent| && t.sent[m + 1] == Cancel(s.tabs.panes[s.tabs.active].sub)
    ensures |s.tabs.panes| == 1 ==> m + 2 < |t.sent| && t.sent[m + 2] == OpenPane(None)
    ensures |t.tabs.panes| == |s.tabs.panes| - 1
  {
  }

  lemma CloseCalled(s: AppState, ev: AppEvent, w: Wire)
    requires Causes(s, ev, w) && w.ClosePane?
    ensures Closes(s, ev) && w.pane == s.tabs.panes[s.tabs.active].pane
  {
  }

  lemma LaunchOpensOnly(pane: nat, tiny: bool)
    ensures forall w :: w in Launch(pane, tiny).sent ==> !w.ClosePane?
    ensures Launch(pane, tiny).actions == map[]
  {
  }

  // ---- requests in flight -------------------------------------------------------------------------

  /** The request is answered, or a tick finds it overdue. */
  predicate Settles(s: AppState, ev: AppEvent, id: nat, deadline: nat) {
    !s.panicked && (ev == ActionDone(id) || ev == ActionTimeout(id) || (ev.Tick? && ev.now >= deadline))
  }

  lemma ActionsStep(s: AppState, ev: AppEvent, id: nat)
    requires Inv(s)
    ensures
      var t := Handle(s, ev);
      if Requests(s, ev) && id == s.nextId then id in t.actions && t.actions[id] == ev.now + 30
      else if id in s.actions && !Settles(s, ev, id, s.actions[id])
      then id in t.actions && t.actions[id] == s.actions[id]
      else id !in t.actions
  {
    hide Handle, Inv, Requests;
    if s.panicked {
      PanickedStays(s, ev);
      RequestTyped(s, ev);
    } else if IsInput(ev) || ev.Click? {
      var out := EventAnswers(s, ev);
      RequestTyped(s, ev);
    } else {
      RequestTyped(s, ev);
      DaemonActions(s, ev);
    }
  }

  lemma RequestTyped(s: AppState, ev: AppEvent)
    ensures Requests(s, ev) ==> ev.Typed? && !s.panicked
  {
  }

  lemma DaemonActions(s: AppState, ev: AppEvent)
    requires Inv(s) && !s.panicked && !IsInput(ev) && !ev.Click?
    ensures
      var t := Handle(s, ev);
      && (forall id :: id in t.actions <==> id in s.actions && !Settles(s, ev, id, s.actions[id]))
      && (forall id :: id in t.actions ==> t.actions[id] == s.actions[id])
  {
    ShapeOf(s);
    hide Handle, Inv;
    match ev
    case PaneOpened(pane) => PaneOpenedEffect(s, pane);
    case PaneExited(sub) => ExitActions(s, sub);
    case Failed(openFailure) => FailedEffect(s, openFailure);
    case ActionDone(request) => ReplyEffect(s, request);
    case ActionTimeout(request) => ReplyEffect(s, request);
    case Tick(now) => TickEffect(s, now);
    case Resize(tiny) => ResizeEffect(s, tiny);
  }

  lemma ExitActions(s: AppState, sub: nat)
    requires Shape(s) && !s.panicked
    ensures Handle(s, PaneExited(sub)).actions == s.actions
  {
    hide Handle;
    var at := FindPane(s.tabs.panes, sub);
    if at.None? {
      PaneExitedUnknown(s, sub);
    } else {
      FirstFound(s.tabs.panes, sub);
      PaneExitedEffect(s, at.value);
    }
    hide FindPane;
  }

  /** Event `k` made request `id`, and nothing before event `n` has settled it. */
  ghost predicate InFlightSince(start: AppState, evs: seq<AppEvent>, n: nat, id: nat, k: nat)
    requires n <= |evs|
  {
    && k < n && evs[k].Typed? && Requests(Before(start, evs, k), evs[k]) && Before(start, evs, k).nextId == id
    && forall i :: k < i < n ==> !Settles(Before(start, evs, i), evs[i], id, evs[k].now + 30)
  }

  /** What is in flight before event `n` is what was made and not settled, with its deadline. */
  ghost predicate Tallied(start: AppState, evs: seq<AppEvent>, n: nat, id: nat)
    requires n <= |evs|
  {
    var actions := Before(start, evs, n).actions;
    && (id in actions ==> exists k: nat :: InFlightSince(start, evs, n, id, k))
    && (forall k: nat :: InFlightSince(start, evs, n, id, k) ==> id in actions && actions[id] == evs[k].now + 30)
  }

  /**
   In every run, a request is in flight if and only if some event made it and nothing since has
   settled it: no reply, no timeout, and no tick 30 seconds on or later. Its deadline is those 30
   seconds after the key that made it.
   */
  lemma InFlightIff(pane: nat, tiny: bool, evs: seq<AppEvent>, id: nat)
    ensures
      var start := Launch(pane, tiny);
      var actions := Run(start, evs).actions;
      && (id in actions <==> exists k: nat :: InFlightSince(start, evs, |evs|, id, k))
      && forall k: nat :: InFlightSince(start, evs, |evs|, id, k) ==> actions[id] == evs[k].now + 30
  {
    LaunchInv(pane, tiny);
    LaunchOpensOnly(pane, tiny);
    assert evs[..|evs|] == evs;
    hide Run, Launch, InFlightSince, Inv;
    InFlightAll(Launch(pane, tiny), evs, |evs|, id);
  }

  lemma {:induction false} InFlightAll(start: AppState, evs: seq<AppEvent>, n: nat, id: nat)
    requires n <= |evs| && Inv(start) && start.actions == map[]
    ensures Inv(Before(start, evs, n)) && Tallied(start, evs, n, id)
  {
    if n == 0 {
      assert Before(start, evs, 0) == start;
    } else {
      hide Handle, Tallied, Before, Inv;
      InFlightAll(start, evs, n - 1, id);
      InFlightNext(start, evs, n, id);
    }
  }

  lemma InFlightNext(start: AppState, evs: seq<AppEvent>, n: nat, id: nat)
    requires 0 < n <= |evs| && Inv(Before(start, evs, n - 1)) && Tallied(start, evs, n - 1, id)
    ensures Inv(Before(start, evs, n)) && Tallied(start, evs, n, id)
  {
    BeforeNext(start, evs, n - 1);
    hide Handle, Before, Inv, InFlightSince;
    StepInv(Before(start, evs, n - 1), evs[n - 1]);
    if id in Before(start, evs, n).actions {
      InFlightBack(start, evs, n, id);
    }
    forall k: nat | InFlightSince(start, evs, n, id, k)
      ensures id in Before(start, evs, n).actions && Before(start, evs, n).actions[id] == evs[k].now + 30
    {
      InFlightForth(start, evs, n, id, k);
    }
  }

  lemma SinceGrows(start: AppState, evs: seq<AppEvent>, n: nat, id: nat, k: nat)
    requires 0 < n <= |evs| && k < n - 1
    ensures
      InFlightSince(start, evs, n, id, k) <==>
      InFlightSince(start, evs, n - 1, id, k) && !Settles(Before(start, evs, n - 1), evs[n - 1], id, evs[k].now + 30)
  {
    hide Before, Requests, Settles;
  }

  lemma SinceNow(start: AppState, evs: seq<AppEvent>, n: nat, id: nat)
    requires 0 < n <= |evs|
    ensures
      var s, ev := Before(start, evs, n - 1), evs[n - 1];
      InFlightSince(start, evs, n, id, n - 1) <==> Requests(s, ev) && s.nextId == id
  {
    RequestTyped(Before(start, evs, n - 1), evs[n - 1]);
    hide Before, Requests, Settles;
  }

  lemma InFlightBack(start: AppState, evs: seq<AppEvent>, n: nat, id: nat)
    requires 0 < n <= |evs| && Inv(Before(start, evs, n - 1)) && Tallied(start, evs, n - 1, id)
    requires id in Before(start, evs, n).actions
    ensures exists k: nat :: InFlightSince(start, evs, n, id, k)
  {
    BeforeNext(start, evs, n - 1);
    hide Handle, Before, Requests, Settles, Inv, InFlightSince, Tallied;
    var s, ev := Before(start, evs, n - 1), evs[n - 1];
    ActionsStep(s, ev, id);
    if Requests(s, ev) && id == s.nextId {
      SinceNow(start, evs, n, id);
    } else {
      var k := TalliedAt(start, evs, n - 1, id);
      SinceGrows(start, evs, n, id, k);
    }
  }

  lemma TalliedAt(start: AppState, evs: seq<AppEvent>, n: nat, id: nat) returns (k: nat)
    requires n <= |evs| && Tallied(start, evs, n, id) && id in Before(start, evs, n).actions
    ensures k < n && InFlightSince(start, evs, n, id, k) && Before(start, evs, n).actions[id] == evs[k].now + 30
  {
    hide Before, InFlightSince;
    k :| InFlightSince(start, evs, n, id, k);
    SinceBefore(start, evs, n, id, k);
  }

  lemma SinceBefore(start: AppState, evs: seq<AppEvent>, n: nat, id: nat, k: nat)
    requires n <= |evs| && InFlightSince(start, evs, n, id, k)
    ensures k < n
  {
    hide Before, Requests, Settles;
  }

  lemma InFlightForth(start: AppState, evs: seq<AppEvent>, n: nat, id: nat, k: nat)
    requires 0 < n <= |evs| && Inv(Before(start, evs, n - 1)) && Tallied(start, evs, n - 1, id)
    requires InFlightSince(start, evs, n, id, k)
    ensures id in Before(start, evs, n).actions && Before(start, evs, n).actions[id] == evs[k].now + 30
  {
    BeforeNext(start, evs, n - 1);
    SinceBefore(start, evs, n, id, k);
    hide Handle, Before, Requests, Settles, Inv, InFlightSince;
    var s := Before(start, evs, n - 1);
    ActionsStep(s, evs[n - 1], id);
    if k < n - 1 {
      DrawnAhead(s);
      SinceGrows(start, evs, n, id, k);
    } else {
      SinceNow(start, evs, n, id);
    }
  }

  lemma DrawnAhead(s: AppState)
    requires Inv(s)
    ensures forall id :: id in s.actions ==> id < s.nextId
  {
  }
}

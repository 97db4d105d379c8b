/**
 What each event makes of the client, situation by situation: what it leaves in the fields and what
 it adds to the messages.
 */
module AppEffects {
  import opened Wrappers
  import opened Bytes
  import opened Routing
  import opened KeyParser
  import opened AppModel

  function Letter(c: char): Key {
    Char((c as int % 256) as byte)
  }

  /** Keys and clicks reach the tiles. */
  predicate Free(s: AppState) {
    !s.panicked && !s.view.help && s.view.picker.None?
  }

  /** The key reaches `tile`. */
  predicate KeyAt(s: AppState, ev: AppEvent, tile: Tile) {
    ev.Typed? && Free(s) && s.view.focused == tile
  }

  /** The key reaches the container list. */
  predicate KeyAtList(s: AppState, ev: AppEvent) {
    KeyAt(s, ev, DockerTile) && s.docker.logs.None? && s.docker.confirm.None? && !s.docker.filter
  }

  predicate HasTab(s: AppState) {
    s.tabs.active < |s.tabs.panes|
  }

  predicate InReach(s: AppState, tile: Tile) {
    tile == TooSmall <==> s.view.tiny
  }

  // ---- keys at the tiles ----------------------------------------------------------------------

  lemma TypeEffect(s: AppState, ev: AppEvent)
    requires Free(s) && s.view.focused == Pty && (ev.Typed? || ev.Tab?)
    ensures
      Handle(s, ev) == if HasTab(s) then s.(sent := s.sent + [SendInput(s.tabs.panes[s.tabs.active].pane)])
                       else s.(panicked := true)
  {
  }

  lemma LogsEffect(s: AppState, ev: AppEvent)
    requires KeyAt(s, ev, DockerTile) && s.docker.logs.Some?
    ensures
      Handle(s, ev) ==
      if ev.key == Escape || ev.key == Letter('q')
      then s.(docker := s.docker.(logs := None), sent := s.sent + [Cancel(s.docker.logs.value)]) else s
  {
  }

  lemma PromptEffect(s: AppState, ev: AppEvent)
    requires KeyAt(s, ev, DockerTile) && s.docker.logs.None? && s.docker.confirm.Some?
    ensures
      var c := s.docker.confirm.value;
      Handle(s, ev) ==
      if ev.key == Letter('y') || ev.key == Letter('Y')
      then s.(docker := s.docker.(confirm := None), nextId := s.nextId + 1,
              actions := s.actions[s.nextId := ev.now + 30],
              sent := s.sent + [Act(s.nextId, c.container, c.action, s.docker.target)])
      else if ev.key == Letter('K') || ev.key == Letter('X') then s
      else s.(docker := s.docker.(confirm := None))
  {
  }

  lemma DockerFilterEffect(s: AppState, ev: AppEvent)
    requires KeyAt(s, ev, DockerTile) && s.docker.logs.None? && s.docker.confirm.None? && s.docker.filter
    ensures Handle(s, ev) == s.(docker := s.docker.(filter := ev.key != Escape && ev.key != Enter))
  {
  }

  /** `r` restarts and `s` stops the container selected; `K` and `X` ask first; `l` shows its log. */
  lemma ListEffect(s: AppState, ev: AppEvent)
    requires KeyAtList(s, ev)
    ensures ev.selected.None? ==> Handle(s, ev) == s.(docker := s.docker.(filter := ev.key == Letter('/')))
    ensures ev.selected.Some? ==>
      var key, container := ev.key, ev.selected.value;
      Handle(s, ev) ==
      if key == Letter('r') || key == Letter('s')
      then s.(nextId := s.nextId + 1, actions := s.actions[s.nextId := ev.now + 30],
              sent := s.sent + [Act(s.nextId, container, if key == Letter('r') then Restart else Stop,
                                    s.docker.target)])
      else if key == Letter('K') || key == Letter('X')
      then
        var action := if key == Letter('K') then Kill else Remove;
        s.(docker := s.docker.(confirm := Some(Confirm(action, container, ev.now + 10))))
      else if key == Letter('l')
      then s.(docker := s.docker.(logs := Some(s.nextId)), nextId := s.nextId + 1,
              sent := s.sent + [Subscribe(s.nextId, AboutLogs(container), s.docker.target)])
      else s.(docker := s.docker.(filter := key == Letter('/')))
  {
  }

  lemma PortsEffect(s: AppState, ev: AppEvent)
    requires KeyAt(s, ev, PortsTile)
    ensures
      var filtering := if s.processesShown then s.processes.filter else s.ports.filter;
      var on := if filtering then ev.key != Escape && ev.key != Enter else ev.key == Letter('/');
      Handle(s, ev) ==
      if !filtering && ev.key == Letter('p') then s.(processesShown := !s.processesShown)
      else if s.processesShown then s.(processes := s.processes.(filter := on))
      else s.(ports := s.ports.(filter := on))
  {
  }

  /** `r` reconnects the host selected, Enter opens a pane on it. */
  lemma FleetEffect(s: AppState, ev: AppEvent)
    requires KeyAt(s, ev, FleetTile)
    ensures s.fleet.filter ==> Handle(s, ev) == s.(fleet := s.fleet.(filter := ev.key != Escape && ev.key != Enter))
    ensures !s.fleet.filter && (ev.selected.None? || (ev.key != Letter('r') && ev.key != Enter)) ==>
      Handle(s, ev) == s.(fleet := s.fleet.(filter := ev.key == Letter('/')))
    ensures !s.fleet.filter && ev.selected.Some? && ev.key == Letter('r') ==>
      Handle(s, ev) == s.(nextId := s.nextId + 1, actions := s.actions[s.nextId := ev.now + 30],
                          sent := s.sent + [ReconnectHost(s.nextId, ev.selected.value)])
    ensures !s.fleet.filter && ev.selected.Some? && ev.key == Enter ==>
      Handle(s, ev) == s.(tabs := s.tabs.(opening := s.tabs.opening + [Opening(s.nextId, ev.selected)]),
                          nextId := s.nextId + 1, sent := s.sent + [OpenPane(ev.selected)])
  {
  }

  lemma OtherTileEffect(s: AppState, ev: AppEvent)
    requires KeyAt(s, ev, ClaudeCode) || KeyAt(s, ev, TooSmall)
    ensures Handle(s, ev) == s
  {
  }

  // ---- overlays and focus -----------------------------------------------------------------------

  lemma DetachEffect(s: AppState)
    requires !s.panicked
    ensures Handle(s, DetachKey) == s.(sent := s.sent + [Detach])
  {
  }

  lemma HelpEffect(s: AppState, ev: AppEvent)
    requires !s.panicked && s.view.help && (ev.Click? || (IsInput(ev) && !ev.DetachKey?))
    ensures Handle(s, ev) == s.(view := s.view.(help := false))
  {
  }

  predicate PickerOpen(s: AppState) {
    !s.panicked && !s.view.help && s.view.picker.Some?
  }

  /** A pick that changes what the tile shows. */
  predicate Picks(s: AppState, ev: AppEvent, what: Picker, target: Target) {
    PickerOpen(s) && ev.Typed? && s.view.picker == Some(what) && ev.key == Enter && ev.row == UsableRow(target)
    && target != (match what case PickDocker => s.docker.target case PickPorts => s.ports.target
                             case PickProcesses => s.processes.target)
  }

  lemma PickDockerEffect(s: AppState, ev: AppEvent, target: Target)
    requires Picks(s, ev, PickDocker, target)
    ensures
      Handle(s, ev) ==
      s.(view := s.view.(picker := None), docker := s.docker.(target := target, logs := None, confirm := None),
         sent := s.sent + (if s.docker.logs.Some? then [Cancel(s.docker.logs.value)] else [])
                 + [Cancel(s.docker.sub), Subscribe(s.docker.sub, AboutDocker, target)])
  {
  }

  lemma PickListEffect(s: AppState, ev: AppEvent, target: Target)
    requires Picks(s, ev, PickPorts, target) || Picks(s, ev, PickProcesses, target)
    ensures
      Handle(s, ev) ==
      if s.view.picker == Some(PickPorts)
      then s.(view := s.view.(picker := None), ports := s.ports.(target := target),
              sent := s.sent + [Cancel(s.ports.sub), Subscribe(s.ports.sub, AboutPorts, target)])
      else s.(view := s.view.(picker := None), processes := s.processes.(target := target),
              sent := s.sent + [Cancel(s.processes.sub), Subscribe(s.processes.sub, AboutProcesses, target)])
  {
  }

  /** Any other key or click closes the picker, except on a greyed row and for the keys that mean nothing to it. */
  lemma PickerEffect(s: AppState, ev: AppEvent)
    requires PickerOpen(s) && (ev.Click? || (IsInput(ev) && !ev.DetachKey?))
    requires forall what, target :: !Picks(s, ev, what, target)
    ensures
      Handle(s, ev) ==
      if ev.Typed? && ((ev.key != Enter && ev.key != Escape) || (ev.key == Enter && ev.row == GreyedRow)) then s
      else s.(view := s.view.(picker := None, help := ev.HelpKey?))
  {
    if ev.Typed? && ev.key == Enter && ev.row.UsableRow? {
      assert !Picks(s, ev, s.view.picker.value, ev.row.target);
    }
  }

  lemma OverlayEffect(s: AppState)
    requires Free(s)
    ensures Handle(s, HelpKey) == s.(view := s.view.(help := true))
    ensures
      Handle(s, PickerKey) ==
      if s.view.focused == DockerTile then s.(view := s.view.(picker := Some(PickDocker)))
      else if s.view.focused == PortsTile
      then s.(view := s.view.(picker := Some(if s.processesShown then PickProcesses else PickPorts)))
      else s
  {
  }

  lemma FocusEffect(s: AppState, ev: AppEvent)
    requires Free(s) && (ev.FocusKey? || (ev.Tab? && s.view.focused != Pty))
    ensures
      Handle(s, ev) ==
      if ev.to == s.view.focused || !InReach(s, ev.to) then s
      else s.(view := s.view.(focused := ev.to),
              docker := if s.view.focused == DockerTile then s.docker.(confirm := None) else s.docker)
  {
  }

  /** A click focuses its tile as the key for it does, and then does what the key for what it hit does. */
  lemma ClickEffect(s: AppState, tile: Tile, hit: Hit)
    requires Free(s) && InReach(s, tile)
    ensures
      var u := Handle(s, FocusKey(tile));
      && Free(u) && u.view.focused == tile
      && Handle(s, Click(Some(tile), hit)) ==
         if hit.TitleBar? then Handle(u, PickerKey)
         else if hit.CloseTab? && tile == Pty then Handle(u, CloseKey)
         else if hit.PaneTab? && tile == Pty && hit.index < |u.tabs.panes| then u.(tabs := u.tabs.(active := hit.index))
         else if hit.DoubleClick? && tile == FleetTile && hit.selected.Some?
         then u.(tabs := u.tabs.(opening := u.tabs.opening + [Opening(u.nextId, hit.selected)]), nextId := u.nextId + 1,
                 sent := u.sent + [OpenPane(hit.selected)])
         else u
  {
    hide CloseActive;
  }

  lemma ClickNowhere(s: AppState, tile: Option<Tile>, hit: Hit)
    requires Free(s) && (tile.None? || !InReach(s, tile.value))
    ensures Handle(s, Click(tile, hit)) == s
  {
  }

  // ---- tabs -------------------------------------------------------------------------------------

  /** The tab shown goes; the one that followed it is shown, or else the last. The last tab of all is replaced. */
  lemma CloseEffect(s: AppState)
    requires Free(s) && s.view.focused == Pty
    ensures !HasTab(s) ==> Handle(s, CloseKey) == s
    ensures HasTab(s) ==>
      var a, gone := s.tabs.active, s.tabs.panes[s.tabs.active];
      var left := s.tabs.panes[..a] + s.tabs.panes[a + 1..];
      Handle(s, CloseKey) ==
      if left == []
      then s.(tabs := Tabs([], 0, s.tabs.opening + [Opening(s.nextId, None)]), nextId := s.nextId + 1,
              sent := s.sent + [ClosePane(gone.pane), Cancel(gone.sub), OpenPane(None)])
      else s.(tabs := Tabs(left, if a < |left| then a else |left| - 1, s.tabs.opening),
              sent := s.sent + [ClosePane(gone.pane), Cancel(gone.sub)])
  {
  }

  lemma CloseElsewhere(s: AppState)
    requires Free(s) && s.view.focused != Pty
    ensures Handle(s, CloseKey) == s
  {
  }

  /** The oldest request in flight becomes a tab, which is shown. */
  lemma PaneOpenedEffect(s: AppState, pane: nat)
    requires !s.panicked
    ensures s.tabs.opening == [] ==> Handle(s, PaneOpened(pane)) == s
    ensures s.tabs.opening != [] ==>
      var sub := s.tabs.opening[0].sub;
      Handle(s, PaneOpened(pane)) ==
      s.(tabs := Tabs(s.tabs.panes + [Pane(pane, sub)], |s.tabs.panes|, s.tabs.opening[1..]),
         view := s.view.(focused := if s.view.tiny then s.view.focused else Pty),
         sent := s.sent + [Attach(pane, sub), ResizePane(pane)])
  {
  }

  lemma PaneExitedUnknown(s: AppState, sub: nat)
    requires forall i :: 0 <= i < |s.tabs.panes| ==> s.tabs.panes[i].sub != sub
    ensures Handle(s, PaneExited(sub)) == s
  {
  }

  /** The tab goes. Another one that was shown still is; after the one shown, the one before it is, or the first. */
  lemma PaneExitedEffect(s: AppState, i: nat)
    requires !s.panicked && i < |s.tabs.panes| && HasTab(s)
    requires forall j :: 0 <= j < i ==> s.tabs.panes[j].sub != s.tabs.panes[i].sub
    ensures
      var a := s.tabs.active;
      var left := s.tabs.panes[..i] + s.tabs.panes[i + 1..];
      Handle(s, PaneExited(s.tabs.panes[i].sub)) ==
      if left == [] then s.(tabs := Tabs([], 0, s.tabs.opening), sent := s.sent + [Detach])
      else s.(tabs := Tabs(left, if i < a || (i == a && a > 0) then a - 1 else a, s.tabs.opening))
  {
    FoundFirst(s.tabs.panes, i);
    hide FindPane;
  }

  lemma {:induction false} FoundFirst(panes: seq<Pane>, k: nat)
    requires k < |panes| && forall i :: 0 <= i < k ==> panes[i].sub != panes[k].sub
    ensures FindPane(panes, panes[k].sub) == Some(k)
  {
    if k > 0 {
      FoundFirst(panes[1..], k - 1);
    }
  }

  lemma FailedEffect(s: AppState, openFailure: bool)
    requires !s.panicked
    ensures
      Handle(s, Failed(openFailure)) ==
      if openFailure && s.tabs.opening != [] then s.(tabs := s.tabs.(opening := s.tabs.opening[1..])) else s
  {
  }

  // ---- requests, time and size --------------------------------------------------------------------

  lemma ReplyEffect(s: AppState, request: nat)
    requires !s.panicked
    ensures Handle(s, ActionDone(request)) == s.(actions := s.actions - {request})
    ensures Handle(s, ActionTimeout(request)) == s.(actions := s.actions - {request})
  {
  }

  /** What is due or overdue is given up, and nothing else. */
  lemma TickEffect(s: AppState, now: nat)
    requires !s.panicked
    ensures
      var t := Handle(s, Tick(now));
      && t == s.(docker := s.docker.(confirm := t.docker.confirm), actions := t.actions)
      && t.docker.confirm ==
         (if s.docker.confirm.Some? && s.docker.confirm.value.deadline <= now then None else s.docker.confirm)
      && (forall id :: id in t.actions <==> id in s.actions && now < s.actions[id])
      && (forall id :: id in t.actions ==> t.actions[id] == s.actions[id])
  {
  }

  lemma ResizeEffect(s: AppState, tiny: bool)
    requires !s.panicked
    ensures
      var t := Handle(s, Resize(tiny));
      && t == s.(view := s.view.(tiny := tiny, focused := t.view.focused), sent := t.sent)
      && t.view.focused ==
         (if tiny then TooSmall else if s.view.focused == TooSmall then Pty else s.view.focused)
      && |t.sent| == |s.sent| + |s.tabs.panes| && s.sent <= t.sent
      && forall k :: 0 <= k < |s.tabs.panes| ==> t.sent[|s.sent| + k] == ResizePane(s.tabs.panes[k].pane)
  {
    ResizedAll(s, |s.tabs.panes|);
    hide ResizeAll;
  }

  lemma {:induction false} ResizedAll(s: AppState, n: nat)
    requires n <= |s.tabs.panes|
    ensures
      var t := ResizeAll(s, n);
      && |t.sent| == |s.sent| + n && s.sent <= t.sent
      && forall k :: 0 <= k < n ==> t.sent[|s.sent| + k] == ResizePane(s.tabs.panes[k].pane)
  {
    if n > 0 {
      ResizedAll(s, n - 1);
    }
  }
}

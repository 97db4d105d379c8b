/** What the tiles show, against what the daemon was last asked for under their ids. */
module AppTargets {
  import opened Wrappers
  import opened Routing
  import opened KeyParser
  import opened AppModel
  import opened AppInvariant

  /** A subscription as the daemon was asked for it. */
  datatype Asked = Asked(topic: Topic, target: Target)

  /** One more message: what the daemon was asked for under `id`, if it was not cancelled or became a pane's. */
  function Hears(was: Option<Asked>, w: Wire, id: nat): Option<Asked> {
    match w
    case Subscribe(i, topic, target) => if i == id then Some(Asked(topic, target)) else was
    case Attach(_, i) => if i == id then None else was
    case Cancel(i) => if i == id then None else was
    case _ => was
  }

  function AskedOf(sent: seq<Wire>, id: nat): Option<Asked> {
    if sent == [] then None else Hears(AskedOf(sent[..|sent| - 1], id), sent[|sent| - 1], id)
  }

  lemma AskedSnoc(sent: seq<Wire>, w: Wire)
    ensures forall id: nat :: AskedOf(sent + [w], id) == Hears(AskedOf(sent, id), w, id)
  {
    assert (sent + [w])[..|sent|] == sent;
  }

  /** Every list is served from the target its tile shows, and so is the log shown in the Docker tile. */
  predicate Served(s: AppState) {
    && AskedOf(s.sent, s.docker.sub) == Some(Asked(AboutDocker, s.docker.target))
    && AskedOf(s.sent, s.ports.sub) == Some(Asked(AboutPorts, s.ports.target))
    && AskedOf(s.sent, s.processes.sub) == Some(Asked(AboutProcesses, s.processes.target))
    && AskedOf(s.sent, s.fleet.sub) == Some(Asked(AboutFleet, s.fleet.target))
    && (s.docker.logs.Some? ==>
          var log := AskedOf(s.sent, s.docker.logs.value);
          log.Some? && log.value.topic.AboutLogs? && log.value.target == s.docker.target)
  }

  /** The tiles show what they showed; the log may have been left. */
  predicate SameTiles(s: AppState, s': AppState) {
    && s'.docker.sub == s.docker.sub && s'.docker.target == s.docker.target
    && s'.ports.sub == s.ports.sub && s'.ports.target == s.ports.target
    && s'.processes.sub == s.processes.sub && s'.processes.target == s.processes.target
    && s'.fleet.sub == s.fleet.sub && s'.fleet.target == s.fleet.target
    && (s'.docker.logs == s.docker.logs || s'.docker.logs.None?)
  }

  /** Nothing about any id but `gone` was said between `a` and `b`. */
  ghost predicate SaysOnly(a: seq<Wire>, b: seq<Wire>, gone: Option<nat>) {
    forall id: nat :: Some(id) != gone ==> AskedOf(b, id) == AskedOf(a, id)
  }

  /** An id that no tile shows. */
  predicate Elsewhere(s: AppState, id: Option<nat>) {
    id.Some? ==> id.value != s.docker.sub && id.value != s.ports.sub && id.value != s.processes.sub
                 && id.value != s.fleet.sub && s.docker.logs != id
  }

  lemma ServedFrame(s: AppState, s': AppState, gone: Option<nat>)
    requires Served(s) && SameTiles(s, s') && SaysOnly(s.sent, s'.sent, gone) && Elsewhere(s', gone)
    ensures Served(s')
  {
    hide AskedOf;
  }

  lemma NothingSaid(sent: seq<Wire>)
    ensures SaysOnly(sent, sent, None)
  {
  }

  /** Messages about panes and requests say nothing about a subscription. */
  lemma QuietSaid(sent: seq<Wire>, w: Wire)
    requires !w.Subscribe? && !w.Attach? && !w.Cancel?
    ensures SaysOnly(sent, sent + [w], None)
  {
    AskedSnoc(sent, w);
    hide AskedOf;
  }

  lemma SaidTwice(a: seq<Wire>, b: seq<Wire>, c: seq<Wire>, gone: Option<nat>)
    requires (SaysOnly(a, b, None) && SaysOnly(b, c, gone)) || (SaysOnly(a, b, gone) && SaysOnly(b, c, None))
    ensures SaysOnly(a, c, gone)
  {
    hide AskedOf;
  }

  lemma OneSaid(sent: seq<Wire>, w: Wire)
    requires w.Subscribe? || w.Attach? || w.Cancel?
    ensures SaysOnly(sent, sent + [w], Some(w.id))
  {
    AskedSnoc(sent, w);
    hide AskedOf;
  }

  lemma LaunchServed(pane: nat, tiny: bool)
    ensures Served(Launch(pane, tiny))
  {
    var sent := Launch(pane, tiny).sent;
    assert sent[..6] == sent;
    AskedSnoc(sent[..5], sent[5]);
    AskedSnoc(sent[..4], sent[4]);
    AskedSnoc(sent[..3], sent[3]);
    AskedSnoc(sent[..2], sent[2]);
    assert sent[..5] + [sent[5]] == sent && sent[..4] + [sent[4]] == sent[..5];
    assert sent[..3] + [sent[3]] == sent[..4] && sent[..2] + [sent[2]] == sent[..3];
    hide AskedOf;
  }

  // ---- handlers that say nothing about the tiles -------------------------------------------------

  lemma QuietServed(s: AppState, s': AppState, w: Wire)
    requires Served(s) && SameTiles(s, s') && !w.Subscribe? && !w.Attach? && !w.Cancel?
    requires s'.sent == s.sent || s'.sent == s.sent + [w]
    ensures Served(s')
  {
    NothingSaid(s.sent);
    QuietSaid(s.sent, w);
    hide SaysOnly, Served;
    ServedFrame(s, s', None);
  }

  lemma RequestsServed(s: AppState, alias: Option<string>, host: string, now: nat)
    requires Served(s)
    ensures Served(RequestPane(s, alias)) && Served(ReconnectFleet(s, host, now)) && Served(TypeInto(s))
  {
    hide Served;
    QuietServed(s, RequestPane(s, alias), OpenPane(alias));
    QuietServed(s, ReconnectFleet(s, host, now), ReconnectHost(s.nextId, host));
    QuietServed(s, TypeInto(s),
                if s.tabs.active < |s.tabs.panes| then SendInput(s.tabs.panes[s.tabs.active].pane) else Detach);
  }

  lemma DispatchServed(s: AppState, container: string, action: ActionKind, now: nat)
    requires Served(s)
    ensures Served(Dispatch(s, container, action, now))
  {
    hide Served;
    QuietServed(s, Dispatch(s, container, action, now), Act(s.nextId, container, action, s.docker.target));
  }

  lemma {:induction false} ResizeAllServed(s: AppState, n: nat)
    requires n <= |s.tabs.panes|
    ensures SaysOnly(s.sent, ResizeAll(s, n).sent, None)
  {
    hide AskedOf;
    if n > 0 {
      ResizeAllServed(s, n - 1);
      QuietSaid(ResizeAll(s, n - 1).sent, ResizePane(s.tabs.panes[n - 1].pane));
    }
  }

  // ---- tabs, whose ids are their own --------------------------------------------------------------

  lemma TabElsewhere(s: AppState, i: nat)
    requires Inv(s) && i < |TabIds(s)|
    ensures Elsewhere(s, Some(TabIds(s)[i]))
  {
    hide Tracked, Wired, TabIds;
    assert TabIds(s)[i] in TabIds(s);
  }

  lemma DropTabServed(s: AppState)
    requires Inv(s) && Served(s) && s.tabs.active < |s.tabs.panes|
    ensures Served(DropTab(s))
  {
    var gone := s.tabs.panes[s.tabs.active];
    assert TabIds(s)[s.tabs.active] == gone.sub;
    TabElsewhere(s, s.tabs.active);
    QuietSaid(s.sent, ClosePane(gone.pane));
    OneSaid(s.sent + [ClosePane(gone.pane)], Cancel(gone.sub));
    hide Inv, Served, SaysOnly, TabIds;
    SaidTwice(s.sent, s.sent + [ClosePane(gone.pane)], DropTab(s).sent, Some(gone.sub));
    ServedFrame(s, DropTab(s), Some(gone.sub));
  }

  lemma CloseActiveServed(s: AppState)
    requires Inv(s) && Served(s)
    ensures Served(CloseActive(s))
  {
    hide Inv, Served, DropTab, RequestPane;
    if s.tabs.active < |s.tabs.panes| {
      DropTabServed(s);
      RequestsServed(DropTab(s), None, "", 0);
    }
  }

  lemma OpenedServed(s: AppState, pane: nat)
    requires Inv(s) && Served(s)
    ensures Served(Opened(s, pane))
  {
    if s.tabs.opening != [] {
      var sub := s.tabs.opening[0].sub;
      assert TabIds(s)[|s.tabs.panes|] == sub;
      TabElsewhere(s, |s.tabs.panes|);
      OneSaid(s.sent, Attach(pane, sub));
      QuietSaid(s.sent + [Attach(pane, sub)], ResizePane(pane));
      hide Inv, Served, SaysOnly, TabIds;
      SaidTwice(s.sent, s.sent + [Attach(pane, sub)], Opened(s, pane).sent, Some(sub));
      ServedFrame(s, Opened(s, pane), Some(sub));
    }
  }

  lemma PaneGoneServed(s: AppState, i: nat)
    requires Served(s) && i < |s.tabs.panes|
    ensures Served(PaneGone(s, i))
  {
    hide Served;
    QuietServed(s, PaneGone(s, i), Detach);
  }

  // ---- the log and the targets --------------------------------------------------------------------

  lemma LogElsewhere(s: AppState)
    requires Inv(s) && s.docker.logs.Some?
    ensures Elsewhere(s.(docker := s.docker.(logs := None)), s.docker.logs)
  {
    hide Tracked, Wired, TabIds;
  }

  lemma LeaveLogsServed(s: AppState)
    requires Inv(s) && Served(s) && s.docker.logs.Some?
    ensures Served(LeaveLogs(s))
  {
    LogElsewhere(s);
    OneSaid(s.sent, Cancel(s.docker.logs.value));
    hide Inv, Served, SaysOnly;
    ServedFrame(s, LeaveLogs(s), s.docker.logs);
  }

  lemma EnterLogsServed(s: AppState, container: string)
    requires Inv(s) && Served(s)
    ensures Served(EnterLogs(s, container))
  {
    AskedSnoc(s.sent, Subscribe(s.nextId, AboutLogs(container), s.docker.target));
    hide AskedOf, Tracked, Wired, TabIds;
  }

  lemma ListsServed(s: AppState, target: Target)
    requires Inv(s) && Served(s)
    ensures Served(RetargetPorts(s, target)) && Served(RetargetProcesses(s, target))
  {
    AskedSnoc(s.sent, Cancel(s.ports.sub));
    AskedSnoc(s.sent + [Cancel(s.ports.sub)], Subscribe(s.ports.sub, AboutPorts, target));
    AskedSnoc(s.sent, Cancel(s.processes.sub));
    AskedSnoc(s.sent + [Cancel(s.processes.sub)], Subscribe(s.processes.sub, AboutProcesses, target));
    hide AskedOf, Tracked, Wired, TabIds;
  }

  lemma SwitchDockerServed(s: AppState, target: Target)
    requires Inv(s) && Served(s) && s.docker.logs.None?
    ensures Served(SwitchDocker(s, target))
  {
    AskedSnoc(s.sent, Cancel(s.docker.sub));
    AskedSnoc(s.sent + [Cancel(s.docker.sub)], Subscribe(s.docker.sub, AboutDocker, target));
    hide AskedOf, Tracked, Wired, TabIds;
  }

  lemma DockerServed(s: AppState, target: Target)
    requires Inv(s) && Served(s)
    ensures Served(RetargetDocker(s, target))
  {
    hide Inv, Served, SwitchDocker;
    if s.docker.target != target {
      if s.docker.logs.Some? {
        LeaveLogsInv(s);
        LeaveLogsServed(s);
        SwitchDockerServed(LeaveLogs(s), target);
      } else {
        SwitchDockerServed(s, target);
      }
    }
  }

  // ---- events --------------------------------------------------------------------------------------

  lemma Unsent(s: AppState, s': AppState)
    requires Served(s) && SameTiles(s, s') && s'.sent == s.sent
    ensures Served(s')
  {
    hide AskedOf;
  }

  lemma DockerSetServed(s: AppState, confirm: Option<Confirm>, on: bool)
    requires Served(s)
    ensures Served(SetConfirm(s, confirm)) && Served(SetFilter(s, on))
  {
    hide AskedOf;
  }

  lemma SettersServed(s: AppState, on: bool)
    requires Served(s)
    ensures Served(SetHelp(s, on)) && Served(ClosePicker(s)) && Served(OpenPicker(s))
    ensures forall i :: Served(SetActive(s, i))
    ensures forall key :: Served(PortsKey(s, key))
    ensures forall to :: Served(MoveFocus(s, to))
  {
    hide AskedOf;
  }

  lemma DockerListKeyServed(s: AppState, key: Key, selected: Option<string>, now: nat)
    requires Inv(s) && Served(s)
    ensures Served(DockerListKey(s, key, selected, now))
  {
    hide Inv, Served, Dispatch, EnterLogs, SetConfirm, SetFilter;
    DockerSetServed(s, None, true);
    if selected.Some? {
      DispatchServed(s, selected.value, Restart, now);
      DispatchServed(s, selected.value, Stop, now);
      EnterLogsServed(s, selected.value);
      DockerSetServed(s, Some(Confirm(Kill, selected.value, now + CONFIRM_TIMEOUT)), true);
      DockerSetServed(s, Some(Confirm(Remove, selected.value, now + CONFIRM_TIMEOUT)), true);
    }
  }

  lemma DockerKeyServed(s: AppState, key: Key, selected: Option<string>, now: nat)
    requires Inv(s) && Served(s)
    ensures Served(DockerKey(s, key, selected, now))
  {
    hide Inv, Served, Dispatch, LeaveLogs, DockerListKey, SetConfirm, SetFilter;
    DockerSetServed(s, None, Filtering(true, key));
    if s.docker.logs.Some? {
      LeaveLogsServed(s);
    } else if s.docker.confirm.Some? {
      DispatchServed(SetConfirm(s, None), s.docker.confirm.value.container, s.docker.confirm.value.action, now);
    } else if !s.docker.filter {
      DockerListKeyServed(s, key, selected, now);
    }
  }

  lemma FleetKeyServed(s: AppState, key: Key, selected: Option<string>, now: nat)
    requires Served(s)
    ensures Served(FleetKey(s, key, selected, now))
  {
    hide Served, ReconnectFleet, RequestPane;
    if selected.Some? {
      RequestsServed(s, Some(selected.value), selected.value, now);
    }
    Unsent(s, s.(fleet := s.fleet.(filter := Filtering(s.fleet.filter, key))));
  }

  lemma TileKeyServed(s: AppState, key: Key, selected: Option<string>, now: nat)
    requires Inv(s) && Served(s)
    ensures Served(TileKey(s, key, selected, now))
  {
    SettersServed(s, true);
    hide Inv, Served, TypeInto, DockerKey, FleetKey, PortsKey;
    RequestsServed(s, None, "", 0);
    DockerKeyServed(s, key, selected, now);
    FleetKeyServed(s, key, selected, now);
  }

  lemma PickerServed(s: AppState, key: Key, row: Row)
    requires Inv(s) && Served(s) && s.view.picker.Some?
    ensures Served(PickerTyped(s, key, row))
  {
    SettersServed(s, false);
    SettersInv(s, None, false, 0);
    hide Inv, Served, RetargetDocker, RetargetPorts, RetargetProcesses, ClosePicker;
    if row.UsableRow? {
      DockerServed(ClosePicker(s), row.target);
      ListsServed(ClosePicker(s), row.target);
    }
  }

  lemma InputServed(s: AppState, ev: AppEvent)
    requires Inv(s) && Served(s) && IsInput(ev)
    ensures Served(OnInput(s, ev))
  {
    hide Inv, Served, TileKey, PickerTyped, MoveFocus, TypeInto, OpenPicker, CloseActive, SetHelp, ClosePicker;
    SettersServed(s, false);
    SettersServed(s, true);
    RequestsServed(s, None, "", 0);
    QuietServed(s, Send(s, Detach), Detach);
    if ev.Typed? {
      TileKeyServed(s, ev.key, ev.selected, ev.now);
      if s.view.picker.Some? {
        PickerServed(s, ev.key, ev.row);
      }
    } else {
      CloseActiveServed(s);
      SettersServed(ClosePicker(s), ev.HelpKey?);
    }
  }

  lemma HitServed(s: AppState, tile: Tile, hit: Hit)
    requires Inv(s) && Served(s)
    ensures Served(OnHit(s, tile, hit))
  {
    hide Inv, Served, OpenPicker, CloseActive, RequestPane, SetActive;
    SettersServed(s, false);
    CloseActiveServed(s);
    if hit.DoubleClick? {
      RequestsServed(s, hit.selected, "", 0);
    }
  }

  lemma ClickServed(s: AppState, tile: Option<Tile>, hit: Hit)
    requires Inv(s) && Served(s)
    ensures Served(OnClick(s, tile, hit))
  {
    SettersServed(s, false);
    hide Inv, Served, MoveFocus, OnHit, SetHelp, ClosePicker;
    if tile.Some? {
      MoveFocusInv(s, tile.value);
      HitServed(MoveFocus(s, tile.value), tile.value, hit);
    }
  }

  lemma DaemonServed(s: AppState, ev: AppEvent)
    requires Inv(s) && Served(s) && !IsInput(ev) && !ev.Click?
    ensures Served(OnDaemon(s, ev))
  {
    hide Inv, Served, Opened, PaneGone, BranchOf, SaysOnly, ResizeAll, OnTick, OnResize, PopOpening, Forget;
    match ev
    case PaneOpened(pane) => OpenedServed(s, pane);
    case PaneExited(sub) =>
      var branch := BranchOf(s, sub);
      if branch.ToPane? && branch.index < |s.tabs.panes| {
        PaneGoneServed(s, branch.index);
      }
    case Failed(_) => ForgotServed(s, 0, 0);
    case ActionDone(request) => ForgotServed(s, request, 0);
    case ActionTimeout(request) => ForgotServed(s, request, 0);
    case Tick(now) => ForgotServed(s, 0, now);
    case Resize(tiny) => ResizeServed(s, tiny);
  }

  lemma ForgotServed(s: AppState, request: nat, now: nat)
    requires Served(s)
    ensures Served(PopOpening(s)) && Served(Forget(s, request)) && Served(OnTick(s, now))
  {
    hide Served;
    Unsent(s, PopOpening(s));
    Unsent(s, Forget(s, request));
    Unsent(s, OnTick(s, now));
  }

  lemma ResizeServed(s: AppState, tiny: bool)
    requires Served(s)
    ensures Served(OnResize(s, tiny))
  {
    hide Served, SaysOnly, ResizeAll;
    ResizeAllServed(s, |s.tabs.panes|);
    ServedFrame(s, OnResize(s, tiny), None);
  }

  lemma StepServed(s: AppState, ev: AppEvent)
    requires Inv(s) && Served(s)
    ensures Served(Handle(s, ev))
  {
    hide Inv, Served, OnInput, OnClick, OnDaemon;
    if IsInput(ev) {
      InputServed(s, ev);
    } else if ev.Click? {
      ClickServed(s, ev.tile, ev.hit);
    } else {
      DaemonServed(s, ev);
    }
  }

  /**
   In every run, whatever was picked, typed, clicked, opened or closed: the last word the daemon
   had under the id of each tile's list is a subscription to that list on the target the tile
   shows, and the log shown in the Docker tile is one of that same target.
   */
  lemma {:induction false} TilesShowTheirTarget(pane: nat, tiny: bool, evs: seq<AppEvent>)
    ensures Served(Run(Launch(pane, tiny), evs))
  {
    hide Inv, Served, Handle;
    if evs == [] {
      LaunchServed(pane, tiny);
    } else {
      var init := evs[..|evs| - 1];
      TilesShowTheirTarget(pane, tiny, init);
      RunInv(pane, tiny, init);
      StepServed(Run(Launch(pane, tiny), init), evs[|evs| - 1]);
    }
  }

  // ---- overlays ---------------------------------------------------------------------------------------

  /** Enter on a usable row of the picker: the one input an overlay lets through. */
  predicate Picks(s: AppState, ev: AppEvent) {
    !s.view.help && s.view.picker.Some? && ev.Typed? && ev.key == Enter && ev.row.UsableRow?
  }

  /**
   While the help or the host picker is up, no key and no click reaches what is under it: only the
   overlays change. The exceptions are the detach key and a pick, which retargets its own tile.
   */
  lemma OverlayAbsorbs(s: AppState, ev: AppEvent)
    requires s.view.help || s.view.picker.Some?
    requires (IsInput(ev) && !ev.DetachKey?) || ev.Click?
    ensures
      var t := Handle(s, ev);
      && t.tabs == s.tabs && t.nextId == s.nextId && t.actions == s.actions && t.fleet == s.fleet
      && t.panicked == s.panicked && t.processesShown == s.processesShown && t.view.focused == s.view.focused
      && (!Picks(s, ev) ==> t == s.(view := t.view))
      && (Picks(s, ev) && !s.panicked ==>
            && t.view.picker.None?
            && (s.view.picker == Some(PickDocker) ==>
                  t.docker.target == ev.row.target && t.ports == s.ports && t.processes == s.processes)
            && (s.view.picker == Some(PickPorts) ==>
                  t.ports.target == ev.row.target && t.docker == s.docker && t.processes == s.processes)
            && (s.view.picker == Some(PickProcesses) ==>
                  t.processes.target == ev.row.target && t.docker == s.docker && t.ports == s.ports))
  {
    hide TileKey, OnHit, MoveFocus, TypeInto, CloseActive, Commit;
    if Picks(s, ev) {
      PickRetargets(ClosePicker(s), ev.row.target);
      assert Handle(s, ev) == if s.panicked then s else Commit(s, ev.row);
      CommitIs(s, ev.row);
      hide RetargetDocker, RetargetPorts, RetargetProcesses;
    } else {
      CommitOther(s);
    }
  }

  lemma CommitIs(s: AppState, row: Row)
    requires s.view.picker.Some? && row.UsableRow?
    ensures Commit(s, row) ==
      match s.view.picker.value
      case PickDocker => RetargetDocker(ClosePicker(s), row.target)
      case PickPorts => RetargetPorts(ClosePicker(s), row.target)
      case PickProcesses => RetargetProcesses(ClosePicker(s), row.target)
  {
    hide RetargetDocker, RetargetPorts, RetargetProcesses;
  }

  lemma CommitOther(s: AppState)
    ensures s.view.picker.Some? ==> Commit(s, NoRow) == ClosePicker(s) && Commit(s, GreyedRow) == s
  {
  }

  lemma PickRetargets(s: AppState, target: Target)
    ensures
      var d, p, q := RetargetDocker(s, target), RetargetPorts(s, target), RetargetProcesses(s, target);
      && d.docker.target == p.ports.target == q.processes.target == target
      && d == s.(docker := d.docker, sent := d.sent) && p == s.(ports := p.ports, sent := p.sent)
      && q == s.(processes := q.processes, sent := q.sent)
  {
    hide RetargetDocker;
    PickDocker1(s, target);
  }

  lemma PickDocker1(s: AppState, target: Target)
    ensures
      var d := RetargetDocker(s, target);
      d.docker.target == target && d == s.(docker := d.docker, sent := d.sent)
  {
  }
}

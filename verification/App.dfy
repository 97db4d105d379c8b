/**
 The client's event handlers, updating its fields in place, each proved to do what the model
 says; and with it, over any sequence of events, to keep what the model's steps keep.
 */
module App {
  import opened Wrappers
  import opened Routing
  import opened KeyParser
  import opened AppModel
  import AppInvariant
  import AppPrompt
  import AppTargets

  class App {
    var paneStack: seq<Pane>
    var activePane: nat
    var pendingOpens: seq<Opening>
    var docker: DockerScope
    var ports: ListScope
    var processes: ListScope
    var processesShown: bool
    var fleet: ListScope
    var nextSubId: nat
    var pendingActions: map<nat, nat>
    var helpVisible: bool
    var hostPicker: Option<Picker>
    var focused: Tile
    var tiny: bool
    var panicked: bool
    var sent: seq<Wire>

    /** The fields as a state of the model. */
    ghost function State(): AppState
      reads this
    {
      AppState(Tabs(paneStack, activePane, pendingOpens), docker, ports, processes, processesShown, fleet,
               nextSubId, pendingActions, View(helpVisible, hostPicker, focused, tiny), panicked, sent)
    }

    /** Ids, tabs and subscriptions are in order, and every tile's list is served from the target it shows. */
    ghost predicate Valid()
      reads this
    {
      AppInvariant.Inv(State()) && AppTargets.Served(State())
    }

    /** A fresh client, with its initial actions sent. */
    constructor (pane: nat, tiny: bool)
      ensures State() == Launch(pane, tiny) && Valid()
      ensures paneStack == [Pane(pane, 1)] && activePane == 0 && pendingOpens == [] && pendingActions == map[]
      ensures docker == DockerScope(2, Local, None, None, false) && fleet == ListScope(5, Local, false)
      ensures ports == ListScope(3, Local, false) && processes == ListScope(4, Local, false) && !processesShown
      ensures sent == [Attach(pane, 1), ResizePane(pane), Subscribe(2, AboutDocker, Local), Subscribe(3, AboutPorts, Local),
                       Subscribe(4, AboutProcesses, Local), Subscribe(5, AboutFleet, Local)]
    {
      AppInvariant.LaunchInv(pane, tiny);
      AppTargets.LaunchServed(pane, tiny);
      var next := 1;
      var paneSub := next;
      next := next + 1;
      var dockerSub := next;
      next := next + 1;
      var portsSub := next;
      next := next + 1;
      var processesSub := next;
      next := next + 1;
      var fleetSub := next;
      next := next + 1;
      paneStack, activePane, pendingOpens := [Pane(pane, paneSub)], 0, [];
      docker := DockerScope(dockerSub, Local, None, None, false);
      ports, processes, processesShown := ListScope(portsSub, Local, false), ListScope(processesSub, Local, false), false;
      fleet := ListScope(fleetSub, Local, false);
      nextSubId, pendingActions := next, map[];
      helpVisible, hostPicker, this.tiny := false, None, tiny;
      focused := if tiny then TooSmall else Pty;
      panicked := false;
      sent := [Attach(pane, paneSub), ResizePane(pane), Subscribe(dockerSub, AboutDocker, Local),
               Subscribe(portsSub, AboutPorts, Local), Subscribe(processesSub, AboutProcesses, Local),
               Subscribe(fleetSub, AboutFleet, Local)];
    }

    method Push(w: Wire)
      modifies this`sent
      ensures State() == Send(old(State()), w)
    {
      sent := sent + [w];
    }

    method AllocSubId() returns (id: nat)
      modifies this`nextSubId
      ensures id == old(nextSubId) && State() == old(State()).(nextId := id + 1)
    {
      id := nextSubId;
      nextSubId := nextSubId + 1;
    }

    method MoveFocusTo(next: Tile)
      modifies this
      ensures State() == MoveFocus(old(State()), next)
    {
      if next == focused || !InLayout(tiny, next) {
        return;
      }
      if focused == DockerTile {
        docker := docker.(confirm := None);
      }
      focused := next;
    }

    method OpenHostPicker()
      modifies this
      ensures State() == OpenPicker(old(State()))
    {
      match focused
      case DockerTile => hostPicker := Some(PickDocker);
      case PortsTile => hostPicker := Some(if processesShown then PickProcesses else PickPorts);
      case _ =>
    }

    method RetargetDockerTo(target: Target)
      modifies this
      ensures State() == RetargetDocker(old(State()), target)
    {
      if docker.target == target {
        return;
      }
      if docker.logs.Some? {
        var id := docker.logs.value;
        docker := docker.(logs := None);
        Push(Cancel(id));
      }
      Push(Cancel(docker.sub));
      docker := docker.(confirm := None, target := target);
      Push(Subscribe(docker.sub, AboutDocker, target));
    }

    method RetargetPortsTo(target: Target)
      modifies this
      ensures State() == RetargetPorts(old(State()), target)
    {
      if ports.target == target {
        return;
      }
      Push(Cancel(ports.sub));
      ports := ports.(target := target);
      Push(Subscribe(ports.sub, AboutPorts, target));
    }

    method RetargetProcessesTo(target: Target)
      modifies this
      ensures State() == RetargetProcesses(old(State()), target)
    {
      if processes.target == target {
        return;
      }
      Push(Cancel(processes.sub));
      processes := processes.(target := target);
      Push(Subscribe(processes.sub, AboutProcesses, target));
    }

    method CommitHostPicker(row: Row)
      requires hostPicker.Some?
      modifies this
      ensures State() == Commit(old(State()), row)
    {
      hide RetargetDocker, RetargetPorts, RetargetProcesses;
      var tile := hostPicker.value;
      match row
      case NoRow => hostPicker := None;
      case GreyedRow =>
      case UsableRow(target) =>
        hostPicker := None;
        match tile
        case PickDocker => RetargetDockerTo(target);
        case PickPorts => RetargetPortsTo(target);
        case PickProcesses => RetargetProcessesTo(target);
    }

    method HandleHostPickerKey(key: Key, row: Row)
      requires hostPicker.Some?
      modifies this
      ensures State() == PickerTyped(old(State()), key, row)
    {
      hide Commit;
      if key == Enter {
        CommitHostPicker(row);
      } else if key == Escape {
        hostPicker := None;
      }
    }

    method RequestOpen(alias: Option<string>)
      modifies this
      ensures State() == RequestPane(old(State()), alias)
    {
      var sub := AllocSubId();
      pendingOpens := pendingOpens + [Opening(sub, alias)];
      Push(OpenPane(alias));
    }

    /**
     The tab shown goes and its pane and subscription are closed, in that order; the tab after it is
     shown, or the one before the last. The last tab of all is replaced by a local pane asked for.
     */
    method CloseActivePane()
      modifies this
      ensures State() == CloseActive(old(State()))
      ensures old(activePane) >= |old(paneStack)| ==> State() == old(State())
      ensures old(activePane) < |old(paneStack)| ==>
        var a, tabs := old(activePane), old(paneStack);
        && paneStack == tabs[..a] + tabs[a + 1..]
        && sent == old(sent) + [ClosePane(tabs[a].pane), Cancel(tabs[a].sub)]
                   + (if |tabs| == 1 then [OpenPane(None)] else [])
        && pendingOpens == old(pendingOpens) + (if |tabs| == 1 then [Opening(old(nextSubId), None)] else [])
        && (|tabs| > 1 ==>
              activePane < |paneStack| && paneStack[activePane] == tabs[if a + 1 < |tabs| then a + 1 else a - 1])
    {
      if activePane >= |paneStack| {
        return;
      }
      var removed := paneStack[activePane];
      paneStack := Without(paneStack, activePane);
      Push(ClosePane(removed.pane));
      Push(Cancel(removed.sub));
      if paneStack == [] {
        activePane := 0;
        RequestOpen(None);
      } else if activePane >= |paneStack| {
        activePane := |paneStack| - 1;
      }
      assert sent == old(sent) + [ClosePane(removed.pane), Cancel(removed.sub)]
                     + if paneStack == [] then [OpenPane(None)] else [];
    }

    method HandlePaneExit(idx: nat)
      requires idx < |paneStack|
      modifies this
      ensures State() == PaneGone(old(State()), idx)
    {
      var wasActive := idx == activePane;
      paneStack := Without(paneStack, idx);
      if paneStack == [] {
        Push(Detach);
        return;
      }
      if wasActive || idx < activePane {
        if idx <= activePane && activePane > 0 {
          activePane := activePane - 1;
        }
        if activePane >= |paneStack| {
          activePane := |paneStack| - 1;
        }
      }
    }

    method HandlePaneOpened(pane: nat)
      modifies this
      ensures State() == Opened(old(State()), pane)
    {
      if pendingOpens == [] {
        return;
      }
      ghost var before := State();
      var pending := pendingOpens[0];
      pendingOpens := pendingOpens[1..];
      paneStack := paneStack + [Pane(pane, pending.sub)];
      activePane := |paneStack| - 1;
      if !tiny {
        focused := Pty;
      }
      Adopted(before, pane, State());
      hide Opened;
      Push(Attach(pane, pending.sub));
      Push(ResizePane(pane));
    }

    /** Input for the tab shown; without one the client panics. */
    method SendToPane()
      modifies this
      ensures State() == TypeInto(old(State()))
    {
      if activePane < |paneStack| {
        Push(SendInput(paneStack[activePane].pane));
      } else {
        panicked := true;
      }
    }

    method DispatchDockerAction(container: string, action: ActionKind, now: nat)
      modifies this
      ensures State() == Dispatch(old(State()), container, action, now)
    {
      var request := AllocSubId();
      pendingActions := pendingActions[request := now + ACTION_TIMEOUT];
      Push(Act(request, container, action, docker.target));
    }

    method BeginConfirm(action: ActionKind, container: string, now: nat)
      modifies this
      ensures State() == SetConfirm(old(State()), Some(Confirm(action, container, now + CONFIRM_TIMEOUT)))
    {
      docker := docker.(confirm := Some(Confirm(action, container, now + CONFIRM_TIMEOUT)));
    }

    method TryEnterLogsView(container: string)
      modifies this
      ensures State() == EnterLogs(old(State()), container)
    {
      var sub := AllocSubId();
      docker := docker.(logs := Some(sub));
      Push(Subscribe(sub, AboutLogs(container), docker.target));
    }

    method HandleDockerListKey(key: Key, selected: Option<string>, now: nat)
      modifies this
      ensures State() == DockerListKey(old(State()), key, selected, now)
    {
      hide Dispatch, EnterLogs;
      if key == Char(0x2f) {
        docker := docker.(filter := true);
      } else if selected.Some? {
        if key == Char(0x72) {
          DispatchDockerAction(selected.value, Restart, now);
        } else if key == Char(0x73) {
          DispatchDockerAction(selected.value, Stop, now);
        } else if key == KEY_K {
          BeginConfirm(Kill, selected.value, now);
        } else if key == KEY_X {
          BeginConfirm(Remove, selected.value, now);
        } else if key == Char(0x6c) {
          TryEnterLogsView(selected.value);
        }
      }
    }

    method HandleScopeKey(key: Key, selected: Option<string>, now: nat)
      modifies this
      ensures State() == DockerKey(old(State()), key, selected, now)
    {
      hide Dispatch, DockerListKey;
      if docker.logs.Some? {
        if key == Escape || key == Char(0x71) {
          var id := docker.logs.value;
          docker := docker.(logs := None);
          Push(Cancel(id));
        }
      } else if docker.confirm.Some? {
        var pending := docker.confirm.value;
        if key == KEY_y || key == KEY_Y {
          docker := docker.(confirm := None);
          DispatchDockerAction(pending.container, pending.action, now);
        } else if key != KEY_K && key != KEY_X {
          docker := docker.(confirm := None);
        }
      } else if docker.filter {
        if key == Escape || key == Enter {
          docker := docker.(filter := false);
        }
      } else {
        HandleDockerListKey(key, selected, now);
      }
    }

    method HandlePortsKey(key: Key)
      modifies this
      ensures State() == PortsKey(old(State()), key)
    {
      var filterActive := if processesShown then processes.filter else ports.filter;
      if key == Char(0x70) && !filterActive {
        processesShown := !processesShown;
      } else if processesShown {
        processes := processes.(filter := Filtering(processes.filter, key));
      } else {
        ports := ports.(filter := Filtering(ports.filter, key));
      }
    }

    method HandleFleetKey(key: Key, selected: Option<string>, now: nat)
      modifies this
      ensures State() == FleetKey(old(State()), key, selected, now)
    {
      hide RequestPane;
      if fleet.filter {
        fleet := fleet.(filter := key != Escape && key != Enter);
      } else if key == Char(0x2f) {
        fleet := fleet.(filter := true);
      } else if selected.Some? {
        if key == Char(0x72) {
          var request := AllocSubId();
          pendingActions := pendingActions[request := now + ACTION_TIMEOUT];
          Push(ReconnectHost(request, selected.value));
        } else if key == Enter {
          RequestOpen(Some(selected.value));
        }
      }
    }

    method HandleForward(key: Key, selected: Option<string>, now: nat)
      modifies this
      ensures State() == TileKey(old(State()), key, selected, now)
    {
      hide TypeInto, DockerKey, PortsKey, FleetKey;
      match focused
      case Pty => SendToPane();
      case DockerTile => HandleScopeKey(key, selected, now);
      case PortsTile => HandlePortsKey(key);
      case FleetTile => HandleFleetKey(key, selected, now);
      case ClaudeCode =>
      case TooSmall =>
    }

    method HandleInput(ev: AppEvent)
      requires IsInput(ev)
      modifies this
      ensures State() == OnInput(old(State()), ev)
    {
      hide TileKey, PickerTyped, TypeInto, MoveFocus, OpenPicker, CloseActive;
      if ev.DetachKey? {
        Push(Detach);
      } else if helpVisible {
        helpVisible := false;
      } else if hostPicker.Some? {
        if ev.Typed? {
          HandleHostPickerKey(ev.key, ev.row);
        } else {
          hostPicker := None;
          helpVisible := ev.HelpKey?;
        }
      } else {
        match ev
        case Typed(key, selected, _, now) => HandleForward(key, selected, now);
        case Tab(to) =>
          if focused == Pty {
            SendToPane();
          } else {
            MoveFocusTo(to);
          }
        case FocusKey(to) => MoveFocusTo(to);
        case HelpKey => helpVisible := true;
        case PickerKey => OpenHostPicker();
        case CloseKey =>
          if focused == Pty {
            CloseActivePane();
          }
      }
    }

    method HandleHit(tile: Tile, hit: Hit)
      modifies this
      ensures State() == OnHit(old(State()), tile, hit)
    {
      hide OpenPicker, CloseActive, RequestPane;
      match hit
      case NoHit =>
      case TitleBar =>
        if tile.DockerTile? || tile.PortsTile? {
          OpenHostPicker();
        }
      case PaneTab(index) =>
        if tile.Pty? && index < |paneStack| && index != activePane {
          activePane := index;
        }
      case CloseTab =>
        if tile.Pty? {
          CloseActivePane();
        }
      case DoubleClick(selected) =>
        if tile.FleetTile? && selected.Some? {
          RequestOpen(selected);
        }
    }

    method HandleMouseClick(tile: Option<Tile>, hit: Hit)
      modifies this
      ensures State() == OnClick(old(State()), tile, hit)
    {
      hide MoveFocus, OnHit;
      if helpVisible {
        helpVisible := false;
      } else if hostPicker.Some? {
        hostPicker := None;
      } else if tile.Some? && InLayout(tiny, tile.value) {
        MoveFocusTo(tile.value);
        HandleHit(tile.value, hit);
      }
    }

    method HandleResize(tiny: bool)
      modifies this
      ensures State() == OnResize(old(State()), tiny)
    {
      for k := 0 to |paneStack|
        invariant paneStack == old(paneStack) && State() == ResizeAll(old(State()), k)
      {
        Push(ResizePane(paneStack[k].pane));
      }
      this.tiny := tiny;
      if !InLayout(tiny, focused) {
        focused := if tiny then TooSmall else Pty;
      }
    }

    /** Requests past their deadline are given up. */
    method ExpireActions(now: nat)
      modifies this`pendingActions
      ensures pendingActions ==
              map id | id in old(pendingActions) && now < old(pendingActions)[id] :: old(pendingActions)[id]
    {
      ghost var before := pendingActions;
      var expired := set id | id in pendingActions && now >= pendingActions[id];
      while expired != {}
        invariant forall id :: id in pendingActions ==> id in before && pendingActions[id] == before[id]
        invariant forall id :: id in before ==> (id in pendingActions <==> now < before[id] || id in expired)
        invariant forall id :: id in expired ==> id in before && now >= before[id]
        decreases |expired|
      {
        var id :| id in expired;
        expired := expired - {id};
        pendingActions := pendingActions - {id};
      }
      assert pendingActions == map id | id in before && now < before[id] :: before[id];
    }

    method SweepExpired(now: nat)
      modifies this
      ensures State() == OnTick(old(State()), now)
    {
      if docker.confirm.Some? && now >= docker.confirm.value.deadline {
        docker := docker.(confirm := None);
      }
      ExpireActions(now);
    }

    method FindPaneBySub(sub: nat) returns (at: Option<nat>)
      ensures at == FindPane(paneStack, sub)
    {
      for k := 0 to |paneStack|
        invariant forall i :: 0 <= i < k ==> paneStack[i].sub != sub
      {
        if paneStack[k].sub == sub {
          FindFirst(paneStack, k);
          return Some(k);
        }
      }
      return None;
    }

    method HandleDaemon(ev: AppEvent)
      requires !IsInput(ev) && !ev.Click?
      modifies this
      ensures State() == OnDaemon(old(State()), ev)
    {
      hide Opened, PaneGone, OnTick, OnResize, FindPane;
      match ev
      case PaneOpened(pane) => HandlePaneOpened(pane);
      case PaneExited(sub) =>
        var at := FindPaneBySub(sub);
        if at.Some? {
          HandlePaneExit(at.value);
        }
      case Failed(openFailure) =>
        if openFailure && pendingOpens != [] {
          pendingOpens := pendingOpens[1..];
        }
      case ActionDone(request) => pendingActions := pendingActions - {request};
      case ActionTimeout(request) => pendingActions := pendingActions - {request};
      case Tick(now) => SweepExpired(now);
      case Resize(tiny) => HandleResize(tiny);
    }

    /** The single mutator: one event in, the fields updated, the messages sent. */
    method HandleEvent(ev: AppEvent)
      modifies this
      ensures State() == Handle(old(State()), ev)
      ensures old(Valid()) ==> Valid()
      ensures old(sent) <= sent
    {
      if Valid() {
        AppInvariant.StepInv(State(), ev);
        AppTargets.StepServed(State(), ev);
      }
      AppPrompt.SendsStep(State(), ev);
      hide OnInput, OnClick, OnDaemon, AppInvariant.Inv, AppTargets.Served;
      if panicked {
        return;
      }
      if IsInput(ev) {
        HandleInput(ev);
      } else if ev.Click? {
        HandleMouseClick(ev.tile, ev.hit);
      } else {
        HandleDaemon(ev);
      }
    }

    /** The runtime's loop. */
    method HandleAll(evs: seq<AppEvent>)
      modifies this
      ensures State() == Run(old(State()), evs)
      ensures old(Valid()) ==> Valid()
      ensures old(sent) <= sent
    {
      hide Handle, Valid;
      for k := 0 to |evs|
        invariant (old(Valid()) ==> Valid()) && old(sent) <= sent
        invariant State() == Run(old(State()), evs[..k])
      {
        assert evs[..k + 1][..k] == evs[..k];
        HandleEvent(evs[k]);
      }
      assert evs[..|evs|] == evs;
    }
  }

  /** The tab is there and shown; what is left is to attach to it. */
  lemma Adopted(s: AppState, pane: nat, s': AppState)
    requires s.tabs.opening != []
    requires
      var sub := s.tabs.opening[0].sub;
      var tabs := Tabs(s.tabs.panes + [Pane(pane, sub)], |s.tabs.panes|, s.tabs.opening[1..]);
      s' == s.(tabs := tabs, view := if s.view.tiny then s.view else s.view.(focused := Pty))
    ensures Opened(s, pane) == Send(Send(s', Attach(pane, s.tabs.opening[0].sub)), ResizePane(pane))
  {
  }

  lemma {:induction false} FindFirst(panes: seq<Pane>, k: nat)
    requires k < |panes| && forall i :: 0 <= i < k ==> panes[i].sub != panes[k].sub
    ensures FindPane(panes, panes[k].sub) == Some(k)
  {
    if k > 0 {
      FindFirst(panes[1..], k - 1);
    }
  }
}

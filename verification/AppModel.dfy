/**
 The terminal client as a state machine: which subscriptions it holds, where keys go, and
 what it asks of the daemon. Rendering, selections and toasts are left out; what a selection
 is when a key arrives comes with the key. Time is in seconds.
 */
module AppModel {
  import opened Wrappers
  import opened Routing
  import opened KeyParser

  const ACTION_TIMEOUT: nat := 30
  const CONFIRM_TIMEOUT: nat := 10

  datatype Tile = Pty | DockerTile | PortsTile | FleetTile | ClaudeCode | TooSmall

  datatype Pane = Pane(pane: nat, sub: nat)

  /** An OpenPane in flight: the id its pane will be attached under. */
  datatype Opening = Opening(sub: nat, alias: Option<string>)

  datatype Confirm = Confirm(action: ActionKind, container: string, deadline: nat)

  datatype Picker = PickDocker | PickPorts | PickProcesses

  datatype Topic = AboutDocker | AboutLogs(container: string) | AboutPorts | AboutProcesses | AboutFleet

  /** Messages to the daemon. */
  datatype Wire =
    | Subscribe(id: nat, topic: Topic, target: Target)
    | Cancel(id: nat)
    | Attach(pane: nat, id: nat)
    | OpenPane(alias: Option<string>)
    | ClosePane(pane: nat)
    | ResizePane(pane: nat)
    | SendInput(pane: nat)
    | Act(request: nat, container: string, action: ActionKind, target: Target)
    | ReconnectHost(request: nat, host: string)
    | Detach

  /** The tabs, the one shown, and those still being opened. */
  datatype Tabs = Tabs(panes: seq<Pane>, active: nat, opening: seq<Opening>)

  /** `logs` is the subscription of the log being shown instead of the list. */
  datatype DockerScope = DockerScope(sub: nat, target: Target, logs: Option<nat>, confirm: Option<Confirm>, filter: bool)

  /** One list under its own subscription. */
  datatype ListScope = ListScope(sub: nat, target: Target, filter: bool)

  datatype View = View(help: bool, picker: Option<Picker>, focused: Tile, tiny: bool)

  datatype AppState = AppState(
    tabs: Tabs, docker: DockerScope, ports: ListScope, processes: ListScope, processesShown: bool, fleet: ListScope,
    nextId: nat, actions: map<nat, nat>, view: View, panicked: bool, sent: seq<Wire>)

  /** What the picker's cursor is on. */
  datatype Row = NoRow | GreyedRow | UsableRow(target: Target)

  /** What a click inside a tile hit. */
  datatype Hit = NoHit | TitleBar | PaneTab(index: nat) | CloseTab | DoubleClick(selected: Option<string>)

  /** `selected` is the container or host the focused list has selected. */
  datatype AppEvent =
    | Typed(key: Key, selected: Option<string>, row: Row, now: nat)
    | Tab(to: Tile)
    | FocusKey(to: Tile)
    | HelpKey
    | PickerKey
    | CloseKey
    | DetachKey
    | Click(tile: Option<Tile>, hit: Hit)
    | PaneOpened(pane: nat)
    | PaneExited(sub: nat)
    | Failed(openFailure: bool)
    | ActionDone(request: nat)
    | ActionTimeout(request: nat)
    | Tick(now: nat)
    | Resize(tiny: bool)

  function Send(s: AppState, w: Wire): AppState {
    s.(sent := s.sent + [w])
  }

  // ---- starting up -----------------------------------------------------------------

  /** A fresh client on an existing pane, after its initial actions. */
  function Launch(pane: nat, tiny: bool): AppState {
    AppState(
      Tabs([Pane(pane, 1)], 0, []), DockerScope(2, Local, None, None, false),
      ListScope(3, Local, false), ListScope(4, Local, false), false, ListScope(5, Local, false),
      6, map[], View(false, None, if tiny then TooSmall else Pty, tiny), false,
      [Attach(pane, 1), ResizePane(pane), Subscribe(2, AboutDocker, Local), Subscribe(3, AboutPorts, Local),
       Subscribe(4, AboutProcesses, Local), Subscribe(5, AboutFleet, Local)])
  }

  // ---- focus, overlays ----------------------------------------------------------------

  predicate InLayout(tiny: bool, tile: Tile) {
    tiny == tile.TooSmall?
  }

  function SetConfirm(s: AppState, confirm: Option<Confirm>): AppState {
    s.(docker := s.docker.(confirm := confirm))
  }

  /** Moving the focus away from the Docker tile cancels its prompt. */
  function MoveFocus(s: AppState, to: Tile): AppState {
    if to == s.view.focused || !InLayout(s.view.tiny, to) then s
    else (if s.view.focused == DockerTile then SetConfirm(s, None) else s).(view := s.view.(focused := to))
  }

  function OpenPicker(s: AppState): AppState {
    match s.view.focused
    case DockerTile => s.(view := s.view.(picker := Some(PickDocker)))
    case PortsTile => s.(view := s.view.(picker := Some(if s.processesShown then PickProcesses else PickPorts)))
    case _ => s
  }

  function LeaveLogs(s: AppState): AppState
    requires s.docker.logs.Some?
  {
    Send(s.(docker := s.docker.(logs := None)), Cancel(s.docker.logs.value))
  }

  function SwitchDocker(s: AppState, target: Target): AppState {
    Send(Send(s, Cancel(s.docker.sub)).(docker := s.docker.(confirm := None, target := target)),
         Subscribe(s.docker.sub, AboutDocker, target))
  }

  /** A new target for the Docker tile: leave the logs, drop the prompt, resubscribe. */
  function RetargetDocker(s: AppState, target: Target): AppState {
    if s.docker.target == target then s else SwitchDocker(if s.docker.logs.Some? then LeaveLogs(s) else s, target)
  }

  function RetargetPorts(s: AppState, target: Target): AppState {
    if s.ports.target == target then s
    else
      Send(Send(s, Cancel(s.ports.sub)), Subscribe(s.ports.sub, AboutPorts, target))
        .(ports := s.ports.(target := target))
  }

  function RetargetProcesses(s: AppState, target: Target): AppState {
    if s.processes.target == target then s
    else
      Send(Send(s, Cancel(s.processes.sub)), Subscribe(s.processes.sub, AboutProcesses, target))
        .(processes := s.processes.(target := target))
  }

  function ClosePicker(s: AppState): AppState {
    s.(view := s.view.(picker := None))
  }

  /** Enter on a row of the open picker. */
  function Commit(s: AppState, row: Row): AppState
    requires s.view.picker.Some?
  {
    match row
    case NoRow => ClosePicker(s)
    case GreyedRow => s
    case UsableRow(target) =>
      match s.view.picker.value
      case PickDocker => RetargetDocker(ClosePicker(s), target)
      case PickPorts => RetargetPorts(ClosePicker(s), target)
      case PickProcesses => RetargetProcesses(ClosePicker(s), target)
  }

  function PickerTyped(s: AppState, key: Key, row: Row): AppState
    requires s.view.picker.Some?
  {
    if key == Enter then Commit(s, row) else if key == Escape then ClosePicker(s) else s
  }

  // ---- panes ---------------------------------------------------------------------------

  /** Ask for a pane; its subscription id is drawn now and used when the pane has opened. */
  function RequestPane(s: AppState, alias: Option<string>): AppState {
    Send(s.(tabs := s.tabs.(opening := s.tabs.opening + [Opening(s.nextId, alias)]), nextId := s.nextId + 1),
         OpenPane(alias))
  }

  function Without<T>(list: seq<T>, i: nat): seq<T>
    requires i < |list|
  {
    list[..i] + list[i + 1..]
  }

  /** Close the tab shown and cancel its subscription. */
  function DropTab(s: AppState): AppState
    requires s.tabs.active < |s.tabs.panes|
  {
    var gone, left := s.tabs.panes[s.tabs.active], Without(s.tabs.panes, s.tabs.active);
    Send(Send(s, ClosePane(gone.pane)), Cancel(gone.sub))
      .(tabs := s.tabs.(panes := left, active := Clamp(s.tabs.active, |left|)))
  }

  function Clamp(active: nat, n: nat): nat {
    if n == 0 then 0 else if active >= n then n - 1 else active
  }

  /** The last pane is replaced by a fresh local one, which arrives later. */
  function CloseActive(s: AppState): AppState {
    if s.tabs.active >= |s.tabs.panes| then s
    else
      var s' := DropTab(s);
      if s'.tabs.panes == [] then RequestPane(s', None) else s'
  }

  function FindPane(panes: seq<Pane>, sub: nat): (at: Option<nat>)
    ensures at.Some? ==> at.value < |panes| && panes[at.value].sub == sub
    ensures at.None? ==> forall k :: 0 <= k < |panes| ==> panes[k].sub != sub
  {
    if panes == [] then None
    else if panes[0].sub == sub then Some(0)
    else
      var rest := FindPane(panes[1..], sub);
      if rest.Some? then Some(rest.value + 1) else None
  }

  /** The tab shown after tab `i` went, `n` being left. */
  function ActiveAfter(active: nat, i: nat, n: nat): nat {
    if n == 0 || i > active then active else Clamp(if active > 0 then active - 1 else 0, n)
  }

  /** The process behind tab `i` is gone; without any the client detaches. */
  function PaneGone(s: AppState, i: nat): AppState
    requires i < |s.tabs.panes|
  {
    var left := Without(s.tabs.panes, i);
    var s' := s.(tabs := s.tabs.(panes := left, active := ActiveAfter(s.tabs.active, i, |left|)));
    if left == [] then Send(s', Detach) else s'
  }

  /** The oldest request in flight gets the pane; focus goes to it without touching the Docker prompt. */
  function Opened(s: AppState, pane: nat): AppState {
    if s.tabs.opening == [] then s
    else
      var sub := s.tabs.opening[0].sub;
      var tabs := Tabs(s.tabs.panes + [Pane(pane, sub)], |s.tabs.panes|, s.tabs.opening[1..]);
      var view := if s.view.tiny then s.view else s.view.(focused := Pty);
      Send(Send(s.(tabs := tabs, view := view), Attach(pane, sub)), ResizePane(pane))
  }

  function TypeInto(s: AppState): AppState {
    if s.tabs.active < |s.tabs.panes| then Send(s, SendInput(s.tabs.panes[s.tabs.active].pane)) else s.(panicked := true)
  }

  // ---- the Docker tile --------------------------------------------------------------------

  function Dispatch(s: AppState, container: string, action: ActionKind, now: nat): AppState {
    Send(s.(nextId := s.nextId + 1, actions := s.actions[s.nextId := now + ACTION_TIMEOUT]),
         Act(s.nextId, container, action, s.docker.target))
  }

  function EnterLogs(s: AppState, container: string): AppState {
    Send(s.(docker := s.docker.(logs := Some(s.nextId)), nextId := s.nextId + 1),
         Subscribe(s.nextId, AboutLogs(container), s.docker.target))
  }

  const KEY_y := Char(0x79)
  const KEY_Y := Char(0x59)
  const KEY_K := Char(0x4b)
  const KEY_X := Char(0x58)

  function SetFilter(s: AppState, on: bool): AppState {
    s.(docker := s.docker.(filter := on))
  }

  function DockerListKey(s: AppState, key: Key, selected: Option<string>, now: nat): AppState {
    if key == Char(0x2f) then SetFilter(s, true)
    else if selected.None? then s
    else if key == Char(0x72) then Dispatch(s, selected.value, Restart, now)
    else if key == Char(0x73) then Dispatch(s, selected.value, Stop, now)
    else if key == KEY_K then SetConfirm(s, Some(Confirm(Kill, selected.value, now + CONFIRM_TIMEOUT)))
    else if key == KEY_X then SetConfirm(s, Some(Confirm(Remove, selected.value, now + CONFIRM_TIMEOUT)))
    else if key == Char(0x6c) then EnterLogs(s, selected.value)
    else s
  }

  function ConfirmKey(s: AppState, key: Key, now: nat): AppState
    requires s.docker.confirm.Some?
  {
    if key == KEY_y || key == KEY_Y
    then Dispatch(SetConfirm(s, None), s.docker.confirm.value.container, s.docker.confirm.value.action, now)
    else if key == KEY_K || key == KEY_X then s
    else SetConfirm(s, None)
  }

  /** Logs, then the prompt, then the filter, then the list. */
  function DockerKey(s: AppState, key: Key, selected: Option<string>, now: nat): AppState {
    if s.docker.logs.Some? then
      if key == Escape || key == Char(0x71) then LeaveLogs(s) else s
    else if s.docker.confirm.Some? then ConfirmKey(s, key, now)
    else if s.docker.filter then SetFilter(s, Filtering(true, key))
    else DockerListKey(s, key, selected, now)
  }

  // ---- the other tiles ----------------------------------------------------------------------

  /** A list's filter: `/` starts it, Escape and Enter end it. */
  function Filtering(on: bool, key: Key): bool {
    if on then key != Escape && key != Enter else key == Char(0x2f)
  }

  function PortsKey(s: AppState, key: Key): AppState {
    var filtering := if s.processesShown then s.processes.filter else s.ports.filter;
    if key == Char(0x70) && !filtering then s.(processesShown := !s.processesShown)
    else if s.processesShown then s.(processes := s.processes.(filter := Filtering(filtering, key)))
    else s.(ports := s.ports.(filter := Filtering(filtering, key)))
  }

  function ReconnectFleet(s: AppState, alias: string, now: nat): AppState {
    Send(s.(nextId := s.nextId + 1, actions := s.actions[s.nextId := now + ACTION_TIMEOUT]),
         ReconnectHost(s.nextId, alias))
  }

  function FleetKey(s: AppState, key: Key, selected: Option<string>, now: nat): AppState {
    if s.fleet.filter || key == Char(0x2f) then s.(fleet := s.fleet.(filter := Filtering(s.fleet.filter, key)))
    else if selected.None? then s
    else if key == Char(0x72) then ReconnectFleet(s, selected.value, now)
    else if key == Enter then RequestPane(s, Some(selected.value))
    else s
  }

  // ---- events ----------------------------------------------------------------------------------

  function TileKey(s: AppState, key: Key, selected: Option<string>, now: nat): AppState {
    match s.view.focused
    case Pty => TypeInto(s)
    case DockerTile => DockerKey(s, key, selected, now)
    case PortsTile => PortsKey(s, key)
    case FleetTile => FleetKey(s, key, selected, now)
    case ClaudeCode => s
    case TooSmall => s
  }

  predicate IsInput(ev: AppEvent) {
    ev.Typed? || ev.Tab? || ev.FocusKey? || ev.HelpKey? || ev.PickerKey? || ev.CloseKey? || ev.DetachKey?
  }

  function SetHelp(s: AppState, on: bool): AppState {
    s.(view := s.view.(help := on))
  }

  /** Input goes to the help overlay, else to the picker, else where the focus is. */
  function OnInput(s: AppState, ev: AppEvent): AppState
    requires IsInput(ev)
  {
    if ev.DetachKey? then Send(s, Detach)
    else if s.view.help then SetHelp(s, false)
    else if s.view.picker.Some? then
      if ev.Typed? then PickerTyped(s, ev.key, ev.row) else SetHelp(ClosePicker(s), ev.HelpKey?)
    else
      match ev
      case Typed(key, selected, _, now) => TileKey(s, key, selected, now)
      case Tab(to) => if s.view.focused == Pty then TypeInto(s) else MoveFocus(s, to)
      case FocusKey(to) => MoveFocus(s, to)
      case HelpKey => SetHelp(s, true)
      case PickerKey => OpenPicker(s)
      case CloseKey => if s.view.focused == Pty then CloseActive(s) else s
  }

  function SetActive(s: AppState, index: nat): AppState {
    if index < |s.tabs.panes| then s.(tabs := s.tabs.(active := index)) else s
  }

  /** A click inside the tile that has just been focused. */
  function OnHit(s: AppState, tile: Tile, hit: Hit): AppState {
    match hit
    case NoHit => s
    case TitleBar => if tile.DockerTile? || tile.PortsTile? then OpenPicker(s) else s
    case PaneTab(index) => if tile.Pty? then SetActive(s, index) else s
    case CloseTab => if tile.Pty? then CloseActive(s) else s
    case DoubleClick(selected) => if tile.FleetTile? && selected.Some? then RequestPane(s, selected) else s
  }

  function OnClick(s: AppState, tile: Option<Tile>, hit: Hit): AppState {
    if s.view.help then SetHelp(s, false)
    else if s.view.picker.Some? then ClosePicker(s)
    else if tile.None? || !InLayout(s.view.tiny, tile.value) then s
    else OnHit(MoveFocus(s, tile.value), tile.value, hit)
  }

  function ResizeAll(s: AppState, n: nat): AppState
    requires n <= |s.tabs.panes|
    ensures ResizeAll(s, n) == s.(sent := ResizeAll(s, n).sent)
  {
    if n == 0 then s else Send(ResizeAll(s, n - 1), ResizePane(s.tabs.panes[n - 1].pane))
  }

  /** A tile that is gone loses the focus to the layout's default, without touching the Docker prompt. */
  function OnResize(s: AppState, tiny: bool): AppState {
    var focused := if InLayout(tiny, s.view.focused) then s.view.focused else if tiny then TooSmall else Pty;
    ResizeAll(s, |s.tabs.panes|).(view := s.view.(tiny := tiny, focused := focused))
  }

  function OnTick(s: AppState, now: nat): AppState {
    var s' := if s.docker.confirm.Some? && now >= s.docker.confirm.value.deadline then SetConfirm(s, None) else s;
    s'.(actions := map id | id in s.actions && now < s.actions[id] :: s.actions[id])
  }

  /** Where an event under a subscription id is taken. */
  datatype Branch = ToPane(index: nat) | ToDocker | ToLogs | ToPorts | ToProcesses | ToFleet | Dropped

  function BranchOf(s: AppState, sub: nat): Branch {
    var at := FindPane(s.tabs.panes, sub);
    if at.Some? then ToPane(at.value)
    else if sub == s.docker.sub then ToDocker
    else if s.docker.logs == Some(sub) then ToLogs
    else if sub == s.ports.sub then ToPorts
    else if sub == s.processes.sub then ToProcesses
    else if sub == s.fleet.sub then ToFleet
    else Dropped
  }

  function PopOpening(s: AppState): AppState {
    if s.tabs.opening == [] then s else s.(tabs := s.tabs.(opening := s.tabs.opening[1..]))
  }

  function Forget(s: AppState, request: nat): AppState {
    s.(actions := s.actions - {request})
  }

  function OnDaemon(s: AppState, ev: AppEvent): AppState
    requires !IsInput(ev) && !ev.Click?
  {
    match ev
    case PaneOpened(pane) => Opened(s, pane)
    case PaneExited(sub) =>
      var branch := BranchOf(s, sub);
      if branch.ToPane? && branch.index < |s.tabs.panes| then PaneGone(s, branch.index) else s
    case Failed(openFailure) => if openFailure then PopOpening(s) else s
    case ActionDone(request) => Forget(s, request)
    case ActionTimeout(request) => Forget(s, request)
    case Tick(now) => OnTick(s, now)
    case Resize(tiny) => OnResize(s, tiny)
  }

  function Handle(s: AppState, ev: AppEvent): AppState {
    if s.panicked then s
    else if IsInput(ev) then OnInput(s, ev)
    else if ev.Click? then OnClick(s, ev.tile, ev.hit)
    else OnDaemon(s, ev)
  }

  function Run(s: AppState, evs: seq<AppEvent>): AppState {
    if evs == [] then s else Handle(Run(s, evs[..|evs| - 1]), evs[|evs| - 1])
  }
}

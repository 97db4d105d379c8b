/** What every event keeps true of the client: its ids, its tabs and its subscriptions on the wire. */
module AppInvariant {
  import opened Wrappers
  import opened Routing
  import opened AppModel
  import opened KeyParser

  // ---- the wire ----------------------------------------------------------------------

  /** The ids the daemon was asked to keep open, and whether none was ever opened while open. */
  datatype Track = Track(ok: bool, live: set<nat>)

  function ReadWire(t: Track, w: Wire): Track {
    match w
    case Subscribe(id, _, _) => Track(t.ok && id !in t.live, t.live + {id})
    case Attach(_, id) => Track(t.ok && id !in t.live, t.live + {id})
    case Cancel(id) => Track(t.ok, t.live - {id})
    case _ => t
  }

  function Tracked(sent: seq<Wire>): Track {
    if sent == [] then Track(true, {}) else ReadWire(Tracked(sent[..|sent| - 1]), sent[|sent| - 1])
  }

  lemma SendTracks(sent: seq<Wire>, w: Wire)
    ensures Tracked(sent + [w]) == ReadWire(Tracked(sent), w)
  {
    assert (sent + [w])[..|sent|] == sent;
  }

  // ---- the invariant --------------------------------------------------------------------

  function PaneSubs(panes: seq<Pane>): (r: seq<nat>)
    ensures |r| == |panes|
  {
    seq(|panes|, k requires 0 <= k < |panes| => panes[k].sub)
  }

  function OpeningSubs(opening: seq<Opening>): (r: seq<nat>)
    ensures |r| == |opening|
  {
    seq(|opening|, k requires 0 <= k < |opening| => opening[k].sub)
  }

  /** The ids of the tabs, open and being opened. */
  function TabIds(s: AppState): seq<nat> {
    PaneSubs(s.tabs.panes) + OpeningSubs(s.tabs.opening)
  }

  ghost predicate Distinct(ids: seq<nat>) {
    forall i, j :: 0 <= i < j < |ids| ==> ids[i] != ids[j]
  }

  predicate Drawn(id: nat, next: nat) {
    6 <= id < next
  }

  /** No two uses share an id, and every id in use was drawn. */
  ghost predicate Ids(tabs: seq<nat>, logs: Option<nat>, actions: set<nat>, next: nat) {
    && Distinct(tabs)
    && (forall x :: x in tabs ==> x == 1 || Drawn(x, next))
    && (logs.Some? ==> Drawn(logs.value, next) && logs.value !in tabs)
    && (forall x :: x in actions ==> Drawn(x, next) && x !in tabs && logs != Some(x))
    && 6 <= next
  }

  /** The daemon holds open what the client shows, and nothing that is still to be opened. */
  ghost predicate Wired(live: set<nat>, panes: seq<nat>, opening: seq<nat>, logs: Option<nat>, next: nat) {
    && (forall x :: x in live ==> x < next)
    && 2 in live && 3 in live && 4 in live && 5 in live
    && (logs.Some? ==> logs.value in live)
    && (forall x :: x in panes ==> x in live)
    && (forall x :: x in opening ==> x !in live)
  }

  predicate Shape(s: AppState) {
    && s.docker.sub == 2 && s.ports.sub == 3 && s.processes.sub == 4 && s.fleet.sub == 5
    && (if s.tabs.panes == [] then s.tabs.active == 0 else s.tabs.active < |s.tabs.panes|)
    && InLayout(s.view.tiny, s.view.focused)
  }

  ghost predicate Inv(s: AppState) {
    && Shape(s)
    && Ids(TabIds(s), s.docker.logs, s.actions.Keys, s.nextId)
    && Tracked(s.sent).ok
    && Wired(Tracked(s.sent).live, PaneSubs(s.tabs.panes), OpeningSubs(s.tabs.opening), s.docker.logs, s.nextId)
  }

  // ---- the sub-functions keep it ------------------------------------------------------------

  lemma LaunchInv(pane: nat, tiny: bool)
    ensures Inv(Launch(pane, tiny))
  {
    var s := Launch(pane, tiny);
    LaunchTracks(pane);
    assert TabIds(s) == [1];
    hide Tracked;
  }

  lemma LaunchTracks(pane: nat)
    ensures
      Tracked([Attach(pane, 1), ResizePane(pane), Subscribe(2, AboutDocker, Local), Subscribe(3, AboutPorts, Local),
               Subscribe(4, AboutProcesses, Local), Subscribe(5, AboutFleet, Local)]) == Track(true, {1, 2, 3, 4, 5})
  {
    var none: seq<Wire> := [];
    var a, b := none + [Attach(pane, 1)] + [ResizePane(pane)], Subscribe(2, AboutDocker, Local);
    assert Tracked(none) == Track(true, {});
    SendTracks(none, Attach(pane, 1));
    SendTracks(none + [Attach(pane, 1)], ResizePane(pane));
    SendTracks(a, b);
    SendTracks(a + [b], Subscribe(3, AboutPorts, Local));
    SendTracks(a + [b] + [Subscribe(3, AboutPorts, Local)], Subscribe(4, AboutProcesses, Local));
    SendTracks(a + [b] + [Subscribe(3, AboutPorts, Local)] + [Subscribe(4, AboutProcesses, Local)],
               Subscribe(5, AboutFleet, Local));
    hide Tracked;
    assert a + [b] + [Subscribe(3, AboutPorts, Local)] + [Subscribe(4, AboutProcesses, Local)]
           + [Subscribe(5, AboutFleet, Local)]
        == [Attach(pane, 1), ResizePane(pane), Subscribe(2, AboutDocker, Local), Subscribe(3, AboutPorts, Local),
            Subscribe(4, AboutProcesses, Local), Subscribe(5, AboutFleet, Local)];
  }

  /** A drawn id can name a new tab, a new action or a new log. */
  lemma IdsDraw(tabs: seq<nat>, logs: Option<nat>, actions: set<nat>, next: nat)
    requires Ids(tabs, logs, actions, next)
    ensures Ids(tabs + [next], logs, actions, next + 1)
    ensures Ids(tabs, logs, actions + {next}, next + 1)
    ensures logs.None? ==> Ids(tabs, Some(next), actions, next + 1)
  {
    forall i | 0 <= i < |tabs| ensures tabs[i] != next {
      assert tabs[i] in tabs;
    }
    assert Distinct(tabs + [next]);
  }

  /** Ids may fall out of use. */
  lemma IdsLess(tabs: seq<nat>, logs: Option<nat>, actions: set<nat>, next: nat,
                tabs': seq<nat>, logs': Option<nat>, actions': set<nat>)
    requires Ids(tabs, logs, actions, next)
    requires tabs' == tabs || exists i :: 0 <= i < |tabs| && tabs' == Without(tabs, i)
    requires logs' == logs || logs'.None?
    requires actions' <= actions
    ensures Ids(tabs', logs', actions', next)
  {
    if tabs' != tabs {
      var i: nat :| i < |tabs| && tabs' == Without(tabs, i);
      assert forall x :: x in tabs' ==> x in tabs;
    }
  }

  lemma WiredDraw(tabs: seq<nat>, actions: set<nat>, live: set<nat>, panes: seq<nat>, opening: seq<nat>,
                  logs: Option<nat>, next: nat)
    requires Ids(tabs, logs, actions, next) && tabs == panes + opening
    requires Wired(live, panes, opening, logs, next)
    ensures next !in live
    ensures Wired(live, panes, opening + [next], logs, next + 1)
    ensures Wired(live, panes, opening, logs, next + 1)
    ensures Wired(live + {next}, panes, opening, Some(next), next + 1)
  {
    assert forall x :: x in opening ==> x in tabs;
  }

  /** Closing a subscription that is reopened at once, or that nothing shows any more. */
  lemma WiredCancel(tabs: seq<nat>, actions: set<nat>, live: set<nat>, panes: seq<nat>, opening: seq<nat>,
                  logs: Option<nat>, next: nat)
    requires Ids(tabs, logs, actions, next) && tabs == panes + opening
    requires Wired(live, panes, opening, logs, next)
    ensures forall d :: d in {2, 3, 4} ==> Wired(live - {d} + {d}, panes, opening, logs, next)
    ensures logs.Some? ==> Wired(live - {logs.value}, panes, opening, None, next)
  {
    forall d | d in {2, 3, 4} ensures live - {d} + {d} == live {
    }
    if logs.Some? {
      assert forall x :: x in panes ==> x in tabs;
    }
  }

  lemma RequestPaneInv(s: AppState, alias: Option<string>)
    requires Inv(s)
    ensures Inv(RequestPane(s, alias))
  {
    hide Tracked, Ids, Wired;
    var s' := RequestPane(s, alias);
    SendTracks(s.sent, OpenPane(alias));
    assert OpeningSubs(s'.tabs.opening) == OpeningSubs(s.tabs.opening) + [s.nextId];
    assert TabIds(s') == TabIds(s) + [s.nextId];
    IdsDraw(TabIds(s), s.docker.logs, s.actions.Keys, s.nextId);
    WiredDraw(TabIds(s), s.actions.Keys, Tracked(s.sent).live, PaneSubs(s.tabs.panes), OpeningSubs(s.tabs.opening),
              s.docker.logs, s.nextId);
  }

  /** A one-shot request draws an id and says nothing about subscriptions. */
  lemma ActionInv(s: AppState, s': AppState, w: Wire)
    requires Inv(s) && (w.Act? || w.ReconnectHost?)
    requires s.nextId in s'.actions && s'.actions.Keys == s.actions.Keys + {s.nextId} && s'.sent == s.sent + [w]
    requires s' == s.(nextId := s.nextId + 1, actions := s'.actions, sent := s'.sent)
    ensures Inv(s')
  {
    hide Tracked, Ids, Wired;
    SendTracks(s.sent, w);
    IdsDraw(TabIds(s), s.docker.logs, s.actions.Keys, s.nextId);
    WiredDraw(TabIds(s), s.actions.Keys, Tracked(s.sent).live, PaneSubs(s.tabs.panes), OpeningSubs(s.tabs.opening),
              s.docker.logs, s.nextId);
  }

  lemma DispatchInv(s: AppState, container: string, action: ActionKind, now: nat)
    requires Inv(s)
    ensures Inv(Dispatch(s, container, action, now))
  {
    hide Inv;
    ActionInv(s, Dispatch(s, container, action, now), Act(s.nextId, container, action, s.docker.target));
  }

  lemma ReconnectInv(s: AppState, alias: string, now: nat)
    requires Inv(s)
    ensures Inv(ReconnectFleet(s, alias, now))
  {
    hide Inv;
    ActionInv(s, ReconnectFleet(s, alias, now), ReconnectHost(s.nextId, alias));
  }

  lemma EnterLogsInv(s: AppState, container: string)
    requires Inv(s) && s.docker.logs.None?
    ensures Inv(EnterLogs(s, container))
  {
    hide Tracked, Ids, Wired;
    SendTracks(s.sent, Subscribe(s.nextId, AboutLogs(container), s.docker.target));
    IdsDraw(TabIds(s), s.docker.logs, s.actions.Keys, s.nextId);
    WiredDraw(TabIds(s), s.actions.Keys, Tracked(s.sent).live, PaneSubs(s.tabs.panes), OpeningSubs(s.tabs.opening),
              s.docker.logs, s.nextId);
  }

  lemma LeaveLogsInv(s: AppState)
    requires Inv(s) && s.docker.logs.Some?
    ensures Inv(LeaveLogs(s))
  {
    hide Tracked, Ids, Wired;
    SendTracks(s.sent, Cancel(s.docker.logs.value));
    IdsLess(TabIds(s), s.docker.logs, s.actions.Keys, s.nextId, TabIds(s), None, s.actions.Keys);
    WiredCancel(TabIds(s), s.actions.Keys, Tracked(s.sent).live, PaneSubs(s.tabs.panes), OpeningSubs(s.tabs.opening),
                s.docker.logs, s.nextId);
  }

  /** Anything that leaves tabs, logs and ids alone, may forget requests, and sends nothing about subscriptions. */
  lemma FrameInv(s: AppState, s': AppState)
    requires Inv(s) && Shape(s')
    requires s'.tabs.panes == s.tabs.panes && s'.tabs.opening == s.tabs.opening
    requires s'.docker.logs == s.docker.logs && s'.nextId == s.nextId
    requires s'.actions.Keys <= s.actions.Keys
    requires Tracked(s'.sent) == Tracked(s.sent)
    ensures Inv(s')
  {
    hide Tracked, Ids, Wired;
    IdsLess(TabIds(s), s.docker.logs, s.actions.Keys, s.nextId, TabIds(s), s.docker.logs, s'.actions.Keys);
  }

  /** Closing and reopening the same id leaves the wire as it was. */
  lemma ResubscribeTracks(sent: seq<Wire>, id: nat, topic: Topic, target: Target)
    requires id in Tracked(sent).live
    ensures Tracked(sent + [Cancel(id)] + [Subscribe(id, topic, target)]) == Tracked(sent)
  {
    var once := sent + [Cancel(id)];
    var twice := once + [Subscribe(id, topic, target)];
    assert once[..|sent|] == sent && twice[..|once|] == once;
    assert Tracked(sent).live - {id} + {id} == Tracked(sent).live;
  }

  lemma Listens(s: AppState)
    requires Inv(s)
    ensures s.docker.sub in Tracked(s.sent).live && s.ports.sub in Tracked(s.sent).live
    ensures s.processes.sub in Tracked(s.sent).live && Shape(s)
  {
  }

  lemma RetargetListsInv(s: AppState, target: Target)
    requires Inv(s)
    ensures Inv(RetargetPorts(s, target)) && Inv(RetargetProcesses(s, target))
  {
    hide RetargetPorts, RetargetProcesses, Inv;
    PortsInv(s, target);
    ProcessesInv(s, target);
  }

  lemma PortsInv(s: AppState, target: Target)
    requires Inv(s)
    ensures Inv(RetargetPorts(s, target))
  {
    hide Tracked, Inv;
    Listens(s);
    ResubscribeTracks(s.sent, s.ports.sub, AboutPorts, target);
    FrameInv(s, RetargetPorts(s, target));
  }

  lemma ProcessesInv(s: AppState, target: Target)
    requires Inv(s)
    ensures Inv(RetargetProcesses(s, target))
  {
    hide Tracked, Inv;
    Listens(s);
    ResubscribeTracks(s.sent, s.processes.sub, AboutProcesses, target);
    FrameInv(s, RetargetProcesses(s, target));
  }

  lemma SwitchDockerInv(s: AppState, target: Target)
    requires Inv(s)
    ensures Inv(SwitchDocker(s, target))
  {
    hide Tracked, Inv;
    Listens(s);
    ResubscribeTracks(s.sent, s.docker.sub, AboutDocker, target);
    FrameInv(s, SwitchDocker(s, target));
  }

  lemma RetargetDockerInv(s: AppState, target: Target)
    requires Inv(s)
    ensures Inv(RetargetDocker(s, target))
  {
    hide Inv, SwitchDocker, LeaveLogs;
    if s.docker.target != target {
      if s.docker.logs.Some? {
        LeaveLogsInv(s);
        SwitchDockerInv(LeaveLogs(s), target);
      } else {
        SwitchDockerInv(s, target);
      }
    }
  }

  // ---- tabs ---------------------------------------------------------------------------------

  lemma SubsWithout(panes: seq<Pane>, i: nat)
    requires i < |panes|
    ensures PaneSubs(Without(panes, i)) == Without(PaneSubs(panes), i)
  {
  }

  lemma WithoutIn<T>(list: seq<T>, i: nat, rest: seq<T>)
    requires i < |list|
    ensures Without(list, i) + rest == Without(list + rest, i)
    ensures forall x :: x in Without(list, i) ==> x in list
  {
  }

  /** A tab went away; its subscription may have been closed with it. */
  lemma TabGone(s: AppState, s': AppState, i: nat)
    requires Inv(s) && Shape(s') && i < |s.tabs.panes|
    requires s'.tabs.panes == Without(s.tabs.panes, i) && s'.tabs.opening == s.tabs.opening
    requires s'.docker.logs == s.docker.logs && s'.nextId == s.nextId && s'.actions == s.actions
    requires
      var t, t' := Tracked(s.sent), Tracked(s'.sent);
      t'.ok == t.ok && (t'.live == t.live || t'.live == t.live - {s.tabs.panes[i].sub})
    ensures Inv(s')
  {
    hide Tracked, Ids, Wired;
    var subs, opening := PaneSubs(s.tabs.panes), OpeningSubs(s.tabs.opening);
    SubsWithout(s.tabs.panes, i);
    WithoutIn(subs, i, opening);
    IdsLess(TabIds(s), s.docker.logs, s.actions.Keys, s.nextId, TabIds(s'), s.docker.logs, s.actions.Keys);
    WiredWithout(TabIds(s), s.actions.Keys, Tracked(s.sent).live, subs, opening, s.docker.logs, s.nextId, i);
  }

  lemma WiredWithout(tabs: seq<nat>, actions: set<nat>, live: set<nat>, panes: seq<nat>, opening: seq<nat>,
                     logs: Option<nat>, next: nat, i: nat)
    requires Ids(tabs, logs, actions, next) && tabs == panes + opening && i < |panes|
    requires Wired(live, panes, opening, logs, next)
    ensures Wired(live, Without(panes, i), opening, logs, next)
    ensures Wired(live - {panes[i]}, Without(panes, i), opening, logs, next)
  {
    var gone := panes[i];
    assert tabs[i] == gone && gone in tabs;
    forall x | x in Without(panes, i) ensures x in panes && x != gone {
      var k :| 0 <= k < |Without(panes, i)| && Without(panes, i)[k] == x;
      var m := if k < i then k else k + 1;
      assert panes[m] == x && tabs[m] == x;
    }
  }

  lemma DropTabInv(s: AppState)
    requires Inv(s) && s.tabs.active < |s.tabs.panes|
    ensures Inv(DropTab(s))
  {
    hide Tracked, Ids, Wired, TabIds;
    var gone := s.tabs.panes[s.tabs.active];
    SendTracks(s.sent, ClosePane(gone.pane));
    SendTracks(s.sent + [ClosePane(gone.pane)], Cancel(gone.sub));
    TabGone(s, DropTab(s), s.tabs.active);
  }

  lemma CloseActiveInv(s: AppState)
    requires Inv(s)
    ensures Inv(CloseActive(s))
  {
    hide Inv, DropTab, RequestPane;
    if s.tabs.active < |s.tabs.panes| {
      DropTabInv(s);
      RequestPaneInv(DropTab(s), None);
    }
  }

  lemma PaneGoneInv(s: AppState, i: nat)
    requires Inv(s) && i < |s.tabs.panes|
    ensures Inv(PaneGone(s, i))
  {
    hide Tracked, Ids, Wired, TabIds;
    SendTracks(s.sent, Detach);
    TabGone(s, PaneGone(s, i), i);
  }

  /** The pane takes over the id its request drew, so the tabs' ids stay the same. */
  lemma OpenedInv(s: AppState, pane: nat)
    requires Inv(s)
    ensures Inv(Opened(s, pane))
  {
    hide Tracked, Ids, Wired;
    if s.tabs.opening != [] {
      var s' := Opened(s, pane);
      var sub, subs, rest := s.tabs.opening[0].sub, PaneSubs(s.tabs.panes), OpeningSubs(s.tabs.opening[1..]);
      assert OpeningSubs(s.tabs.opening) == [sub] + rest;
      assert PaneSubs(s'.tabs.panes) == subs + [sub];
      assert TabIds(s') == TabIds(s);
      SendTracks(s.sent, Attach(pane, sub));
      SendTracks(s.sent + [Attach(pane, sub)], ResizePane(pane));
      WiredOpen(TabIds(s), s.actions.Keys, Tracked(s.sent).live, subs, sub, rest, s.docker.logs, s.nextId);
    }
  }

  lemma WiredOpen(tabs: seq<nat>, actions: set<nat>, live: set<nat>, panes: seq<nat>, sub: nat, rest: seq<nat>,
                  logs: Option<nat>, next: nat)
    requires Ids(tabs, logs, actions, next) && tabs == panes + ([sub] + rest)
    requires Wired(live, panes, [sub] + rest, logs, next)
    ensures sub !in live && Wired(live + {sub}, panes + [sub], rest, logs, next)
  {
    assert sub in [sub] + rest && sub in tabs;
    forall x | x in rest ensures x != sub && x in [sub] + rest {
      var k :| 0 <= k < |rest| && rest[k] == x;
      assert tabs[|panes|] == sub && tabs[|panes| + 1 + k] == x;
    }
  }

  /** A failed request frees its place; its id is not used again. */
  lemma PopOpeningInv(s: AppState)
    requires Inv(s)
    ensures Inv(PopOpening(s))
  {
    hide Tracked, Ids, Wired;
    if s.tabs.opening != [] {
      var s' := PopOpening(s);
      var subs, opening := PaneSubs(s.tabs.panes), OpeningSubs(s.tabs.opening);
      assert OpeningSubs(s'.tabs.opening) == opening[1..];
      assert TabIds(s') == Without(TabIds(s), |s.tabs.panes|);
      IdsLess(TabIds(s), s.docker.logs, s.actions.Keys, s.nextId, TabIds(s'), s.docker.logs, s.actions.Keys);
      WiredFewer(Tracked(s.sent).live, subs, opening, s.docker.logs, s.nextId);
    }
  }

  lemma WiredFewer(live: set<nat>, panes: seq<nat>, opening: seq<nat>, logs: Option<nat>, next: nat)
    requires opening != [] && Wired(live, panes, opening, logs, next)
    ensures Wired(live, panes, opening[1..], logs, next)
  {
    assert forall x :: x in opening[1..] ==> x in opening;
  }

  // ---- events ---------------------------------------------------------------------------------

  lemma TypeIntoInv(s: AppState)
    requires Inv(s)
    ensures Inv(TypeInto(s))
  {
    hide Tracked, Ids, Wired;
    if s.tabs.active < |s.tabs.panes| {
      SendTracks(s.sent, SendInput(s.tabs.panes[s.tabs.active].pane));
    }
    FrameInv(s, TypeInto(s));
  }

  /** Changing the prompt, a filter, the focus or an overlay changes nothing that is tracked. */
  lemma OverlayInv(s: AppState, s': AppState)
    requires Inv(s) && Shape(s')
    requires s'.tabs.panes == s.tabs.panes && s'.tabs.opening == s.tabs.opening
    requires s'.docker.logs == s.docker.logs && s'.nextId == s.nextId
    requires s'.actions == s.actions && s'.sent == s.sent
    ensures Inv(s')
  {
    hide Tracked, Ids, Wired;
    FrameInv(s, s');
  }

  lemma ShapeOf(s: AppState)
    requires Inv(s)
    ensures Shape(s)
  {
  }

  lemma SettersInv(s: AppState, confirm: Option<Confirm>, on: bool, index: nat)
    requires Inv(s)
    ensures Inv(SetConfirm(s, confirm)) && Inv(SetFilter(s, on)) && Inv(SetHelp(s, on))
    ensures Inv(ClosePicker(s)) && Inv(SetActive(s, index)) && Inv(OpenPicker(s))
  {
    hide Inv, SetConfirm, SetFilter, SetHelp, ClosePicker, SetActive, OpenPicker;
    DockerSetInv(s, confirm, on);
    ViewSetInv(s, on, index);
  }

  lemma DockerSetInv(s: AppState, confirm: Option<Confirm>, on: bool)
    requires Inv(s)
    ensures Inv(SetConfirm(s, confirm)) && Inv(SetFilter(s, on))
  {
    hide Inv;
    ShapeOf(s);
    OverlayInv(s, SetConfirm(s, confirm));
    OverlayInv(s, SetFilter(s, on));
  }

  lemma ViewSetInv(s: AppState, on: bool, index: nat)
    requires Inv(s)
    ensures Inv(SetHelp(s, on)) && Inv(ClosePicker(s)) && Inv(SetActive(s, index)) && Inv(OpenPicker(s))
  {
    hide Inv;
    ShapeOf(s);
    OverlayInv(s, SetHelp(s, on));
    OverlayInv(s, ClosePicker(s));
    OverlayInv(s, SetActive(s, index));
    OverlayInv(s, OpenPicker(s));
  }

  lemma DockerListKeyInv(s: AppState, key: Key, selected: Option<string>, now: nat)
    requires Inv(s) && s.docker.logs.None?
    ensures Inv(DockerListKey(s, key, selected, now))
  {
    hide Inv, Dispatch, EnterLogs, SetConfirm, SetFilter;
    SettersInv(s, None, true, 0);
    if selected.Some? {
      DispatchInv(s, selected.value, Restart, now);
      DispatchInv(s, selected.value, Stop, now);
      EnterLogsInv(s, selected.value);
      SettersInv(s, Some(Confirm(Kill, selected.value, now + CONFIRM_TIMEOUT)), true, 0);
      SettersInv(s, Some(Confirm(Remove, selected.value, now + CONFIRM_TIMEOUT)), true, 0);
    }
  }

  lemma DockerKeyInv(s: AppState, key: Key, selected: Option<string>, now: nat)
    requires Inv(s)
    ensures Inv(DockerKey(s, key, selected, now))
  {
    hide Inv, Dispatch, LeaveLogs, DockerListKey, SetConfirm, SetFilter;
    SettersInv(s, None, Filtering(true, key), 0);
    if s.docker.logs.Some? {
      LeaveLogsInv(s);
    } else if s.docker.confirm.Some? {
      DispatchInv(SetConfirm(s, None), s.docker.confirm.value.container, s.docker.confirm.value.action, now);
    } else if !s.docker.filter {
      DockerListKeyInv(s, key, selected, now);
    }
  }

  lemma FleetKeyInv(s: AppState, key: Key, selected: Option<string>, now: nat)
    requires Inv(s)
    ensures Inv(FleetKey(s, key, selected, now))
  {
    hide Inv, ReconnectFleet, RequestPane;
    ShapeOf(s);
    OverlayInv(s, s.(fleet := s.fleet.(filter := Filtering(s.fleet.filter, key))));
    if selected.Some? {
      ReconnectInv(s, selected.value, now);
      RequestPaneInv(s, Some(selected.value));
    }
  }

  lemma TileKeyInv(s: AppState, key: Key, selected: Option<string>, now: nat)
    requires Inv(s)
    ensures Inv(TileKey(s, key, selected, now))
  {
    hide Inv, TypeInto, DockerKey, FleetKey;
    ShapeOf(s);
    TypeIntoInv(s);
    DockerKeyInv(s, key, selected, now);
    OverlayInv(s, PortsKey(s, key));
    FleetKeyInv(s, key, selected, now);
  }

  lemma PickerTypedInv(s: AppState, key: Key, row: Row)
    requires Inv(s) && s.view.picker.Some?
    ensures Inv(PickerTyped(s, key, row))
  {
    hide Inv, RetargetDocker, RetargetPorts, RetargetProcesses, ClosePicker;
    SettersInv(s, None, false, 0);
    if row.UsableRow? {
      RetargetDockerInv(ClosePicker(s), row.target);
      RetargetListsInv(ClosePicker(s), row.target);
    }
  }

  lemma MoveFocusInv(s: AppState, to: Tile)
    requires Inv(s)
    ensures Inv(MoveFocus(s, to))
  {
    hide Inv;
    ShapeOf(s);
    OverlayInv(s, MoveFocus(s, to));
  }

  lemma InputInv(s: AppState, ev: AppEvent)
    requires Inv(s) && IsInput(ev)
    ensures Inv(OnInput(s, ev))
  {
    hide Inv, TileKey, PickerTyped, MoveFocus, TypeInto, OpenPicker, CloseActive, SetHelp, ClosePicker;
    SettersInv(s, None, false, 0);
    SettersInv(s, None, true, 0);
    if ev.DetachKey? {
      SendTracks(s.sent, Detach);
      ShapeOf(s);
      FrameInv(s, Send(s, Detach)) by { hide Tracked; }
    } else if s.view.picker.Some? && !s.view.help {
      if ev.Typed? {
        PickerTypedInv(s, ev.key, ev.row);
      } else {
        SettersInv(ClosePicker(s), None, ev.HelpKey?, 0);
      }
    } else {
      match ev
      case Typed(key, selected, _, now) => TileKeyInv(s, key, selected, now);
      case Tab(to) =>
        TypeIntoInv(s);
        MoveFocusInv(s, to);
      case FocusKey(to) => MoveFocusInv(s, to);
      case HelpKey =>
      case PickerKey =>
      case CloseKey => CloseActiveInv(s);
    }
  }

  lemma HitInv(s: AppState, tile: Tile, hit: Hit)
    requires Inv(s)
    ensures Inv(OnHit(s, tile, hit))
  {
    hide Inv, OpenPicker, CloseActive, RequestPane, SetActive;
    SettersInv(s, None, false, if hit.PaneTab? then hit.index else 0);
    CloseActiveInv(s);
    if hit.DoubleClick? {
      RequestPaneInv(s, hit.selected);
    }
  }

  lemma ClickInv(s: AppState, tile: Option<Tile>, hit: Hit)
    requires Inv(s)
    ensures Inv(OnClick(s, tile, hit))
  {
    hide Inv, MoveFocus, OnHit, SetHelp, ClosePicker;
    SettersInv(s, None, false, 0);
    if tile.Some? {
      MoveFocusInv(s, tile.value);
      HitInv(MoveFocus(s, tile.value), tile.value, hit);
    }
  }

  lemma {:induction false} ResizeAllTracks(s: AppState, n: nat)
    requires n <= |s.tabs.panes|
    ensures Tracked(ResizeAll(s, n).sent) == Tracked(s.sent)
  {
    if n > 0 {
      ResizeAllTracks(s, n - 1);
      SendTracks(ResizeAll(s, n - 1).sent, ResizePane(s.tabs.panes[n - 1].pane));
    }
  }

  lemma ResizeInv(s: AppState, tiny: bool)
    requires Inv(s)
    ensures Inv(OnResize(s, tiny))
  {
    hide Inv, Tracked;
    ShapeOf(s);
    ResizeAllTracks(s, |s.tabs.panes|);
    FrameInv(s, OnResize(s, tiny));
  }

  lemma TickInv(s: AppState, now: nat)
    requires Inv(s)
    ensures Inv(OnTick(s, now))
  {
    hide Inv, Tracked;
    ShapeOf(s);
    FrameInv(s, OnTick(s, now));
  }

  lemma ForgetInv(s: AppState, request: nat)
    requires Inv(s)
    ensures Inv(Forget(s, request))
  {
    hide Inv, Tracked;
    ShapeOf(s);
    FrameInv(s, Forget(s, request));
  }

  lemma DaemonInv(s: AppState, ev: AppEvent)
    requires Inv(s) && !IsInput(ev) && !ev.Click?
    ensures Inv(OnDaemon(s, ev))
  {
    hide Inv, Opened, PaneGone, BranchOf, OnResize, OnTick, Forget, PopOpening;
    match ev
    case PaneOpened(pane) => OpenedInv(s, pane);
    case PaneExited(sub) =>
      var branch := BranchOf(s, sub);
      if branch.ToPane? && branch.index < |s.tabs.panes| {
        PaneGoneInv(s, branch.index);
      }
    case Failed(_) => PopOpeningInv(s);
    case ActionDone(request) => ForgetInv(s, request);
    case ActionTimeout(request) => ForgetInv(s, request);
    case Tick(now) => TickInv(s, now);
    case Resize(tiny) => ResizeInv(s, tiny);
  }

  /** Every event, whatever the daemon or the user does, keeps the invariant. */
  lemma StepInv(s: AppState, ev: AppEvent)
    requires Inv(s)
    ensures Inv(Handle(s, ev))
  {
    hide Inv, OnInput, OnClick, OnDaemon;
    if IsInput(ev) {
      InputInv(s, ev);
    } else if ev.Click? {
      ClickInv(s, ev.tile, ev.hit);
    } else {
      DaemonInv(s, ev);
    }
  }

  lemma {:induction false} RunInv(pane: nat, tiny: bool, evs: seq<AppEvent>)
    ensures Inv(Run(Launch(pane, tiny), evs))
  {
    hide Inv, Handle;
    if evs == [] {
      LaunchInv(pane, tiny);
    } else {
      RunInv(pane, tiny, evs[..|evs| - 1]);
      StepInv(Run(Launch(pane, tiny), evs[..|evs| - 1]), evs[|evs| - 1]);
    }
  }
}

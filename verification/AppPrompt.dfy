/** The destructive prompt, the focus that is meant to cancel it, and the pane a key goes to. */
module AppPrompt {
  import opened Wrappers
  import opened Routing
  import opened KeyParser
  import opened AppModel
  import opened AppInvariant

  // ---- how a prompt lives ------------------------------------------------------------------

  /** The key reaches the Docker tile. */
  predicate AtDocker(s: AppState, ev: AppEvent) {
    ev.Typed? && !s.panicked && !s.view.help && s.view.picker.None? && s.view.focused == DockerTile
  }

  /** The press that puts `c` to the user. */
  predicate Opens(s: AppState, ev: AppEvent, c: Confirm) {
    && AtDocker(s, ev) && s.docker.confirm.None? && s.docker.logs.None? && !s.docker.filter
    && (c.action == Kill || c.action == Remove) && ev.key == (if c.action == Kill then KEY_K else KEY_X)
    && ev.selected == Some(c.container) && c.deadline == ev.now + CONFIRM_TIMEOUT
  }

  /** The prompt outlives `ev`. */
  predicate Survives(s: AppState, ev: AppEvent, c: Confirm) {
    && (AtDocker(s, ev) ==> ev.key == KEY_K || ev.key == KEY_X)
    && (ev.Tick? && !s.panicked ==> ev.now < c.deadline)
  }

  /** The logs hide the list, and with it the prompt. */
  predicate OneView(d: DockerScope) {
    d.confirm.None? || d.logs.None?
  }

  /** A prompt showing after an event was showing before it, on the same target, or was opened by it. */
  predicate Good(s: AppState, ev: AppEvent, d: DockerScope) {
    && OneView(d)
    && (d.confirm.Some? ==>
          && d.target == s.docker.target
          && ((s.docker.confirm == d.confirm && Survives(s, ev, d.confirm.value)) || Opens(s, ev, d.confirm.value)))
  }

  lemma GoodDocker(s: AppState, ev: AppEvent)
    requires AtDocker(s, ev) && OneView(s.docker)
    ensures Good(s, ev, DockerKey(s, ev.key, ev.selected, ev.now).docker)
  {
    var d := DockerKey(s, ev.key, ev.selected, ev.now).docker;
    if s.docker.confirm.Some? {
      assert d.confirm.None? || (d == s.docker && (ev.key == KEY_K || ev.key == KEY_X));
    } else if s.docker.logs.Some? || s.docker.filter {
      assert d.confirm.None?;
    }
  }

  lemma DockerUntouched(s: AppState)
    ensures TypeInto(s).docker == s.docker && CloseActive(s).docker == s.docker && OpenPicker(s).docker == s.docker
    ensures forall key :: PortsKey(s, key).docker == s.docker
    ensures forall key, selected, now :: FleetKey(s, key, selected, now).docker == s.docker
  {
    hide CloseActive, FleetKey;
    DockerOpen(s);
    forall key, selected, now {
      DockerFleet(s, key, selected, now);
    }
  }

  lemma DockerOpen(s: AppState)
    ensures CloseActive(s).docker == s.docker
  {
  }

  lemma DockerFleet(s: AppState, key: Key, selected: Option<string>, now: nat)
    ensures FleetKey(s, key, selected, now).docker == s.docker
  {
  }

  lemma GoodTile(s: AppState, ev: AppEvent)
    requires ev.Typed? && !s.panicked && !s.view.help && s.view.picker.None? && OneView(s.docker)
    ensures Good(s, ev, TileKey(s, ev.key, ev.selected, ev.now).docker)
  {
    DockerUntouched(s);
    hide TypeInto, DockerKey, PortsKey, FleetKey;
    if s.view.focused == DockerTile {
      GoodDocker(s, ev);
      hide Good;
    }
  }

  lemma GoodPicker(s: AppState, ev: AppEvent)
    requires ev.Typed? && s.view.picker.Some? && OneView(s.docker)
    ensures Good(s, ev, PickerTyped(s, ev.key, ev.row).docker)
  {
    var d := PickerTyped(s, ev.key, ev.row).docker;
    assert d == s.docker || d.confirm.None?;
  }

  lemma GoodInput(s: AppState, ev: AppEvent)
    requires IsInput(ev) && !s.panicked && OneView(s.docker)
    ensures Good(s, ev, OnInput(s, ev).docker)
  {
    DockerUntouched(s);
    hide TileKey, PickerTyped, TypeInto, OpenPicker, CloseActive;
    if ev.Typed? && !s.view.help {
      if s.view.picker.Some? {
        GoodPicker(s, ev);
      } else {
        GoodTile(s, ev);
      }
      hide Good;
    }
  }

  lemma HitUntouched(s: AppState, tile: Tile, hit: Hit)
    ensures OnHit(s, tile, hit).docker == s.docker
  {
    DockerUntouched(s);
    hide CloseActive, OpenPicker;
  }

  lemma GoodClick(s: AppState, ev: AppEvent)
    requires ev.Click? && OneView(s.docker)
    ensures Good(s, ev, OnClick(s, ev.tile, ev.hit).docker)
  {
    if ev.tile.Some? {
      HitUntouched(MoveFocus(s, ev.tile.value), ev.tile.value, ev.hit);
    }
    hide OnHit;
  }

  lemma GoodStep(s: AppState, ev: AppEvent)
    requires OneView(s.docker) && !s.panicked
    ensures Good(s, ev, Handle(s, ev).docker)
  {
    hide OnInput, OnClick, ResizeAll, BranchOf;
    if IsInput(ev) {
      GoodInput(s, ev);
      hide Good;
    } else if ev.Click? {
      GoodClick(s, ev);
      hide Good;
    }
  }

  // ---- destructive actions -----------------------------------------------------------------

  predicate Destroys(w: Wire) {
    w.Act? && (w.action == Kill || w.action == Remove)
  }

  /** What `b` adds to `a` destroys nothing. */
  ghost predicate Harmless(a: seq<Wire>, b: seq<Wire>) {
    a <= b && forall k :: |a| <= k < |b| ==> !Destroys(b[k])
  }

  lemma HarmlessTabs(s: AppState)
    ensures Harmless(s.sent, TypeInto(s).sent) && Harmless(s.sent, CloseActive(s).sent)
  {
    hide CloseActive;
    HarmlessClose(s);
  }

  lemma HarmlessClose(s: AppState)
    ensures Harmless(s.sent, CloseActive(s).sent)
  {
    if s.tabs.active < |s.tabs.panes| {
      var gone := s.tabs.panes[s.tabs.active];
      HarmlessTwo(s.sent, ClosePane(gone.pane), Cancel(gone.sub));
      HarmlessOne(DropTab(s).sent, OpenPane(None));
      HarmlessBoth(s.sent, DropTab(s).sent, RequestPane(DropTab(s), None).sent);
      hide Harmless;
    }
  }

  lemma HarmlessOne(sent: seq<Wire>, w: Wire)
    requires !Destroys(w)
    ensures Harmless(sent, sent + [w])
  {
  }

  lemma HarmlessBoth(a: seq<Wire>, b: seq<Wire>, c: seq<Wire>)
    requires Harmless(a, b) && Harmless(b, c)
    ensures Harmless(a, c)
  {
  }

  lemma HarmlessTwo(sent: seq<Wire>, a: Wire, b: Wire)
    requires !Destroys(a) && !Destroys(b)
    ensures Harmless(sent, sent) && Harmless(sent, sent + [a] + [b])
  {
  }

  lemma HarmlessLists(s: AppState, target: Target)
    ensures Harmless(s.sent, RetargetPorts(s, target).sent) && Harmless(s.sent, RetargetProcesses(s, target).sent)
    ensures Harmless(s.sent, SwitchDocker(s, target).sent)
  {
    HarmlessTwo(s.sent, Cancel(s.ports.sub), Subscribe(s.ports.sub, AboutPorts, target));
    HarmlessTwo(s.sent, Cancel(s.processes.sub), Subscribe(s.processes.sub, AboutProcesses, target));
    HarmlessTwo(s.sent, Cancel(s.docker.sub), Subscribe(s.docker.sub, AboutDocker, target));
    hide Harmless;
  }

  lemma HarmlessRetarget(s: AppState, target: Target)
    ensures Harmless(s.sent, RetargetDocker(s, target).sent)
  {
    if s.docker.logs.Some? {
      HarmlessLists(LeaveLogs(s), target);
    } else {
      HarmlessLists(s, target);
    }
    hide SwitchDocker;
  }

  lemma HarmlessFleet(s: AppState, key: Key, selected: Option<string>, now: nat)
    ensures Harmless(s.sent, FleetKey(s, key, selected, now).sent)
  {
  }

  /** A confirmed prompt is the only way to a destructive action. */
  predicate Confirmed(s: AppState, ev: AppEvent, w: Wire) {
    && AtDocker(s, ev) && (ev.key == KEY_y || ev.key == KEY_Y)
    && s.docker.confirm.Some?
    && w == Act(s.nextId, s.docker.confirm.value.container, s.docker.confirm.value.action, s.docker.target)
  }

  ghost predicate Sends(s: AppState, ev: AppEvent, sent: seq<Wire>) {
    Harmless(s.sent, sent) || exists w :: Confirmed(s, ev, w) && sent == s.sent + [w]
  }

  lemma SendsDocker(s: AppState, ev: AppEvent)
    requires AtDocker(s, ev)
    ensures Sends(s, ev, DockerKey(s, ev.key, ev.selected, ev.now).sent)
  {
    var sent := DockerKey(s, ev.key, ev.selected, ev.now).sent;
    if s.docker.logs.None? && s.docker.confirm.Some? && (ev.key == KEY_y || ev.key == KEY_Y) {
      var c := s.docker.confirm.value;
      assert Confirmed(s, ev, Act(s.nextId, c.container, c.action, s.docker.target));
    }
  }

  lemma SendsTile(s: AppState, ev: AppEvent)
    requires ev.Typed? && !s.panicked && !s.view.help && s.view.picker.None?
    ensures Sends(s, ev, TileKey(s, ev.key, ev.selected, ev.now).sent)
  {
    hide DockerKey, TypeInto, CloseActive, FleetKey, Confirmed;
    match s.view.focused
    case Pty => HarmlessTabs(s);
    case DockerTile => SendsDocker(s, ev);
    case FleetTile => HarmlessFleet(s, ev.key, ev.selected, ev.now);
    case _ =>
  }

  lemma HarmlessPicker(s: AppState, key: Key, row: Row)
    requires s.view.picker.Some?
    ensures Harmless(s.sent, PickerTyped(s, key, row).sent)
  {
    if row.UsableRow? {
      HarmlessRetarget(ClosePicker(s), row.target);
      HarmlessLists(ClosePicker(s), row.target);
    }
    hide RetargetDocker, RetargetPorts, RetargetProcesses;
  }

  lemma SendsInput(s: AppState, ev: AppEvent)
    requires IsInput(ev) && !s.panicked
    ensures Sends(s, ev, OnInput(s, ev).sent)
  {
    hide TileKey, PickerTyped, TypeInto, CloseActive, Confirmed;
    if ev.Typed? && !s.view.help {
      if s.view.picker.Some? {
        HarmlessPicker(s, ev.key, ev.row);
      } else {
        SendsTile(s, ev);
      }
    } else {
      HarmlessTabs(s);
    }
  }

  lemma HarmlessHit(s: AppState, tile: Tile, hit: Hit)
    ensures Harmless(s.sent, OnHit(s, tile, hit).sent)
  {
    HarmlessTabs(s);
    hide CloseActive;
  }

  lemma SendsClick(s: AppState, ev: AppEvent)
    requires ev.Click?
    ensures Harmless(s.sent, OnClick(s, ev.tile, ev.hit).sent)
  {
    if ev.tile.Some? {
      HarmlessHit(MoveFocus(s, ev.tile.value), ev.tile.value, ev.hit);
    }
    hide OnHit;
  }

  lemma {:induction false} HarmlessResize(s: AppState, n: nat)
    requires n <= |s.tabs.panes|
    ensures Harmless(s.sent, ResizeAll(s, n).sent)
  {
    if n > 0 {
      HarmlessResize(s, n - 1);
    }
  }

  lemma SendsStep(s: AppState, ev: AppEvent)
    ensures Sends(s, ev, Handle(s, ev).sent)
  {
    HarmlessResize(s, |s.tabs.panes|);
    hide OnInput, OnClick, ResizeAll, BranchOf;
    if s.panicked {
    } else if IsInput(ev) {
      SendsInput(s, ev);
      hide Sends;
    } else if ev.Click? {
      SendsClick(s, ev);
    }
  }

  // ---- over whole runs -----------------------------------------------------------------------

  /** The state before event `i`. */
  function Before(start: AppState, evs: seq<AppEvent>, i: nat): AppState
    requires i <= |evs|
  {
    Run(start, evs[..i])
  }

  lemma BeforeNext(start: AppState, evs: seq<AppEvent>, i: nat)
    requires i < |evs|
    ensures Before(start, evs, i + 1) == Handle(Before(start, evs, i), evs[i])
  {
    assert evs[..i + 1][..i] == evs[..i];
  }

  /** `j` opened the prompt `c`, which then outlived everything up to `n`. */
  ghost predicate OpenedAt(start: AppState, evs: seq<AppEvent>, n: nat, c: Confirm, target: Target, j: nat)
    requires n <= |evs|
  {
    && j < n && Opens(Before(start, evs, j), evs[j], c) && Before(start, evs, j).docker.target == target
    && forall i :: j < i < n ==> Survives(Before(start, evs, i), evs[i], c)
  }

  lemma {:induction false} ViewOk(start: AppState, evs: seq<AppEvent>, n: nat)
    requires n <= |evs| && OneView(start.docker)
    ensures OneView(Before(start, evs, n).docker)
  {
    hide Handle, OneView;
    if n > 0 {
      ViewOk(start, evs, n - 1);
      BeforeNext(start, evs, n - 1);
      var s := Before(start, evs, n - 1);
      if !s.panicked {
        GoodStep(s, evs[n - 1]);
      } else {
        PanickedStays(s, evs[n - 1]);
      }
    }
  }

  lemma PanickedStays(s: AppState, ev: AppEvent)
    requires s.panicked
    ensures Handle(s, ev) == s && forall c :: Survives(s, ev, c)
  {
  }

  lemma StillOpened(start: AppState, evs: seq<AppEvent>, n: nat, c: Confirm, target: Target, j: nat)
    requires n < |evs| && OpenedAt(start, evs, n, c, target, j) && Survives(Before(start, evs, n), evs[n], c)
    ensures OpenedAt(start, evs, n + 1, c, target, j)
  {
    hide Before, Opens, Survives;
  }

  lemma {:induction false} PromptOrigin(start: AppState, evs: seq<AppEvent>, n: nat) returns (j: nat)
    requires n <= |evs| && start.docker.confirm.None?
    requires Before(start, evs, n).docker.confirm.Some?
    ensures var d := Before(start, evs, n).docker; OpenedAt(start, evs, n, d.confirm.value, d.target, j)
  {
    assert n > 0;
    hide Handle, Opens, Survives, OpenedAt;
    var s, ev := Before(start, evs, n - 1), evs[n - 1];
    var d := Before(start, evs, n).docker;
    BeforeNext(start, evs, n - 1);
    ViewOk(start, evs, n - 1);
    hide Before, OneView;
    if s.panicked {
      PanickedStays(s, ev);
    } else {
      GoodStep(s, ev);
    }
    if s.docker.confirm == d.confirm && Survives(s, ev, d.confirm.value) {
      j := PromptOrigin(start, evs, n - 1);
      StillOpened(start, evs, n - 1, d.confirm.value, d.target, j);
    } else {
      j := n - 1;
      JustOpened(start, evs, j, d.confirm.value);
    }
  }

  lemma JustOpened(start: AppState, evs: seq<AppEvent>, j: nat, c: Confirm)
    requires j < |evs| && Opens(Before(start, evs, j), evs[j], c)
    ensures OpenedAt(start, evs, j + 1, c, Before(start, evs, j).docker.target, j)
  {
    hide Before, Opens, Survives;
  }

  lemma SentStep(start: AppState, evs: seq<AppEvent>, n: nat)
    requires n < |evs|
    ensures Before(start, evs, n).sent <= Before(start, evs, n + 1).sent
  {
    hide Handle, Before;
    BeforeNext(start, evs, n);
    SendsStep(Before(start, evs, n), evs[n]);
  }

  lemma {:induction false} SentGrows(start: AppState, evs: seq<AppEvent>, k: nat, n: nat)
    requires k <= n <= |evs|
    ensures Before(start, evs, k).sent <= Before(start, evs, n).sent
  {
    if k < n {
      hide Before, Run;
      SentGrows(start, evs, k, n - 1);
      SentStep(start, evs, n - 1);
    }
  }

  /** The event that sent message `m`. */
  lemma {:induction false} SentBy(start: AppState, evs: seq<AppEvent>, n: nat, m: nat) returns (k: nat)
    requires n <= |evs| && |Before(start, evs, 0).sent| <= m < |Before(start, evs, n).sent|
    ensures k < n && |Before(start, evs, k).sent| <= m < |Before(start, evs, k + 1).sent|
  {
    assert n > 0;
    hide Before;
    if |Before(start, evs, n - 1).sent| <= m {
      k := n - 1;
    } else {
      k := SentBy(start, evs, n - 1, m);
    }
  }

  /**
   In every run, a Kill or Remove sent to the daemon was put to the user by a press of K or X on
   the container, kind and target it carries (event `j`), confirmed by y or Y (event `k`), and
   between the two only further K and X reached the tile, and no tick came past the deadline.
   */
  lemma {:induction false} DestructiveSafety(pane: nat, tiny: bool, evs: seq<AppEvent>, m: nat) returns (j: nat, k: nat)
    requires m < |Run(Launch(pane, tiny), evs).sent| && Destroys(Run(Launch(pane, tiny), evs).sent[m])
    ensures k < |evs|
    ensures
      var start := Launch(pane, tiny);
      var w := Run(start, evs).sent[m];
      && AtDocker(Before(start, evs, k), evs[k]) && (evs[k].key == KEY_y || evs[k].key == KEY_Y)
      && j < k && evs[j].Typed?
      && OpenedAt(start, evs, k, Confirm(w.action, w.container, evs[j].now + CONFIRM_TIMEOUT), w.target, j)
  {
    var start := Launch(pane, tiny);
    assert Before(start, evs, 0) == start && evs[..|evs|] == evs;
    LaunchHarmless(pane, tiny);
    hide Handle, Run, Launch;
    SentGrows(start, evs, 0, |evs|);
    k := SentBy(start, evs, |evs|, m);
    SentGrows(start, evs, k + 1, |evs|);
    BeforeNext(start, evs, k);
    hide Before, OpenedAt;
    ConfirmedAt(Before(start, evs, k), evs[k], m);
    j := PromptOrigin(start, evs, k);
    OpenedTyped(start, evs, k, Before(start, evs, k).docker.confirm.value, Before(start, evs, k).docker.target, j);
  }

  lemma LaunchHarmless(pane: nat, tiny: bool)
    ensures Launch(pane, tiny).docker.confirm.None? && forall w :: w in Launch(pane, tiny).sent ==> !Destroys(w)
  {
  }

  lemma ConfirmedAt(s: AppState, ev: AppEvent, m: nat)
    requires |s.sent| <= m < |Handle(s, ev).sent| && Destroys(Handle(s, ev).sent[m])
    ensures Confirmed(s, ev, Handle(s, ev).sent[m])
  {
    hide Handle, Confirmed;
    SendsStep(s, ev);
  }

  lemma OpenedTyped(start: AppState, evs: seq<AppEvent>, n: nat, c: Confirm, target: Target, j: nat)
    requires n <= |evs| && OpenedAt(start, evs, n, c, target, j)
    ensures j < n && evs[j].Typed? && c == Confirm(c.action, c.container, evs[j].now + CONFIRM_TIMEOUT)
  {
    hide Before, Survives;
  }

  // ---- focus -----------------------------------------------------------------------------------

  /**
   Moving the focus away from the Docker tile is meant to cancel its prompt. It does, unless the
   focus was taken away by a pane that opened or by a resize: exactly then the prompt stays.
   */
  lemma FocusAwayCancels(s: AppState, ev: AppEvent)
    requires s.docker.confirm.Some? && s.view.focused == DockerTile && Handle(s, ev).view.focused != DockerTile
    ensures Handle(s, ev).docker.confirm.Some? <==> ev.PaneOpened? || ev.Resize?
  {
    hide OnInput, OnClick, OnDaemon;
    if IsInput(ev) {
      FocusMoves(s, ev);
    } else if ev.Click? {
      ClickMoves(s, ev.tile, ev.hit);
    } else {
      DaemonMoves(s, ev);
    }
  }

  lemma ClickMoves(s: AppState, tile: Option<Tile>, hit: Hit)
    requires s.view.focused == DockerTile
    ensures OnClick(s, tile, hit).view.focused == DockerTile || OnClick(s, tile, hit).docker.confirm.None?
  {
    if tile.Some? {
      HitUntouched(MoveFocus(s, tile.value), tile.value, hit);
      HitStays(MoveFocus(s, tile.value), tile.value, hit);
    }
    hide OnHit;
  }

  lemma HitStays(s: AppState, tile: Tile, hit: Hit)
    ensures OnHit(s, tile, hit).view.focused == s.view.focused
  {
    hide DropTab;
    if s.tabs.active < |s.tabs.panes| {
      assert DropTab(s).view == s.view by { DropStays(s); }
    }
  }

  lemma DropStays(s: AppState)
    requires s.tabs.active < |s.tabs.panes|
    ensures DropTab(s).view == s.view
  {
  }

  /** What the daemon says moves the focus only by opening a pane, and never takes a prompt down. */
  lemma DaemonMoves(s: AppState, ev: AppEvent)
    requires !IsInput(ev) && !ev.Click? && s.docker.confirm.Some?
    ensures
      var t := OnDaemon(s, ev);
      (ev.PaneOpened? || ev.Resize? ==> t.docker == s.docker)
      && (!ev.PaneOpened? && !ev.Resize? ==> t.view == s.view)
  {
    hide ResizeAll, BranchOf;
  }

  lemma FocusMoves(s: AppState, ev: AppEvent)
    requires IsInput(ev) && s.view.focused == DockerTile
    ensures OnInput(s, ev).view.focused == DockerTile || OnInput(s, ev).docker.confirm.None?
  {
    hide DockerKey, TypeInto, CloseActive, Commit;
    if ev.Typed? {
      KeyStays(s, ev.key, ev.selected, ev.now);
      if s.view.picker.Some? {
        CommitStays(s, ev.row);
      }
    }
  }

  lemma KeyStays(s: AppState, key: Key, selected: Option<string>, now: nat)
    ensures DockerKey(s, key, selected, now).view == s.view
  {
  }

  lemma CommitStays(s: AppState, row: Row)
    requires s.view.picker.Some?
    ensures Commit(s, row).view.focused == s.view.focused
  {
    if row.UsableRow? {
      RetargetStays(ClosePicker(s), row.target);
    }
    hide RetargetDocker, RetargetPorts, RetargetProcesses;
  }

  lemma RetargetStays(s: AppState, target: Target)
    ensures RetargetDocker(s, target).view == s.view && RetargetPorts(s, target).view == s.view
    ensures RetargetProcesses(s, target).view == s.view
  {
  }

  /** A prompt that is still up after the terminal shrank under it. */
  lemma PromptOutlivesFocus(pane: nat)
    ensures
      var s := Run(Launch(pane, false), [FocusKey(DockerTile), Typed(KEY_K, Some("db"), NoRow, 0), Resize(true)]);
      s.view.focused == TooSmall && s.docker.confirm == Some(Confirm(Kill, "db", CONFIRM_TIMEOUT))
  {
    var start := Launch(pane, false);
    RunThree(start, FocusKey(DockerTile), Typed(KEY_K, Some("db"), NoRow, 0), Resize(true));
    hide Run, Handle;
    PromptRaised(start);
    PromptShrunk(Handle(Handle(start, FocusKey(DockerTile)), Typed(KEY_K, Some("db"), NoRow, 0)));
  }

  lemma PromptRaised(s: AppState)
    requires !s.view.help && s.view.picker.None? && !s.view.tiny && s.view.focused != DockerTile && !s.panicked
    requires s.docker == DockerScope(2, Local, None, None, false)
    ensures
      var t := Handle(Handle(s, FocusKey(DockerTile)), Typed(KEY_K, Some("db"), NoRow, 0));
      && t.view == View(false, None, DockerTile, false) && t.tabs == s.tabs && !t.panicked
      && t.docker.confirm == Some(Confirm(Kill, "db", CONFIRM_TIMEOUT))
  {
    var s1 := Handle(s, FocusKey(DockerTile));
    assert s1.view == View(false, None, DockerTile, false) && s1.docker == s.docker;
  }

  lemma PromptShrunk(s: AppState)
    requires s.view.focused == DockerTile && !s.panicked
    ensures Handle(s, Resize(true)).view.focused == TooSmall && Handle(s, Resize(true)).docker == s.docker
  {
    hide ResizeAll;
  }

  lemma RunThree(start: AppState, a: AppEvent, b: AppEvent, c: AppEvent)
    ensures Run(start, [a, b]) == Handle(Handle(start, a), b)
    ensures Run(start, [a, b, c]) == Handle(Handle(Handle(start, a), b), c)
  {
    hide Handle;
    assert [a][..0] == [] && Run(start, []) == start && Run(start, [a]) == Handle(start, a);
    assert [a, b][..1] == [a] && [a, b, c][..2] == [a, b];
  }

  lemma RunSnoc(start: AppState, evs: seq<AppEvent>, ev: AppEvent)
    ensures Run(start, evs + [ev]) == Handle(Run(start, evs), ev)
  {
    assert (evs + [ev])[..|evs|] == evs;
  }

  /** A pane on `host` is asked for, then a Kill of `db` is put to the user; the pane opens. */
  function PaneUnderPrompt(host: string, pane: nat): seq<AppEvent> {
    [FocusKey(FleetTile), Typed(Enter, Some(host), NoRow, 0)]
    + [FocusKey(DockerTile)] + [Typed(KEY_K, Some("db"), NoRow, 0)] + [PaneOpened(pane)]
  }

  /** A prompt that is still up after the focus went to the pane that opened. */
  lemma PromptOutlivesPane(first: nat, host: string, pane: nat)
    ensures
      var s := Run(Launch(first, false), PaneUnderPrompt(host, pane));
      s.view.focused == Pty && s.docker.confirm == Some(Confirm(Kill, "db", CONFIRM_TIMEOUT))
  {
    var start, fleet, ask := Launch(first, false), FocusKey(FleetTile), Typed(Enter, Some(host), NoRow, 0);
    var docker, kill, arrived := FocusKey(DockerTile), Typed(KEY_K, Some("db"), NoRow, 0), PaneOpened(pane);
    RunThree(start, fleet, ask, ask);
    RunSnoc(start, [fleet, ask], docker);
    RunSnoc(start, [fleet, ask] + [docker], kill);
    RunSnoc(start, [fleet, ask] + [docker] + [kill], arrived);
    hide Run;
    PaneAsked(first, host);
    hide Launch;
    PromptUp(Handle(Handle(start, fleet), ask), host, pane);
  }

  lemma PromptUp(s: AppState, host: string, pane: nat)
    requires s.view == View(false, None, FleetTile, false) && s.docker == DockerScope(2, Local, None, None, false)
    requires s.tabs.opening == [Opening(6, Some(host))] && !s.panicked
    ensures
      var t := Handle(Handle(Handle(s, FocusKey(DockerTile)), Typed(KEY_K, Some("db"), NoRow, 0)), PaneOpened(pane));
      t.view.focused == Pty && t.docker.confirm == Some(Confirm(Kill, "db", CONFIRM_TIMEOUT))
  {
    PromptRaised(s);
  }

  lemma PaneAsked(first: nat, host: string)
    ensures
      var s := Handle(Handle(Launch(first, false), FocusKey(FleetTile)), Typed(Enter, Some(host), NoRow, 0));
      && s.view == View(false, None, FleetTile, false) && s.docker == DockerScope(2, Local, None, None, false)
      && s.tabs.opening == [Opening(6, Some(host))] && !s.panicked
  {
    var s := Handle(Launch(first, false), FocusKey(FleetTile));
    assert s.view == View(false, None, FleetTile, false);
  }

  // ---- the pane a key goes to ---------------------------------------------------------------------

  /**
   In every run, a key typed or a Tab pressed on the pty tile goes to the tab shown; the client
   panics exactly when there is none.
   */
  lemma PanicsWithoutPane(pane: nat, tiny: bool, evs: seq<AppEvent>, ev: AppEvent)
    requires !Run(Launch(pane, tiny), evs).panicked
    ensures
      var s := Run(Launch(pane, tiny), evs);
      var typing := (ev.Typed? || ev.Tab?) && s.view.focused == Pty && !s.view.help && s.view.picker.None?;
      && (Handle(s, ev).panicked <==> typing && s.tabs.panes == [])
      && (typing && s.tabs.panes != [] ==>
            s.tabs.active < |s.tabs.panes| && Handle(s, ev).sent == s.sent + [SendInput(s.tabs.panes[s.tabs.active].pane)])
  {
    hide Run, Launch;
    var s := Run(Launch(pane, tiny), evs);
    RunInv(pane, tiny, evs);
    hide Ids, Wired, Tracked, TabIds;
    if IsInput(ev) {
      PanicInput(s, ev);
      hide OnInput;
    } else {
      PanicOther(s, ev);
    }
  }

  lemma NeverPanics(s: AppState)
    ensures forall key, row :: s.view.picker.Some? ==> PickerTyped(s, key, row).panicked == s.panicked
    ensures forall key :: PortsKey(s, key).panicked == s.panicked
    ensures CloseActive(s).panicked == s.panicked && OpenPicker(s).panicked == s.panicked
  {
  }

  lemma KeysNeverPanic(s: AppState, key: Key, selected: Option<string>, now: nat)
    ensures DockerKey(s, key, selected, now).panicked == s.panicked
    ensures FleetKey(s, key, selected, now).panicked == s.panicked
  {
  }

  lemma PanicInput(s: AppState, ev: AppEvent)
    requires IsInput(ev) && Shape(s) && !s.panicked
    ensures
      var typing := (ev.Typed? || ev.Tab?) && s.view.focused == Pty && !s.view.help && s.view.picker.None?;
      && (OnInput(s, ev).panicked <==> typing && s.tabs.panes == [])
      && (typing && s.tabs.panes != [] ==> OnInput(s, ev).sent == s.sent + [SendInput(s.tabs.panes[s.tabs.active].pane)])
  {
    NeverPanics(s);
    if ev.Typed? {
      KeysNeverPanic(s, ev.key, ev.selected, ev.now);
    }
    hide DockerKey, FleetKey, PortsKey, PickerTyped, CloseActive, OpenPicker;
  }

  lemma PanicOther(s: AppState, ev: AppEvent)
    requires !IsInput(ev) && !s.panicked
    ensures !Handle(s, ev).panicked
  {
    hide OnClick, OnDaemon;
    if ev.Click? {
      PanicClick(s, ev.tile, ev.hit);
    } else {
      PanicDaemon(s, ev);
    }
  }

  lemma PanicClick(s: AppState, tile: Option<Tile>, hit: Hit)
    ensures OnClick(s, tile, hit).panicked == s.panicked
  {
    if tile.Some? {
      NeverPanics(MoveFocus(s, tile.value));
    }
    hide CloseActive, OpenPicker;
  }

  lemma PanicDaemon(s: AppState, ev: AppEvent)
    requires !IsInput(ev) && !ev.Click?
    ensures OnDaemon(s, ev).panicked == s.panicked
  {
    hide ResizeAll, BranchOf;
  }

  /** Closing the only tab leaves none until its replacement opens: typing at once panics, typing after does not. */
  lemma TypingTooSoon(pane: nat, later: nat, key: Key)
    ensures Run(Launch(pane, false), [CloseKey, Typed(key, None, NoRow, 0)]).panicked
    ensures !Run(Launch(pane, false), [CloseKey, PaneOpened(later), Typed(key, None, NoRow, 0)]).panicked
  {
    var start, typed := Launch(pane, false), Typed(key, None, NoRow, 0);
    RunThree(start, CloseKey, typed, typed);
    RunThree(start, CloseKey, PaneOpened(later), typed);
    OnlyTabClosed(pane);
    hide Launch, OnInput, Run;
    var s := Handle(start, CloseKey);
    TypedAtPty(s, typed);
    TypedAtPty(Handle(s, PaneOpened(later)), typed);
  }

  lemma OnlyTabClosed(pane: nat)
    ensures
      var s := Handle(Launch(pane, false), CloseKey);
      s.tabs == Tabs([], 0, [Opening(6, None)]) && s.view == View(false, None, Pty, false) && !s.panicked
  {
    var start := Launch(pane, false);
    assert start.tabs.panes == [Pane(pane, 1)] && Without(start.tabs.panes, 0) == [];
  }

  lemma TypedAtPty(s: AppState, ev: AppEvent)
    requires ev.Typed? && !s.panicked && s.view == View(false, None, Pty, false)
    ensures Handle(s, ev) == TypeInto(s)
  {
  }
}

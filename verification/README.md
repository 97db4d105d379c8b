# tepegoz: model and proofs

tepegoz is a terminal cockpit for a fleet of hosts. A daemon holds the ptys and the
subscriptions; a TUI client attaches to it over a socket; on each connected SSH host an
agent serves the same subscriptions for the daemon. This project models the parts whose
correctness spans several tasks or a whole run, and proves what they promise:

- **The agent multiplexer** (`Routing`, `Mux`, `MuxInvariant`, `MuxHistory`, `MuxTheorems`,
  `MuxClients`, `MuxAgreement`, `MuxReuse`, `MuxStranded`, `MuxSteps`). Client sessions, one
  agent connection with its routing table, both queues, the agent's own tables and the
  teardown paths are a transition system; a step is one lock-protected section or one
  channel operation, and a run is any interleaving. `AgentConnection` and `Agent` hold the
  objects themselves: classes and loops that update the tables in place. Each method of a
  session or connection is stated as a run of the transition system: the state its objects
  stand for afterwards is where the steps end.
- **The host supervisor** (`Supervisor`, `SupervisorTheorems`, `SupervisorMoves`,
  `HostSupervisor`). `Next` says what one event does at the wait it arrives at;
  `HostSupervisor.HostSupervisor` is the nested loops (outer loop, dial, session with
  heartbeat, terminal park, backoff), proved to compute `Fold` of `Next` over whatever
  arrives. The theorems are about every such sequence; `SupervisorMoves` says where each
  outcome of a dial, each action and each timer leads, and what is shown of it.
- **The pool** (`AgentPool`, and `AgentConnection.SharedState`). Every Fleet subscription
  runs its own supervisor for a host, but the daemon keeps one agent per alias; any number
  of those supervisors, begun, stepped and aborted in any order, share the entry.
- **Panes** (`Bytes`, `Scrollback`, `PaneStream`, `PaneExit`, `PaneTold`). The scrollback
  ring is a class with its eviction loop; reader or driver, waiter and forwarders around it
  and the bounded broadcast channel are interleaved steps. Local and remote panes differ in
  one critical section, and so in one theorem.
- **The client** (`LogsView`, `KeyParser`, `KeyTable`, `AppModel`, `AppInvariant`,
  `AppTheorems`, `AppEffects`, `AppMessages`, `AppPrompt`, `AppTargets`, `App`). Log
  assembly and key parsing are classes over byte loops. The client itself is a function
  `Handle` from state and event to state, and the class `App.App` is the handlers that
  update fields in place, proved to do what `Handle` says. `AppEffects` states every
  situation's outcome outright, fields and messages, and `AppMessages` lifts that to runs.
- **Bytes on the wire and in the shell** (`Codec`, `ShellQuote`). Framing over a stream cut
  anywhere, and quoting against a lexer for the POSIX Shell Command Language.

`AppTheorems.AgreementEndToEnd` joins two of these: the multiplexer's table agreement assumes
that no client reopens an id it holds, and the client is proved to meet that assumption.

Identifiers are unbounded naturals, time is in whole seconds, and engines, SSH, keepalives,
selections and layouts are inputs that may do anything. The broadcast channel is given its
usual contract: a receiver that fell behind skips the oldest updates and is told how many.

## What the proofs found

Each of these is proved, with the exact condition under which the code does meet the
stronger reading, and with a run that does not:

- A session that subscribes under an id it already holds loses the first handle, and cancelling
  the id leaves the first subscription running (`MuxReuse.ReuseOrphans`,
  `MuxReuse.CancelLeavesOrphan`). While the connection is live and in the pool, table and handles
  agree if and only if no session has ever done so (`MuxReuse.AgreesIffNeverOverwritten`). The TUI
  never does (`AppTheorems.WireDisciplined`).
- A client is told twice that its request failed exactly when a drain takes the routing entry
  between registering it and withdrawing it (`MuxClients.ToldTwiceIff`, `MuxClients.ToldTwice`).
- A request handed over after the connection's last drain is never answered if the reader has
  already stopped, as it does at a frame it cannot read. Once the reader has gone a request is
  heard of again if and only if a later shutdown finds its entry (`MuxStranded.HeardAgainIff`), and
  an action if and only if any shutdown follows (`MuxStranded.ActionAnsweredIff`,
  `MuxStranded.ActionStranded`).
- Attaching to a remote pane between the append of a chunk and its broadcast shows the client the
  chunk twice, unless the chunk is larger than the whole scrollback: then the ring holds nothing
  and the chunk is shown once (`PaneStream.ShownTwiceIff`, `PaneStream.AttachRepeats`).
- A client that was told of a pane's exit may not have been shown its output to the end. It is
  told by its forwarder's one check whether the pane is alive, which drops what was broadcast since
  the snapshot, or by the channel, where a local pane's exit can overtake its last output. Local or
  remote, it has been through all the output if and only if nothing was output after its own
  Subscribe, in the first case, or after the exit's broadcast, in the second
  (`PaneExit.ExitCompleteIff`); on a remote pane the second case loses nothing
  (`PaneExit.RemoteExitIsLast`). Runs that lose output: `PaneExit.CheckLosesOutput` on both kinds
  of pane, `PaneExit.LateOutputUnseen` on a local one.
- The pool has one entry per alias, whoever put it there. A client's disconnect takes away the
  agent of another client that is still shown Connected with its capabilities
  (`AgentPool.SharedEntryLost`), and an aborted supervisor leaves an agent that no live one holds
  (`AgentPool.EntryOutlivesClient`). A supervisor's agent is still in the pool if and only if no
  other supervisor of the host has registered one or ended a session since
  (`AgentPool.OwnEntryIff`); with one Fleet subscription the two always agree
  (`AgentPool.AloneAgrees`).
- A session ended by its heartbeat was held for at least 90 s, so it always resets the
  backoff: the comparison with the 30 s reset threshold never fails
  (`SupervisorTheorems.HeartbeatDecides`).
- `write_envelope` does not check `MAX_FRAME_SIZE`, so a written frame reads back if and only
  if its body fits it (`Codec.FrameReadsBack`).
- A read that ends between ESC and `[` is parsed differently from the same bytes in one read,
  and only such a read is (`KeyParser.SplitIff`).
- A comment on the focus path says that moving the focus off the Docker tile cancels its
  prompt; a pane that opens and a resize move it without doing so, and nothing else does
  (`AppPrompt.FocusAwayCancels`, `AppPrompt.PromptOutlivesPane`, `AppPrompt.PromptOutlivesFocus`).
- The client has no pane between closing its last tab and the arrival of the replacement;
  a key typed at the pty tile then panics, and nothing else does
  (`AppPrompt.PanicsWithoutPane`, `AppPrompt.TypingTooSoon`).

## Model

| member | source | states |
|---|---|---|
| Routing.DrainNoticesAt | crates/tepegoz-core/src/agent.rs:336-376 | the k-th message of a drain goes to the client of the k-th entry under that client's id and says that the agent has gone: an action failed, with its container and kind; a log or statistics stream ended; a list of containers, ports or processes is unavailable |
| MuxInvariant.StepControl | crates/tepegoz-core/src/client.rs:877-948 | every step of sessions, agent, parser and teardown keeps the routing table, the handles, both queues, the agent's tables and the ids drawn consistent with each other |
| MuxHistory.StepInv | crates/tepegoz-core/src/agent.rs:273-325 | every step keeps, for each id ever bound, what its client was sent in line with what the agent said under it |
| MuxTheorems.Simulation | crates/tepegoz-agent/src/lib.rs:174-249 | in every run, while the connection is live, replaying the queued messages on the agent's table gives the table's subscriptions up to those registered and not yet sent or withdrawn and not yet cancelled, and the corrections never overlap |
| MuxTheorems.RemoteRefinesLocal | crates/tepegoz-core/src/agent.rs:257-291 | in every run, what a client receives for one request is a prefix of what the agent said under its id, each event and each result unaltered and in order, then at most one notice that the agent has gone and, if the request was never sent, at most one that the writer is dead, each the failure of what was asked for; while the entry is in the table nothing heard is lost |
| MuxTheorems.OneShotAnswered | crates/tepegoz-core/src/client.rs:988-1053 | in every run, a remote action is told nothing while in the table; sent and gone from it, its client has exactly one message, either the agent's own result for that container and kind or a failure that names both; never sent and given up, a failure that names both, after a drain's if there was one |
| MuxClients.AgentHeard | crates/tepegoz-agent/src/lib.rs:174-249 | in every run, what the agent has said is what its forwarders and actions came up with, in that order: each event as emitted, each result with its action's outcome, container and kind |
| MuxClients.DeliveryIsolation | crates/tepegoz-core/src/agent.rs:273-291 | an id once bound to a client and client id is never rebound by any later step, and everything ever delivered under it went to that client under that id |
| MuxClients.DrainTellsEachOnce | crates/tepegoz-core/src/agent.rs:336-376 | a drain adds to each routed request's history exactly one message, the failure of whatever request the entry was made for, to nobody else's any, and leaves the table empty |
| MuxClients.DrainedOnce | crates/tepegoz-core/src/agent.rs:259-271 | in every run, however many drains it holds, a request's client is told once that the agent has gone, and the only thing said under its id afterwards is that it, never sent, met a dead writer |
| MuxClients.ToldTwiceIff | crates/tepegoz-core/src/client.rs:926-946 | a request that met a dead writer is told so, and before that told that the agent has gone exactly when a drain had already taken its entry |
| MuxClients.ToldTwice | crates/tepegoz-core/src/client.rs:926-946 | a run in which one subscription is reported dead twice |
| MuxReuse.AgreesIffNeverOverwritten | crates/tepegoz-core/src/client.rs:947-948 | at the end of any run that leaves the connection live and in the pool, the subscription entries and the handles of the sessions are the same relation if and only if no session in the run recorded a subscription under an id it then held |
| MuxReuse.ReuseOrphans | crates/tepegoz-core/src/client.rs:909-948 | a run of two subscriptions under one id that leaves an entry no session holds |
| MuxReuse.CancelLeavesOrphan | crates/tepegoz-core/src/client.rs:519-530 | cancelling that id leaves the entry, and the agent is not told to stop serving it |
| MuxStranded.HeardAgainIff | crates/tepegoz-core/src/agent.rs:259-271 | in every run, once the reader has gone, a request handed over is heard of again if and only if a later shutdown finds its entry in the table |
| MuxStranded.ActionAnsweredIff | crates/tepegoz-core/src/agent.rs:259-271 | in every run, an action that was handed over and is in the table when the reader has gone is answered if and only if the connection is shut down after that |
| MuxStranded.ActionStranded | crates/tepegoz-core/src/client.rs:988-1053 | a run in which an action is handed over after the last drain, to be answered only if the same connection is shut down again |
| MuxAgreement.TableAgreement | crates/tepegoz-core/src/client.rs:909-947 | in every run without id reuse, the subscription entries of the table and the handles of the sessions are the same relation |
| MuxAgreement.TeardownComplete | crates/tepegoz-core/src/client.rs:201-220 | after a session's teardown no subscription entry of its client is left, and each subscription it opened was sent exactly once and cancelled exactly once |
| MuxAgreement.DisciplineSuffices | crates/tepegoz-core/src/client.rs:514-530 | if no client opens an id that it holds open, no session ever reuses one, whatever the interleaving |
| AgentConnection.Connection.AllocId | crates/tepegoz-core/src/agent.rs:90-92 | ids count up from one and the id drawn is not in the table |
| AgentConnection.Connection.RouteAgentEnvelope | crates/tepegoz-core/src/agent.rs:273-325 | an event reaches the client behind its entry, a result takes its entry out and reaches the client if that asked for an action, each unaltered under the client's own id, and nothing else is forwarded; this is the transition system's parser step |
| AgentConnection.Connection.DrainRouting | crates/tepegoz-core/src/agent.rs:336-376 | the loop empties the table, taking each entry once and telling its client the failure of what the entry was for: a shutdown step of the transition system in that order |
| AgentConnection.ClientSession.RouteRemote | crates/tepegoz-core/src/client.rs:877-948 | on every branch the objects end where the steps of the command end in the transition system: a pool miss, a missing capability and a dead writer each tell the client once and leave the table as it was; otherwise the request is queued under a fresh id with its entry in the table and, for a subscription, its handle recorded |
| AgentConnection.ClientSession.CancelRemote | crates/tepegoz-core/src/client.rs:519-530 | the objects end where the cancel's steps end: the handle leaves the session's map, its entry the table, and one Unsubscribe is queued if the writer is open |
| AgentConnection.ClientSession.Teardown | crates/tepegoz-core/src/client.rs:201-220 | the loop is a run of cancels of every handle once: it empties the session's map and, if the host is still in the pool, removes exactly the session's entries from the table and queues one Unsubscribe per handle |
| MuxSteps.CommandEnds | crates/tepegoz-core/src/client.rs:877-948 | the steps of a remote request, taken without interference, are a run that refuses it, gives it up with one notice and a spent id, or queues it with entry and handle |
| MuxSteps.CancelEnds | crates/tepegoz-core/src/client.rs:519-530 | likewise for giving up a handle, on Unsubscribe and on teardown |
| AgentConnection.SharedState.Register | crates/tepegoz-core/src/agent.rs:459-470 | a deployed agent takes the host's place in the pool; the connection it replaces is drained and its clients told, other hosts keep theirs |
| AgentConnection.SharedState.RemoveAndShutdown | crates/tepegoz-core/src/agent.rs:484-493 | whatever connection the host has, whoever registered it, leaves the pool and is drained; without one nothing happens |
| Agent.Server.Serve | crates/tepegoz-agent/src/lib.rs:75-135 | the loop dispatches what precedes the first frame of another version, reports a mismatch exactly when there is one, and at its end tells every forwarder still running to stop: those that replaying its input amounts to, so that each forwarder ever started is told once |
| Agent.Server.HandleEnvelope | crates/tepegoz-agent/src/lib.rs:174-249 | a subscription replaces and aborts a forwarder under the same id, an Unsubscribe removes and aborts one, an action is under way without touching the table |
| Agent.ForwardDocker | crates/tepegoz-agent/src/lib.rs:331-391 | the nested connect and list loops report what the poll specification says |
| Agent.ForwarderReports | crates/tepegoz-agent/src/lib.rs:331-391 | every listing, one for each success after a success, is sent in order, the engine is never reported unreachable twice in a row, and the client's last word is that it is unreachable exactly when an attempt failed and no listing has succeeded since |
| Agent.ReportAdded | crates/tepegoz-agent/src/lib.rs:331-391 | each attempt adds the listing it made if the one before it succeeded, its own reason if it failed and nothing has failed since the last listing, and nothing otherwise |
| SupervisorTheorems.StepInv | crates/tepegoz-core/src/client.rs:1837-2123 | every event at every wait keeps the shown state, backoff index, heartbeat counter, advertised capabilities and trace consistent |
| SupervisorTheorems.TracePath | crates/tepegoz-core/src/client.rs:1837-2123 | in every run for a host without ProxyJump the states shown start at Disconnected and follow the documented graph |
| SupervisorTheorems.DisconnectObeyed | crates/tepegoz-core/src/client.rs:1851-1912 | in every run, between a consumed Disconnect and a later Connecting a Reconnect was consumed |
| SupervisorTheorems.BackoffLadder | crates/tepegoz-core/src/client.rs:1577-1606 | in every run the waits since the last reset are 1, 2, 5 and 15 s and then 60 s each, and n >= 4 waits in a row add up to 23 + 60 (n - 4) seconds |
| SupervisorTheorems.HeartbeatDecides | crates/tepegoz-core/src/client.rs:2220-2276 | in every run a heartbeat ends the session exactly when it is the third failure in a row, after 90 s or more, and the next wait is 1 s; a session that goes on shows Degraded exactly while failures are outstanding |
| SupervisorMoves.DialDecides | crates/tepegoz-core/src/client.rs:1915-2108 | in every run a dial becomes a session exactly when it was established, parks the host exactly when the host key or the login was rejected, and is retried exactly when anything else failed; Connected, HostKeyMismatch, AuthFailed or Disconnected is shown accordingly and nothing else; a retry waits for the rung as high as the row of failures is long |
| SupervisorMoves.ActionDecides | crates/tepegoz-core/src/client.rs:1851-2060 | in every run a Reconnect starts a dial at once with the ladder reset, and a Disconnect leaves the host idle, or parked if its key or login was rejected, whatever goes on; what is shown on the way, and the end of a session's agent and capabilities, follow |
| SupervisorMoves.HeartbeatShows | crates/tepegoz-core/src/client.rs:2220-2276 | in every run a heartbeat shows Degraded at the first failure in a row, Connected at the first success after one, Disconnected at the third failure, and otherwise nothing |
| SupervisorMoves.ElapsedDecides | crates/tepegoz-core/src/client.rs:2110-2122 | in every run a backoff ends no earlier than its wait, and in a dial |
| SupervisorTheorems.AdvertisedInSession | crates/tepegoz-core/src/client.rs:1979-2001 | in every run a supervisor advertises capabilities only between registering its session's agent and that session's end, while the host is shown as Connected or Degraded |
| AgentPool.SupervisorsApart | crates/tepegoz-core/src/client.rs:1668-1770 | in every run of any number of supervisors of a host, each begins as it was begun first and goes where its own events up to its abort take it, whatever the others do |
| AgentPool.PoolEntryOwned | crates/tepegoz-core/src/agent.rs:425-481 | in every run of any number of supervisors of a host, an agent in the pool was registered by a session its owner holds, or was aborted in, and serves what that owner's client was told |
| AgentPool.OwnEntryIff | crates/tepegoz-core/src/agent.rs:459-493 | in every run a supervisor with a registered agent put it there at some event and has held the session since; the entry is still its own if and only if no other supervisor of the host has registered or ended a session since |
| AgentPool.AloneAgrees | crates/tepegoz-core/src/client.rs:1979-2001 | with one Fleet subscription there is an agent exactly while its supervisor has one registered, and it serves exactly what the client was told |
| AgentPool.SharedEntryLost | crates/tepegoz-core/src/client.rs:1990-2001 | a run of two clients in which one's disconnect empties the pool while the other is shown Connected with capabilities |
| AgentPool.EntryOutlivesClient | crates/tepegoz-core/src/client.rs:1668-1700 | a run in which the agent of an aborted supervisor stays in the pool while no live supervisor holds a session |
| SupervisorTheorems.JumpNeverDials | crates/tepegoz-core/src/client.rs:1803-1835 | in every run a host behind ProxyJump shows only AuthFailed, once plus once per Reconnect consumed, and is never dialled |
| HostSupervisor.HostSupervisor.Run | crates/tepegoz-core/src/client.rs:1837-2123 | the outer loop over any sequence of events ends in the state the specification folds to |
| HostSupervisor.HostSupervisor.RunConnectedSession | crates/tepegoz-core/src/client.rs:2220-2276 | the heartbeat loop ends a session where and how the specification does |
| HostSupervisor.HostSupervisor.WaitBackoff | crates/tepegoz-core/src/client.rs:2167-2182 | the backoff wait ends as the specification says, by the timer or by whichever action comes first |
| HostSupervisor.HostSupervisor.AwaitTerminalReset | crates/tepegoz-core/src/client.rs:2184-2196 | the park swallows Disconnects and leaves on a Reconnect or when the channel closes |
| HostSupervisor.HostSupervisor.Attempt | crates/tepegoz-core/src/client.rs:1882-2103 | one dial ends at the top of the loop, at the backoff or out of it, where the specification is too, whose every dial SupervisorMoves.DialDecides states outright |
| HostSupervisor.HostSupervisor.Hold | crates/tepegoz-core/src/client.rs:1952-2038 | an established session deploys, advertises, holds, cleans up and goes where its end leads |
| HostSupervisor.HostSupervisor.RunParked | crates/tepegoz-core/src/client.rs:1803-1835 | the parked loop of a host behind ProxyJump follows the specification |
| Scrollback.HeldIsLongest | crates/tepegoz-pty/src/lib.rs:308-320 | after any appends the ring holds exactly the longest run of whole chunks at the end of everything appended that fits the capacity |
| Scrollback.SnapshotIsRecent | crates/tepegoz-core/src/remote_pane.rs:402-425 | the snapshot is at most the capacity and is the end of everything appended |
| Scrollback.NewestHeld | crates/tepegoz-core/src/remote_pane.rs:402-415 | the chunk appended last is the end of the snapshot if it fits the capacity; if it does not, nothing at all is held |
| Scrollback.Scrollback.Append | crates/tepegoz-pty/src/lib.rs:308-320 | the eviction loop keeps the byte count equal to the chunks held, never over capacity, and evicts as specified |
| Scrollback.Scrollback.Snapshot | crates/tepegoz-pty/src/lib.rs:322-331 | the loop returns the held chunks concatenated in order |
| PaneStream.StepInv | crates/tepegoz-pty/src/lib.rs:334-361 | every step of reader, driver, waiter and forwarders keeps output, scrollback, broadcast updates and each subscriber's account in step |
| PaneStream.Attach | crates/tepegoz-core/src/client.rs:764-829 | in every interleaving, lag or not, the snapshot ends where it was taken, the log accounts for every update since (each Lagged(n) for n consecutive ones), and those updates are one contiguous piece of the output starting at the snapshot's end less the chunk in flight |
| PaneStream.ExactlyOnce | crates/tepegoz-pty/src/lib.rs:264-270 | in every interleaving a local client that did not lag was shown one contiguous piece of the output, each byte once, up to the end once it is level with the channel |
| PaneStream.ShownTwiceIff | crates/tepegoz-core/src/remote_pane.rs:338-359 | without lag, snapshot and live bytes are one stretch of the output; the positions shown twice are exactly the last min(snapshot, chunk in flight at the attach) before the snapshot's end, the whole chunk if it fits the scrollback and none if it does not; so each byte is shown once if and only if nothing was received, nothing was in flight, or it does not fit |
| PaneStream.AttachRepeats | crates/tepegoz-core/src/remote_pane.rs:338-344 | for every chunk, a run that attaches between its append and its broadcast: shown twice if it fits, once if not |
| PaneExit.ExitCompleteIff | crates/tepegoz-core/src/client.rs:764-829 | in every interleaving, local or remote, a client told of the exit has been through all the output if and only if nothing was output after its Subscribe, when the alive check told it, or after the exit's broadcast, when the channel did; without lag it was then shown the output to its last byte, unless it was shown nothing at all |
| PaneExit.RemoteExitIsLast | crates/tepegoz-core/src/remote_pane.rs:375-381 | a remote client told of the exit has been through all the output if and only if the channel told it or the driver took no output after its Subscribe; the channel's exit is the last update and nothing appended is unbroadcast |
| PaneExit.LocalExitLosesLateOutput | crates/tepegoz-pty/src/lib.rs:164-184 | a local client told of the exit has been through all the output if and only if the reader read nothing after its Subscribe, when the alive check told it, or after the waiter's announcement, when the channel did |
| PaneExit.CheckLosesOutput | crates/tepegoz-core/src/client.rs:787-790 | on either kind of pane and for every chunk, a run in which the chunk and the pane's death fall between a client's snapshot and its alive check, and the client is done without having been shown it |
| PaneExit.LateOutputUnseen | crates/tepegoz-pty/src/lib.rs:164-184 | a run whose client is told of the exit by the channel and has not been shown the output |
| PaneTold.ExitToldTruly | crates/tepegoz-core/src/client.rs:787-829 | in every run, local or remote, a client is told of an exit at most once and of nothing afterwards, only of a dead pane, with the exit status learnt last; it is done exactly when it has been told |
| PaneTold.LagIff | crates/tepegoz-core/src/client.rs:792-829 | in every run a client is told that it missed something if and only if at some receive it was further behind than the channel is long |
| LogsView.RawUnique | crates/tepegoz-tui/src/app.rs:436-446 | newline-free pieces and a newline-free rest that make up the input are the split computed, and the only one |
| LogsView.ChunkingIrrelevant | crates/tepegoz-tui/src/app.rs:425-450 | ingesting a and then b on a stream is ingesting their concatenation |
| LogsView.InterleavingIrrelevant | crates/tepegoz-tui/src/app.rs:425-450 | however chunks and streams interleave, each stream's lines are its own bytes split at newlines with one carriage return dropped, and its tail is the rest |
| LogsView.NothingLost | crates/tepegoz-tui/src/app.rs:425-512 | however chunks and streams interleave, once the streams have ended every byte of each is in its lines: one for each newline, less at most one carriage return, and one more for a tail that has none; the tails are the last lines of all, stdout's first |
| LogsView.LogsView.Ingest | crates/tepegoz-tui/src/app.rs:425-450 | the drain loop completes exactly the lines of pending plus new bytes, touches only its stream, and the buffer stays the last MAX_LOG_LINES of all lines |
| LogsView.LogsView.DrainLines | crates/tepegoz-tui/src/app.rs:436-446 | cutting at the first newline until there is none gives all complete lines and the rest |
| LogsView.LogsView.PushLine | crates/tepegoz-tui/src/app.rs:452-457 | dropping the oldest line at the cap keeps the buffer the last MAX_LOG_LINES of everything pushed |
| LogsView.LogsView.EndStream | crates/tepegoz-tui/src/app.rs:493-512 | each stream's pending bytes, if any, become one more line of that stream, stdout's first; nothing is pending afterwards and the buffer is still the last MAX_LOG_LINES |
| KeyParser.SplitIff | crates/tepegoz-tui/src/app.rs:1039-1098 | parsing a and then b gives the keys and state of parsing their concatenation if and only if a does not leave an ESC pending that b continues with a bracket |
| KeyTable.PressesReadBack | crates/tepegoz-tui/src/app.rs:1039-1098 | whatever keys are pressed, the bytes a terminal sends for them, control bytes and CSI sequences with parameters among them, read back as those keys, unless a lone ESC is followed by a lone bracket; sequences that stand for no key give none |
| KeyParser.KeysBounded | crates/tepegoz-tui/src/app.rs:1039-1098 | between reads no ESC is pending, and a read gives no more keys than bytes |
| KeyParser.ScopeKeyParser.Parse | crates/tepegoz-tui/src/app.rs:1040-1097 | the byte loop and the final flush compute the parse |
| AppInvariant.StepInv | crates/tepegoz-tui/src/app.rs:1313-1330 | every event keeps ids, tabs, requests and the subscriptions open on the wire consistent |
| AppTheorems.IdsDistinct | crates/tepegoz-tui/src/app.rs:3236-3240 | in every run all live subscription, pending-open and pending-action ids are pairwise different and below the counter |
| AppTheorems.OneBranch | crates/tepegoz-tui/src/app.rs:2814-2838 | in every run at most one branch of the event dispatch can claim a subscription id, and it is the one taken |
| AppTheorems.WireDisciplined | crates/tepegoz-tui/src/app.rs:1986-2077 | in every run no Subscribe or AttachPane is sent for an id still open, and every subscription the client shows is open |
| AppMessages.MessagesAnswer | crates/tepegoz-tui/src/app.rs:1313-1330 | in every run each event adds exactly the messages it calls for, each once: for every kind of message, the states and events that call for it, from the key pressed or the click to the container, host, target, pane and id it carries |
| AppMessages.CloseGoesWithTab | crates/tepegoz-tui/src/app.rs:2360-2405 | in every run a pane the daemon was told to close is the one whose tab was shown when the user closed it; that event took the tab out of the stack and cancelled its subscription next, and the tab after it is shown, or the one before the last |
| AppMessages.InFlightIff | crates/tepegoz-tui/src/app.rs:2679-2812 | in every run a request is in flight if and only if a key made it and since then no reply, no timeout and no tick 30 s on or later has come; its deadline is 30 s after that key |
| AppEffects.ClickEffect | crates/tepegoz-tui/src/app.rs:1346-1470 | a click focuses its tile as the key for it does, and then does what the key for what it hit does: opens the picker, closes the tab, or shows a tab, or opens a pane on a host |
| AppTheorems.ThinnedDisciplined | crates/tepegoz-core/src/client.rs:258-420 | the part of a client's commands that one agent sees keeps that discipline |
| AppTheorems.ClientsNeverReuse | crates/tepegoz-tui/src/app.rs:1207-1308 | sessions that have received any prefix of what runs of this client sent never reuse a live id, whatever the interleaving |
| AppTheorems.AgreementEndToEnd | crates/tepegoz-core/src/client.rs:909-947 | so with these clients the daemon's table and its sessions' handles agree, and a torn-down session leaves no subscription entry |
| AppPrompt.PromptOrigin | crates/tepegoz-tui/src/app.rs:2711-2724 | a prompt that is up was opened by some press of K or X on its container and target, and only K, X and early ticks reached it since |
| AppPrompt.DestructiveSafety | crates/tepegoz-tui/src/app.rs:2079-2115 | in every run each Kill or Remove sent carries the container, kind and target of the press that opened its prompt, was confirmed by y or Y, and between the two only K and X reached the tile and no tick came past the deadline |
| AppPrompt.FocusAwayCancels | crates/tepegoz-tui/src/app.rs:1746-1760 | an event that takes the focus off the Docker tile cancels its prompt if and only if it is neither a pane opening nor a resize |
| AppPrompt.PromptOutlivesPane | crates/tepegoz-tui/src/app.rs:2986-3010 | a run in which a prompt stays up under a pane that opened and took the focus |
| AppPrompt.PromptOutlivesFocus | crates/tepegoz-tui/src/app.rs:3211-3232 | a run in which a prompt stays up under a resize that took the focus away |
| AppPrompt.PanicsWithoutPane | crates/tepegoz-tui/src/app.rs:1256-1268 | in every run input at the pty tile goes to the tab shown, and the client panics exactly when there is none |
| AppPrompt.TypingTooSoon | crates/tepegoz-tui/src/app.rs:2360-2405 | a run in which typing right after closing the only tab panics, and one in which the replacement had arrived and it does not |
| AppTargets.TilesShowTheirTarget | crates/tepegoz-tui/src/app.rs:1986-2077 | in every run the last word the daemon had under each tile's id is a subscription to that tile's list on the target the tile shows, and the log shown is one of the Docker tile's target |
| AppTargets.OverlayAbsorbs | crates/tepegoz-tui/src/app.rs:1590-1647 | while help or picker is up no key and no click changes anything under it or sends anything, except a detach and a pick, which retargets its own tile only |
| App.App.constructor | crates/tepegoz-tui/src/app.rs:1207-1308 | the fields and initial messages of a fresh client, with every invariant of the runs in force |
| App.App.HandleEvent | crates/tepegoz-tui/src/app.rs:1313-1330 | one event, updating fields in place over loops and searches, ends in the model's next state; ids, tabs, subscriptions and targets stay in order and nothing sent is taken back |
| App.App.CloseActivePane | crates/tepegoz-tui/src/app.rs:2360-2405 | the pane of the tab shown is closed and its subscription cancelled, in that order; the other tabs stay in order and the one after it is shown, or the one before the last; the last of all is replaced by a request for a local pane |
| App.App.HandlePaneExit | crates/tepegoz-tui/src/app.rs:2940-2972 | a gone pane leaves the stack with the shown tab adjusted, or detaches if it was the last |
| App.App.SweepExpired | crates/tepegoz-tui/src/app.rs:2792-2812 | a tick drops an overdue prompt and exactly the overdue requests |
| App.App.HandleDaemon | crates/tepegoz-tui/src/app.rs:2814-2920 | replies from the daemon reach the tab, request or queue they belong to, or nothing |
| App.App.HandleResize | crates/tepegoz-tui/src/app.rs:3211-3232 | every pane is resized, and a tile that is gone loses the focus to the layout's default |
| App.App.HandleAll | crates/tepegoz-tui/src/app.rs:1313-1330 | the handlers over any sequence of events end in the state the model runs to, with the same things kept |
| Codec.U32Inverse | crates/tepegoz-proto/src/codec.rs:88-102 | the four-byte prefix is the length with its most significant byte first, and reads back as the length |
| Codec.FrameReadsBack | crates/tepegoz-proto/src/codec.rs:68-140 | a written frame reads back as its value with the rest of the stream untouched if and only if its body is no longer than MAX_FRAME_SIZE |
| Codec.FrameErrors | crates/tepegoz-proto/src/codec.rs:100-140 | a frame over the maximum is refused under its length with 32 bytes of its body taken off the stream, one whose body means nothing costs that frame only, and one cut short leaves nothing |
| Codec.StreamRoundTrip | crates/tepegoz-core/src/agent.rs:495-501 | any list of fitting envelopes is read back as the same list with no bytes left over |
| Codec.PrefixDecodes | crates/tepegoz-proto/src/codec.rs:100-140 | a stream cut anywhere decodes to exactly the values whose frames it holds whole, then reports the end |
| Codec.Writer.WriteEnvelope | crates/tepegoz-proto/src/codec.rs:68-93 | succeeds exactly when the value serializes to a body whose length fits the prefix, appending its frame; otherwise writes nothing |
| Codec.Reader.ReadExact | crates/tepegoz-proto/src/codec.rs:100-102 | takes exactly n bytes off the stream however it is cut, or everything if there are fewer |
| Codec.Reader.ReadEnvelope | crates/tepegoz-proto/src/codec.rs:100-140 | one read is the decoding of the flattened stream, errors and bytes consumed included, however it is cut |
| Codec.Reader.ReadAll | crates/tepegoz-core/src/agent.rs:257-263 | reading until the first error is the decoding of the whole stream |
| ShellQuote.ShellQuote | crates/tepegoz-ssh/src/deploy.rs:638-652 | the character loop quotes as specified |
| ShellQuote.QuoteLexes | crates/tepegoz-ssh/src/deploy.rs:638-652 | in any context, a quoted string adds exactly itself to the word it stands in, and makes the line unreadable if it holds a NUL |
| ShellQuote.QuoteRoundTrip | crates/tepegoz-ssh/src/deploy.rs:638-652 | the shell reads a quoted string as one word equal to it if and only if it holds no NUL |
| ShellQuote.RenderLexes | crates/tepegoz-ssh/src/deploy.rs:491-541 | any command line of literal words, quoted arguments and operators that ends in a word keeps its words and operators apart, whatever the arguments hold |
| ShellQuote.FinalizeLexes | crates/tepegoz-ssh/src/deploy.rs:534-539 | the compound rename is read as mv, two paths, the and-operator, chmod, +x and the final path |
| ShellQuote.UploadLexes | crates/tepegoz-ssh/src/deploy.rs:501-521 | the mkdir, cat and rm commands pass their path on as one word, and the redirection is an operator |

## Left out

- Handles across reconnects: a handle names only alias and daemon id, so after a reconnect a stale one can hit the new connection; one connection's lifetime is modelled.
- Wrap-around of the 64-bit id counters.
- The pool lock that Unsubscribe and teardown hold across their two steps is not modelled; the transition system admits more interleavings than the code.
- A single message that fails to serialize in the agent driver, which logs and drops it.
- Transport, agent stdio and the duplex pipe between driver and parser are one FIFO queue in each direction.
- An abort between the steps of a dial's success: a supervisor's dial, deploy, registration and first advertisement are one event, and so are the removal and last advertisement at a session's end. Tasks that panic are not modelled.
- The pool's entry and the connections of the multiplexer are separate models: which connection a session looks up after a replacement is not followed, and a session stays on the one connection modelled.
- Results of remote actions carry target Local, as the agent sends them; no theorem restores the original target.
- Human-readable reasons are opaque; only who gave one is kept.
- The two copies of the scrollback in the source are modelled once, by the same class.
- The forwarder's early return when its client's queue is closed, and the Closed arm of the broadcast receiver, which a forwarder holding the pane never sees.
- UTF-8 decoding of log text, scrolling of the log view, filters, selection movement, host-list bookkeeping, toasts, frames and mouse geometry.
- A stdin chunk is the sequence of events its bytes amount to; the picker's dropping of the keys left in a chunk after it closes is one of the sequences allowed.
- Lists, log lines and capabilities delivered to the client: only which handler an event reaches is modelled, besides the log assembly itself.
- The agent's ports, processes, logs and stats forwarders, version check and handshake.
- The presence, hash and stat commands and the parsing of their output.
- Options: a path that begins with a dash is one word, but what a command makes of it is not modelled.

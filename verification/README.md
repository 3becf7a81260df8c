# OpenShard core server: config editor, reverse tunnel, registrar

This project models the three stateful components of the OpenShard core server in Dafny and proves
what each of them keeps over every run.

- **Config editor** (`haproxy-manager/src/config.rs`). `add_service` and `remove_service` edit the text
  of `haproxy.cfg` line by line. `Text` gives the string operations (`lines` with its CRLF rule, `join`,
  `trim`), `Config` the editor: specification functions on the text, the removal scan as a loop, and the
  file as a class. `ConfigRuns` and `ConfigEdits` show that every run of edits, failed ones included,
  keeps the text equal to the rendering of an ordered collection of services. `ConfigShape`,
  `ConfigRouting`, `ConfigRoundTrip` and `ConfigRemoval` draw the consequences; the last two need no
  representation invariant and hold of any text.
- **Reverse tunnel** (`tunnel/server.rs`, `client.rs`, `proto.rs`). `Wire` has the frame format, `Streams`
  the reading and copying loops over streams with arbitrary chunking, `Ports` the port pool shared by
  interleaved sessions, `Pairing` the visitor protocol behind the wrapping 16-bit stream id, with its runs in
  `PairingRuns` and `PairingServed`. `Ports` and `Pairing` hold the code as a class and the interleavings as
  a state machine whose steps are single critical sections or socket actions.
- **Registrar** (`enrollment.rs`, `services.rs`, `churn.rs`, `main.rs`, `db.rs`, `state.rs`,
  `haproxy-manager/src/lib.rs`). `Proxy` is the running HAProxy with servers that a reload wipes, `Store`
  the entities and tables, `Registrar` the steps as functions, `Handlers` the handlers as methods that
  refine those functions, and `RegistrarRuns` the runs with their invariant. The properties of runs are in
  `RegistrarIdentity`, `RegistrarServices`, `RegistrarProxy`, `RegistrarHealing`, `RegistrarRecovery` and
  `RegistrarTraffic`. `RegistrarRecords` tells what memory and tables hold from the events alone, and
  `RegistrarExamples` has runs that go wrong. `RegistrarText` joins the registrar to the config editor: over
  every run the text is the rendering of the proxy's file, which gives end-to-end routing. Each handler,
  each churn sweep, each restart and each redeployment is one step; a redeployment brings its own config
  file (`src/core-server/Dockerfile:42`) and finds the database of before
  (`src/core-server/docker-compose.yml:27`).

`dafny verify dfyconfig.toml` checks everything.

## Assumptions

- Service names are non-empty words without white space; domains contain no newline and no carriage
  return. The base config has a routing line and does not mention the services that are managed in it.
- HAProxy decides by the first `use_backend` of the frontend whose condition holds, else by the last
  `default_backend`. Conditions other than a single host rule are decided by an arbitrary oracle.
- The outcome of `haproxy -c` and of the reload signal is a parameter of each edit (`Verdict`).
- Database operations succeed. Runtime commands fail only because the backend or the server is missing,
  and a deletion of a server that is not in maintenance is refused.
- Stream ids wrap at 65536; the arrival number of a visitor is unbounded and exists in the model only.

## Where the code differs from what one might expect

- `remove_service` gives the text back byte for byte only under a condition, which `RoundTripExactly`
  states; a config with CRLF line endings is one that it changes (`CrlfConfigChanges`).
- `service_exists` trims a line, `remove_service` does not: a rule with another indent is found and
  cannot be removed. `RemovalExactly` has the condition, `TabbedRuleStays` an example.
- The stream id is reused after 65536 visitors. A data connection still in flight then meets a later
  visitor: `PairingExactly` has the condition, `BeyondTheWindow` a run in which it happens.
- Disconnecting a volunteer drops its service (the churn monitor queues it again), and a restart drops
  the queue, which is in memory only. `LossExactly` shows that nothing else loses a registration.
- The comment at `src/core-server/registrar/src/enrollment.rs:433-436` promises that a new tunnel address
  reaches both the `volunteers` and the `svc_` backend. `update_volunteer_addr` stops at a missing volunteer
  server, as after a reload that no heartbeat has followed yet. `AddressChangeExactly` has the condition,
  `AddressLeftBehind` a run in which the service stays at the old address even after the next heartbeat.
- A reload signal that is lost leaves a service in the file without a running backend, and `add_service` then
  skips it. `RecoveryExactly` says when recovery serves a service, `LostReload` shows a run in which it does
  not. Without a redeployment this cannot happen to a service that some volunteer holds
  (`RecoveryAfterAnyRun`).
- A session thread that panics never gives its two ports back (`NothingLeaks`).
- Disconnecting and evicting remove the volunteer's own server only; the `primary` server of its service
  stays until the service is assigned again or a reload wipes it (`OtherServicesStay`).
- Disconnecting leaves the assignment row behind until the next restart prunes it (`RestartRestores`).
- A comment in `src/core-server/registrar/src/enrollment.rs:43` speaks of a two-byte tunnel handshake; server
  and client exchange four bytes, and so does the model.

## Model

| member | source | states |
|---|---|---|
| Config.Position | src/core-server/haproxy-manager/src/config.rs:140-146 | the insertion point is the first routing line: nothing before it is one, and none exists exactly when it is past the end |
| Config.KeptLines | src/core-server/haproxy-manager/src/config.rs:189-206 | the scan with its section flag keeps exactly the lines that the recursive definition keeps |
| Config.ConfigFile.AddService | src/core-server/haproxy-manager/src/config.rs:127-168 | new text, status and reload for every outcome: present already, no routing line, rejected and restored, unreloadable, done |
| Config.ConfigFile.RemoveService | src/core-server/haproxy-manager/src/config.rs:174-221 | new text, status and reload for every outcome of a removal |
| ConfigEdits.MarkedExactly | src/core-server/haproxy-manager/src/config.rs:118-121 | `service_exists` on a rendered config is membership in the collection |
| ConfigEdits.RenderPosition | src/core-server/haproxy-manager/src/config.rs:140-146 | new rules go exactly between the managed rules and the managed routing lines |
| ConfigEdits.AddRenders | src/core-server/haproxy-manager/src/config.rs:136-154 | adding an absent service writes, byte for byte, the rendering with the service at the end of the collection |
| ConfigEdits.KeepRenders | src/core-server/haproxy-manager/src/config.rs:189-206 | the removal scan keeps exactly the lines of the other services and of the base; the separating blank line stays only for the last section |
| ConfigEdits.RemoveRenders | src/core-server/haproxy-manager/src/config.rs:183-208 | removing a present service writes the rendering of the others; the final newline is there exactly when its section was the last |
| ConfigEdits.EditRenders | src/core-server/haproxy-manager/src/config.rs:127-221 | one edit with any outcome takes a rendering to the rendering of the edited collection; adding a present name or removing an absent one changes nothing |
| ConfigEdits.RunRenders | src/core-server/haproxy-manager/src/config.rs:127-221 | representation invariant over every run of adds and removes, failed ones included |
| ConfigEdits.RunFromBase | src/core-server/haproxy-manager/src/config.rs:127-221 | the same from any base config |
| ConfigEdits.RejectedVanish | src/core-server/haproxy-manager/src/config.rs:157-162 | on any text, a run of edits has the effect of those that were not rejected: each rejected one is rolled back |
| ConfigEdits.RemoveAddCommute | src/core-server/haproxy-manager/src/config.rs:140-208 | removing A and adding B give the same lines in either order, whatever else is present; the texts differ in exactly the final newline |
| ConfigShape.RulesExactly | src/core-server/haproxy-manager/src/config.rs:101-107 | each managed service has exactly one ACL line and exactly one, later, routing line; their indices show order of addition and reverse order |
| ConfigShape.HeaderExactly | src/core-server/haproxy-manager/src/config.rs:113-115 | each managed service has exactly one backend header, after all rules and in order of addition |
| ConfigShape.ListsExactly | src/core-server/haproxy-manager/src/config.rs:225-239 | the listing of a rendered config is that of the base followed by the `svc_` names still present, in order of addition |
| ConfigShape.ListAgreesWithExists | src/core-server/haproxy-manager/src/config.rs:225-239 | after every run, being listed, being found and being in the collection are the same for an `svc_` name |
| ConfigRouting.FrontendRoutes | src/core-server/haproxy-manager/src/config.rs:138-150 | managed rules put before the first routing line take precedence over the frontend's own and change nothing else |
| ConfigRouting.RenderRoutes | src/core-server/haproxy-manager/src/config.rs:101-107 | routing of a rendered config: the latest service whose domain matches the host in any case, else the base route |
| ConfigRouting.RunRoutes | src/core-server/haproxy-manager/src/config.rs:127-208 | routing refinement over every run of adds and removes |
| ConfigRouting.CaseIgnored | src/core-server/haproxy-manager/src/config.rs:104-104 | hosts that differ only in the case of letters go to the same service |
| ConfigRouting.OtherSections | src/core-server/haproxy-manager/src/config.rs:136-154 | every other section of the base config reads as before |
| ConfigRouting.BackendSection | src/core-server/haproxy-manager/src/config.rs:94-99 | the backend section of a managed service is exactly the five generated lines, told literally, whatever surrounds it |
| ConfigRoundTrip.RoundTripExactly | src/core-server/haproxy-manager/src/config.rs:136-208 | for any text with a routing line, add then remove gives the identical string if and only if the text ends in a newline, has no CRLF and no line attributed to the service |
| ConfigRoundTrip.RoundTripGainsNewline | src/core-server/haproxy-manager/src/config.rs:136-208 | the result is the text with exactly one newline more if and only if the text is unterminated, has no carriage return at a line end and no line attributed to the service |
| ConfigRoundTrip.CrlfConfigChanges | src/core-server/haproxy-manager/src/config.rs:136-154 | a concrete config on which the round trip fails for every service |
| ConfigRemoval.RemovalExactly | src/core-server/haproxy-manager/src/config.rs:174-208 | on any text, a removed service is still found if and only if one of its rules stands outside its section with another indent |
| ConfigRemoval.SectionGoes | src/core-server/haproxy-manager/src/config.rs:192-206 | on any lines, the removal takes the section up to the next line that is neither empty nor indented by a blank or a tab, and nothing around it |
| ConfigRemoval.TabbedRuleStays | src/core-server/haproxy-manager/src/config.rs:118-121 | a concrete config from which `remove_service` cannot remove what `service_exists` finds |
| Wire.FrameRoundTrip | src/core-server/tunnel/proto.rs:24-33 | `encode` and `decode` are inverse in both directions |
| Wire.FrameBytes | src/core-server/tunnel/proto.rs:16-27 | the bytes of each frame: tag, then the id with its high byte first |
| Wire.HandshakeRoundTrip | src/core-server/tunnel/server.rs:119-122 | the four handshake bytes carry both ports |
| Wire.CutStream | src/shard-node/container/proto.rs:24-33 | a frame stream cut at any byte decodes to exactly the frames that are complete |
| Wire.ClientReads | src/shard-node/container/client.rs:70-77 | what a cut server stream says: both ports and all complete frames |
| Streams.Source.ReadExact | src/shard-node/container/client.rs:71-71 | for any chunking, the buffer is filled with the next bytes, or the stream has ended too early |
| Streams.ReadHandshake | src/shard-node/container/client.rs:70-77 | both ports are read exactly when four bytes arrive, and the rest of the stream is untouched |
| Streams.RunSession | src/shard-node/container/client.rs:101-131 | one dial per OPEN and one PONG per PING, in the order of the stream, until it ends; it stops earlier if and only if a PONG cannot be written, and does nothing when the connection cannot be cloned |
| Streams.PongBytes | src/shard-node/container/client.rs:115-116 | the answer to pings, byte by byte |
| Streams.Attend | src/shard-node/container/client.rs:66-94 | end to end: from the server's bytes cut anywhere, the client gets both ports and handles, if and only if no PONG fails, all frames that arrived whole; none when the port file cannot be written |
| Streams.CopyHalf | src/core-server/tunnel/server.rs:263-274 | what is written is a prefix of the source in order, and all of it unless a write fails, which is reported exactly; the destination is closed in every case |
| Ports.FirstFree | src/core-server/tunnel/server.rs:81-93 | the lowest port of the pool that is neither used nor refused by the system, and none only when there is none |
| Ports.PortPool.Allocate | src/core-server/tunnel/server.rs:81-93 | the loop finds that port and marks exactly it |
| Ports.PortPool.RunSession | src/core-server/tunnel/server.rs:101-159 | a session serves on the two lowest ports it can have, if and only if it can have two and the connection holds; every return path gives back exactly what was taken, and a panic keeps exactly the two ports |
| Ports.StepOwned | src/core-server/tunnel/server.rs:81-97 | each critical section keeps the used set the disjoint union of what the sessions hold |
| Ports.RunOwned | src/core-server/tunnel/server.rs:101-159 | the same over every interleaving of sessions, crashes included, with all ports in 30000..=31000 |
| Ports.WholeSession | src/core-server/tunnel/server.rs:101-158 | in every reachable state a session with two ports for it serves on the lowest two and, once it has left, leaves nothing behind |
| Ports.TwoGiveBacksEnd | src/core-server/tunnel/server.rs:109-158 | a session that leaves ends within two critical sections and frees exactly its ports |
| Ports.LeavingEnds | src/core-server/tunnel/server.rs:109-158 | however other sessions interleave, a session that leaves ends after at most as many of its own critical sections as it holds ports |
| Ports.AtMost500 | src/core-server/tunnel/server.rs:101-114 | at no time do more than 500 sessions hold both their ports |
| Ports.NothingLeaks | src/core-server/tunnel/server.rs:156-157 | with no session in progress the used ports are exactly those of crashed sessions; none is used if and only if none crashed |
| Ports.TurnedAwayExactly | src/core-server/tunnel/server.rs:103-114 | a session is refused its first or second port if and only if each pool port is held by some session or cannot be bound; otherwise it gets the lowest |
| Pairing.SessionState.AcceptVisitor | src/core-server/tunnel/server.rs:229-234 | id, wrapping increment and insertion as one transition of the shared state |
| Pairing.SessionState.DataConnection | src/core-server/tunnel/server.rs:193-202 | removal of the entry, and the visitor to splice with if there is one |
| Pairing.SessionState.ControlFrame | src/core-server/tunnel/server.rs:170-175 | only CLOSE changes the shared state |
| Pairing.StepInv | src/core-server/tunnel/server.rs:163-250 | every step of every thread keeps the invariant on entries, connections in flight, fates and pairs |
| PairingRuns.VisitorConservation | src/core-server/tunnel/server.rs:195-234 | in every run each accepted visitor has exactly one fate of pending, spliced, closed, overwritten, and none is spliced twice |
| PairingRuns.PairingExactly | src/core-server/tunnel/server.rs:188-236 | in every interleaving a data connection is spliced to its own visitor if and only if it was not in flight as the next visitor with its id arrived; otherwise to a later one with the same id |
| PairingRuns.WindowedExactly | src/core-server/tunnel/server.rs:215-236 | a run accepts no visitor while a connection opened 65536 visitors earlier is in flight, if and only if no connection was ever late |
| PairingRuns.WindowPairs | src/core-server/tunnel/server.rs:188-236 | inside that window every splice is right, and with a client that sends no CLOSE no delivered connection is dropped as unknown |
| PairingServed.EveryVisitorServed | src/core-server/tunnel/server.rs:181-236 | inside the window, without CLOSE and failures, every accepted visitor is spliced with its own connection once nothing is on its way |
| PairingServed.NextVisitorServed | src/shard-node/container/client.rs:121-146 | from every such state the next visitor is served in four steps |
| PairingServed.CloseExactly | src/core-server/tunnel/server.rs:173-173 | in every reachable state a CLOSE takes exactly the visitor waiting under its id |
| PairingServed.BeyondTheWindow | src/core-server/tunnel/server.rs:229-230 | a run of 65537 visitors in which the first connection is spliced to the last visitor |
| Proxy.Haproxy.UpsertServer | src/core-server/haproxy-manager/src/lib.rs:230-246 | afterwards the server is there, ready, at this address and weight, whether or not it was before |
| Proxy.Haproxy.AddVolunteer | src/core-server/haproxy-manager/src/lib.rs:23-41 | a missing server is added ready; one that is there keeps its address |
| Proxy.Haproxy.RemoveVolunteer | src/core-server/haproxy-manager/src/lib.rs:46-56 | maintenance first, so the deletion is never refused: exactly this server disappears |
| Proxy.Haproxy.EnsureServiceConfig | src/core-server/haproxy-manager/src/lib.rs:105-109 | configured, or why not; only a new and reloaded service wipes the runtime servers |
| Proxy.Haproxy.AssignService | src/core-server/haproxy-manager/src/lib.rs:130-150 | succeeds exactly when the service is configured and its backend runs; then `primary` has the volunteer's address |
| Proxy.Haproxy.UpdateVolunteerAddr | src/core-server/haproxy-manager/src/lib.rs:190-214 | both servers move and are ready again; a missing volunteer server stops the operation before the service server |
| Proxy.ConfiguredText | src/core-server/haproxy-manager/src/lib.rs:105-109 | the proxy's file is the collection that the config text renders: configuring is one edit of that text |
| Store.WeightInRange | src/core-server/registrar/src/state.rs:44-48 | every weight is in 1..=100 |
| Store.WeightFallsWithLoad | src/core-server/registrar/src/state.rs:44-48 | more load of any kind never raises the weight |
| Store.WeightExactly | src/core-server/registrar/src/state.rs:44-48 | which load earns which weight, as a linear bound: half a point a percent of CPU, three tenths a percent of memory, one a request up to twenty; when it is 1 and when 100 |
| Store.LoadCosts | src/core-server/registrar/src/state.rs:44-48 | while neither bound acts, two points of CPU cost one, ten of memory three, a request one up to twenty, more requests and load average nothing |
| Store.Database.PruneOrphanAssignments | src/core-server/registrar/src/db.rs:231-245 | removes exactly the assignment rows without a volunteer, and counts them |
| Store.Database.FindByHostname | src/core-server/registrar/src/db.rs:193-208 | some row with this hostname, and none only when there is none |
| Store.Database.LoadSurvivors | src/core-server/registrar/src/db.rs:166-188 | lists every row exactly once, in some order, each with its own assignment |
| Registrar.SortSorted | src/core-server/registrar/src/state.rs:120-122 | sorting gives a permutation in descending weight |
| Handlers.AppState.FindNode | src/core-server/registrar/src/enrollment.rs:110-123 | the volunteer known under the hostname, memory before database, and none only when neither knows it |
| Handlers.AppState.Dequeue | src/core-server/registrar/src/enrollment.rs:196-242 | takes the front of the queue exactly when the proxy accepts it; otherwise queue, order and tables are as before |
| Handlers.AppState.Enroll | src/core-server/registrar/src/enrollment.rs:96-277 | the whole handler refines the enrollment step; the answer has no task if and only if the volunteer serves nothing, and otherwise the image and port of the registration it serves |
| Handlers.AppState.Heartbeat | src/core-server/registrar/src/enrollment.rs:289-358 | refines the heartbeat step: weight updated, or the missing server added again; the answer tells image and port as at enrollment |
| Handlers.AppState.Disconnect | src/core-server/registrar/src/enrollment.rs:371-413 | refines the disconnect step; an unknown id changes nothing |
| Handlers.AppState.UpdateTunnelPort | src/core-server/registrar/src/enrollment.rs:449-516 | refines the address step in memory, table and proxy |
| Handlers.AppState.ActiveVolunteers | src/core-server/registrar/src/state.rs:113-124 | lists each alive volunteer exactly once, in descending weight |
| Handlers.FirstFreeIsBest | src/core-server/registrar/src/services.rs:45-51 | the first unassigned volunteer of that list is alive, free and of maximum weight; there is none only when none is free |
| Handlers.AppState.RegisterService | src/core-server/registrar/src/services.rs:41-123 | assigns to a best free volunteer, queues only when there is none, changes neither on a refusal |
| Handlers.AppState.ChurnSweep | src/core-server/registrar/src/churn.rs:15-59 | evicts exactly the volunteers past the timeout and queues their services at the back |
| Handlers.AppState.ReloadMemory | src/core-server/registrar/src/main.rs:100-137 | prunes the tables and makes memory what they say, with fresh heartbeat times |
| Handlers.AppState.Recover | src/core-server/registrar/src/main.rs:100-163 | the whole recovery, both passes, refines the restart step |
| RegistrarRuns.StepInv | src/core-server/registrar/src/enrollment.rs:96-516 | every step keeps: tables mirror memory, one id per hostname, volunteer servers known and addressed, orphan rows only of disconnected ids |
| RegistrarRuns.EveryRunInv | src/core-server/registrar/src/db.rs:166-188 | the same at every step boundary of every run from an empty registrar |
| RegistrarRuns.RestartRestores | src/core-server/registrar/src/main.rs:100-137 | a restart finds every volunteer with the same id, info, metrics and service; it resets only heartbeat time, running and image flags and the queue, and prunes exactly the orphans |
| RegistrarIdentity.RunKeeps | src/core-server/registrar/src/enrollment.rs:110-140 | over any run without its eviction or disconnection, crashes included, a named volunteer keeps id, hostname and service |
| RegistrarIdentity.ReenrollReattaches | src/core-server/registrar/src/enrollment.rs:110-192 | a later enrollment under that hostname gets the same id and the same service at the new address |
| RegistrarIdentity.OneIdPerHostname | src/core-server/registrar/src/enrollment.rs:110-123 | in every reachable state a non-empty hostname has at most one id across memory and database |
| RegistrarIdentity.EnrollIdExactly | src/core-server/registrar/src/enrollment.rs:110-140 | an enrollment gets the id of the volunteer with its non-empty hostname if there is one, and otherwise a fresh one; others stay as they are |
| RegistrarIdentity.RestartAfterAnyRun | src/core-server/registrar/src/main.rs:110-137 | after any run a restart rebuilds what memory was |
| RegistrarRecords.EveryRunTold | src/core-server/registrar/src/enrollment.rs:144-161 | over every run, contact and enrollment time, address, handshake data, metrics and flags of each volunteer are those of the latest event that brought them, told from the events alone; so are the row's address and time |
| RegistrarRecords.SweepExactly | src/core-server/registrar/src/state.rs:86-90 | over every run, a sweep evicts exactly the volunteers whose last enrollment, heartbeat or restart is at least 45000 ms old |
| RegistrarRecords.RegisterPicks | src/core-server/registrar/src/services.rs:45-51 | over every run, a registration is queued if and only if no volunteer without service was in contact in the last 45 seconds, and otherwise goes to one whose latest metrics weigh most |
| RegistrarRecords.ServedWasAccepted | src/core-server/registrar/src/enrollment.rs:207-220 | over every run, what a volunteer serves, and is told to run, is a registration that was accepted, with its image and port |
| RegistrarRecords.EveryRunQueued | src/core-server/registrar/src/services.rs:99-105 | over every run, what waits was queued by its registration or an eviction, and bears that time |
| RegistrarRecords.OrphansExactly | src/core-server/registrar/src/db.rs:231-245 | over every run, the assignment rows without a volunteer are exactly those of volunteers disconnected while serving since the last restart |
| RegistrarServices.StepConserves | src/core-server/registrar/src/churn.rs:27-55 | every step keeps the multiset of accepted registrations equal to waiting, assigned and lost together |
| RegistrarServices.ServicesConserved | src/core-server/registrar/src/services.rs:45-105 | the same over every run from an empty registrar |
| RegistrarServices.LossExactly | src/core-server/registrar/src/enrollment.rs:385-398 | a step makes the registrar forget a registration, waiting and assigned together, if and only if it disconnects a volunteer that serves one, or restarts with a non-empty queue |
| RegistrarServices.FirstComeFirstServed | src/core-server/registrar/src/enrollment.rs:193-242 | over every run of one process, the services handed out by enrollments and then the queue are the old queue and then what joined it, in order; so a refused assignment keeps every place |
| RegistrarHealing.StepSyncs | src/core-server/registrar/src/enrollment.rs:329-339 | no step but a reload or restart takes a volunteer that stays out of step with the proxy |
| RegistrarHealing.SelfHealing | src/core-server/registrar/src/enrollment.rs:329-339 | after any reload wipe, once each volunteer has sent a heartbeat and no later reload intervenes, the `volunteers` backend equals memory with current addresses and latest weights |
| RegistrarProxy.StepGrows | src/core-server/haproxy-manager/src/lib.rs:105-150 | no step but a redeployment stops a backend, and a proxy that runs all of its file goes on doing so unless a reload signal is lost |
| RegistrarProxy.EveryRunUpToDate | src/core-server/haproxy-manager/src/config.rs:156-167 | in every run without a lost reload signal the proxy runs exactly the backends of its file |
| RegistrarProxy.HeldServicesRun | src/core-server/registrar/src/services.rs:51-80 | in every run without redeployment the backend of every held service runs, whatever the verdicts |
| RegistrarRecovery.PassTwoRestores | src/core-server/registrar/src/main.rs:153-163 | from any proxy state, after pass 2 every survivor is ready at its stored address and every running service is served at the address of its last holder |
| RegistrarRecovery.RecoveryRestores | src/core-server/registrar/src/main.rs:139-163 | recovery is safe against any reload wipes: every volunteer in memory is ready at its stored address, for any survivor order and outcome of pass 1 |
| RegistrarRecovery.PassOneRunning | src/core-server/registrar/src/main.rs:139-147 | after pass 1, with any outcomes, a backend runs if and only if it ran before or some survivor caused a reload while it was in the file, told from the state before |
| RegistrarRecovery.RecoveryExactly | src/core-server/registrar/src/main.rs:139-163 | recovery serves a held service at the address of its last holder if and only if that condition on the state before holds |
| RegistrarRecovery.AcceptedRecovery | src/core-server/registrar/src/main.rs:139-163 | when all of pass 1 succeeds, this is if and only if the backend ran before or some held service was missing from the file |
| RegistrarRecovery.RecoveryComplete | src/core-server/registrar/src/main.rs:139-163 | with a proxy that runs all of its file, and pass 1 successful, every held service is served |
| RegistrarRecovery.RecoveryAfterReloads | src/core-server/registrar/src/main.rs:110-163 | so it is after every run without a lost reload signal, redeployments with any config included |
| RegistrarRecovery.RecoveryAfterAnyRun | src/core-server/registrar/src/main.rs:110-163 | after every run without redeployment, with any verdicts before and during recovery, every held service is served at the address of its last holder |
| RegistrarExamples.LostReload | src/core-server/haproxy-manager/src/config.rs:131-134 | a run after which recovery, though all of it succeeds, does not serve a held service that is in the file |
| RegistrarTraffic.OtherServicesStay | src/core-server/haproxy-manager/src/lib.rs:190-246 | no step but a reload, restart or redeployment touches the server of a service that it is not about |
| RegistrarTraffic.AddressChanges | src/core-server/registrar/src/enrollment.rs:470-496 | for every known volunteer, serving or not, memory, row and its own server get exactly the new address, and nothing else changes |
| RegistrarTraffic.HandsOverExactly | src/core-server/haproxy-manager/src/lib.rs:130-150 | a service offered to a free volunteer is accepted if and only if its backend runs, or it is new and HAProxy takes the config; then it is served at the volunteer's address with weight 100 |
| RegistrarTraffic.AddressChangeExactly | src/core-server/haproxy-manager/src/lib.rs:190-214 | an address change makes the service served at the new address if and only if it was already, or both its server and the volunteer's own are there |
| RegistrarTraffic.ServiceFollows | src/core-server/registrar/src/enrollment.rs:433-516 | over every run without reload or restart, a service that one volunteer alone holds, and that is served at its address, stays served, ready, at its current address through every enrollment and tunnel change |
| RegistrarExamples.AddressLeftBehind | src/core-server/haproxy-manager/src/lib.rs:195-206 | a run after which the volunteer is in step with the proxy at its new address and its service is still served at the old one |
| RegistrarExamples.HeartbeatFirst | src/core-server/registrar/src/enrollment.rs:329-339 | with the heartbeat before the address change, the service follows from then on |
| RegistrarText.EveryRunRenders | src/core-server/haproxy-manager/src/lib.rs:105-150 | after every run of the registrar the config text is the shipped text with exactly the services of the proxy's file |
| RegistrarText.ListsAllServices | src/core-server/haproxy-manager/src/config.rs:225-239 | after every run of the registrar the listing of the text is that of the shipped text and then every configured service, by its `svc_` name and in order |
| RegistrarText.RequestsReachVolunteer | src/core-server/haproxy-manager/src/lib.rs:124-150 | end to end: after every quiet run, a request whose host the service is the latest to match goes to its backend, whose server is ready at the current address of the volunteer |

## Left out

- Sockets, threads, files, `haproxy -c`, SIGUSR2, sleeps and settle delays: their results are parameters or nondeterministic choices.
- Errors of reading or writing the config file and the database, and values that SQL or timestamp encoding could change.
- Config.ConfigFile.AddService: a failed read of the config, or write of the config or of the backup, is not modelled; such a write may leave any text.
- Config.ConfigFile.RemoveService: the same failed reads and writes are not modelled.
- ConfigRouting.RunRoutes: HAProxy's tokenizer is modelled without quoting, escapes and comments, and a section as the editor recognises it, by its first unindented line.
- ConfigRouting.RenderRoutes: assumes that no line of the base config uses a managed service's rule name.
- Proxy.Haproxy.EnsureServiceConfig: the missing routing line (`FrontendNotFound`) is modelled in the editor, not again here; like a rejected config it leaves the file as it is.
- Proxy.Haproxy.AssignService: the missing routing line, and the check of the form of an address, are not modelled again here.
- Proxy.Haproxy.UpsertServer: the text of runtime commands and replies, and the check that an address has the form `ip:port`, are not part of this model.
- Ports.PortPool.RunSession: the listener that `data_acceptor` keeps open is not modelled; the claim is about the used set, and whether a port can be bound is arbitrary.
- PairingRuns.WindowPairs: PING and PONG timing, and visitors that give up at their read timeout, are not modelled; a splice is the moment the pair is formed.
- Streams.CopyHalf: a read error counts as the end of the source, as in the code.
- Handlers.AppState.Enroll: interleavings inside a handler are not covered, since the code drops its locks between choosing and recording; address resolution is a parameter.
- Handlers.AppState.ActiveVolunteers: the library sort is a stable insertion sort, and the iteration order of a hash map is arbitrary.
- Store.WeightInRange: metrics are real numbers; rounding and NaN of 32-bit floats are not modelled.
- Identifiers are numbers, fresh when drawn; server names are a datatype instead of strings derived from an id; timestamps are milliseconds.
- RegistrarText.RequestsReachVolunteer: routing is read from the config file; a process that missed a reload signal runs an older one (`RegistrarProxy.EveryRunUpToDate`).
- No claim that a `svc_` backend has its `primary` server at all times: a later reload wipes it and heartbeats bring back only the `volunteers` servers.
- No claim that the queue is empty while a volunteer is free: the churn monitor queues services without dispatching them.
- Subdomain, dispatch, dashboard, metrics and API description code, and the Python agent: network clients and user interface.

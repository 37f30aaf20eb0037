# Verification of the device farm

A device farm lets clients lease ("occupy") phones. A server keeps the registry and the leases, an agent on a Mac runs the
commands of the current occupant in one queue per device and mirrors screens, and viewers watch them through the server.
This Dafny project models the parts that are hard to get right and proves what they promise, mostly as statements over every
run, every input or every way of cutting a byte stream into chunks.

`dafny verify dfyconfig.toml` checks everything. The files, by topic:

- **The occupation protocol.** `DevicesRepository`, `StreamsRelay`, `AgentsGateway` and `Server` are the server's objects: each
  method is proved against a specification function of the same name or a similar one. `ServerInvariant` shows what every
  operation keeps. `CommandExecutor` and `StreamDemandGate` are the agent's objects. `Farm` puts them together as a step
  system: the server, any number of agents, one in-order channel per connection; a step is one callback up to its first real
  wait. `FarmInvariant` holds in every state of every run, and `GhostInput`, `AgentLag`, `OwnerStarts`, `InFlightStart`,
  `DemandAgreement`, `ServerGuarantees` and `QueueGuarantees` state what follows. `RowHistory` tells the registry's rows,
  `ViewerHistory` the recipients of frames and `CommandHistory` when commands are sent and answered, all from the steps of the
  run. `Requests` follows a command on its way to the agent, `ResultPath` adds the way back, `AnsweredStarts` says which
  commands start late, and `WitnessRuns` holds runs in which these things happen.
- **Process and port lifecycles.** `PortPool`, `Processes`, `ControllerSupervisor`, `AndroidSupervisor`, `AndroidStream`;
  `ControllerHealth`, `AndroidHealth` and `StreamHistory` say from the events alone when a session is ready and when it restarts.
- **Wire formats.** `Bytes`, `PacketFraming`, `MirrorProtocol`, `MirrorPacketParser`, `HelperPacketParser`, `DeviceStreamer`,
  `FrameCodec`, `JsonText`, `Json`, `JsonParser`, `JsonRoundTrip`, `JsonDocuments`, `HttpParser`, `HttpMessages`, `HttpServer`.
- **Small algorithms.** `RateLimiter`, `UiNodeMapper`.

What is assumed of the world: generations and request ids are fresh (they are numbered in order of issue); channels deliver in
order and lose only a tail; there is one process per agent id and its previous socket has closed before it opens the next;
listeners are subscribed and do not throw; the registry starts empty. What agents send is not restricted: registrations,
heartbeats, frames and results may come at any time with any content. Where a result needs each device to be registered by one
agent, the run is called owned; where it needs results to be what agents sent, in order and possibly lost, it is called wired.

Four things one would expect hold only with a condition; each has an input at which it fails and the exact condition.

- The comment on the queue says that input of an earlier occupant is blocked after a handover. It is not
  (`InFlightStart.OldCommandMayStart`): a command whose turn comes in time starts if and only if the agent accepted a command of
  its occupation and has since then not processed its end, accepted a command of another occupation, seen its connection close
  or restarted (`GhostInput.StartsIff`); and at a start on an agent whose connection is open, the occupation is over on the
  server if and only if its end notice is still in the agent's inbox (`InFlightStart.StaleStartIffNoticeInFlight`).
- The comment on the disconnect handler says that only new commands count after a reconnect. A command queued before it, already
  answered as disconnected, comes back with the first new command of the same occupation
  (`WitnessRuns.AnsweredCommandMayStart`, `AnsweredStarts.RevivedIff`). The queue's deadline is there so that nothing starts that
  the server has answered; a started command has been answered if and only if its occupation is over, its timer fired or the
  server lost the agent (`AnsweredStarts.StartedIsAnsweredIff`).
- Both packet parsers discard the packets already collected in the push that meets a corruption (`PacketFraming.LossHappens`), so
  chunks make no difference exactly for the streams named in `PacketFraming.NothingIsLostIff` and
  `MirrorPacketParser.NothingIsLostIff`.
- The HTTP loop answers a request of at least the buffer's size differently depending on where reads happen to end
  (`HttpServer.SegmentationMatters`), unless nothing is decided before the buffer is full
  (`HttpServer.SegmentationDoesNotMatterIff`).

## Model

| member | source | states |
|---|---|---|
| GhostInput.NoGhostInput | packages/agent/src/command-executor.ts:38-94 | In every run of the farm: once an agent has processed the end notice of occupation g of d, or accepted a command of another occupation of d after one of g, or opened a new connection after g had ended on the server, no later step starts a command of g on that agent |
| OwnerStarts.NoGhostInputAnywhere | packages/server/src/agents/agents.gateway.ts:229-280 | If moreover each device is registered by one agent, after that agent has learnt of the end no agent at all starts a command of g |
| OwnerStarts.OnlyOwnerStarts | packages/server/src/agents/agents.gateway.ts:253-279 | In such runs a device's commands are started by its one registering agent only |
| GhostInput.TimelyCommandsStart | packages/agent/src/command-executor.ts:52-71 | Conversely nothing is dropped without a reason: as long as the agent has learnt of no end, other occupation, disconnect or restart since it accepted a command of g, a command of g whose turn comes within 15 s starts |
| AgentLag.AgentLagsByWhatIsInFlight | packages/agent/src/command-executor.ts:53-94 | In every state of every owned run: an occupation the agent remembers is the device's current one, or its end notice is undelivered on the agent's connection, or the server's end of that connection is closed and the agent has yet to notice |
| InFlightStart.StaleStartIsInFlight | packages/agent/src/command-executor.ts:59-71 | In owned runs a command of an occupation that is over starts only in those in-flight cases |
| InFlightStart.StaleStartIffNoticeInFlight | packages/agent/src/command-executor.ts:59-71 | and exactly then: at a start on an agent whose connection is open at the server, the command's occupation is over if and only if its end notice is in the agent's inbox |
| GhostInput.StartsIff | packages/agent/src/command-executor.ts:52-94 | In every run: a command of g whose turn comes in time starts if and only if the agent accepted some command of g and has since then not processed the end of g, accepted a command of another occupation, seen its connection close or restarted |
| GhostInput.StartsIffNotForgotten | packages/agent/src/command-executor.ts:52-94 | The same told from the last acceptance of g before the turn: it starts if and only if nothing since then made the agent forget g |
| InFlightStart.OldCommandMayStart | packages/agent/src/command-executor.ts:63-70 | A concrete run in which a command of an earlier occupation starts while the device already has a new occupant: the unconditional promise of the queue's comment is false |
| AnsweredStarts.StartedIsAnsweredIff | packages/agent/src/command-executor.ts:58-71 | Which started commands the server has already answered: those, and only those, whose occupation is over on the server or for which, since they were sent, the 15 s timer fired or the server lost the agent |
| AnsweredStarts.RevivedIff | packages/agent/src/main.ts:148-152 | After the agent saw its connection close, a command of g whose turn comes in time starts if and only if the agent accepted a command of g after that and nothing made it forget g since; queued commands from before come back with it |
| WitnessRuns.AnsweredCommandMayStart | packages/agent/src/main.ts:148-152 | A concrete run in which a command starts that the server answered as disconnected and that was queued before the agent saw the disconnect: the promise that only new commands count after a reconnect is false |
| ResultPath.OutcomeIsItsOwn | packages/agent/src/server-tunnel.ts:232-274 | In every run with the results on the way: an answer of an agent that a client gets is the outcome that this command had at the agent it was sent to; a success is the controller's answer to this command, which had started before |
| ResultPath.TakenWhenRoom | packages/agent/src/command-executor.ts:38-58 | In every run a command delivered to an agent with a ready controller for its device joins the end of the device's queue if fewer than five stand there and makes its occupation the remembered one; else it changes nothing |
| ResultPath.RefusedExactlyWhen | packages/agent/src/command-executor.ts:38-50 | and it is refused at once in exactly three cases: no controller, controller not ready, five commands in the queue |
| ResultPath.RepliedOnce | packages/agent/src/command-executor.ts:38-83 | No command is refused or settled twice, on one agent or on two, restarts included |
| ResultPath.SettlingIsRecorded | packages/agent/src/command-executor.ts:58-83 | The outcome that settles a command is the one its own promise resolves with |
| WitnessRuns.AnswerMayArrive | packages/agent/src/server-tunnel.ts:232-274 | A concrete such run in which the client gets its controller's answer |
| Requests.SentOnce | packages/server/src/agents/agents.gateway.ts:270-279 | No request id is sent twice |
| Requests.WireCommandWasSent | packages/server/src/agents/agents.gateway.ts:270-279 | Every command on a channel was sent to the channel's agent, for this device and occupation |
| Requests.DeliveredOnce | packages/agent/src/server-tunnel.ts:232-257 | No command is delivered twice, to one agent or to two |
| Requests.AcceptedOnce | packages/agent/src/command-executor.ts:47-58 | No command is in the accepted commands twice |
| Requests.StartedWasSent | packages/agent/src/command-executor.ts:58-71 | A command that starts was sent to this agent for this device and occupation, and taken into its queue since |
| Requests.PendingIsAsSent | packages/server/src/agents/agents.gateway.ts:270-279 | While it is pending a command stays registered under the agent, device and occupation it was sent for |
| DemandAgreement.LatestSnapshotCoversDemand | packages/server/src/agents/agents.gateway.ts:97-125 | Once a connected agent has registered, the latest snapshot it holds or has coming contains every viewed device it owns |
| DemandAgreement.LatestSnapshotIsDemand | packages/server/src/agents/agents.gateway.ts:291-300 | and is exactly that set when no device is registered by two agents |
| DemandAgreement.NoViewedDeviceStarves | packages/agent/src/stream-demand-gate.ts:13-34 | With no snapshot left on the channel the gate of a connected owner passes every viewed device of it, registered or not |
| DemandAgreement.GatePassesExactlyViewed | packages/agent/src/stream-demand-gate.ts:13-34 | In owned runs, with no snapshot left on the channel, the gate of a connected and registered agent passes exactly those of its devices that somebody watches |
| ServerGuarantees.OccupationsConserved | packages/server/src/devices/devices.service.ts:71-141 | In every state of every run: occupations started = occupied rows + end events published |
| ServerGuarantees.EachOccupationEndsOnce | packages/server/src/devices/sqlite-devices.repository.ts:108-239 | A generation sits on at most one device, the one it was issued for, has at most one end event, and is active exactly until that event |
| RowHistory.EndsExactlyWhen | packages/server/src/devices/sqlite-devices.repository.ts:138-239 | In every run an active occupation ends at a step exactly if its occupant releases it, or an idle sweep comes with a cutoff after its last activity, or a stale sweep with a cutoff after the last registration or heartbeat that listed its device; its end event then gives that reason |
| RowHistory.StaleSweepEndsIff | packages/server/src/devices/sqlite-devices.repository.ts:216-239 | With a clock that does not run backwards: a stale sweep ends the occupation exactly if every registration and every heartbeat of the owner's current socket that listed the device came before the cutoff |
| RowHistory.ActiveSince | packages/server/src/commands/commands.service.ts:25-49 | The activity time of an occupied device is that of the last occupying, keepalive or command of its occupant, a command the agent cannot take included; nothing else is activity |
| RowHistory.HeardAndDescribed | packages/server/src/devices/sqlite-devices.repository.ts:66-93 | A row's heartbeat time is that of the last registration or heartbeat that listed its device, its description that of the last registration |
| RowHistory.OnlineIff | packages/server/src/devices/sqlite-devices.repository.ts:194-239 | A device is online exactly if since the server last heard of it its owner was not lost and no stale sweep came with a later cutoff |
| RowHistory.HandedOutIff | packages/server/src/devices/sqlite-devices.repository.ts:108-136 | A device can be handed out for a filter exactly if it has no occupant, is online in that sense, and its last registration gave it the platform and every tag asked for |
| ServerGuarantees.RowsConsistent | packages/server/src/devices/sqlite-devices.repository.ts:66-239 | Occupant, occupation time and activity time are set or null together, and an online device has an owner |
| ServerGuarantees.BlipsEndNothing | packages/server/src/devices/sqlite-devices.repository.ts:194-214 | No stretch of registrations, heartbeats, keepalives, commands and lost agent connections changes an occupant or publishes an end |
| ServerGuarantees.ViewersAreCurrentOccupants | packages/server/src/streams/streams-relay.service.ts:94-120 | Between any two steps every registered viewer belongs to the current, not ended occupation of its device, so broadcast reaches nobody else |
| ServerGuarantees.FramesReachCurrentOccupants | packages/server/src/agents/agents.gateway.ts:171-193 | Whenever a frame arrives in a run it goes only to viewers of the current, not ended occupation of its device and only from the owner's current socket; and from there to every writable one |
| ViewerHistory.WatchesIff | packages/server/src/streams/streams-relay.service.ts:54-92 | In every run the viewers of a device are exactly those that came with its current occupation and have not left since |
| ViewerHistory.FrameArrivesIff | packages/server/src/agents/agents.gateway.ts:168-193 | A frame goes to exactly the viewers that came with the still current occupation of its device, have not left and can take it, provided it came on the current socket of the owner; otherwise to nobody |
| ServerGuarantees.DemandNoticesAlternate | packages/server/src/streams/streams-relay.service.ts:44-92 | In every run the demand notices of a device begin with on and strictly alternate |
| ServerGuarantees.PendingIsCurrent | packages/server/src/agents/agents.gateway.ts:253-280 | A pending command belongs to the current occupation of its device, its agent has a registered socket, its timer runs and its promise is unresolved |
| ServerGuarantees.AnsweredExactlyOnce | packages/server/src/agents/agents.gateway.ts:216-246 | Every command sent is pending with a running timer or resolved by exactly one answer that never changes afterwards; none is dropped |
| CommandHistory.SentExactlyWhen | packages/server/src/agents/agents.gateway.ts:253-280 | In every run a command is sent exactly if it comes from the current occupant, its device is online, the registered socket of the owner is open, and the owner knows the action by its last registration; then it is the last message on that socket and pending with a timer, else nothing comes of it |
| CommandHistory.KindsAreKept | packages/server/src/agents/agents.gateway.ts:285-297 | The actions an agent is taken to know are those of its last registration unless it was lost since, the old five without one |
| CommandHistory.AnsweredExactlyWhen | packages/server/src/agents/agents.gateway.ts:203-326 | A pending command is answered at a step exactly by its own result from its agent's registered socket, its timer, the loss of that socket or the end of its occupation, each with its outcome |
| ServerGuarantees.ResolvedForAReason | packages/server/src/agents/agents.gateway.ts:312-326 | A pending command is resolved only by its own result from its own agent's current socket, its own timeout, the loss of that socket, or the end of its own occupation |
| QueueGuarantees.QueueHoldsUnresolved | packages/agent/src/command-executor.ts:47-83 | In every run the recorded depth is the queue length, at most 5; the queue holds, in order of acceptance, exactly the device's unresolved commands behind at most one resolved one |
| QueueGuarantees.StartsFollowAcceptance | packages/agent/src/command-executor.ts:58-71 | Commands of a device start in order of acceptance, each at most once and only after the previous one was resolved |
| QueueGuarantees.StartsAreTimely | packages/agent/src/command-executor.ts:58-62 | No action starts more than 15 s after its command was accepted |
| QueueGuarantees.OneActionAtATime | packages/agent/src/command-executor.ts:58-71 | In every state of every run at most one action of a device is with its controller: started and unresolved commands of the device coincide and are the running head of its queue |
| DevicesRepository.SqliteDevicesRepository.UpsertAll | packages/server/src/devices/sqlite-devices.repository.ts:66-93 | Registering equals the row-by-row upsert of the list |
| DevicesRepository.SqliteDevicesRepository.TryOccupy | packages/server/src/devices/sqlite-devices.repository.ts:108-136 | Occupies the first matching online free row and nothing else; returns nothing exactly when no row matches |
| DevicesRepository.SqliteDevicesRepository.Release | packages/server/src/devices/sqlite-devices.repository.ts:138-153 | The four outcomes in the order of the checks; only `released` clears the occupation |
| DevicesRepository.SqliteDevicesRepository.ExpireIdleOccupations | packages/server/src/devices/sqlite-devices.repository.ts:171-192 | Exactly the idle or unknown occupations are cleared, and each is returned once |
| DevicesRepository.SqliteDevicesRepository.RecordHeartbeat | packages/server/src/devices/sqlite-devices.repository.ts:194-202 | Only listed devices of the sender are refreshed and go online |
| DevicesRepository.SqliteDevicesRepository.MarkStaleOffline | packages/server/src/devices/sqlite-devices.repository.ts:216-239 | Exactly the stale online or occupied rows go offline and free; their occupations are returned once each |
| DevicesRepository.RenewalProtects | packages/server/src/devices/sqlite-devices.repository.ts:155-169 | A renewal ends and moves nothing: every occupant stays, the row is idle from then on exactly for cutoffs after the renewal, and no other row's idleness or staleness changes |
| DevicesRepository.LostAgentKeepsOccupations | packages/server/src/devices/sqlite-devices.repository.ts:204-214 | An agent going offline leaves every row and every occupation with its times; its devices lose their owner and cannot be handed out, other agents' rows are untouched |
| DevicesRepository.HearingProtects | packages/server/src/devices/sqlite-devices.repository.ts:216-224 | A registration or an owner's heartbeat protects the devices it lists from every stale sweep up to its time and from no later one; others stay as stale as they were |
| DevicesRepository.UpsertManyAt | packages/server/src/devices/sqlite-devices.repository.ts:66-93 | Registration adds exactly the listed devices, makes the sender their owner and keeps every occupation |
| StreamsRelay.StreamsRelayService.Add | packages/server/src/streams/streams-relay.service.ts:54-63 | Adds a viewer under its generation; notifies exactly at 0 to 1 |
| StreamsRelay.StreamsRelayService.Remove | packages/server/src/streams/streams-relay.service.ts:65-73 | Removes one socket; notifies exactly at 1 to 0 |
| StreamsRelay.StreamsRelayService.Close | packages/server/src/streams/streams-relay.service.ts:79-92 | Drops all and only the viewers of the ended generation, closes those still open, notifies at 1 to 0 |
| StreamsRelay.StreamsRelayService.Broadcast | packages/server/src/streams/streams-relay.service.ts:95-120 | A frame goes to exactly the writable viewers of its device |
| StreamsRelay.OperationsKeepInv | packages/server/src/streams/streams-relay.service.ts:54-92 | No operation leaves an empty inner map or breaks the alternation of notices |
| StreamsRelay.NoticesAlternate | packages/server/src/streams/streams-relay.service.ts:44-73 | Successive notices of a device say opposite things |
| StreamsRelay.FirstNoticeIsOn | packages/server/src/streams/streams-relay.service.ts:54-63 | The first notice of a device says on |
| AgentsGateway.Gateway.HandleConnection | packages/server/src/agents/agents.gateway.ts:155-166 | A newer connection of an agent supersedes and closes the older one |
| AgentsGateway.Gateway.HandleDisconnect | packages/server/src/agents/agents.gateway.ts:203-213 | Only the current socket's close forgets the agent and fails its commands; a superseded one changes nothing |
| AgentsGateway.Gateway.FailPendingCommands | packages/server/src/agents/agents.gateway.ts:216-223 | Exactly the agent's pending commands are resolved as disconnected |
| AgentsGateway.Gateway.FailPendingByOccupation | packages/server/src/agents/agents.gateway.ts:238-246 | Exactly the pending commands of that device and generation are resolved as ended |
| AgentsGateway.Gateway.RevokeOccupation | packages/server/src/agents/agents.gateway.ts:229-235 | Fails the generation's commands and notifies the owner if its socket is open |
| AgentsGateway.Gateway.Dispatch | packages/server/src/agents/agents.gateway.ts:253-280 | Refuses unconnected agents and unsupported actions; else the command is pending with a timer and last on the wire |
| AgentsGateway.Gateway.HandleResult | packages/server/src/agents/agents.gateway.ts:313-326 | A result counts only for a pending command of the same agent |
| AgentsGateway.TimeoutAnswersItsOwn | packages/server/src/agents/agents.gateway.ts:272-275 | A timer that fires belongs to a command still waiting, gives it its one answer, and leaves every other command as it is |
| AgentsGateway.DisconnectKeepsInv | packages/server/src/agents/agents.gateway.ts:203-223 | Losing a socket resolves every pending command of the agent, so none outlives its registered socket |
| AgentsGateway.SendCommandKeepsInv | packages/server/src/agents/agents.gateway.ts:253-280 | Sending keeps pending entries, timers and unresolved promises in step |
| Server.NebulaServer.SendStreamDemandFor | packages/server/src/agents/agents.gateway.ts:114-125 | Sends the full set of the agent's viewed devices, or nothing without an open socket |
| Server.NebulaServer.Publish | packages/server/src/devices/occupancy-events.service.ts:37-48 | One end event: viewers dropped, demand notified, commands failed, owner told |
| Server.NebulaServer.OccupyAny | packages/server/src/devices/devices.service.ts:71-76 | A successful occupation takes the next fresh generation |
| Server.NebulaServer.Release | packages/server/src/devices/devices.service.ts:79-84 | A release ends and publishes exactly the given occupation, or refuses |
| Server.NebulaServer.RenewOccupation | packages/server/src/devices/devices.service.ts:87-95 | Keepalive outcome and effect |
| Server.NebulaServer.ExpireIdleOccupations | packages/server/src/devices/devices.service.ts:98-105 | All idle occupations end, each published once |
| Server.NebulaServer.ExpireStaleDevices | packages/server/src/devices/devices.service.ts:129-141 | All stale occupations end, each published once |
| Server.NebulaServer.Execute | packages/server/src/commands/commands.service.ts:25-49 | Check, renew and send in one step, with every refusal |
| Server.NebulaServer.HandleViewer | packages/server/src/streams/streams.gateway.ts:61-73 | Exactly the current occupant is admitted as a viewer |
| Server.NebulaServer.HandleViewerGone | packages/server/src/streams/streams.gateway.ts:75-78 | A viewer that leaves is removed, with a snapshot at 1 to 0 |
| Server.NebulaServer.HandleAgentGone | packages/server/src/agents/agents.gateway.ts:203-213 | The current socket's close also puts the agent's devices offline |
| Server.NebulaServer.HandleRegister | packages/server/src/agents/agents.gateway.ts:291-301 | Registration on the current socket, followed by a snapshot |
| Server.NebulaServer.HandleFrame | packages/server/src/agents/agents.gateway.ts:168-193 | A frame is relayed only from the agent's current socket and only for a device of that agent, to its writable viewers |
| ServerInvariant.PublishKeepsInv | packages/server/src/occupancy/command-revocation.listener.ts:42-54 | After an end is published no viewer and no pending command refers to it; the rest of the server invariant is kept |
| ServerInvariant.PublishKeepsAuthorityInv | packages/server/src/occupancy/stream-revocation.listener.ts:48-56 | The stream listener leaves only viewers of live occupations |
| ServerInvariant.ReleaseKeepsInv | packages/server/src/devices/devices.service.ts:79-84 | Release keeps the server invariant |
| ServerInvariant.SweepsKeepInv | packages/server/src/devices/devices.service.ts:98-141 | Both sweeps keep it although several occupations end in one callback |
| ServerInvariant.ExecuteKeepsInv | packages/server/src/commands/commands.service.ts:25-49 | Sending a command keeps it |
| ServerInvariant.ConnectViewerKeepsInv | packages/server/src/streams/streams.gateway.ts:61-73 | Viewer admission keeps it |
| ServerInvariant.RegisterKeepsInv | packages/server/src/agents/agents.gateway.ts:291-301 | Registration keeps it |
| FarmInvariant.StepKeepsInv | packages/agent/src/server-tunnel.ts:148-157 | Every step of every process keeps the invariant of the whole farm |
| FarmInvariant.RunInv | packages/agent/src/main.ts:138-153 | That invariant holds in every state of every run: server, channels in order, agents |
| FarmInvariant.ExecuteKeepsWires | packages/server/src/agents/agents.gateway.ts:270-279 | A command is never behind its own end notice nor behind a newer generation on its channel |
| GhostInput.ProcessingEndRetires | packages/agent/src/command-executor.ts:86-89 | Processing an end notice leaves nothing of that occupation queued to start or on the way |
| GhostInput.AcceptingAnotherRetires | packages/agent/src/command-executor.ts:52-53 | Accepting another occupation's command does the same for the earlier one |
| GhostInput.LearningRetires | packages/agent/src/command-executor.ts:91-94 | and so does a disconnect followed by a new connection |
| CommandExecutor.Executor.Execute | packages/agent/src/command-executor.ts:38-83 | Unregistered, not ready, queue full or accepted at the end of the device's queue |
| CommandExecutor.Executor.Turn | packages/agent/src/command-executor.ts:59-71 | At its turn a command is dropped as too late, dropped as ended, or handed to the controller |
| CommandExecutor.Executor.ControllerAnswers | packages/agent/src/command-executor.ts:70-82 | The controller's answer resolves the command |
| CommandExecutor.Executor.Finally | packages/agent/src/command-executor.ts:77-80 | The clean-up of a link takes it off the queue and the depth |
| CommandExecutor.Executor.RevokeOccupation | packages/agent/src/command-executor.ts:86-89 | Forgets the generation only if it is the remembered one |
| CommandExecutor.Executor.RevokeAllOccupations | packages/agent/src/command-executor.ts:92-94 | Forgets all generations |
| CommandExecutor.TakeTurnKeepsInv | packages/agent/src/command-executor.ts:59-71 | A turn keeps order, depth and exactly-one-outcome |
| CommandExecutor.AcceptKeepsInv | packages/agent/src/command-executor.ts:47-58 | Acceptance keeps them |
| StreamDemandGate.Gate.ShouldSend | packages/agent/src/stream-demand-gate.ts:30-33 | Open until the first snapshot, then exactly the demanded devices |
| StreamDemandGate.LastSnapshotDecides | packages/agent/src/stream-demand-gate.ts:17-33 | After any sequence of snapshots and disconnects a device's frames pass exactly if no snapshot came on the present connection or the last one lists the device |
| PortPool.AllocateKeepsInv | packages/agent/src/controller-supervisor.ts:154-160 | A handed-out port was neither held, cooling nor free in any other place, and the partition of the range is kept |
| PortPool.CoolKeepsInv | packages/agent/src/controller-supervisor.ts:313-326 | Stopping moves the port from held to cooling |
| PortPool.RecycleKeepsInv | packages/agent/src/controller-supervisor.ts:321-324 | The cooldown moves it to the free ports |
| ControllerSupervisor.RunKeepsInv | packages/agent/src/controller-supervisor.ts:188-349 | In every state of every run: held, cooling and free ports partition the range, every session has exactly one of health and restart timer, its processes are in their slots exactly with the health timer, ready implies both, and every spawned process has exited, is terminating or is in a slot |
| ControllerSupervisor.ReadyMeansHealthy | packages/agent/src/controller-supervisor.ts:249-265 | A ready session has had a healthy answer since its present processes were launched; late answers of earlier launches never make it ready |
| ControllerHealth.ReadyIff | packages/agent/src/controller-supervisor.ts:249-265 | In every run a polled session is ready if and only if a healthy answer of its present generation came since its last launch |
| ControllerHealth.RestartsExactlyWhen | packages/agent/src/controller-supervisor.ts:249-311 | A polled session restarts at an event exactly if one of its processes is gone, or it is ready and this is the third failing answer since the last healthy one, or it was never healthy and this failing answer comes ten minutes after the launch or later |
| ControllerHealth.LaunchStep | packages/agent/src/controller-supervisor.ts:188-224 | A launch is a new generation, not ready, with no failures counted and its time noted; both processes and the health timer, or a restart timer if a spawn throws |
| ControllerSupervisor.StepKeepsInv | packages/agent/src/controller-supervisor.ts:188-349 | Every event keeps that invariant, late answers and exits included |
| ControllerSupervisor.Supervisor.SyncDevices | packages/agent/src/controller-supervisor.ts:112-120 | Afterwards exactly the discovered devices have sessions; those that stay are untouched |
| ControllerSupervisor.Supervisor.AllocatePort | packages/agent/src/controller-supervisor.ts:154-160 | Recycled ports first, then the next new one |
| ControllerSupervisor.Supervisor.Start | packages/agent/src/controller-supervisor.ts:162-186 | Start of a session, with either spawn failing |
| ControllerSupervisor.Supervisor.LaunchProcesses | packages/agent/src/controller-supervisor.ts:188-224 | Both processes and the health timer, or a scheduled restart |
| ControllerSupervisor.Supervisor.TeardownProcesses | packages/agent/src/controller-supervisor.ts:329-349 | Both processes go to the terminating ones |
| ControllerSupervisor.Supervisor.Restart | packages/agent/src/controller-supervisor.ts:298-311 | At most one restart is scheduled |
| ControllerSupervisor.Supervisor.Stop | packages/agent/src/controller-supervisor.ts:313-326 | The session goes, its port cools |
| ControllerSupervisor.Supervisor.OnChildGone | packages/agent/src/controller-supervisor.ts:287-296 | Stale exits change nothing but the exit flag |
| ControllerSupervisor.Supervisor.OnHealthAnswer | packages/agent/src/controller-supervisor.ts:249-285 | Late, healthy and failing answers |
| ControllerSupervisor.Supervisor.OnRestartTimer | packages/agent/src/controller-supervisor.ts:306-310 | The restart launches again |
| AndroidSupervisor.RunKeepsInv | packages/agent/src/android-supervisor.ts:166-364 | In every state of every run: ports are conserved, every session has exactly one of launch in flight, health timer and restart timer, ready implies a runner in its slot, and every spawned runner has exited, is terminating or is in its slot |
| AndroidSupervisor.ReadyMeansHealthy | packages/agent/src/android-supervisor.ts:279-289 | The same for the asynchronous launch |
| AndroidHealth.ReadyIff | packages/agent/src/android-supervisor.ts:279-289 | In every run a session that does not wait for a restart is ready if and only if a healthy answer for its present generation came since its last launch |
| AndroidHealth.RestartsExactlyWhen | packages/agent/src/android-supervisor.ts:166-319 | Such a session restarts at an event exactly if its launch fails, its runner is gone, it is ready and this failing answer reaches the threshold since the last healthy one, or it was never healthy and this failing answer comes after the deadline; it is polled from the end of its launch on |
| AndroidSupervisor.StepKeepsInv | packages/agent/src/android-supervisor.ts:166-364 | Every event keeps that invariant |
| AndroidSupervisor.EndLaunchKeepsInv | packages/agent/src/android-supervisor.ts:166-185 | A launch that ends after its session is gone spawns nothing; a failed one schedules a restart |
| AndroidSupervisor.Supervisor.SyncDevices | packages/agent/src/android-supervisor.ts:96-104 | Afterwards exactly the discovered devices have sessions; those that stay are untouched |
| AndroidSupervisor.Supervisor.AllocatePort | packages/agent/src/android-supervisor.ts:158-164 | Recycled ports first, then the next new one |
| AndroidSupervisor.Supervisor.Start | packages/agent/src/android-supervisor.ts:138-156 | Start of a session |
| AndroidSupervisor.Supervisor.FinishLaunch | packages/agent/src/android-supervisor.ts:169-184 | The end of the asynchronous launch: stale, failed, or runner spawned with health polling |
| AndroidSupervisor.Supervisor.OnChildGone | packages/agent/src/android-supervisor.ts:242-252 | Stale exits change nothing but the exit flag |
| AndroidSupervisor.Supervisor.OnHealthAnswer | packages/agent/src/android-supervisor.ts:279-303 | Late, healthy, too-slow and failing answers |
| AndroidSupervisor.Supervisor.Restart | packages/agent/src/android-supervisor.ts:305-319 | At most one restart is scheduled and the generation is over |
| AndroidSupervisor.Supervisor.OnRestartTimer | packages/agent/src/android-supervisor.ts:315-318 | The restart launches again |
| AndroidSupervisor.Supervisor.Stop | packages/agent/src/android-supervisor.ts:321-342 | The session goes, its port cools |
| AndroidSupervisor.Supervisor.TeardownProcesses | packages/agent/src/android-supervisor.ts:344-360 | An unexited runner goes to the terminating ones |
| AndroidSupervisor.Supervisor.FilterTerminating | packages/agent/src/android-supervisor.ts:120-126 | Waiting forgets exactly the exited ones |
| AndroidStream.RunKeepsInv | packages/agent/src/android-stream.ts:108-289 | In every state of every run: active means exactly one of session and restart timer; a session always has a launch step, the preamble deadline with an open socket or a connect retry, or an open socket ahead of it; every daemon has exited, is terminating or belongs to the session |
| AndroidStream.SentIsReceived | packages/agent/src/android-stream.ts:213-240 | Each session forwards, in order, exactly the packets its daemon's bytes say, up to the corruption if there is one |
| StreamHistory.RestartsExactlyWhen | packages/agent/src/android-stream.ts:135-289 | In every run an event restarts a live session exactly if its launch fails, its daemon is gone, what it has sent is corrupt, its socket closes after the preamble, or the preamble is overdue; attempts are counted anew when the preamble has come |
| StreamHistory.NextWait | packages/agent/src/android-stream.ts:135-249 | After the push comes the forward, after that the socket and the wait for the preamble; until that has come a closed socket is connected again and nothing restarts |
| StreamHistory.Begins | packages/agent/src/android-stream.ts:108-141 | A session begins at the start of an idle stream and whenever the restart timer fires, with a new parser |
| AndroidStream.StepKeepsInv | packages/agent/src/android-stream.ts:135-289 | Every event keeps the invariant, events of dead sessions included |
| AndroidStream.Stream.Begin | packages/agent/src/android-stream.ts:108-112 | Start is idempotent |
| AndroidStream.Stream.End | packages/agent/src/android-stream.ts:114-122 | Stop clears timers and session |
| AndroidStream.Stream.OnPushed | packages/agent/src/android-stream.ts:143-151 | Push over: stale, failed or daemon spawned |
| AndroidStream.Stream.OnForwarded | packages/agent/src/android-stream.ts:152-163 | Forward over: stale, failed or deadline and socket |
| AndroidStream.Stream.OnChildGone | packages/agent/src/android-stream.ts:174-185 | A daemon that goes restarts its own session only |
| AndroidStream.Stream.OnData | packages/agent/src/android-stream.ts:194-240 | Parses a chunk, restarts on corruption, returns the frames sent |
| AndroidStream.Stream.OnClose | packages/agent/src/android-stream.ts:199-210 | Retry before the preamble, restart after it |
| AndroidStream.Stream.OnPreambleTimer | packages/agent/src/android-stream.ts:244-249 | The deadline restarts a session without preamble |
| AndroidStream.Stream.OnConnectTimer | packages/agent/src/android-stream.ts:202-206 | The retry connects the same session |
| AndroidStream.Stream.OnRestartTimer | packages/agent/src/android-stream.ts:266-270 | The restart launches a new session |
| AndroidStream.Stream.Restart | packages/agent/src/android-stream.ts:253-271 | At most one restart is scheduled |
| AndroidStream.Stream.Teardown | packages/agent/src/android-stream.ts:273-289 | An unexited daemon goes to the terminating ones |
| ControllerSupervisor.Supervisor.FilterTerminating | packages/agent/src/controller-supervisor.ts:143-147 | Waiting forgets exactly the exited ones |
| AndroidStream.Stream.FilterTerminating | packages/agent/src/android-stream.ts:127-131 | Waiting forgets exactly the exited ones |
| Processes.UnexitedIs | packages/agent/src/controller-supervisor.ts:143-147 | The filter keeps exactly the processes that have not exited |
| PacketFraming.ChunksDoNotMatter | packages/agent/src/h264-stream.ts:32-47 | However bytes are cut: poison depends on the bytes alone, an uncorrupted stream returns exactly its packets, a corrupt one a prefix of those before the corruption |
| PacketFraming.NothingIsLostIff | packages/agent/src/h264-stream.ts:35-42 | All whole packets are returned under every cut exactly when the stream is not corrupt or nothing precedes the corruption: a push that meets corruption discards the packets it had collected |
| PacketFraming.LossHappens | packages/agent/src/h264-stream.ts:35-42 | A helper packet followed in the same push by a zero length: the packet is lost |
| PacketFraming.BufferIsBounded | packages/agent/src/h264-stream.ts:27-47 | The bytes kept stay below a header plus 8 MiB |
| PacketFraming.ScanWire | packages/agent/src/mirror-packet-parser.ts:70-91 | Framed packets come back up to the first with a corrupt header |
| MirrorPacketParser.EncodedStreamsComeBack | android-controller/mirror/src/main/kotlin/com/nebula/mirror/MirrorProtocol.kt:22-47 | For every list of packets the encoder accepts and every cut: poison exactly if a payload exceeds 8 MiB, else exactly the packets sent, stamps modulo 2^32, preamble dimensions, no byte left |
| MirrorPacketParser.ChunksFollow | packages/agent/src/mirror-packet-parser.ts:44-97 | On any stream preamble, poison, buffer depend on the bytes alone; what was emitted is a prefix of the whole-stream reading, all of it if not corrupt |
| MirrorPacketParser.NothingIsLostIff | packages/agent/src/mirror-packet-parser.ts:70-97 | With the preamble too: all whole packets are returned under every cut exactly when the stream is not corrupt or nothing precedes the corruption |
| MirrorPacketParser.BufferStaysSmall | packages/agent/src/mirror-packet-parser.ts:70-91 | The residual buffer stays below 14 bytes + 8 MiB |
| MirrorPacketParser.PreambleAcceptedIff | packages/agent/src/mirror-packet-parser.ts:57-68 | A preamble is accepted as some dimensions exactly if it is what the device writes for them, whatever the reserved bytes, and sixteen bytes are there |
| MirrorPacketParser.HeaderRoundTrip | android-controller/mirror/src/main/kotlin/com/nebula/mirror/MirrorProtocol.kt:35-47 | A packet header decodes to what was encoded and is corrupt exactly over 8 MiB |
| MirrorPacketParser.Parser.PushBytes | packages/agent/src/mirror-packet-parser.ts:44-55 | A push does what the specification function says |
| MirrorPacketParser.Parser.ConsumePreamble | packages/agent/src/mirror-packet-parser.ts:57-68 | Need more, bad, or the dimensions |
| MirrorPacketParser.Parser.ConsumePackets | packages/agent/src/mirror-packet-parser.ts:70-91 | The consuming loop takes exactly the whole packets |
| MirrorProtocol.Preamble | android-controller/mirror/src/main/kotlin/com/nebula/mirror/MirrorProtocol.kt:22-33 | The sixteen bytes, or the exception for dimensions out of range |
| MirrorProtocol.PacketHeader | android-controller/mirror/src/main/kotlin/com/nebula/mirror/MirrorProtocol.kt:35-47 | The fourteen bytes, or the exception |
| HelperPacketParser.Parser.PushBytes | packages/agent/src/h264-stream.ts:33-47 | A push does what the specification function says |
| DeviceStreamer.AppendAnnexB | mirror-helper/Sources/DeviceStreamer.swift:325-347 | The loop appends start code + unit for exactly the complete units, reading inside the buffer only |
| DeviceStreamer.UnitsAreAll | mirror-helper/Sources/DeviceStreamer.swift:336-346 | Any buffer is the length-prefixed encoding of its complete units followed by a rest without one |
| DeviceStreamer.UnitsOfAvcc | mirror-helper/Sources/DeviceStreamer.swift:336-346 | and of no other units |
| DeviceStreamer.AvccBecomesAnnexB | mirror-helper/Sources/DeviceStreamer.swift:325-347 | A list of NAL units in AVCC form becomes its Annex-B form |
| DeviceStreamer.ConversionDoesNotGrow | mirror-helper/Sources/DeviceStreamer.swift:325-347 | The conversion never yields more bytes than it is given |
| DeviceStreamer.EmitFrame | mirror-helper/Sources/DeviceStreamer.swift:269-293 | Length, key flag, payload; nothing for an empty payload, a stop at 4 GiB |
| DeviceStreamer.AppendParameterSets | mirror-helper/Sources/DeviceStreamer.swift:306-322 | The readable parameter sets behind start codes |
| DeviceStreamer.HelperOutputComesBack | mirror-helper/Sources/DeviceStreamer.swift:269-293 | From samples through framing and any cut the agent gets each non-empty frame unchanged, poison exactly over 8 MiB |
| FrameCodec.EncodeAgentFrame | packages/shared/src/frame-codec.ts:53-79 | Succeeds exactly for identifiers of 1 to 255 bytes, whole dimensions in range and a finite stamp, and writes the specified bytes |
| FrameCodec.EncodeViewerFrame | packages/shared/src/frame-codec.ts:108-121 | Succeeds exactly for whole dimensions in range, and writes the specified bytes |
| FrameCodec.PicturesCanBeGiven | packages/shared/src/frame-codec.ts:53-79 | Every picture of the round trips is one the encoders accept |
| FrameCodec.OrdinaryFramesArrive | packages/shared/src/frame-codec.ts:53-142 | Every frame with an allowed identifier (1 to 128 ASCII letters, digits, dots, underscores, hyphens), dimensions from 1 to 65535 and a payload passes to the server and to the viewer unchanged but for the stamp modulo 2^32; one with another identifier does not |
| FrameCodec.AgentRoundTrip | packages/shared/src/frame-codec.ts:82-106 | The server decodes an encoded frame exactly when the identifier, less a byte order mark, is allowed and the payload is not empty |
| FrameCodec.ViewerRoundTrip | packages/shared/src/frame-codec.ts:124-142 | The viewer decodes exactly frames with a payload |
| FrameCodec.RelayKeepsMeaning | packages/server/src/streams/streams-relay.service.ts:95-106 | Agent to server to viewer: key flag, dimensions, payload unchanged, stamp modulo 2^32, same device |
| FrameCodec.AcceptedIsEncoded | packages/shared/src/frame-codec.ts:82-106 | Whatever the server accepts is the encoding of what it decodes, but for a byte order mark and a key byte other than 0 and 1 |
| JsonDocuments.ObjectsAreRead | android-controller/runner/src/main/kotlin/com/nebula/controller/Json.kt:10-205 | Every object of RFC 8259 with integers of 64 bits, blanks between any tokens, any escapes and repeated keys is read as its members: each key once, where it came first, with the value it was given last |
| JsonDocuments.DocReads | android-controller/runner/src/main/kotlin/com/nebula/controller/Json.kt:113-211 | Every such document is read as what it says, wherever it stands |
| JsonDocuments.EnteredOne | android-controller/runner/src/main/kotlin/com/nebula/controller/Json.kt:126-148 | A member read again keeps its place and gets its new value, the others stay |
| JsonDocuments.WritesDocuments | android-controller/runner/src/main/kotlin/com/nebula/controller/Json.kt:20-104 | The writer writes such documents, and they say what was written, every integer as a Long |
| JsonDocuments.SignedEscapeReads | android-controller/runner/src/main/kotlin/com/nebula/controller/Json.kt:186-196 | Beyond the standard an escape may hold a sign in front of three digits, a negative one counts down from 0x10000 |
| JsonDocuments.ObjectsRoundTrip | android-controller/runner/src/main/kotlin/com/nebula/controller/Json.kt:10-104 | parseObject(serialize(m) + anything) is m with Long for Int, for all nested null, booleans, integers, strings over all code units, lists and maps |
| JsonDocuments.ReadsBack | android-controller/runner/src/main/kotlin/com/nebula/controller/Json.kt:113-124 | Every such value reads back wherever it stands |
| JsonRoundTrip.ReadsGrammarString | android-controller/runner/src/main/kotlin/com/nebula/controller/Json.kt:170-196 | Every string of section 7 of RFC 8259 is read as what it means |
| JsonText.WrittenStringsMeanThemselves | android-controller/runner/src/main/kotlin/com/nebula/controller/Json.kt:72-104 | Every written string is a string of section 7 of RFC 8259 and means the text written |
| JsonText.DecimalReadsBack | android-controller/runner/src/main/kotlin/com/nebula/controller/Json.kt:198-205 | A printed 64-bit integer is read as itself |
| JsonParser.ParseText | android-controller/runner/src/main/kotlin/com/nebula/controller/Json.kt:10-18 | Returns on every input, the empty map on every error |
| JsonParser.SerializeValue | android-controller/runner/src/main/kotlin/com/nebula/controller/Json.kt:20-24 | The writer produces the specified text |
| JsonParser.WriteValue | android-controller/runner/src/main/kotlin/com/nebula/controller/Json.kt:26-57 | One value is appended to what is there |
| JsonParser.WriteList | android-controller/runner/src/main/kotlin/com/nebula/controller/Json.kt:47-55 | Items separated by commas is appended to what is there |
| JsonParser.WriteObject | android-controller/runner/src/main/kotlin/com/nebula/controller/Json.kt:59-70 | Members separated by commas is appended to what is there |
| JsonParser.WriteString | android-controller/runner/src/main/kotlin/com/nebula/controller/Json.kt:72-76 | An escaped string is appended to what is there |
| JsonParser.Parser.Value | android-controller/runner/src/main/kotlin/com/nebula/controller/Json.kt:113-124 | Reads one value as specified, or fails |
| JsonParser.Parser.Object | android-controller/runner/src/main/kotlin/com/nebula/controller/Json.kt:126-148 | Reads an object, a repeated key keeping its place |
| JsonParser.Parser.Array | android-controller/runner/src/main/kotlin/com/nebula/controller/Json.kt:150-168 | Reads an array |
| JsonParser.Parser.String | android-controller/runner/src/main/kotlin/com/nebula/controller/Json.kt:170-184 | Reads a string |
| JsonParser.Parser.Escape | android-controller/runner/src/main/kotlin/com/nebula/controller/Json.kt:186-196 | Reads an escape, signed hexadecimal included |
| JsonParser.Parser.Number | android-controller/runner/src/main/kotlin/com/nebula/controller/Json.kt:198-205 | Reads up to a delimiter: Long, Double or failure |
| JsonParser.Parser.Literal | android-controller/runner/src/main/kotlin/com/nebula/controller/Json.kt:207-211 | Reads a literal |
| JsonParser.Parser.Skip | android-controller/runner/src/main/kotlin/com/nebula/controller/Json.kt:109-111 | Skips exactly the white space |
| HttpParser.PrefixIsStable | android-controller/runner/src/main/kotlin/com/nebula/controller/HttpParser.kt:14-42 | Once a prefix is accepted or refused every extension gives the same result |
| HttpParser.BodyIsAsAnnounced | android-controller/runner/src/main/kotlin/com/nebula/controller/HttpParser.kt:31-41 | Section 6.3 of RFC 9112, Content-Length only: the body is exactly the announced bytes behind the first empty line |
| HttpMessages.MessageIsAnswered | android-controller/runner/src/main/kotlin/com/nebula/controller/HttpParser.kt:14-42 | The answer to every message written from a request line and header lines, with anything behind: each refusal exactly in its case, else the request with the announced body as soon as that is there |
| HttpMessages.RequestIsAccepted | android-controller/runner/src/main/kotlin/com/nebula/controller/HttpParser.kt:14-42 | Every POST request of at most a MiB is accepted, whatever its path, version and other header lines, the name of the length in any case |
| HttpMessages.AnnouncedLength | android-controller/runner/src/main/kotlin/com/nebula/controller/HttpParser.kt:55-61 | The length is the one of the last content-length line, 0 without one |
| HttpMessages.AcceptedLengths | android-controller/runner/src/main/kotlin/com/nebula/controller/HttpParser.kt:55-61 | Exactly the decimal numbers from 0 to the largest 32-bit integer are accepted as lengths, with any leading zeros and a sign |
| HttpMessages.LineSays | android-controller/runner/src/main/kotlin/com/nebula/controller/HttpParser.kt:44-53 | A header line gives what stands behind its first colon to the name in front of it, in any case and between any blanks |
| HttpMessages.JoinedSplits | android-controller/runner/src/main/kotlin/com/nebula/controller/HttpParser.kt:19-21 | Splitting undoes joining |
| HttpParser.AcceptedRequestLine | android-controller/runner/src/main/kotlin/com/nebula/controller/HttpParser.kt:19-24 | An accepted request begins with POST, a path without spaces, a version and a line end |
| HttpParser.LengthReadsBack | android-controller/runner/src/main/kotlin/com/nebula/controller/HttpParser.kt:55-61 | A decimal length is read as itself up to the largest 32-bit integer and refused beyond |
| HttpParser.LastHeaderCounts | android-controller/runner/src/main/kotlin/com/nebula/controller/HttpParser.kt:44-53 | A header is there exactly if some line names it, and has the value of the last line that does |
| HttpParser.SplitJoins | android-controller/runner/src/main/kotlin/com/nebula/controller/HttpParser.kt:19-21 | Splitting into lines and parts loses nothing |
| HttpParser.PartsAreClean | android-controller/runner/src/main/kotlin/com/nebula/controller/HttpParser.kt:19-21 | and leaves no separator in a part |
| HttpParser.ParseHeaders | android-controller/runner/src/main/kotlin/com/nebula/controller/HttpParser.kt:44-53 | The header loop computes the specified map |
| HttpServer.ReadAndRoute | android-controller/runner/src/main/kotlin/com/nebula/controller/HttpServer.kt:75-91 | The reading loop with its buffer computes the specified outcome |
| HttpServer.SegmentationDoesNotMatterIff | android-controller/runner/src/main/kotlin/com/nebula/controller/HttpServer.kt:75-91 | The outcome is the same for every segmentation exactly when the stream is shorter than the buffer or nothing is decided before its last byte |
| HttpServer.SegmentationMatters | android-controller/runner/src/main/kotlin/com/nebula/controller/HttpServer.kt:75-91 | A stream of at least the buffer's size that begins with a short request is routed when a read ends before the buffer is full and too large when it does not |
| HttpServer.OutcomeIsExpected | android-controller/runner/src/main/kotlin/com/nebula/controller/HttpServer.kt:75-91 | and then it is what the whole stream says, or too large |
| RateLimiter.CleanupIsUnobservable | packages/server/src/auth/connection-rate-limiter.ts:44-49 | With a clock that does not run backwards the limiter blocks the same addresses as one that never deletes |
| RateLimiter.BlockedExactlyWhen | packages/server/src/auth/connection-rate-limiter.ts:21-38 | An address is blocked exactly if the last sixty-second window of its counted failures is not over and holds at least ten |
| RateLimiter.FailuresAreLimited | packages/server/src/auth/connection-rate-limiter.ts:21-38 | At most nineteen counted failures of one address in any half-open sixty seconds |
| RateLimiter.WindowIsLimited | packages/server/src/auth/connection-rate-limiter.ts:29-38 | At most ten in a window, and the entry counts them |
| RateLimiter.ConnectionRateLimiter.IsBlocked | packages/server/src/auth/connection-rate-limiter.ts:21-26 | Blocked exactly with ten failures in a window not over |
| RateLimiter.ConnectionRateLimiter.RecordFailure | packages/server/src/auth/connection-rate-limiter.ts:29-38 | Cleans up, then counts or opens a window |
| RateLimiter.ConnectionRateLimiter.CleanupIfNeeded | packages/server/src/auth/connection-rate-limiter.ts:44-49 | From a thousand entries on, exactly the expired ones are deleted |
| UiNodeMapper.Mapper.MapTree | android-controller/runner/src/main/kotlin/com/nebula/controller/UiNodeMapper.kt:16-53 | The nodes kept are exactly the first maxNodes in preorder among those at depth at most maxDepth, under their own parents and with their own indices |
| UiNodeMapper.Mapper.Map | android-controller/runner/src/main/kotlin/com/nebula/controller/UiNodeMapper.kt:16-53 | The same below any node, continuing a count |
| UiNodeMapper.InPreorder | android-controller/runner/src/main/kotlin/com/nebula/controller/UiNodeMapper.kt:16-53 | The nodes meant are exactly those at the end of a path of child indices of allowed length, with every text, flag and bound the system gives, a missing text as an empty one |
| UiNodeMapper.PreorderIsOrdered | android-controller/runner/src/main/kotlin/com/nebula/controller/UiNodeMapper.kt:16-53 | in preorder and none of them twice |
| UiNodeMapper.InKept | android-controller/runner/src/main/kotlin/com/nebula/controller/UiNodeMapper.kt:37-53 | and the nodes of a result are exactly those reached by the indices its nodes carry |
| UiNodeMapper.BudgetTakesFirst | android-controller/runner/src/main/kotlin/com/nebula/controller/UiNodeMapper.kt:18-30 | The budget leaves the first nodes |
| UiNodeMapper.AffordInTurn | android-controller/runner/src/main/kotlin/com/nebula/controller/UiNodeMapper.kt:18-30 | A budget spent on two groups in a row is the budget spent on both together |

## Left out

- Web interface, command line, client libraries, generated schemas, controllers and modules of the web framework: presentation
  and thin wrappers.
- Device control, encoders, virtual displays and the accessibility service itself: calls that cannot be seen from here.
- SQLite, WebSocket, adb and process spawning: a map, in-order channels and nondeterministic events stand for them.
- Token comparison, agent identifiers and environment parsing: admission of an agent begins after them.
- Times are integers, not ISO strings; cutoffs of the sweeps are arbitrary rather than a time to live before the clock.
- An agent's `open` and the server's admission of the connection are one step of `Farm`; nothing either side does in between
  concerns the other.
- The two end-of-occupation listeners run in the order of the module's providers, the stream listener first.
- Restart delays, kill escalation, backpressure thresholds, reconnect backoff, keepalives, metrics, logs and close texts: facts
  about a single branch. Timers fire at any time once armed.
- AndroidSupervisor.Supervisor.FinishLaunch: does not say that the forward made by a launch that ends stale is removed again.
- AndroidSupervisor.Supervisor.Stop: does not say that the package is stopped and the forward removed on the device.
- AndroidStream.Stream.End: does not say that the port forward is removed on the device.
- The reinstall decision of the Android supervisor: it changes nothing the session record keeps.
- ResultPath.OutcomeIsItsOwn: the error texts an agent answers with are shortened to English ones, so it does not tell two failures
  with the same text apart; registrations, heartbeats and frames are not put on the results' channel and stay arbitrary.
- JSON doubles: the writer's text for a double and the texts accepted as one are parameters, as are digits outside ASCII;
  the theorems about documents are about integers of 64 bits in decimal. Exhausting the stack on deep nesting is not modelled.
- Identifiers of frames are given as their UTF-8 bytes.
- The HTTP body is kept as bytes; its decoding as UTF-8 and the routing behind the parser are not part of this model.
- The children of a container changing while it is walked: a tree is a value in `UiNodeMapper`.
- Allocation failure and the memory limit of the runtime.

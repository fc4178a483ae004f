# UWB command interface simulator: the device engine

This project models the simulator's device engine and the wire layers around it, and
proves properties of all its runs.

The engine is a step machine. A host submits a packet, lets time pass, or takes an
outbound packet. Its state is a device (eight session slots with their parameter tables
and logical links, a queue of eight scheduled events, a queue of eight pending
notifications, a small table of device parameters) and sixteen outbound packets.

The model has two layers.

* The value layer (`Session`, `Device`, `Handlers`, `Engine`, `Validation`) gives every
  operation as a function on datatypes. A handler decides on one *move*, a response and
  notifications; `Apply` carries the move out. All theorems about runs are proved here,
  move by move and event by event.
* The memory layer (`SimSession`, `SimDevice`, `SimHandlers`, `SimEngine`, and the classes
  in `ConfigTable`, `EventQueue`, `PacketQueue`, `LogicalLinks`, `Chardev`, `TcpServer`)
  has the source's form: fixed arrays compacted in place, parameter lists walked by
  offset, queues drained in loops. Each method is proved to compute its function of the
  value layer, up to `SimEngine.Perform`, which says that each step of the imperative
  engine is the step of the model.

What a host sees of each request is in `Answers`, `ControlAnswers`, `DataAnswers`,
`ParameterAnswers` and `CoreAnswers`: response, notification and the state afterwards, in
numbers over the bytes of the request. `Acceptance` says which values SET takes, and
`Reports` when a measurement is reported and every byte of the report.

The run theorems are in `Configuration`, `StartGate`, `Ownership`, `Carriage`, `Timing`,
`Streams`, `Proximity`, `Transfers`, `Delivery` and `Liveness`; `Moves` holds the invariants
they share.

Two laws one might expect are false of the code. `Gaps` shows it on any device and
`Witnesses` on packets sent to a new engine; the exact conditions are proved for all inputs.

* Every queued event belongs to a session that still has that work, once. A DEINIT does not
  cancel the session's events, so a session created again inherits them. The law survives a
  DEINIT if and only if the session has no events queued (`Ownership.DropOwnedIff`), as is
  the case for every session that is not ACTIVE (`IdleDropSafe`, `PoliteRunSound`).
* Every transfer in progress has an event that carries it on. The stop at a measurement
  budget cancels the event without ending the transfer, before a measurement or after the
  one that reaches the budget; and a repetition that finds the pending queue full is not
  re-armed. The law holds if and only if neither happens (`Carriage.RunCarriedIff`); for a
  host that takes every packet after each step, if and only if no step takes the last
  measurement of a budget in the middle of a transfer (`HostCarriedIff`).

The theorems about runs that mention transitions hold for every profile in which START leads
from another state to ACTIVE, STOP leads out of ACTIVE, and no other command does
(`Profiles.ProperTransitions`). The default profile is one (`DefaultTransitionsProper`). A
profile that allowed START in ACTIVE would queue a second range event at each START
(`Gaps.StartAddsEvent`).

A comment at src/transport/chardev/uci_sim_chardev.c:81-84 gives DATA packets message type 3;
include/uci_sim_spec.h:16 and the code make it 0, and the model follows the code. The same
transport refuses DATA packets longer than 255 bytes, which the codec itself accepts up to
1024; both are modelled as they are.

## Model

| member | source | states |
|---|---|---|
| ControlAnswers.ReachableStartAnswer | src/core/uci_sim_validation.c:1459-1825 | in every reachable state of the default profile, a START that names a session is answered in full: status 1 unless INIT or IDLE; status 4 and nothing moves unless the stored bytes pass the gate below; else OK, a status notification of ACTIVE, a burst of three, and the first event one interval away |
| Configuration.ReachableStartIff | src/core/uci_sim_validation.c:1459-1825 | in every reachable state of the default profile START moves an INIT or IDLE session if and only if, in numbers over the stored bytes: role 0 has type 0 and role 1 type 1, the destination list holds as many addresses as controlees, unicast has one, static STS has an 8-byte IV, modes 3 and 4 keys of 16 or 32 bytes, no rotation with static STS, preamble 9 to 12 and SFD 0 or 2 under PRF mode 0, else 25 to 32 and 1 to 4 |
| Configuration.ReachableConstraints | src/core/uci_sim_validation.c:740-966 | in every reachable state of any profile with immediate rejections and defaults that satisfy them: slot index below slots per round, non-zero stride only when time-scheduled with time struct 1, ordered cap that is non-zero only when contention-based and below slots per round, and never both stride and cap |
| Configuration.RunTablesSound | src/core/uci_sim_validation.c:740-966 | the cross checks are inductive over every run; so are all per-value bounds when the defaults meet them, and the supported ids when the defaults are supported |
| StartGate.CrossChecksMean | src/core/uci_sim_validation.c:740-966 | the three cross checks accept a table if and only if those constraints hold of it |
| StartGate.SetKeepsCrossChecks | src/core/uci_sim_validation.c:1049-1457 | an accepted SET of any parameter keeps the cross checks, whichever parameter is changed and whatever else is stored |
| StartGate.SetKeepsSound | src/core/uci_sim_validation.c:1049-1457 | an accepted SET keeps every checked parameter present and in bounds as well |
| StartGate.StartAcceptedIffGate | src/core/uci_sim_validation.c:1459-1825 | on any sound table of any profile, the whole START validation accepts if and only if those conditions hold with the profile's limits and masks, written out over the stored bytes |
| StartGate.DefaultStartAcceptedIff | src/core/uci_sim_validation.c:1459-1825 | on any sound table of the default profile START is accepted if and only if the conditions hold in numbers |
| StartGate.ContextChecksMean | src/core/uci_sim_validation.c:740-966 | each of the three cross checks accepts a table if and only if its own constraint holds |
| Acceptance.AcceptedIff | src/core/uci_sim_validation.c:1049-1457 | for any profile, table and checked id: SET accepts a value if and only if it is in the profile's bounds and fits the rest of the table as written out: address length by mode, preamble and SFD by PRF mode, slots, stride and cap over the table with the new value |
| Acceptance.DefaultAcceptedIff | src/core/uci_sim_validation.c:1049-1457 | for the default profile the same in numbers for every id: channel 5 or 9, interval at least 50, and so on |
| Acceptance.DefaultRefusalIs | src/handlers/uci_sim_handlers.c:917-1002 | over any table, which parameter SET refuses in the default profile and with which status: 4 for an unsupported id or a bad value, 5 for a short interval, 1 when it cannot be stored; everything else is stored |
| Acceptance.RefusedFault | src/core/uci_sim_validation.c:1049-1457 | for any profile, which of its faults a refused value reports, by id, by length and by the constraint it breaks |
| Acceptance.StoredIff | src/handlers/uci_sim_handlers.c:917-968 | for any profile a parameter is stored if and only if it is supported, accepted or refused only later, and fits the table |
| StartGate.AcceptedInBounds | src/core/uci_sim_validation.c:1049-1457 | a value SET accepts is within the bounds START checks again |
| StartGate.DefaultTableSound | src/spec/uci_sim_profile.c:368-543 | a table holding the profile's defaults is sound |
| Configuration.DefaultProfileSound | src/spec/uci_sim_profile.c:16-543 | the default profile's rejections are immediate, its defaults are sound, and its 80 supported ids fit the 80 slots |
| Configuration.ReceiveTablesSound | src/handlers/uci_sim_handlers.c:889-1066 | handling any packet keeps every table sound |
| Configuration.ReachableStoreFailsOnlyWhenLong | src/model/uci_sim_device.c:370-403 | in every reachable state of the default profile a store of a supported id fails if and only if the value exceeds 64 bytes |
| Configuration.SetLeavesAcceptedPrefix | src/handlers/uci_sim_handlers.c:917-1002 | SET_APP_CONFIG on a session that is not streaming leaves exactly the stores of the longest accepted prefix, each checked against the table as it then stands; the first refused parameter decides the status and changes nothing, like all later ones |
| Configuration.PassingPrefixUnique | src/handlers/uci_sim_handlers.c:917-1002 | only one prefix length qualifies as the accepted one |
| Configuration.LastWritten | src/model/uci_sim_device.c:370-426 | after a list of stores each parameter reads as last written, or as before |
| Configuration.DecodeEncode | src/handlers/uci_sim_handlers.c:1004-1066 | decoding an encoded parameter list gives the list back |
| Configuration.GetReadsTable | src/handlers/uci_sim_handlers.c:1040-1066 | a GET that succeeds decodes to the stored values in request order |
| Configuration.SetThenGet | src/handlers/uci_sim_handlers.c:889-1066 | a GET after a SET reads, per requested id, the value last written by the accepted prefix, or the earlier value |
| Configuration.CoreSetIndependent | src/handlers/uci_sim_handlers.c:453-505 | the device table after a CORE_SET_CONFIG equals that of the request without its rejected parameters, all of which would then be stored |
| Configuration.DeviceStateKept | src/handlers/uci_sim_handlers.c:464-470 | no request changes DEVICE_STATE or removes a parameter |
| Configuration.PairsListed | src/handlers/uci_sim_handlers.c:453-505 | the response lists an id and a status per parameter, in order |
| Configuration.CoreSetResponse | src/handlers/uci_sim_handlers.c:430-505 | the response, overall status and new table of any well-framed CORE_SET_CONFIG: overall OK if and only if every pair is OK |
| Ownership.RunSoundFor | src/core/uci_sim_engine.c:31-98 | over every run that never deinitialises one session with events queued, whatever is done to the others, each queued event of that session belongs to it, allocated, ACTIVE and with work left, at most one of each kind |
| Ownership.RunSound | src/core/uci_sim_engine.c:31-98 | the same for all sessions at once, over every run without such a DEINIT |
| Ownership.PoliteRunSound | src/handlers/uci_sim_handlers.c:590-604 | a host that deinitialises no ACTIVE session makes only such runs, so the invariant holds throughout |
| Ownership.IdleDropSafe | src/handlers/uci_sim_handlers.c:590-604 | under the invariant a session that is not ACTIVE has no events queued, so a DEINIT of it is safe |
| Ownership.InitialSound | src/model/uci_sim_device.c:63-72 | the initial engine satisfies that invariant |
| Ownership.DropOwnedIff | src/handlers/uci_sim_handlers.c:590-604 | DEINIT keeps the invariant if and only if none of the session's events are queued |
| Ownership.ApplyOwned | src/handlers/uci_sim_handlers.c:336-1436 | every handler's effect other than an unsafe DEINIT of the session keeps the invariant for it |
| Ownership.ServeOwned | src/core/uci_sim_engine.c:31-98 | serving any event keeps the invariant for every session, the budget stop included |
| Ownership.OthersServed | src/core/uci_sim_engine.c:31-98 | serving an event of one session leaves the queued events of every other session as they are |
| Carriage.RunCarriedIff | src/core/uci_sim_engine.c:31-98 | over a whole run a session's transfer in progress always has its event queued if and only if no step strands it: no budget stop is served for the session during its transfer, and no repetition of it finds the pending queue full |
| Carriage.ReachableCarriedIff | src/core/uci_sim_engine.c:31-98 | the same for every run from the initial engine |
| Carriage.NextCarriedIff | src/core/uci_sim_engine.c:119-158 | one step keeps the transfer's event queued if and only if it does not strand the transfer |
| Carriage.ServeCarriedIff | src/core/uci_sim_engine.c:31-98 | for all sessions at once: serving keeps every transfer in progress carried if and only if the served event is neither a budget stop of a session in a transfer nor a repetition with no room |
| Carriage.ServeCarriedFor | src/core/uci_sim_engine.c:31-98 | the same for one session, whatever holds of the others |
| Carriage.ApplyCarried | src/handlers/uci_sim_handlers.c:336-1436 | no handler leaves a transfer in progress without its event, DEINIT included |
| Carriage.EmitCancelsIff | src/model/uci_sim_device.c:874-941 | an emission cancels the session's events if and only if the session streams under a non-zero budget that the count has reached, or reaches with a measurement now taken |
| Carriage.DrainedStrandsIff | src/model/uci_sim_device.c:889-941 | for a host that has taken everything, a step strands a transfer if and only if it serves the session's range event when the count plus one has reached the budget |
| Carriage.DrainedWaitStrandsIff | src/model/uci_sim_device.c:889-941 | and when such a host only waits, count, budget, stream and transfer are those it can query before the step |
| Carriage.HostCarriedIff | src/core/uci_sim_engine.c:119-158 | over every run of a host that takes everything after each step, a transfer always has its event if and only if no step takes the last measurement of the budget during it |
| Gaps.DeinitLeavesStream | src/handlers/uci_sim_handlers.c:590-604 | on any device: DEINIT, INIT and START of a streaming id leave two range events for one session, so ownership is lost |
| Gaps.BudgetStopStrandsTransfer | src/model/uci_sim_device.c:889-941 | on any device: a budget stop during a transfer, before or after a measurement, and a new START leave the transfer marked in progress with no event, and every data message is rebuffed as ongoing |
| Witnesses.DeinitDoublesStream | src/handlers/uci_sim_handlers.c:590-604 | from a new engine with the default profile, INIT, START, DEINIT, INIT, START of any id leave two range events for it |
| Witnesses.DeinitDoublesRate | src/core/uci_sim_engine.c:143-158 | and the session is then measured twice within one interval |
| Witnesses.BudgetStrandsTransfer | src/model/uci_sim_device.c:927-939 | from a new engine, INIT, SET of budget 1 and one repetition, START, DATA, one interval and START leave the session active with a transfer that nothing carries on; every further data message is rebuffed as ongoing |
| Witnesses.FullQueueStrandsTransfer | src/core/uci_sim_engine.c:80-95 | in the deferring scenario, INIT, SET of more repetitions than the pending queue holds, START, DATA and at most nine waits strand the transfer: the repetition that finds no room is not re-armed |
| Reports.MeasurementReported | src/model/uci_sim_device.c:874-941 | a due measurement with room is reported if and only if the stored mode is 2 and the distance lies in the window, 5 and the side differs from the remembered one, or none of 0, 2 and 5, the distance being base plus step times count modulo 65536; the report's bytes, the status at the last measurement of a budget, the session and the sequence number afterwards |
| Reports.ReportIs | src/core/uci_sim_measurement.c:141-230 | every byte of the report: sequence number, session id twice, interval, type, distance, slot index, which angle, figure-of-merit and RSSI bytes are kept from the template and which are zeroed, all others as in the template |
| Reports.WaitReports | src/core/uci_sim_engine.c:143-158 | a host that has taken every packet and waits receives exactly that report and status |
| Reports.WaitMeasures | src/core/uci_sim_engine.c:143-158 | and the session counts the measurement, and a report uses up one sequence number |
| Reports.DefaultPlaced | src/spec/uci_sim_profile.c:222-245 | in the default profile the fields of the report lie at these places of the 52-byte template, without overlap, and the distance starts at 100 and grows by 5 |
| Reports.NothingEmitted | src/model/uci_sim_device.c:874-888 | a session that is not streaming is not measured |
| Reports.BudgetEnds | src/model/uci_sim_device.c:889-902 | a stream whose count has reached its budget ends without a measurement, with one status notification when there is room |
| Timing.NoEarlyMeasurement | src/model/uci_sim_device.c:197-232 | over every run that never deinitialises this session with events queued and in which its interval is at least I while its stream runs, k measurements take ticks totalling at least k times I, however time is split and whatever is done to other sessions |
| Timing.DefaultMeasurementRate | src/model/uci_sim_device.c:197-232 | in the default profile, assuming nothing of the configuration, k measurements take at least 50 k ms |
| Timing.NoStarvation | src/core/uci_sim_engine.c:143-158 | a ready event at place i is served, or cancelled by its session's budget stop, within i+1 consecutive ticks |
| Timing.ReadyMovesUp | src/core/uci_sim_engine.c:143-158 | a tick that does not resolve a ready event moves it at least one place forward |
| Timing.RearmNeverFails | src/core/uci_sim_engine.c:65-73 | serving fails only when a notification finds no room: re-arming always finds the slot the dequeue freed |
| Streams.StreamConserved | src/model/uci_sim_device.c:874-941 | while a started session stays ACTIVE, stream remaining plus measurements since START equals the burst count |
| Streams.StartedStreamConserved | src/spec/uci_sim_scenario.c:52-80 | from the START packet on, its own tick included: while the session stays ACTIVE, stream remaining plus measurements since equals the burst count |
| Streams.StartOpensStream | src/spec/uci_sim_scenario.c:52-80 | START sets the full burst with nothing measured and clears the proximity state |
| Streams.CountNeverExceedsBudget | src/model/uci_sim_device.c:889-902 | under a fixed non-zero budget the count never exceeds it, across restarts and re-creation of the session |
| Streams.ReachingBudgetHalts | src/model/uci_sim_device.c:927-939 | the step in which the count reaches the budget leaves the session IDLE, nothing remaining, none of its events queued |
| Streams.NextLookup | src/core/uci_sim_engine.c:119-158 | what any one step can do to one session, split into its handler's move and at most one served event |
| Proximity.StartedAtMostTwo | src/core/uci_sim_measurement.c:116-138 | from the START packet to the step that ends the stream, with a fixed window and no 16-bit wrap, transition mode queues at most two notifications |
| Proximity.AtMostTwoTransitions | src/core/uci_sim_measurement.c:116-138 | the same from any ACTIVE state without remembered proximity; the last step may end the stream at its budget |
| Proximity.LastReport | src/model/uci_sim_device.c:904-939 | the measurement whose budget stop ends the stream counts among the two |
| Proximity.FirstSampleSilent | src/core/uci_sim_measurement.c:128-132 | the first sample after the remembered state was cleared never emits in transition mode |
| Transfers.MessageExact | src/handlers/uci_sim_handlers.c:1399-1436 | from the DATA packet on, its own tick included: a message accepted with R repetitions outputs REPETITION_OK with counts 1 to R, one credit, then OK with count R+1 cut to a byte, whatever is configured meanwhile |
| Transfers.TransferExact | src/model/uci_sim_device.c:307-333 | the same from any state in which no transmission has been made yet |
| Transfers.TransferFollowsScript | src/model/uci_sim_device.c:307-333 | at every point of a run the output is the script's prefix, and transmissions plus repetitions left equal R |
| Transfers.AcceptedTransferBegins | src/handlers/uci_sim_handlers.c:1399-1436 | accepting a message fixes the count configured at that moment and queues exactly one event |
| Transfers.LastTurnOutput | src/model/uci_sim_device.c:324-332 | the last transmission outputs the credit and OK, with all repetitions reported before |
| Delivery.DeliveredInOrder | src/core/uci_sim_engine.c:17-29 | outside the deferring scenario a host that drains after every step receives everything produced, in order of production |
| Delivery.StepInOrder | src/core/uci_sim_engine.c:119-158 | for a drained engine one step leaves nothing pending and outputs exactly what it produced, in order |
| Delivery.HostRunIsRun | src/core/uci_sim_engine.c:160-173 | what such a host does is an ordinary run with single takes |
| Liveness.StartCompletes | src/spec/uci_sim_scenario.c:52-80 | from the START packet on, for a host that drains, leaves the session alone and keeps time going: the whole burst is measured, or the budget stops the session, within one round (an interval, then eight ticks) for each measurement |
| Liveness.MessageCompletes | src/handlers/uci_sim_handlers.c:1399-1436 | from the DATA packet on, for such a host: the transfer ends, or the budget stops the session, within one round for each transmission |
| Liveness.BurstCompletes | src/model/uci_sim_device.c:874-941 | the same for a stream from any live state: exactly what remained is measured, or the budget stops it |
| Liveness.TransferCompletes | src/model/uci_sim_device.c:307-333 | the same for a transfer from any live state |
| Liveness.WorkCompletes | src/core/uci_sim_engine.c:31-98 | as many rounds as there is work of a kind leave none |
| Liveness.RoundAdvances | src/core/uci_sim_engine.c:143-158 | every round leaves less work, whatever the host does with other sessions in it |
| Liveness.EventResolved | src/core/uci_sim_engine.c:143-158 | once its delay has passed, an event of the session at place i is served or its session stopped within i+1 ticks, other commands interleaved |
| Liveness.HostRunLive | src/core/uci_sim_engine.c:119-158 | the session keeps an event due within the bound as long as it has work, over every such run |
| Delivery.MailInOrder | src/model/uci_sim_device.c:335-368 | the result slot and the pending queue together hold a handler's notifications in order |
| PacketQueues.FlushExact | src/core/uci_sim_engine.c:17-29 | with p pending and k free slots, p <= k moves all in order; otherwise the first k move, one is lost, the rest stay in order |
| Moves.RunStructured | src/model/uci_sim_device.c:711-725 | over every run allocated ids are distinct, unallocated slots are all zero, links stay a dense prefix with distinct ids below 0xFF, and the arrays stay within capacity |
| Moves.MoveLegal | src/handlers/uci_sim_handlers.c:336-1436 | a handler changes sessions, events and tables by one move, taken only when the source's guards allow it |
| Moves.ReceiveCore | src/core/uci_sim_engine.c:119-141 | submitting changes sessions, events and tables by exactly that move |
| Moves.ProcessCore | src/core/uci_sim_engine.c:31-98 | serving changes exactly one session and its events |
| Moves.ConfigureFrame | src/handlers/uci_sim_handlers.c:917-1002 | setting parameters changes no state, counter, transfer or link of the session |
| Moves.SetFrame | src/handlers/uci_sim_handlers.c:969-995 | one stored parameter changes one entry and the proximity state; the queue changes only for an interval set on a running stream, and then only in the session's range event |
| LogicalLinks.AppendKeeps | src/model/uci_sim_device.c:818-845 | an allocated link's id is new and below 0xFF; an automatic id is least unused and at most 7; links stay well formed |
| LogicalLinks.LeastUnusedSmall | src/model/uci_sim_device.c:827-833 | pigeonhole: the least unused id never exceeds the number of links, so the search guard is never reached |
| LogicalLinks.CloseRemoves | src/model/uci_sim_device.c:847-872 | close removes exactly the link with the id |
| LogicalLinks.CloseKeepsOrder | src/model/uci_sim_device.c:847-872 | close keeps the order of the other links |
| LogicalLinks.CloseWellFormed | src/model/uci_sim_device.c:847-872 | close keeps the links well formed |
| LogicalLinks.LinkTable.Find | src/model/uci_sim_device.c:801-816 | the search loop finds the first link with an id |
| LogicalLinks.LinkTable.Allocate | src/model/uci_sim_device.c:818-845 | the allocation loop terminates and appends one link under the assigned id, or reports a full array |
| LogicalLinks.LinkTable.Remove | src/model/uci_sim_device.c:847-872 | removal in place is Close on the dense prefix, and the freed slot is cleared |
| ConfigTables.WriteSlot | src/model/uci_sim_device.c:381-400 | writing the slot of an id, or a free slot for a new id, updates the map the array stands for and keeps ids distinct |
| ConfigTables.ContentsSize | src/model/uci_sim_device.c:389-402 | the map has as many keys as slots in use, so a free slot exists exactly below capacity |
| ConfigTables.SupportedStoreFailsOnlyWhenLong | src/model/uci_sim_device.c:370-403 | a table with a slot per supported id refuses a supported id exactly when the value is too long |
| ConfigTables.StoreAllFits | src/handlers/uci_sim_handlers.c:57-62 | distinct short defaults that fit are all stored |
| ConfigTables.ConfigTable.Put | src/model/uci_sim_device.c:370-403 | the two-pass store refines a map update, fails exactly when too long or new and full, and then changes nothing |
| ConfigTables.ConfigTable.Find | src/model/uci_sim_device.c:405-426 | the lookup loop reads the map |
| EventQueues.WithoutMembers | src/model/uci_sim_device.c:151-195 | removal keeps exactly the untargeted events |
| EventQueues.WithoutOrdered | src/model/uci_sim_device.c:151-195 | removal keeps their order |
| EventQueues.RescheduleFails | src/model/uci_sim_device.c:151-175 | rescheduling fails only when the queue is full and holds nothing to replace |
| EventQueues.EventQueue.Add | src/model/uci_sim_device.c:131-149 | appends an event, or reports a full array or no kind |
| EventQueues.EventQueue.Remove | src/model/uci_sim_device.c:177-195 | the compaction loop keeps the untargeted events in order |
| EventQueues.EventQueue.Replace | src/model/uci_sim_device.c:151-175 | removes the session's event of the kind and appends the new one |
| EventQueues.EventQueue.Tick | src/model/uci_sim_device.c:197-211 | every delay drops by the elapsed time, stopping at zero |
| EventQueues.EventQueue.TakeReady | src/model/uci_sim_device.c:213-232 | takes the first ready event and closes the gap |
| EventQueues.FirstReady | src/model/uci_sim_device.c:213-232 | index of the first event whose delay ran out |
| PacketQueues.PacketQueue.Add | src/model/uci_sim_device.c:103-114 | appends a packet, or reports a full array |
| PacketQueues.PacketQueue.Take | src/model/uci_sim_device.c:116-129 | takes the oldest packet and shifts the rest |
| PacketCodec.ParseLayout | src/core/uci_sim_packet.c:12-34 | exactly which buffers hold a packet, and each field in terms of the bytes: a DATA length is the third byte plus 256 times the fourth, any other the fourth |
| PacketCodec.EncodeLayout | src/core/uci_sim_packet.c:36-69 | each byte of an encoding in terms of the fields, in the same equations |
| PacketCodec.ParseEncode | src/core/uci_sim_packet.c:12-69 | parse after serialize is the identity for every in-range packet, whatever follows in the buffer |
| PacketCodec.EncodeParse | src/core/uci_sim_packet.c:12-69 | serialize after parse reproduces the consumed bytes with only the reserved bits cleared |
| PacketCodec.Serialize | src/core/uci_sim_packet.c:36-69 | fills the caller's buffer with the encoding, byte by byte as above, and leaves the rest; fails exactly when too long for its kind or the buffer |
| Chardevs.ChunkingIrrelevant | src/transport/chardev/uci_sim_chardev.c:67-123 | for reads of at most 770 bytes of a stream without refused headers, no byte is dropped, the tail stays within 258 bytes, and the packets are those of the one-pass parse |
| Chardevs.ScanAppend | src/transport/chardev/uci_sim_chardev.c:67-123 | scanning may stop anywhere and go on from what was left |
| Chardevs.ScanTailBounded | src/transport/chardev/uci_sim_chardev.c:67-123 | an accepted tail is at most 258 bytes |
| Chardevs.ScanWire | src/transport/chardev/uci_sim_chardev.c:67-123 | packets of at most 255 payload bytes sent one behind the other are all received, in order, whatever follows |
| Chardevs.ScanWaits | src/transport/chardev/uci_sim_chardev.c:85-106 | in terms of the header bytes: when a buffer without a whole packet waits and when it is refused |
| Chardevs.Chardev.FeedToEngine | src/transport/chardev/uci_sim_chardev.c:67-123 | the loop over the buffer submits exactly the scanned packets and compacts the tail; it stops uncompacted at a refused header or at the first packet the engine refuses |
| Chardevs.Chardev.ProcessInput | src/transport/chardev/uci_sim_chardev.c:226-281 | a read is clamped to the free space, appended and fed on; after a failure the buffer still holds all of it |
| TcpServers.FragmentationRoundTrip | src/transport/tcp/uci_sim_tcp_server.c:92-137 | parsing what is sent and joining payloads at the first complete flag gives the control packet back if and only if it was marked complete |
| TcpServers.FragmentsShape | src/transport/tcp/uci_sim_tcp_server.c:102-126 | a control payload over 255 bytes gives ceil(n/255) pieces of at most 255 bytes, only the last complete |
| TcpServers.TcpClient.SendToClient | src/transport/tcp/uci_sim_tcp_server.c:92-137 | the fragment loop writes exactly the encodings of the pieces |
| Devices.FindSession | src/handlers/uci_sim_handlers.c:30-38 | slot of the first allocated session with an id |
| Devices.FirstFree | src/handlers/uci_sim_handlers.c:46-47 | first unallocated slot |
| StartChecks.StartVerdictIs | src/core/uci_sim_validation.c:1459-1825 | on any table of any profile START reports the fault of the first condition that fails, in the order of the validation and written out over the stored bytes, and accepts when none does |
| ControlAnswers.StartAnswer | src/handlers/uci_sim_handlers.c:1214-1258 | the answer to START over any table of the default profile: status 1 in the wrong state, else that of the first failing condition, else OK, one notification of ACTIVE, a burst of three, the first event an interval away |
| ControlAnswers.GateIsFault | src/core/uci_sim_validation.c:1459-1825 | over a sound table the conditions come down to the gate in numbers, and any refusal has status 4 |
| ControlAnswers.StopAnswer | src/handlers/uci_sim_handlers.c:1214-1258 | STOP in the default profile: of an ACTIVE session OK, one status notification of IDLE, nothing remaining, no transfer, none of its events queued and all others kept; in any other state status 1 and nothing moves |
| ControlAnswers.TransitionRefused | src/handlers/uci_sim_handlers.c:1214-1230 | START or STOP that is too short, names no session, or finds the wrong state: statuses 6, 4 and 1 |
| ControlAnswers.StartRefusalSurfaces | src/handlers/uci_sim_handlers.c:1231-1243 | in any profile a START refused in a session status is answered OK and reported with the reason, one refused at once with its status; neither starts anything |
| ControlAnswers.ControlRefused | src/handlers/uci_sim_handlers.c:1068-1093 | every session control command that is too short or names no session: statuses 6 and 4 |
| ControlAnswers.LinkCreateAnswer | src/handlers/uci_sim_handlers.c:1104-1151 | creating a link, byte by byte: default mode and credit, the two refusals, the id requested or the least unused, response and notification |
| ControlAnswers.LinkCloseAnswer | src/handlers/uci_sim_handlers.c:1152-1184 | closing a link: response, notification, and that link alone removed, or a refusal |
| ControlAnswers.LinkQueryAnswer | src/handlers/uci_sim_handlers.c:1185-1213 | asking for a link: its mode and credit, or a refusal |
| Answers.UnknownAnswer | src/handlers/uci_sim_handlers.c:1261-1311 | packets that are no command or data are ignored; unknown groups and commands of the default profile get statuses 7 and 8 |
| Answers.InitAnswer | src/handlers/uci_sim_handlers.c:558-589 | SESSION_INIT, branch by branch: three refusals, a known id announced again, or a fresh session in the first free slot with every field given |
| Answers.DeinitAnswer | src/handlers/uci_sim_handlers.c:590-604 | SESSION_DEINIT: the host is told, the slot is zeroed, events stay |
| Answers.CountAnswer | src/handlers/uci_sim_handlers.c:609-623 | the number of allocated slots |
| Answers.StateAnswer | src/handlers/uci_sim_handlers.c:653-674 | the state of a session, or a refusal |
| Answers.DataSizeAnswer | src/handlers/uci_sim_handlers.c:624-652 | the largest data message, low byte first, or a refusal with zeros |
| Answers.RangingCountAnswer | src/handlers/uci_sim_handlers.c:1094-1103 | the count of a session, lowest byte first |
| Answers.OneNote | src/handlers/uci_sim_handlers.c:1261-1311 | how the one notification of a request leaves in any scenario: into the result, or behind what is pending, or lost when the queue is full; and when the oldest pending packet leaves instead |
| DataAnswers.DataAnswer | src/handlers/uci_sim_handlers.c:1313-1436 | every branch of a data message: ignored, rebuffed with status 7, 4 or 6, a repeat acknowledged with status 0, a new message acknowledged at once with status 1, or a transfer begun if an event fits |
| DataAnswers.TransmissionTold | src/model/uci_sim_device.c:307-333 | each transmission's notifications byte by byte: status 0 for a repetition; a credit and status 1 for the last |
| ParameterAnswers.SetAnswer | src/handlers/uci_sim_handlers.c:889-1002 | SET on a session that is not streaming: exactly the parameters before the first refused one are stored, that one's status is the answer, 4 for an overrun, and nothing else changes |
| ParameterAnswers.SetStreamingAnswer | src/handlers/uci_sim_handlers.c:969-995 | one parameter set on a running stream, a new interval moving its range event |
| ParameterAnswers.ParameterSet | src/handlers/uci_sim_handlers.c:917-997 | one parameter in any session: refused without effect, or stored with the side forgotten and the event moved as needed |
| ParameterAnswers.GetAnswer | src/handlers/uci_sim_handlers.c:1004-1066 | GET of named or of all parameters: OK if and only if each is supported, stored and fits; otherwise those before the first that is not |
| ParameterAnswers.DecodeReads | src/handlers/uci_sim_handlers.c:917-935 | where each parameter of a request lies in its bytes, and where reading ends |
| ParameterAnswers.EncodedLies | src/handlers/uci_sim_handlers.c:1004-1060 | where each parameter of a response lies in its bytes |
| CoreAnswers.ResetAnswer | src/handlers/uci_sim_handlers.c:343-355 | DEVICE_RESET: two refusals, or a new device and the announcement of its state |
| CoreAnswers.CoreSetAnswer | src/handlers/uci_sim_handlers.c:430-505 | CORE_SET_CONFIG in the default profile, with every status in numbers and the table afterwards |
| CoreAnswers.CoreGetAnswer | src/handlers/uci_sim_handlers.c:507-546 | CORE_GET_CONFIG in the default profile |
| CoreAnswers.SubmitQueues | src/core/uci_sim_engine.c:119-141 | what a submitted packet puts on the outbound queue, full queues and failures included |
| Handlers.DataNotes | src/handlers/uci_sim_handlers.c:1313-1436 | a data message never has a response, and only posts or places one notification directly |
| Handlers.ControlNotes | src/handlers/uci_sim_handlers.c:1068-1259 | a session control command delivers at most one notification |
| Profiles.DefaultTransitionsProper | src/spec/uci_sim_profile.c:192-206 | the default profile lists START from INIT or IDLE to ACTIVE and STOP from ACTIVE to IDLE, and no other transition |
| SimSessions.SimSession.Open | src/handlers/uci_sim_handlers.c:40-67 | allocation of a slot stores the defaults in order, passing over those that do not fit |
| SimSessions.SimSession.Zero | src/handlers/uci_sim_handlers.c:602-603 | the memset of a slot, arrays included |
| SimSessions.SimSession.InitRangingSample | src/core/uci_sim_measurement.c:29-48 | the sample of a session, read through the parameter lookups |
| SimSessions.SimSession.EvaluatePolicy | src/core/uci_sim_measurement.c:50-139 | whether the sample is notified and which fields are reported, as `Reports.MeasurementReported` describes it |
| SimSessions.SimSession.RangingInterval | src/model/uci_sim_device.c:527-542 | the stored interval when four bytes long, else the profile's |
| SimDevices.SimDevice.ResetRuntimeState | src/model/uci_sim_device.c:82-101 | clearing every array and applying the defaults gives the initial device |
| SimDevices.SimDevice.ApplyProfileDefaults | src/model/uci_sim_device.c:6-34 | state and the first three device parameters come from the profile |
| SimDevices.SimDevice.FindSlot | src/handlers/uci_sim_handlers.c:30-38 | the lookup loop over the slots |
| SimDevices.SimDevice.AllocSession | src/handlers/uci_sim_handlers.c:40-67 | opens the first free slot or reports none |
| SimDevices.SimDevice.StoreConfig | src/model/uci_sim_device.c:370-403 | a store in one session's table changes that entry of that session and nothing else |
| SimDevices.SimDevice.StoreCoreConfig | src/model/uci_sim_device.c:641-678 | a store in the device table; DEVICE_STATE is refused |
| SimDevices.SimDevice.ReadCoreConfig | src/model/uci_sim_device.c:680-709 | DEVICE_STATE reads the live state, other ids the table |
| SimDevices.SimDevice.ScheduleEvent | src/model/uci_sim_device.c:131-149 | appends to the device's events when one fits, and touches nothing else of the device |
| SimDevices.SimDevice.RescheduleEvent | src/model/uci_sim_device.c:151-175 | replaces the session's event of a kind; a failure has still removed the old one, and an event of no kind changes nothing |
| SimDevices.SimDevice.CancelEvents | src/model/uci_sim_device.c:177-195 | removes exactly the session's events, and touches nothing else of the device |
| SimDevices.SimDevice.TickEvents | src/model/uci_sim_device.c:197-211 | ages every event, and touches nothing else of the device |
| SimDevices.SimDevice.DequeueReadyEvent | src/model/uci_sim_device.c:213-232 | takes the device's first ready event, and touches nothing else |
| SimDevices.SimDevice.QueueNotification | src/model/uci_sim_device.c:103-114 | appends to the device's pending queue when one fits, and touches nothing else |
| SimDevices.SimDevice.DequeueNotification | src/model/uci_sim_device.c:116-129 | takes the device's oldest pending notification, and touches nothing else |
| SimDevices.SimDevice.DeliverNotification | src/model/uci_sim_device.c:335-353 | into the free result slot, or queued when taken or deferring; a full queue loses it silently |
| SimDevices.SimDevice.FinalizeResult | src/model/uci_sim_device.c:355-368 | a free result takes the oldest pending notification, except on the first deferred one |
| SimDevices.SimDevice.StopAtBudget | src/model/uci_sim_device.c:892-902 | halts the session, cancels its events, queues the status |
| SimDevices.SimDevice.TakeMeasurement | src/model/uci_sim_device.c:904-940 | one measurement: number, notify, count, look at the budget again, stopping where the source stops |
| SimDevices.SimDevice.EmitRangingStream | src/model/uci_sim_device.c:874-941 | the whole emission equals the emission of the model |
| SimDevices.SimDevice.ProgressDataTransfer | src/model/uci_sim_device.c:307-333 | one transmission equals that of the model, also when the queue is full; without a transfer in progress it fails and changes nothing |
| SimDevices.SimDevice.SessionStarted | src/spec/uci_sim_scenario.c:52-80 | arms the stream with its first event, or leaves it without one when the queue is full |
| SimDevices.SimDevice.SessionStopped | src/spec/uci_sim_scenario.c:82-92 | clears the work and cancels the events |
| SimHandlers.SetCoreParameters | src/handlers/uci_sim_handlers.c:453-498 | the offset walk over the parameters computes the fold, the pairs and the failure flag |
| SimHandlers.HandleCoreSet | src/handlers/uci_sim_handlers.c:430-505 | carries out the CORE_SET_CONFIG decision |
| SimHandlers.CollectCore | src/handlers/uci_sim_handlers.c:507-541 | the GET loop collects what the model collects |
| SimHandlers.HandleCoreGet | src/handlers/uci_sim_handlers.c:430-546 | carries out the CORE_GET_CONFIG decision |
| SimHandlers.HandleReset | src/handlers/uci_sim_handlers.c:343-355 | carries out the reset |
| SimHandlers.SetParameter | src/handlers/uci_sim_handlers.c:925-997 | check, store, forget, re-arm, in the source's order, equals one step of the model |
| SimHandlers.SetParameters | src/handlers/uci_sim_handlers.c:917-1002 | the offset walk stops at the first refusal or overrun with the model's status |
| SimHandlers.HandleSetApp | src/handlers/uci_sim_handlers.c:889-1002 | carries out the SET_APP_CONFIG decision |
| SimHandlers.CollectApp | src/handlers/uci_sim_handlers.c:1034-1060 | the loop over requested ids |
| SimHandlers.CollectSupported | src/handlers/uci_sim_handlers.c:1006-1032 | the loop over all supported ids |
| SimHandlers.HandleGetApp | src/handlers/uci_sim_handlers.c:889-1066 | carries out the GET_APP_CONFIG decision |
| SimHandlers.HandleInit | src/handlers/uci_sim_handlers.c:558-589 | carries out the INIT decision |
| SimHandlers.HandleDeinit | src/handlers/uci_sim_handlers.c:590-604 | carries out the DEINIT decision; events stay queued |
| SimHandlers.CountSessions | src/handlers/uci_sim_handlers.c:609-623 | the counting loop |
| SimHandlers.HandleSessionConfig | src/handlers/uci_sim_handlers.c:548-686 | the whole session configuration dispatch |
| SimHandlers.HandleCore | src/handlers/uci_sim_handlers.c:336-428 | the whole core dispatch |
| SimHandlers.HandleLinkCreate | src/handlers/uci_sim_handlers.c:1104-1151 | carries out the link creation decision |
| SimHandlers.HandleLinkClose | src/handlers/uci_sim_handlers.c:1152-1184 | carries out the link close decision |
| SimHandlers.HandleLinkQuery | src/handlers/uci_sim_handlers.c:1185-1213 | carries out the link query decision |
| SimHandlers.HandleTransition | src/handlers/uci_sim_handlers.c:1214-1258 | carries out START, STOP and the other transitions, START being validated again |
| SimHandlers.EnterState | src/handlers/uci_sim_handlers.c:1244-1258 | entering a state, telling the host and letting the scenario act is the model's transition |
| SimHandlers.HandleSessionControl | src/handlers/uci_sim_handlers.c:1068-1259 | the whole session control dispatch |
| SimHandlers.AcceptMessage | src/handlers/uci_sim_handlers.c:1397-1436 | remembers a message and begins a transfer if an event fits, undoing it otherwise |
| SimHandlers.HandleData | src/handlers/uci_sim_handlers.c:1313-1436 | the whole data message handler |
| SimHandlers.HandlePacket | src/handlers/uci_sim_handlers.c:1261-1311 | dispatch, error notification and result completion equal the model's Handle, for every packet |
| SimEngines.SimEngine.FlushDeviceNotifications | src/core/uci_sim_engine.c:17-29 | the drain loop equals Flush, the lost packet included |
| SimEngines.SimEngine.ProcessReadyEvent | src/core/uci_sim_engine.c:31-98 | serving an event equals the model's Process |
| SimEngines.SimEngine.Tick | src/core/uci_sim_engine.c:143-158 | a tick equals the model's Tick |
| SimEngines.SimEngine.SubmitPacket | src/core/uci_sim_engine.c:119-141 | a submit equals the model's Submit, its early exits included |
| SimEngines.SimEngine.DequeueOutbound | src/core/uci_sim_engine.c:160-173 | takes the oldest outbound packet |
| SimEngines.SimEngine.Init | src/core/uci_sim_engine.c:108-117 | gives the initial engine |
| SimEngines.SimEngine.Perform | src/core/uci_sim_engine.c:119-173 | every step of a host is the model's step, so every run theorem holds of this engine |

## Left out

- Commands whose replies are fixed data or plain copies (device info, capabilities, timestamp, multicast list, DT anchor and tag rounds, data transfer phase, calibration, device statistics): their response and verdict are an arbitrary `Reply`; they change none of the modelled state, so every theorem holds whatever they answer.
- Sockets, pseudo-terminals, polling, signals, clocks and the two main programs: reads are arbitrary byte sequences, time is arbitrary elapsed values, a write appends to the bytes sent.
- The system-call loops `send_all`, `master_flush`, `uci_sim_chardev_inject` and `read_command`.
- Chardevs.Chardev.FeedToEngine: which packet of a call the engine refuses, if any, is a parameter; the engine behind the transport is not connected.
- SimDevices.SimDevice.constructor: takes its arrays as given, like the source's init functions on caller memory; `Init` and `ResetRuntimeState` give the initial state.
- SimSessions.SimSession.Open: the scalar members of a session are one record field that is reassigned, not one field each.
- Sessions.RangeDataNtf: offsets into the range-data template that lie outside it leave the payload alone, where the source would write past the payload; offset arithmetic is not cut to 8 bits. The default profile's offsets are inside.
- Reads of a stored value into a shorter variable: `uci_sim_session_get_config` copies the whole stored value, up to 64 bytes, before its caller looks at the length (src/model/uci_sim_device.c:414-418). SET stores DEVICE_ROLE, like every parameter it does not check, at any length up to 64, so a validator's one-byte variable (src/core/uci_sim_validation.c:582-606), and likewise the two-byte ones elsewhere, is written out of bounds by a longer value. The model has no such memory: it reads the default, or rejects the length, as the source would if the copy were bounded.
- Validation verdicts are values returned by functions where the source fills in its caller's result record.
- Changing the scenario of a running device; null-pointer checks.
- Notification, multicast action and other profile lists that no modelled command consults.
- Timing.NoEarlyMeasurement: assumes the run never deinitialises this session with events queued; `Witnesses.DeinitDoublesRate` shows why.
- Ownership.RunSound: assumes `ProperTransitions` of the profile, as do Ownership.ApplyOwned, Timing.NoEarlyMeasurement, Streams.StreamConserved, Streams.CountNeverExceedsBudget, Streams.ReachingBudgetHalts, Streams.NextLookup and the theorems of Proximity, Transfers, Carriage and Liveness.
- Transfers.TransferExact: assumes each transmission's reports fit the pending queue and the session is not stopped; `Carriage` covers a full queue and a budget stop.
- Liveness.WorkCompletes: for hosts that take every packet after each step outside the deferring scenario, with a range template that can be built; `Witnesses.FullQueueStrandsTransfer` shows a host that does not.
- LogicalLinks.LinkTable.Allocate: assumes a requested id is not in use, which its only caller has checked (src/handlers/uci_sim_handlers.c:1104-1151); the function itself would then add a second link under the id.
- SimDevices.SimDevice.ResetRuntimeState: the version, temperature and timestamp members, which no modelled command reads, are not modelled.
- SimDevices.SimDevice.ApplyProfileDefaults: likewise without the version, temperature and timestamp members.
- SimHandlers.HandleCore: the replies to device information, capabilities and timestamp queries are an arbitrary `Reply`.
- SimHandlers.HandleSessionConfig: the replies to the multicast list, DT rounds and data transfer phase commands are an arbitrary `Reply`.
- SimHandlers.HandlePacket: the replies to all these commands, and to the two vendor groups, are an arbitrary `Reply`.
- Chardevs.ChunkingIrrelevant: assumes no header announces more than 255 bytes; the transport ends the connection at such a header.

# A Dafny model of NetScan

NetScan keeps a live table of network connections in step with the kernel. A producer (a polling
reconciler, or eBPF probes with a ring buffer) writes Opened and Closed events to a FIFO channel; a
consumer filters them into the live table; a timer removes stale rows; a resolver looks up the other IP
family of each remote host; a renderer reduces, sorts and pads the rows; an exporter writes them as CSV.

The model follows the code where the code changes state step by step (classes, loops, state machines)
and uses functions where it computes. Verify everything with `dafny verify dfyconfig.toml`.

## How the files fit together

- `Pipeline.dfy` is the centre: a machine whose steps are one dictionary visit of the reconciler, one
  delivery, or one removal by the timer. Connections are numbered objects, shared between the
  producer's dictionaries, the channel and the live table, and the consumer overwrites their `State`.
  A run is any sequence of steps, so every interleaving is covered. `NoGhosts` is its main result;
  `Filters.LiveRowsAreScanned` states it for the program's own key, rewriting and filters, and
  `Filters.DeliveryIsTheConsumers` ties the machine's deliveries to the consumer's.
- `Reconciler.dfy` is the same producer over plain values, with `EventLog.dfy` for what replaying a
  log means. `Aliasing.dfy` compares the two: they write the same events in every run exactly when no
  wildcard-local record can refresh the row of a concrete one with a different state.
- `RowRules.dfy` spells the consumer's rules out in fields, octets and numbers: which connections are relevant,
  what the options ask, and what one event does to the table.
- `Scanner.dfy` says which records a scan can report, and `ProgramRuns.dfy` draws the conclusion for the
  program: which pairs of scanned records make it announce an unchanged connection again
  (`CollideIff`). Without a user or process filter there are none (`UnfilteredScansAreSafe`); with one
  there are (`SharingIsHarmlessUnlessFiltered`). The exception is a line of the connection tracking
  table for a UDP flow whose source is unspecified: the parser accepts it, and it misleads under any
  filters (`TrackedTwinRepeats`). Whether a kernel ever prints such lines is not part of this model.
- `Monitor.dfy` holds the classes: the event source and the live monitor, updating objects in place and
  proved against the functions of `Reconciler.dfy` and `Filters.dfy`. Wherever a proof does not depend on
  it, the connection key is any function; `Filters.ProgramEnv` puts the program's own in.
- `FlowKeys.dfy`, `Probes.dfy` and `ProbeProgram.dfy` are the kernel side: the dual-stack key resolver,
  a machine of stashes, time stamps and ring buffer with a history, and the probe functions as methods
  proved to be that machine's steps. Exit probes read memory through the stashed pointers.
  `Startup.dfy` interleaves the kernel with the phases of the poll loop: attaching, creating the ring
  consumer, scanning line by line, writing, polling.
- `Csv.dfy`, `ProcNet.dfy`, `DnsSearch.dfy`, `DnsCache.dfy`, `AnsiText.dfy` and `Display.dfy` are the
  exporter with its inverse reader, the `/proc/net` decoder with its inverse printer, the resolver's
  search and its concurrent cache, and the screen. `Text.dfy` and `Connections.dfy` are shared.

## Where the code and its own comments differ

- The non-IP throttle is announced as 30 seconds (`netscan_ebpf.bpf.c:810`); the code uses 5 seconds.
  The model follows the code.
- The special case of the consumer is meant to keep a row whose update arrives in softirq context. An
  update attributed to a pid of at most 100 counts as inactive and removes a TCP row instead:
  `Filters.UpdateKeepsEntryIff` gives the exact condition.
- The scan loop is described as Ftrace-driven; it polls, and the model polls.
- Uids and inodes that do not fit the signed .NET types are read as -1, the value for "unknown":
  `ProcNet.NumbersSurviveIff`. The kernel prints uids as unsigned 32-bit numbers.
- Padding is meant to give cells of an exact width. It does so unless a short text ends inside an
  escape, or the width is zero: `AnsiText.PadOrTruncateAnsi` states this as an equivalence.

## Model

| member | source | states |
|---|---|---|
| Pipeline.NoGhosts | src/NetScan/Services/LiveMonitorService.cs:107-191 | For any scans, any filter answers and any interleaving of scanning, FIFO delivery and timer: with the channel drained, each live row is the live key of an entry in the producer's table and has its scanned State |
| Pipeline.DrainedShowsScanned | src/NetScan/Services/LiveMonitorService.cs:150-191 | In any state the invariant allows, once the channel is drained the live row shows the record that now stands for its key |
| Pipeline.RunKeepsInv | src/NetScan/Platform/Linux/LinuxNetworkEventSource.cs:115-153 | The invariant behind it holds after every run: who may hold which object, what each live row last heard, what the log last said of each key |
| Pipeline.OverwrittenIsSuperseded | src/NetScan/Services/LiveMonitorService.cs:181-186 | If the object a delivery overwrites still stands for a key, every event of that key is older than the delivery |
| Pipeline.SharedIsLast | src/NetScan/Services/LiveMonitorService.cs:181-191 | A shared object that still stands for its key was announced by the last event of that key |
| Pipeline.HeadIntact | src/NetScan/Platform/Linux/LinuxNetworkEventSource.cs:127-137 | An announced object keeps its announced State until its own event is delivered |
| Aliasing.SharingIsHarmlessIff | src/NetScan/Services/LiveMonitorService.cs:153-186 | Every run emits exactly the events of a value-keeping producer, if and only if no wildcard record is rewritten onto the key of a storable concrete record that it may refresh with another State |
| Aliasing.RunSimulates | src/NetScan/Platform/Linux/LinuxNetworkEventSource.cs:127-152 | Without such a pair, the shared-object reconciler and the value reconciler agree on tables, phases and log after every step |
| Aliasing.BadRun | src/NetScan/Services/LiveMonitorService.cs:181-186 | With such a pair there is a run that announces a record again although its State has not changed |
| Aliasing.SameEventsNeverRepeat | src/NetScan/Services/LiveMonitorService.cs:181-186 | A run that agrees with the value-keeping producer never does that |
| Aliasing.ConcreteAddressesAreSafe | src/NetScan/Services/LiveMonitorService.cs:150-191 | With concrete local addresses only, sharing never changes an event |
| Reconciler.LogRefinesState | src/NetScan/Platform/Linux/LinuxNetworkEventSource.cs:72-89 | After any number of scans, replaying all events gives the keys and States of the current table |
| Reconciler.ScanReportsDiff | src/NetScan/Platform/Linux/LinuxNetworkEventSource.cs:126-152 | One scan's events are exactly its changes, each once, and replaying them leads to the new table |
| Reconciler.TraceDiscipline | src/NetScan/Platform/Linux/LinuxNetworkEventSource.cs:127-150 | At most one event per key and scan, and every event of a run tells a listener something new |
| EventLog.DiffReplays | src/NetScan/Platform/Linux/LinuxNetworkEventSource.cs:115-152 | Any list that is exactly the changes replays from the old table to the new |
| EventLog.ReorderedDiff | src/NetScan/Platform/Linux/LinuxNetworkEventSource.cs:127-150 | Reordering one scan's batch in any way gives the same table: dictionary order does not matter |
| EventLog.NeighboursDiffer | src/NetScan/Platform/Linux/LinuxNetworkEventSource.cs:127-137 | Two neighbouring Opened of a key differ in State, and Closed is followed by Opened |
| EventLog.ClosedAnswersOpened | src/NetScan/Platform/Linux/LinuxNetworkEventSource.cs:139-150 | Each Closed has an earlier Opened of its key with nothing about the key in between |
| Monitor.LinuxNetworkEventSource.BuildMap | src/NetScan/Platform/Linux/LinuxNetworkEventSource.cs:118-124 | The TryAdd loop gives the first record of each key |
| Reconciler.FirstIsKept | src/NetScan/Platform/Linux/LinuxNetworkEventSource.cs:118-124 | Each key of the dictionary stands for the first record that has it |
| Monitor.LinuxNetworkEventSource.AnnounceChanges | src/NetScan/Platform/Linux/LinuxNetworkEventSource.cs:126-137 | The first loop writes one Opened per new or changed key, nothing else |
| Monitor.LinuxNetworkEventSource.CloseVanished | src/NetScan/Platform/Linux/LinuxNetworkEventSource.cs:139-150 | After the second loop the batch is exactly the difference of the two tables |
| Monitor.LinuxNetworkEventSource.Reconcile | src/NetScan/Platform/Linux/LinuxNetworkEventSource.cs:117-150 | Dictionary and both loops together: the channel grows by exactly the difference to the first records of the latest scan |
| Monitor.LinuxNetworkEventSource.PerformReconciliationScan | src/NetScan/Platform/Linux/LinuxNetworkEventSource.cs:115-153 | The channel grows by exactly the difference and the current table becomes the latest scan |
| Monitor.LinuxNetworkEventSource.AnnounceInitial | src/NetScan/Platform/Linux/LinuxNetworkEventSource.cs:72-87 | The first scan announces the first record of each key, once |
| Monitor.LinuxNetworkEventSource.InitialSnapshot | src/NetScan/Platform/Linux/LinuxNetworkEventSource.cs:72-90 | The first scan's events and table |
| Monitor.LiveMonitorService.MakeConcrete | src/NetScan/Services/LiveMonitorService.cs:152-157 | A wildcard record is copied and rewritten; any other is used as the shared object itself |
| Monitor.LiveMonitorService.HandleEvent | src/NetScan/Services/LiveMonitorService.cs:150-192 | One event changes the rows as specified, keeps the table invariant, counts stores, and writes to no object outside the table |
| Monitor.LiveMonitorService.Act | src/NetScan/Services/LiveMonitorService.cs:166-192 | Remove, replace or overwrite in place, and nothing else |
| Monitor.LiveMonitorService.CleanUp | src/NetScan/Services/LiveMonitorService.cs:107-137 | A tick takes the rows whose process number is positive and not alive, and the UDP rows, in any letter case, unheard of for more than 150,000,000 ticks of 100 ns; every other row stays as it is, and the result says whether any went |
| Monitor.LiveMonitorService.Sweep | src/NetScan/Services/LiveMonitorService.cs:112-137 | The loop over a snapshot of the dictionary does exactly that, removing as it goes |
| Filters.SweptRows | src/NetScan/Services/LiveMonitorService.cs:112-137 | The expired rows in plain terms: a dead process, or a UDP row older than 15 seconds; nothing else goes and nothing changes |
| Filters.LiveTableInvariant | src/NetScan/Services/LiveMonitorService.cs:163-191 | In every reachable table each row is under its own key and passes the relevance, IPv6, user and protocol filters |
| Filters.RefreshKeepsRow | src/NetScan/Services/LiveMonitorService.cs:178-188 | Copying the State of an event that failed the filters leaves a row presentable |
| Filters.UpdateKeepsEntryIff | src/NetScan/Services/LiveMonitorService.cs:161-188 | For transports other than UDP an update keeps its row exactly when it is itself relevant; with a pid of at most 100 the row goes |
| Filters.DeliveryIsTheConsumers | src/NetScan/Services/LiveMonitorService.cs:152-191 | Under the program's verdict, a delivery in the shared-object pipeline changes the rows as the consumer does, capture times aside |
| Filters.LiveRowsAreScanned | src/NetScan/Services/LiveMonitorService.cs:150-191 | No ghosts for the program's own key, rewriting and filters |
| RowRules.DeliveredCases | src/NetScan/Services/LiveMonitorService.cs:150-191 | What one event does to the table: a closed connection goes, and one that is neither relevant nor UDP; a wanted one is shown as announced; any other only brings the State and capture time of its own row up to date; no other row changes |
| RowRules.Relevant4Iff | src/NetScan/Services/LiveMonitorService.cs:270-341 | Exactly which connections with a dotted remote address are relevant: protocol, state, ports and process spelled out, first octet not 127 nor 224 to 239, not 169.254, not 0.0.0.0 nor the broadcast address |
| RowRules.Relevant6Iff | src/NetScan/Services/LiveMonitorService.cs:270-341 | The same for remote addresses without dots: not blank, ::, ::1 or *, nor beginning with ff or fe80: in any letter case |
| RowRules.MulticastIff | src/NetScan/Services/LiveMonitorService.cs:291-301 | The sixteen text prefixes are the octets from 224 to 239 |
| RowRules.PresentableIff | src/NetScan/Services/LiveMonitorService.cs:462-476 | Relevant, and passing the IPv6, user and protocol options as spelled out |
| RowRules.ProcessFilterIff | src/NetScan/Services/LiveMonitorService.cs:486-539 | Which records the process filter takes: a part of the name or the command line, a browser's names, or the word of a parent process; never one without a name |
| RowRules.BrowserIff | src/NetScan/Services/LiveMonitorService.cs:498-519 | Exactly which filters stand for which browser process names |
| RowRules.ConcreteCases | src/NetScan/Services/LiveMonitorService.cs:152-157 | 0.0.0.0 and :: are replaced by what routing says for the remote end; any other record stays as it is |
| ProgramRuns.LiveRowsArePresentable | src/NetScan/Services/LiveMonitorService.cs:107-191 | In whole runs of the shared-object pipeline under the program's verdicts, timer removals included, every live row is under its own key and passes the lasting filters |
| ProgramRuns.CollideIff | src/NetScan/Services/LiveMonitorService.cs:153-186 | Exactly which two scanned records make some run repeat itself: one flow, listed with and without its local address in different states, the second a tracked UDP flow or turned away by a user or process filter |
| ProgramRuns.UnfilteredScansAreSafe | src/NetScan/Services/LiveMonitorService.cs:175-188 | Without user and process filter, and without tracked flows of unspecified source, sharing objects never changes an event |
| ProgramRuns.SharingIsHarmlessUnlessFiltered | src/NetScan/Services/LiveMonitorService.cs:471-481 | Given one TCP connection the program lists and a user and program its filters do not recognise, sharing is harmless if and only if neither filter is set |
| ProgramRuns.FilteredTwinMisleads | src/NetScan/Services/LiveMonitorService.cs:462-484 | The same TCP flow listed without local address, in another active state, with a user or program the filters turn away, can be scanned and misleads |
| ProgramRuns.MisleadingRecordsRepeat | src/NetScan/Services/LiveMonitorService.cs:178-188 | Any two misleading records make a run announce the first again, unchanged, where a value-keeping producer would not |
| ProgramRuns.TrackedTwinRepeats | src/NetScan/Services/LiveMonitorService.cs:163-188 | The record parsed from a tracking line with an unspecified source does this to any listed UDP flow with its endpoints |
| ProgramRuns.TrackedExample | src/NetScan/Services/LiveMonitorService.cs:163-188 | One such input: with no filter set, a UDP flow from 10.0.0.5:40000 to 8.8.8.8:443 and the tracking line for it |
| ProgramRuns.FilteredExample | src/NetScan/Services/LiveMonitorService.cs:471-473 | Another: with the user filter set to alice, her TCP connection and the same one listed for bob without local address |
| Scanner.ScannedUdp | src/NetScan/Platform/Linux/LinuxNetworkScanner.cs:58-156 | A scanned UDP record is UNCONNECTED or ESTABLISHED as its peer dictates, or has no process |
| Scanner.TrackedIsParsed | src/NetScan/Platform/Linux/ProcNetParserExtended.cs:56-106 | A tracking line of a UDP flow with source 0.0.0.0 gives the record with that address, state TRACKING, no uid and no inode |
| Scanner.TrackedCanBeScanned | src/NetScan/Platform/Linux/LinuxNetworkScanner.cs:123-153 | On any host the scan reports that record with no process and no user |
| Scanner.DecodedIsListed | src/NetScan/Platform/Linux/ProcNetParser.cs:187-235 | What the decoder reads from a TCP or UDP table has the state its column or its peer dictates |
| Scanner.TcpStateOfCode | src/NetScan/Platform/Linux/ProcNetParser.cs:18-31 | The state column is the number of the state in hexadecimal, in either case; other codes are unknown |
| Scanner.StateIsFirstWord | src/NetScan/Platform/Linux/ProcNetParserExtended.cs:81-90 | The state of a tracked flow is the first word in capitals that is no number, no pair and no marker; without one it is TRACKING |
| Scanner.WildcardSocketIsListed | src/NetScan/Platform/Linux/ProcNetParser.cs:187-222 | A TCP line with an unspecified local address and any peer and state is listed as such |
| Connections.KeyInjective | src/NetScan/Services/LiveMonitorService.cs:823-826 | Keys are equal exactly when protocol, addresses and ports are, if protocol and local address hold no separator; colons do no harm |
| Connections.SeparatorBreaksKey | src/NetScan/Platform/Linux/LinuxNetworkEventSource.cs:171-174 | Two different connections with one key, once a separator may occur |
| Connections.KeyFixesLiveKey | src/NetScan/Services/LiveMonitorService.cs:153-159 | The producer's key of a record determines its key in the live table |
| FlowKeys.ResolveFlowKey | src/NetScan/Platform/Linux/Ebpf/netscan_ebpf.bpf.c:177-253 | Filling the struct through the pointer gives, on every branch, the key the destination name and socket call for; its event shows what `FlowKeys.ResolvedAddressed` says |
| FlowKeys.ResolvedAddressed | src/NetScan/Platform/Linux/Ebpf/netscan_ebpf.bpf.c:177-253 | For each kind of name and socket: the source is the socket's own address, plain, as the last four bytes or mapped; the destination is the name's address, or the peer's without a usable name; the port is 256 times its first byte plus the second, and zero for raw sockets |
| FlowKeys.KeyIsRecoverable | src/NetScan/Platform/Linux/Ebpf/netscan_ebpf.bpf.c:278-321 | The other version's slots stay zero, so an emitted event gives its key back |
| FlowKeys.SameKeyIffSameEndpoints | src/NetScan/Platform/Linux/Ebpf/netscan_ebpf.bpf.c:293-321 | Flows share a key exactly when their events show the same version, addresses and ports |
| FlowKeys.SourceSurvivesMapping | src/NetScan/Platform/Linux/Ebpf/netscan_ebpf.bpf.c:206-234 | From an IPv4 socket to a mapped IPv6 source and back, the address is unchanged |
| FlowKeys.MappedRoundTrip | src/NetScan/Platform/Linux/Ebpf/netscan_ebpf.bpf.c:208-234 | Mapping loses nothing, and exactly the mapped addresses survive the way back (section 2.5.5.2 of RFC 4291) |
| FlowKeys.NonIpKeysAreTheirOwn | src/NetScan/Platform/Linux/Ebpf/netscan_ebpf.bpf.c:799-808 | Non-IP keys tell process and socket type apart and never equal an IP flow's key |
| FlowKeys.ArpSharesRawKeyIff | src/NetScan/Platform/Linux/Ebpf/netscan_ebpf.bpf.c:1042-1048 | Exactly when an ARP message and a raw flow throttle each other |
| Probes.RunKeepsInv | src/NetScan/Platform/Linux/Ebpf/netscan_ebpf.bpf.c:80-127 | In every run both stashes, the time stamps and the ring buffer are what the history says |
| Probes.ThrottleBound | src/NetScan/Platform/Linux/Ebpf/netscan_ebpf.bpf.c:293-303 | Between evictions of a key, two passes from any hooks are the later hook's window apart, 30,000,000,000 ns for ARP and 5,000,000,000 ns otherwise, with full ring buffers anywhere |
| Probes.StampedApart | src/NetScan/Platform/Linux/Ebpf/netscan_ebpf.bpf.c:1050-1056 | In any history that obeys the probes, passes of one key are the later hook's window apart: 30 s for ARP, 5 s otherwise |
| Probes.EventsAreThrottled | src/NetScan/Platform/Linux/Ebpf/netscan_ebpf.bpf.c:293-324 | The same for emitted events, by what they show |
| Probes.SuppressionExplained | src/NetScan/Platform/Linux/Ebpf/netscan_ebpf.bpf.c:294-298 | A suppressed flow has a latest pass inside the window |
| Probes.FullBufferLosesReport | src/NetScan/Platform/Linux/Ebpf/netscan_ebpf.bpf.c:299-303 | With the ring buffer full, a report that is due is lost and still stamps its flow |
| Probes.LostReportSilencesFlow | src/NetScan/Platform/Linux/Ebpf/netscan_ebpf.bpf.c:294-303 | After any run that just lost a report, and through any further steps without an eviction, no hook gets that flow past the throttle before its own window has passed since the loss |
| Probes.ShownAgainIff | src/NetScan/Platform/Linux/Ebpf/netscan_ebpf.bpf.c:294-324 | With room and a report due, the flow is shown again exactly when the window since its last pass is over |
| Probes.ExitShowsWhatIsDue | src/NetScan/Platform/Linux/Ebpf/netscan_ebpf.bpf.c:255-325 | After any run an exit probe adds exactly the event the history calls for, read from the memory behind the pointers its thread stashed last |
| Probes.ReportCarriesLastEntry | src/NetScan/Platform/Linux/Ebpf/netscan_ebpf.bpf.c:259-321 | If an exit probe adds an event, its protocol, addresses, both ports, user, process and time are spelled out from the memory of the socket and message of the last call its thread entered, whatever nested, failed or overflowed before |
| Probes.ReportIsSentIff | src/NetScan/Platform/Linux/Ebpf/netscan_ebpf.bpf.c:255-325 | Exactly when it adds one: the call succeeded, its thread's last entry names a socket the hook has something to say about, there is room, and the flow did not pass within the last five seconds |
| Probes.ArpShows | src/NetScan/Platform/Linux/Ebpf/netscan_ebpf.bpf.c:1038-1071 | When an ARP message is sent out, and every field of its event |
| Probes.StashIsBounded | src/NetScan/Platform/Linux/Ebpf/netscan_ebpf.bpf.c:114-119 | The stash never holds more than 4096 threads |
| Probes.EntryIsKept | src/NetScan/Platform/Linux/Ebpf/netscan_ebpf.bpf.c:390-399 | An entry is kept unless the stash is full of other threads' |
| Probes.PassIsFed | src/NetScan/Platform/Linux/Ebpf/netscan_ebpf.bpf.c:259-267 | Every pass of a flow through the throttle was fed by a stored entry of its thread |
| Probes.EntryFeedsOneReport | src/NetScan/Platform/Linux/Ebpf/netscan_ebpf.bpf.c:259-267 | Each stashed entry feeds at most one report |
| Probes.ConnectStashDiscipline | src/NetScan/Platform/Linux/Ebpf/netscan_ebpf.bpf.c:552-593 | The connect stash names only threads inside a connect call, and a connect exit adds exactly the event in the memory of the socket its thread is connecting |
| Probes.ConnectTells | src/NetScan/Platform/Linux/Ebpf/netscan_ebpf.bpf.c:562-593 | Exactly when a connect exit adds an event, and its fields: the socket's own addresses and ports |
| Probes.ExitLeavesEntryIff | src/NetScan/Platform/Linux/Ebpf/netscan_ebpf.bpf.c:257-265 | A send or receive exit leaves its thread's entry behind exactly when the call failed |
| ProbeProgram.NetscanEbpf.MessageEntry | src/NetScan/Platform/Linux/Ebpf/netscan_ebpf.bpf.c:390-399 | The entry probe's step, with the capacity of the stash |
| ProbeProgram.NetscanEbpf.TakeStashed | src/NetScan/Platform/Linux/Ebpf/netscan_ebpf.bpf.c:259-265 | Lookup and delete of the thread's own entry only |
| ProbeProgram.NetscanEbpf.ThrottleAndEmit | src/NetScan/Platform/Linux/Ebpf/netscan_ebpf.bpf.c:293-324 | Throttle, stamp, reserve, emit: the machine's pass through the flow table |
| ProbeProgram.NetscanEbpf.ProcessSendmsgExit | src/NetScan/Platform/Linux/Ebpf/netscan_ebpf.bpf.c:255-325 | The send exit probe, reading through the stashed pointers, takes exactly the machine's step |
| ProbeProgram.NetscanEbpf.ProcessRecvmsgExit | src/NetScan/Platform/Linux/Ebpf/netscan_ebpf.bpf.c:331-386 | The receive exit probe, reading through the stashed pointers, takes exactly the machine's step |
| ProbeProgram.NetscanEbpf.ProcessNonIpExit | src/NetScan/Platform/Linux/Ebpf/netscan_ebpf.bpf.c:786-834 | The non-IP exit probe, reading through the stashed socket, takes exactly the machine's step |
| ProbeProgram.NetscanEbpf.TraceArpSend | src/NetScan/Platform/Linux/Ebpf/netscan_ebpf.bpf.c:1038-1071 | The ARP probe takes exactly the machine's step |
| ProbeProgram.NetscanEbpf.TraceConnectEntry | src/NetScan/Platform/Linux/Ebpf/netscan_ebpf.bpf.c:552-560 | The connect entry probe takes exactly the machine's step |
| ProbeProgram.NetscanEbpf.TraceConnectExit | src/NetScan/Platform/Linux/Ebpf/netscan_ebpf.bpf.c:562-593 | The connect exit probe, reading through the stashed socket, takes exactly the machine's step |
| Startup.StartupConverges | src/NetScan/Platform/Linux/Ebpf/EbpfNetworkEventSource.cs:137-229 | For every interleaving of the kernel with attaching, ring creation, the looks of the scan, writing and polling: while polling, what was heard and what waits in the ring add up to the connections the kernel's own operations left open |
| Startup.RunKeepsInv | src/NetScan/Platform/Linux/Ebpf/EbpfNetworkEventSource.cs:141-218 | In every run the log holds everything since the hooks were attached, and the scan and each of its looks came later |
| Startup.PollingConverges | src/NetScan/Platform/Linux/Ebpf/EbpfNetworkEventSource.cs:202-229 | The convergence itself, from that invariant; the kernel's operations are given, and the record of each is an open or close record as the hooks write them |
| Startup.HeardAsMeant | src/NetScan/Platform/Linux/Ebpf/EbpfNetworkEventSource.cs:433-455 | The callback makes of a hook's record exactly the operation it was written for: connect, accept and state records open, close records close, others mean nothing |
| Startup.OpenIff | src/NetScan/Platform/Linux/Ebpf/EbpfNetworkEventSource.cs:437-449 | A connection is open exactly when the last operation on it opened it |
| Startup.EbpfNetworkEventSource.EbpfPollLoop | src/NetScan/Platform/Linux/Ebpf/EbpfNetworkEventSource.cs:137-229 | The loop in the order of the code, with the kernel active before each of its actions: nothing is written if a step before the scan fails; otherwise channel and ring add up to the kernel's open connections |
| Startup.EbpfNetworkEventSource.Scan | src/NetScan/Platform/Linux/Ebpf/EbpfNetworkEventSource.cs:202-205 | The scan's result is what was open at each of its looks |
| Startup.EbpfNetworkEventSource.PollRingBuffer | src/NetScan/Platform/Linux/Ebpf/EbpfNetworkEventSource.cs:215-222 | A poll takes the oldest records, at most its limit, and writes what they say in order |
| Startup.EbpfNetworkEventSource.HandleEbpfEvent | src/NetScan/Platform/Linux/Ebpf/EbpfNetworkEventSource.cs:406-447 | The callback takes the oldest record and writes the operation it was written for, or nothing |
| Startup.SnapshotPlusLog | src/NetScan/Platform/Linux/Ebpf/EbpfNetworkEventSource.cs:202-229 | From the scan's end on, snapshot and log agree with the kernel after every operation |
| Startup.ConvergesIffAttachedFirst | src/NetScan/Platform/Linux/Ebpf/EbpfNetworkEventSource.cs:141-203 | This holds for all histories if and only if no connection is looked at before the hooks are attached |
| Csv.Export | src/NetScan/Services/Exporters/CsvExporter.cs:26-47 | An RFC 4180 reader turns the file back into a header of eleven names and one line per connection in which the field under each name is the connection's field of that name, numbers read as numbers |
| Csv.NamedFields | src/NetScan/Services/Exporters/CsvExporter.cs:29-46 | The same for one line, looked up by the names of the columns |
| Csv.AppendRow | src/NetScan/Services/Exporters/CsvExporter.cs:36-46 | One row as appended cell by cell, escaped cells and raw cells |
| Csv.ReadEscaped | src/NetScan/Services/Exporters/CsvExporter.cs:55-66 | An escaped field is read back whatever characters it holds |
| Csv.FileRoundTrip | src/NetScan/Services/Exporters/CsvExporter.cs:26-47 | Reading a written file gives its rows back (section 2 of RFC 4180, with LF line ends) |
| Csv.FilesTellTablesApart | src/NetScan/Services/Exporters/CsvExporter.cs:26-47 | Different tables never give the same file |
| Csv.RowFixesFields | src/NetScan/Services/Exporters/CsvExporter.cs:36-46 | A row fixes every exported field |
| Csv.HeaderText | src/NetScan/Services/Exporters/CsvExporter.cs:29 | The header, written without escaping, is the escaped row of the column names |
| DnsSearch.Resolve | src/NetScan/Services/DnsAddressResolver.cs:84-166 | Each slot ends as the connection's own address or the first acceptable one in reverse, exact, base and www answers, although lookups are skipped; an address without a colon is in the IPv4 slot and its alternate is the IPv6 slot, one with a colon the other way round; failure exactly when a lookup that mattered fails |
| DnsSearch.TryResolveAddresses | src/NetScan/Services/DnsAddressResolver.cs:238-265 | One lookup fills each open slot with the first acceptable address and never overwrites a known one |
| DnsSearch.FillSlots | src/NetScan/Services/DnsAddressResolver.cs:112-118 | The address loop in terms of the first acceptable address of each family |
| DnsSearch.ReverseStep | src/NetScan/Services/DnsAddressResolver.cs:88-123 | The own slot, by the colon in the address, the host name and what the reverse answer adds |
| DnsSearch.ForwardSteps | src/NetScan/Services/DnsAddressResolver.cs:125-153 | The skipped lookups lose nothing |
| DnsSearch.SkipRepeated | src/NetScan/Services/DnsAddressResolver.cs:137-149 | A name equal, case aside, to one already asked for adds nothing |
| DnsSearch.SkipRest | src/NetScan/Services/DnsAddressResolver.cs:126-146 | With both slots filled no further name changes anything |
| DnsSearch.ExpectedIsOwnEntry | src/NetScan/Services/DnsAddressResolver.cs:155-192 | The result has its key in the slot of its family, by the colon in the key, the alternate is the other slot, and the flag says whether both are filled |
| DnsSearch.BothKinds | src/NetScan/Services/DnsAddressResolver.cs:88-100 | 8.8.8.8 ends in the IPv4 slot, 2001:db8::1 in the IPv6 slot |
| DnsSearch.OrderOfPreference | src/NetScan/Services/DnsAddressResolver.cs:102-153 | The alternate is the first acceptable address of the reverse answer, then of the host name, its base domain and www under that |
| DnsSearch.FirstOfIff | src/NetScan/Services/DnsAddressResolver.cs:238-265 | Which address of an answer is taken: the first of the family, link-local IPv6 ones not counting |
| DnsSearch.FailedSearch | src/NetScan/Services/DnsAddressResolver.cs:179-193 | After a failed reverse lookup only the own slot is filled |
| DnsSearch.BaseDomainIsSuffix | src/NetScan/Services/DnsAddressResolver.cs:272-290 | The base domain is the last two or three labels of the trimmed host name, cut at a dot |
| DnsSearch.BaseDomainIff | src/NetScan/Services/DnsAddressResolver.cs:272-290 | Which names have a base domain, and when it has three labels |
| DnsSearch.BaseDomainIdempotent | src/NetScan/Services/DnsAddressResolver.cs:272-290 | The base domain of a base domain is itself |
| DnsSearch.WwwLeadsBackIff | src/NetScan/Services/DnsAddressResolver.cs:146-152 | The www name leads back to the base domain exactly when that is not two short labels |
| DnsCache.RunKeepsInv | src/NetScan/Services/DnsAddressResolver.cs:50-74 | In any interleaving, and whatever DNS says while a search runs: one resolution per address, the guard is exactly the set in flight, starts and ends balance, every entry is sound |
| DnsCache.AnswersAreSound | src/NetScan/Services/DnsAddressResolver.cs:56-62 | A caller is given the cached entry while it is fresh; it is about its own address, in the slot of that address's family, or a complete dual-stack result of an address DNS listed |
| DnsCache.ServedIff | src/NetScan/Services/DnsAddressResolver.cs:52-62 | Exactly when an entry is served: for 300,000 ms if it is dual-stack or has a host name, for 60,000 ms otherwise, and never for a blank address |
| DnsCache.EntriesAreOwn | src/NetScan/Services/DnsAddressResolver.cs:84-198 | Every entry that is not shared has its key in the slot of the key's family and the other slot as its alternate |
| DnsCache.TryAddAllAdds | src/NetScan/Services/DnsAddressResolver.cs:205-226 | Sibling caching adds exactly the missing addresses and replaces nothing |
| DnsCache.SiblingsAre | src/NetScan/Services/DnsAddressResolver.cs:205-226 | Exactly which addresses are siblings of a host name: those listed for it, and for its base domain if the first lookup succeeded |
| DnsCache.ResolvedAt | src/NetScan/Services/DnsAddressResolver.cs:168-177 | The cache after a resolution, address by address: the result under its own address, and under siblings without an entry if it is dual-stack with a host name; nothing else changes |
| DnsCache.UndisturbedResolution | src/NetScan/Services/DnsAddressResolver.cs:168-197 | The machine's steps, uninterrupted, leave the cache and guard the method leaves |
| DnsCache.DnsAddressResolver.GetOrStartResolve | src/NetScan/Services/DnsAddressResolver.cs:50-74 | The call is the machine's three steps; without an answer the address is in flight and not cached |
| DnsCache.DnsAddressResolver.PreCacheSiblingIps | src/NetScan/Services/DnsAddressResolver.cs:205-232 | The loops add the addresses of host name and base domain, the first failure ending the attempt |
| DnsCache.DnsAddressResolver.ResolveAsync | src/NetScan/Services/DnsAddressResolver.cs:84-198 | The whole resolution: entry stored, siblings added, guard released |
| AnsiText.GetVisibleLength | src/NetScan/Services/LiveMonitorService.cs:874-895 | The number of characters outside escapes |
| AnsiText.PadOrTruncateAnsi | src/NetScan/Services/LiveMonitorService.cs:897-946 | What the cell shows, and that its width is exact if and only if neither exception applies |
| AnsiText.Truncated | src/NetScan/Services/LiveMonitorService.cs:908-945 | The cut cell is a prefix of the text, an ellipsis and a reset, outside any escape |
| AnsiText.DualStackFits | src/NetScan/Services/LiveMonitorService.cs:847-872 | What the reader sees in the dual-stack column for every answer: the other family's address behind its label, or the only family; the column is 48 wide and never cut, if DNS texts hold no escape |
| ProcNet.ParseStandard | src/NetScan/Platform/Linux/ProcNetParser.cs:169-185 | The records of all lines but the first, in order, others dropped |
| ProcNet.LineRoundTrip | src/NetScan/Platform/Linux/ProcNetParser.cs:187-222 | Any socket printed in the ten columns with any padding is parsed back column by column: both addresses, mapped ones as IPv4, both ports, state, and uid and inode as far as they fit, -1 otherwise |
| ProcNet.NumbersSurviveIff | src/NetScan/Platform/Linux/ProcNetParser.cs:203-209 | The uid comes back exactly when it fits a signed 32-bit number, the inode exactly when it fits 64 bits |
| ProcNet.TableRoundTrip | src/NetScan/Platform/Linux/ProcNetParser.cs:169-185 | A whole table is read back, with lines that hold no record in between |
| ProcNet.TableReadBack | src/NetScan/Platform/Linux/ProcNetParser.cs:169-185 | One record per printed socket, in order, each equal to its socket column by column |
| ProcNet.HexInEitherCase | src/NetScan/Platform/Linux/ProcNetParser.cs:650-657 | Hexadecimal digits mean the same in either case |
| ProcNet.EndpointRoundTrip | src/NetScan/Platform/Linux/ProcNetParser.cs:637-648 | Address and port of either family through the hexadecimal form |
| ProcNet.ParseHexIPv6 | src/NetScan/Platform/Linux/ProcNetParser.cs:659-680 | The byte-filling loop computes the word-by-word address, mapped ones as IPv4 |
| ProcNet.IPv4RoundTrip | src/NetScan/Platform/Linux/ProcNetParser.cs:650-657 | Little-endian hexadecimal words give the address bytes back |
| ProcNet.IPv6RoundTrip | src/NetScan/Platform/Linux/ProcNetParser.cs:659-680 | The same word by word for all sixteen bytes |
| ProcNet.MappedReadsAsIPv4 | src/NetScan/Platform/Linux/ProcNetParser.cs:674-677 | A mapped peer reads as in the IPv4 table |
| ProcNet.LineTokens | src/NetScan/Platform/Linux/ProcNetParser.cs:189-193 | Trimming and splitting find the columns however they are padded |
| Display.ReductionIsSound | src/NetScan/Services/LiveMonitorService.cs:675-692 | No two rows of one group, no shadowed row, and every live remote address, and every named group, keeps a row |
| Display.ReductionIsIdempotent | src/NetScan/Services/LiveMonitorService.cs:677-692 | Reducing again changes nothing |
| Display.RowsAre | src/NetScan/Services/LiveMonitorService.cs:675-692 | Exactly which connections get a row: the first of each protocol, remote address and process name, unless its process is unknown and the first of another group names one for the same remote address |
| Display.SortedIsSound | src/NetScan/Services/LiveMonitorService.cs:727-733 | The sort is newest first, then established, then by protocol, then by local port, field by field; it is a permutation, and stable |
| Display.ShownBeforeHidden | src/NetScan/Services/LiveMonitorService.cs:727-759 | Shown and hidden rows make up the reduced rows, as many are shown as fit, and nothing hidden belongs above anything shown, field by field |

## Left out

- Pipeline.NoGhosts: compares keys and State only; pid, name and capture time may lag, because a scan that changes only those emits nothing.
- Pipeline.NoGhosts: the routing lookup behind wildcard rewriting is a fixed function here; a route that changes between two events can leave a row behind.
- Filters.LiveTableInvariant: does not cover the process filter, whose answer depends on parent processes and may change after a row was stored; the lookups of parents are an arbitrary answer per event.
- Filters.RefreshKeepsRow: the table of daemon names is an arbitrary predicate of the name, with pids up to 100 always counted as background.
- Monitor.LinuxNetworkEventSource.PerformReconciliationScan: the channel is a value handed in and out, so the method shows no interleaving with the consumer; the interleavings are those of the Pipeline module.
- Monitor.LiveMonitorService.CleanUp: process liveness and the clock are parameters; concurrent changes of the dictionary during the loop are timer steps of the Pipeline module.
- Probes.ThrottleBound: each probe is one atomic step; two processors racing between lookup and update of one flow are not modelled.
- Probes.ReportCarriesLastEntry: memory is what it is at the moment of the exit; a socket freed and reused during the call shows its new contents, as in the code.
- Startup.StartupConverges: assumes that no record is dropped and that a connection open during the whole scan is looked at; exceptions and cancellation are not modelled. With IPv6 switched off, read it for IPv4 connections: scan and callback leave the others out.
- ProgramRuns.CollideIff: process and user lookups are those of an arbitrary host, parent lookups an arbitrary answer per event, and routing gives texts without separator.
- Scanner.ScannedUdp: of the remaining parsers only the protocols, and that MPTCP rows have no ports, are modelled; loopback and IPv6 rows a scan leaves out are not taken out here.
- Csv.Export: the text only; the byte order mark, path handling and cancellation are not modelled, and the round-trip time stamp is any text without special characters.
- DnsSearch.Resolve: DNS does not change during one search; the cache's results do not rest on that.
- DnsCache.RunKeepsInv: nothing is said of AlternateAddress in entries shared among siblings, which need not suit the sibling's family.
- AnsiText.PadOrTruncateAnsi: widths are natural numbers (the only caller passes 48); characters are counted, not UTF-16 units or display columns.
- ProcNet.LineRoundTrip: the state column is kept as raw text here, and the text form of addresses is not modelled.
- Display.ShownBeforeHidden: protocol names are compared by an arbitrary ranking; the window-height arithmetic and the "more connections" count are not modelled.
- Case folding covers the ASCII letters and blanks the ASCII blanks; culture-dependent prefix tests are ordinal.
- The fallback scanner of the eBPF source repeats the reconciler's algorithm and is not modelled again.
- Hooks that emit without a stash or throttle, the mapping of kernel records to display fields, and the rest of the extended parsers would only add easy members.
- File reading, libbpf calls, kernel attachment, console output, JSON export, command-line parsing and process-name lookup are inputs or absent.

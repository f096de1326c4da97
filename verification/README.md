# Verification of the inverter diagnostics backend

The backend talks Modbus to a solar inverter and streams register values to browser clients.
This project models its five cores in Dafny and proves what holds over whole runs of them.

* **Batch planner and reader** (`Registers`, `BatchPlanner`, `BatchPlanTheorems`, `BatchLimits`, `RegisterMaps`,
  `ReadCycle`, `CycleTheorems`, `CycleData`, `CycleReports`). Probes are sorted and merged greedily into spans that one
  request reads; a read cycle fetches spans and cuts the probes out, or falls back to reading them one by one. The plan
  is proved to cover exactly the requested registers, to need no more requests than any other way of reading them, and
  the cycle to agree with reading each probe alone; `RegisterMaps` applies this to register maps of the repository.
* **Span degradation** (`SpanTracker`, `TrackerRuns`, `CancelledCycles`). The tracker is driven by the read cycle;
  recovery of a live span and the cost of a dead one are proved over runs of cycles, whatever other spans do, and the
  effect of a cancelled cycle on every record is determined.
* **Broker** (`Backoff`, `BrokerModel`, `Broker`, `BrokerTheorems`). A serialized command machine with reconnecting,
  retries and read spacing.
* **Modbus codec** (`WordBits`, `Crc`, `Streams`, `ModbusTcp`, `ModbusRtu`). CRC-16 as in MODBUS over Serial Line
  V1.02 section 6.2.2, MBAP framing as in MODBUS Messaging on TCP/IP V1.0b section 3.1.3, function codes and
  exceptions as in MODBUS Application Protocol V1.1b3 sections 6.3, 6.12 and 7.
* **Broker and codec together** (`Framing`). Where in the byte stream of a device the requests of a broker's run begin,
  and which reply each answer comes from.
* **Hub** (`Battery`, `Pv`, `HubModel`, `Hub`, `HubTheorems`, `HubResults`, `HubDetection`, `HubSteps`, `HubClients`,
  `HubReads`). Clients, subscriptions, read contexts and cached plans, one event at a time. Beside the invariants of all
  runs there are tables, written down independently of the handlers, of what each event starts, sends, selects, cancels
  and resets; the handlers are proved to do exactly that.

## How it is built

Code that changes state is a class or a method with loops (`SpanTracker`, `SectionReader`, `Backoff`, `Broker`,
`Conn`, `Hub`, the planner, the codec). Each of its methods is proved to compute a function on values; the theorems
are about those functions, over every input and every run.

What the code cannot decide is a parameter: broker replies, dial results, durations, aborts, deadlines, cancellation
and the chunks a socket delivers are functions of a counter of outside events. The result of the unstable library sort
is any ascending permutation, so a section has many possible plans, and every theorem holds for all of them. Maps of
clients and sections are traversed in arbitrary order.

`NoWrap` says that 16-bit end addresses and counts wrap without harm: probes lie within the 65536 registers, one that
reads the last register overlaps no other, and either some register is not asked for, or overlapping probes are nested
and what lies below the last probe does not fit one span. `Nested` says that a probe that starts inside another one ends
inside it. `Alive(env, span)` says that the batch read of this span and its probes' own reads work, and nothing of other
spans. `TrackerOk` says that the tracker's counters fit its states; it holds in every reachable state
(`CycleTheorems.ReachableConsistent`). `Monotone` says that a cancelled context stays cancelled. `HubTheorems.Good`
collects the hub's invariants, which every run keeps (`HubTheorems.EveryRunGood`).

## Where the code falls short of its documentation

Each of these is proved, with the exact condition where there is one.

* The limit of 60 registers is not checked when a probe outgrows the one it overlaps: `OverlapExceedsLimit` plans a
  span of 119. Nested overlaps keep it (`LimitExact`), among them the one in the "system" section
  (`SystemOverlaps`, `SystemPlannedBest`). `PlanLimitExact` is the exact condition for all probes. The order in which
  the sort leaves probes of one address can decide (`OrderDecides`).
* The end address of a probe that reads register 0xFFFF wraps to 0, and if another probe overlaps it two spans may share
  a start address (`WrapBreaksDisjointness`); a span over the whole register space has a wrapped length of 0
  (`WholeSpaceVanishes`). `CoverExactlyWhen` is the exact condition.
* A probe whose address occurs again later in its section does not get its result (`BatchRefinesIndividual`).
* A cancelled cycle may change the tracker. A batch read that is merely cancelled counts as a failure, so three such
  cycles degrade a healthy span (`CancelledReadCounts`, `CancellationDegrades`), and a cycle cancelled just behind a
  working batch read clears the failures of the span while reporting nothing (`CancelledReadClears`).
  `LeftAloneExactly` and, for a whole cycle, `CycleSpares` say when a record is left alone.
* The RTU reader expects six bytes of an exception reply that has five, and takes a CRC byte for its code
  (`ExceptionMisread`, `ExceptionReadRightly`). Over RTU an illegal address is therefore never recognised as such: no
  exception reply to a read whose CRC is right can pass as one (`NeverIllegalAddress`, `SoundRequests`), only one whose
  CRC is wrong (`SlipsExactly`), and then the connection is kept one byte into the next reply.
* Writes are retried even for an illegal address, and drop the connection (`WriteContract`).
* Reconnect delays double up to the cap only if the base does not exceed it (`DelaysExact`).
* Readers that detect the same change of the battery's channel count before the hub handles the first rebuild each cause
  a rebuild (`TwoRebuildsReached`, `RebuildsExactly`).
* From the tenth channel on, battery probes share addresses (`DistinctExactly`); auto-detection accepts eight.
* The hub does not check that the sender of a command is still registered: a subscription queued before its client
  was removed sends on a closed channel (`LateSubscriptionPanics`, `PanicExact`).

## Model

| member | source | states |
|---|---|---|
| BatchPlanner.AnalyzeBatchPlan | internal/register/batch.go:44-156 | the returned plan merges some ascending permutation of the non-synthetic probes and lists the synthetic ones in order |
| BatchPlanner.Classify | internal/register/batch.go:50-68 | the two loops separate real from synthetic probes of all groups, keeping the order of each |
| BatchPlanner.MergeSorted | internal/register/batch.go:74-150 | the merge loop with its overlap, contiguous and gap branches computes the fold that the planning theorems are about |
| BatchPlanner.SortByAddr | internal/register/batch.go:70-73 | the sort yields an ascending permutation, and nothing more is known of it |
| Registers.SplitPreservesProbes | internal/register/batch.go:50-68 | separating real from synthetic probes loses and invents none |
| Registers.SplitKeepsOrder | internal/register/batch.go:50-68 | the synthetic probes are exactly those without registers, in the order in which the section declares them |
| BatchPlanTheorems.MergeGood | internal/register/batch.go:88-150 | whatever sorted probes are merged, every span is gap-free, every probe sits at its byte offset inside its span, and the spans together hold the probes in order |
| BatchPlanTheorems.ExactCover | internal/register/batch.go:39-156 | spans ascend strictly and are disjoint, their registers are exactly the requested ones, and the multiset of probes with their groups is preserved |
| BatchPlanTheorems.CoverExactlyWhen | internal/register/batch.go:39-156 | if overlapping probes are nested, the plan covers them in this sense if and only if `NoWrap` holds |
| BatchPlanTheorems.SmallProbesNoWrap | internal/register/batch.go:7-9 | for probes of at most 60 registers that do not overlap, `NoWrap` says only that they lie within the 65536 registers, the last one included |
| BatchPlanTheorems.WrapBreaksDisjointness | internal/register/batch.go:89-91 | two overlapping probes of the last register get two spans with the same start address |
| BatchPlanTheorems.WholeSpaceVanishes | internal/register/batch.go:106-132 | two probes that are the halves of the register space get one span whose length wraps to 0 |
| BatchPlanTheorems.LimitExact | internal/register/batch.go:7-9 | spans of at most 60 registers mean probes of at most 60; if overlapping probes are nested the converse holds as well |
| BatchPlanTheorems.OverlapExceedsLimit | internal/register/batch.go:91-105 | two probes of 60 registers, the second starting inside the first and ending behind it, are planned as one span of 119 |
| BatchLimits.LimitByBlocks | internal/register/batch.go:88-150 | sorted probes, however they overlap, are planned within 60 registers if and only if no block of overlapping probes is longer, alone or behind the blocks it joins because its first probe still fits |
| BatchLimits.FitExactly | internal/register/batch.go:106-132 | that is, if and only if there is no single block that ends too far behind the start of the span it belongs to |
| BatchLimits.PlanLimitExact | internal/register/batch.go:39-156 | so every plan of a section is within the limit exactly if the blocks of its probes, in the order in which the planner took them, fit |
| BatchLimits.OrderDecides | internal/register/batch.go:70-73 | the same three probes are planned within the limit or beyond it, depending on the order in which the sort leaves two of one address |
| BatchPlanTheorems.GreedyIsOptimal | internal/register/batch.go:88-150 | no set of gap-free ranges of at most 60 registers that serves every probe whole is smaller than the plan |
| BatchPlanTheorems.PlanServes | internal/register/batch.go:88-150 | a plan within the limit is itself such a set, so the minimum is attained |
| RegisterMaps.StatisticsGroups | internal/register/statistics.go:7-50 | the loops build the last two groups of the system section, interleaved at stride four |
| RegisterMaps.SystemOverlaps | internal/register/system.go:6-11 | the system section has probes that overlap |
| RegisterMaps.SystemPlannedBest | internal/register/system.go:5-39 | its plan keeps every span within 60 registers, serves every probe, and no fewer requests of at most 60 registers could |
| RegisterMaps.BmsPlannedBest | internal/register/battery.go:52-90 | the same for the BMS overview section |
| RegisterMaps.SinglesPlannedBest | internal/register/batch.go:39-156 | the same for every section of single registers that ends below the last register, repeated addresses included |
| RegisterMaps.BatteryPlannedBest | internal/register/battery.go:10-48 | hence for the battery section up to nine channels |
| RegisterMaps.PvPlannedBest | internal/register/pv.go:9-30 | and for the PV section of every channel count |
| ReadCycles.BuildIndex | internal/hub/hub_streaming.go:96-100 | the index maps an address to the last probe that has it |
| ReadCycles.SectionReader.ReadSpanIndividualFallbackAccum | internal/hub/hub_streaming.go:48-83 | reads, stores and reports each probe in order, stops at a cancellation, and says whether all reads failed |
| ReadCycles.SectionReader.ExtractProbes | internal/hub/hub_streaming.go:169-192 | cuts each probe's bytes out of the response, or reports a short response |
| ReadCycles.SectionReader.ReadSpan | internal/hub/hub_streaming.go:106-193 | one round of the span loop: skip, individual reads, or a batch read with fallback, with the tracker updated as the code does |
| ReadCycles.SectionReader.ReadBatchSpans | internal/hub/hub_streaming.go:89-203 | the whole cycle: final tracker, messages, requests, results, and none on cancellation |
| CycleData.SliceIsRead | internal/register/batch.go:11-17 | for any register memory the slice of a span's response at a probe's offset is in bounds and equals the response to that probe's own read |
| CycleData.CycleFaithful | internal/hub/hub_streaming.go:89-203 | whatever mixture of states and failures, an uncancelled cycle reports for each probe the bytes of its own read or the error its own request got during this cycle, never a short response, and stores what it reports |
| CycleData.BatchRefinesIndividual | internal/hub/hub_streaming.go:96-200 | a cycle of successful reads fills every real probe's slot with its individual result if and only if no real probe shares its address with a later entry |
| CycleReports.SpanReports | internal/hub/hub_streaming.go:48-193 | for replies of any length, an uncancelled round over an attempted span sends one message per probe in order: its own part of the span's response, or "short response" if that does not reach to its end, or, without such a response, what its own read got, byte by byte or error by error |
| CycleReports.ShortExactly | internal/hub/hub_streaming.go:169-192 | for the spans of a plan a probe is reported as short if and only if the response ends before the probe's last register, and otherwise as two bytes per register from its own offset on |
| CycleReports.SpanStores | internal/hub/hub_streaming.go:48-193 | the slot of an address is overwritten by the last probe there that got something, and is unchanged by one reported as short |
| CycleReports.CycleReportsSpan | internal/hub/hub_streaming.go:89-203 | in a whole cycle these are the messages at their place among all |
| CycleTheorems.SpanPassComplete | internal/hub/hub_streaming.go:106-193 | an uncancelled round takes exactly one step of its own span's record, decided by the replies to this span's batch read and to its probes' own reads, and reports each probe once, or none if the span is skipped and not probed |
| CycleTheorems.SpanPassKeepsOk | internal/hub/hub_streaming.go:106-193 | a round, cancelled or not, keeps the tracker consistent and touches no other span |
| CycleTheorems.MessageConservation | internal/hub/hub_streaming.go:48-203 | an uncancelled cycle emits exactly one message per probe of every attempted span, in address order; a cancelled one a prefix of that |
| CycleTheorems.ExpectedExactly | internal/hub/hub_streaming.go:117-134 | the reported probes are exactly those placed in a span that is not skipped or is being probed |
| CycleTheorems.PassRecord | internal/hub/hub_streaming.go:106-193 | in a whole cycle each span's record takes the step decided by the replies to its own requests, the first of them sent right after the cycle comes to that span |
| CycleTheorems.ReachableConsistent | internal/hub/batch.go:81-138 | after any sequence of cycles and resets: Normal means below the threshold and no individual failures, Degraded at most one, Skipped exactly two |
| CycleTheorems.SuccessResets | internal/hub/batch.go:81-92 | in a consistent tracker the guarded reset clears the span's record completely and no other |
| CycleTheorems.SuccessResetsExactly | internal/hub/batch.go:81-92 | in any tracker the record ends up clear if and only if the guard held or there was nothing to clear |
| CycleTheorems.ProbeSchedule | internal/hub/batch.go:142-164 | after any cycles and resets, a span that is not Normal is probed in every tenth cycle since the last reset, cancelled cycles counted |
| CycleTheorems.ResetForgets | internal/hub/batch.go:159-164 | a reset makes every span Normal without failures and restarts that schedule |
| SpanTrackers.SpanTracker.RecordSuccess | internal/hub/batch.go:81-92 | new state of all maps after a success |
| SpanTrackers.SpanTracker.RecordFailure | internal/hub/batch.go:98-107 | new state after a batch failure, and whether the span is degraded |
| SpanTrackers.SpanTracker.RecordIndividualFailure | internal/hub/batch.go:130-138 | new state after individual reads all failed, and whether the span is skipped |
| SpanTrackers.SpanTracker.Reset | internal/hub/batch.go:159-164 | the tracker is as new, with its threshold |
| TrackerRuns.RunRecord | internal/hub/hub_streaming.go:102-193 | over any run of uncancelled cycles a span's record evolves on its own, one step per cycle, each decided by the replies to the requests it sends in that cycle, and it is attempted as often as its record says |
| TrackerRuns.OutcomesExactly | internal/hub/hub_streaming.go:102-193 | the i-th of these outcomes is that of the i-th cycle's own requests, the cycle beginning where the first i cycles have ended |
| TrackerRuns.RecoveryExact | internal/hub/batch.go:142-155 | when a span's own reads work, whatever becomes of other spans, it is Normal after n cycles if and only if it was not skipped (and n > 0) or one of them was a probe cycle |
| TrackerRuns.RecoveryBound | internal/hub/batch.go:142-155 | from any consistent tracker ten cycles bring every live span of the plan back to Normal, even next to dead ones |
| TrackerRuns.DeadSpanExact | internal/hub/hub_streaming.go:106-158 | a span all of whose reads fail is Skipped after n cycles if and only if n has reached a computed number |
| TrackerRuns.FreshSkippedBy | internal/hub/batch.go:34-41 | for a fresh span that number is two or three above the threshold, at most six by default |
| TrackerRuns.SkippedOneInTen | internal/hub/batch.go:146-155 | in any run of ten uncancelled cycles a skipped dead span is attempted exactly once |
| TrackerRuns.RunCost | internal/hub/hub_streaming.go:106-158 | over any run, cancelled cycles included, the broker requests for a span's registers are at most one per probe and one for the span in each cycle that attempts it |
| TrackerRuns.DeadSpanCost | internal/hub/hub_streaming.go:106-158 | so a fresh dead span costs at most that price times threshold + 3 + (n + 9) / 10 over n cycles |
| CancelledCycles.SpanPassCut | internal/hub/hub_streaming.go:106-167 | what a cancelled round does to the tracker: nothing if the context was done at its start or no batch read was due, otherwise the failure or success of the batch read is recorded; behind a success nothing is reported |
| CancelledCycles.LeftAloneExactly | internal/hub/hub_streaming.go:106-167 | a cancelled round leaves its span's record alone if and only if the context was done at its start, or no batch read was due, or it worked and there was nothing to clear |
| CancelledCycles.PassCut | internal/hub/hub_streaming.go:102-193 | a cancelled loop over the spans is the uncancelled loop over the spans before one of them, followed by a cancelled round for that one |
| CancelledCycles.CycleCutTracker | internal/hub/hub_streaming.go:89-203 | a whole cancelled cycle leaves the tracker those spans left, with the outcome of that one's batch read recorded if one was sent; behind one that worked it reports nothing more |
| CancelledCycles.CycleCut | internal/hub/hub_streaming.go:89-203 | record by record: spans before that one take their full step, it is cut as above, those behind it are left alone, each decided by the context and the replies from the moment the cycle comes to the span |
| CancelledCycles.CycleSpares | internal/hub/hub_streaming.go:89-203 | a cancelled cycle leaves a span's record alone if and only if it was cut before the span, or the span had nothing to clear and its batch read worked, or, cut at the span, the context was done when it came to it or no batch read was due, or, cut behind it, the span was skipped |
| CancelledCycles.CancelledReadCounts | internal/hub/hub_streaming.go:137-158 | a cycle cancelled during a batch read reports nothing and counts as a failure of the span |
| CancelledCycles.CancelledReadClears | internal/hub/hub_streaming.go:160-167 | a cycle cancelled just behind a working batch read reports nothing and clears the span's failures |
| CancelledCycles.CancellationDegrades | internal/hub/hub_streaming.go:137-158 | three cycles cancelled during the batch read degrade a fresh span |
| Backoffs.Backoff.Next | internal/broker/backoff.go:21-28 | returns the current delay and doubles it up to the cap |
| Backoffs.DelaysExact | internal/broker/backoff.go:20-28 | the k-th delay is min(base * 2^k, max) for all k if and only if base <= max |
| Brokers.Broker.ExecuteRead | internal/broker/broker.go:386-436 | the retry loop's result, fields and effects, for all oracles |
| Brokers.Broker.ExecuteWrite | internal/broker/broker.go:439-468 | likewise for writes |
| Brokers.Broker.ExecuteBatch | internal/broker/broker.go:471-483 | likewise for a batch of reads, with the rest marked once the context is done |
| Brokers.Broker.ExecuteReconfigure | internal/broker/broker.go:489-517 | drops the connection, adopts the address and dials once |
| Brokers.Broker.ExecuteDisconnect | internal/broker/broker.go:520-531 | drops the connection, clears the abort flag and goes dormant |
| Brokers.Broker.EnsureConnected | internal/broker/broker.go:556-589 | a held connection is kept, a dormant broker refuses, otherwise it dials with growing delays until a dial works or the context is done |
| Brokers.Broker.Run | internal/broker/broker.go:132-145 | the command loop's answers, fields and effects, waiting before each command, until a stop |
| Brokers.Broker.HandleError | internal/broker/broker.go:594-607 | the connection is closed and the state says whether a reconnect may follow |
| Brokers.Broker.EnforceInterReadDelay | internal/broker/broker.go:537-551 | waits for the rest of the gap, and stamps the first read |
| BrokerTheorems.RunGood | internal/broker/broker.go:354-620 | after every command of every run, a stop included: the state is the one that what was done last calls for, and Connected if and only if a connection is held; dormant holds none, and lasts exactly from a disconnect to a reconfiguration; every dial and frame so far went to the configured address; dials waited out the delays drawn; reads kept the gap set last; and the k-th delay since the last success or reconfiguration was min(base * 2^k, max) |
| BrokerTheorems.ReadsSpaced | internal/broker/broker.go:537-551 | in every run, however long commands, dials and the idle time between commands take, each read attempt after the first, retries included, starts at least the current gap after the one before finished |
| BrokerTheorems.DialsWait | internal/broker/broker.go:576-588 | in every run a wait that the context does not cut short is followed by a dial when the delay is over, and not later |
| BrokerTheorems.WaitsLeast | internal/broker/broker.go:537-551 | a read waits until the gap since the one before is over, and no longer |
| BrokerTheorems.DialLoopExactly | internal/broker/broker.go:556-589 | dialling goes on until a dial works or the context is done, whichever comes first, and reports which |
| BrokerTheorems.ReconfigureContract | internal/broker/broker.go:489-517 | a reconfiguration dials the new address once and answers what became of that dial |
| BrokerTheorems.AbortExactly | internal/broker/broker.go:253-262 | after every command of every run the abort flag is up if and only if it was raised since the last disconnect |
| BrokerTheorems.SilentUntilReconfigured | internal/broker/broker.go:556-563 | while a broker is dormant without a connection nothing is dialled, sent or waited for and every read and write fails, until a reconfiguration |
| BrokerTheorems.DisconnectSilences | internal/broker/broker.go:518-531 | that is the case after every disconnect of a run |
| BrokerTheorems.StopIsFinal | internal/broker/broker.go:132-145 | once stopped the broker executes nothing more, holds no connection and is Disconnected |
| BrokerTheorems.ReadContract | internal/broker/broker.go:383-436 | a read sends at most three requests, and none after a moment by which the abort flag was raised, be it before the read or by another goroutine during it; all but the last failed; a success is returned; an illegal address is returned at once and keeps the connection; otherwise it gave up for one of three reasons |
| BrokerTheorems.WriteContract | internal/broker/broker.go:438-468 | a write sends at most two requests, retries any error, and never keeps a connection after one |
| BrokerTheorems.BatchContract | internal/broker/broker.go:470-483 | one result per request in order: the i-th read's outcome, or that the context was done before it, wherever the cancellation falls |
| Crc.CRC16 | internal/modbus/common.go:32-45 | the byte-wise loops over a 16-bit word compute the bit-serial shift register of the standard |
| Crc.CRCByte | internal/modbus/common.go:35-42 | adding a byte and turning eight times feeds its eight bits |
| Crc.BurstDetected | internal/modbus/common.go:32-45 | two messages of equal length that differ within sixteen consecutive bits have different CRCs |
| Crc.TwoBytesAreABurst | internal/modbus/common.go:32-45 | a change of one byte or of two adjacent bytes is such a burst |
| Crc.OddFlipsDetected | internal/modbus/common.go:32-45 | an odd number of flipped bits changes the CRC, wherever they are |
| Crc.Residue | internal/modbus/rtu.go:56-62 | a message with two bytes behind it has CRC zero if and only if they are its own CRC, low byte first |
| Crc.ThreeByteBit | internal/modbus/common.go:32-45 | bit 1 of the CRC of three bytes is the difference of bits 2 and 3 of the second byte |
| Streams.ReadFull | internal/modbus/common.go:18-28 | fills the buffer from a stream delivered in any chunks, or reports how much came before the end |
| ModbusTcp.ReadFrame | internal/modbus/tcp.go:36-50 | consumes exactly one frame, or reports a bad length or a closed stream |
| ModbusTcp.ReadHoldingRegistersTCP | internal/modbus/tcp.go:13-78 | writes the request and returns what awaiting the reply on the stream yields, leaving the rest of the stream |
| ModbusTcp.WriteMultipleRegistersTCP | internal/modbus/tcp.go:84-143 | likewise for writes |
| ModbusTcp.SkipsStale | internal/modbus/tcp.go:32-77 | behind any number of well-formed replies to other transactions the first matching frame is decoded, and the stream is left at its end |
| ModbusTcp.OnlyMine | internal/modbus/tcp.go:52-74 | conversely every answer comes from the first frame with the right identifier, behind whole frames with others |
| ModbusTcp.StopsAtDeadline | internal/modbus/tcp.go:34-54 | behind stale frames the loop gives up, at a frame boundary, when it finds the deadline passed |
| ModbusTcp.RefusedExactly | internal/modbus/tcp.go:36-50 | a frame is refused if and only if its length field is below 2 (1 for a write) or beyond 260, and the stream counts as closed if and only if it ends inside a header or an accepted frame |
| ModbusTcp.ReadPduExactly | internal/modbus/tcp.go:56-77 | a reply yields data if and only if it is no exception and holds a count and at least so many bytes, the ones behind the count |
| ModbusTcp.WritePduExactly | internal/modbus/tcp.go:130-139 | a reply confirms a write if and only if it is no exception |
| ModbusTcp.ExceptionPduExactly | internal/modbus/tcp.go:56-62 | either reply is an exception if and only if the highest bit of its function is set, with the byte behind as its code, 0 if there is none |
| ModbusTcp.RequestRoundTrip | internal/modbus/tcp.go:18-25 | a device reads back from the request exactly what was asked |
| ModbusTcp.DataRoundTrip | internal/modbus/tcp.go:32-77 | a device's data come through, whatever stale replies precede them |
| ModbusTcp.WriteRoundTrip | internal/modbus/tcp.go:108-139 | a device's confirmation of a write comes through, whatever stale replies precede it |
| ModbusTcp.ExceptionRoundTrip | internal/modbus/tcp.go:56-62 | and so does an exception's function and code, for reads and for writes |
| ModbusRtu.NewRequest | internal/modbus/rtu.go:16-23 | builds the request and appends a CRC that makes it sealed |
| ModbusRtu.RequestRoundTrip | internal/modbus/rtu.go:16-23 | a device that reads the frame by its positions finds the slave, function, address and value that were asked |
| ModbusRtu.ReadHoldingRegistersRTU | internal/modbus/rtu.go:13-66 | writes a sealed request that a device parses as this read of this slave, and returns what decoding the stream yields |
| ModbusRtu.WriteSingleRegisterRTU | internal/modbus/rtu.go:70-99 | writes a sealed request that a device parses as this write, and returns what decoding the reply yields, whose CRC is not checked |
| ModbusRtu.ReplyAccepted | internal/modbus/rtu.go:45-66 | a sound reply yields its data and leaves the rest of the stream |
| ModbusRtu.PayloadSound | internal/modbus/rtu.go:45-66 | conversely data only come from a sealed reply of the slave at the front of the stream, which is consumed as a whole |
| ModbusRtu.EchoConfirms | internal/modbus/rtu.go:87-99 | the echo of a write confirms it and is consumed as a whole |
| ModbusRtu.WriteRefused | internal/modbus/rtu.go:87-95 | an exception reply to a write is reported with its code, at the price of three bytes of what follows, and not decoded alone |
| ModbusRtu.DamageRejected | internal/modbus/rtu.go:52-63 | a sealed reply hit by a burst of up to sixteen bits or an odd number of flips, its length byte aside, never yields data |
| ModbusRtu.ExceptionMisread | internal/modbus/rtu.go:37-43 | what the reader makes of the five-byte exception reply of the standard |
| ModbusRtu.ExceptionReadRightly | internal/modbus/rtu.go:37-43 | the code comes through if and only if something follows the reply and the low CRC byte happens to equal it |
| ModbusRtu.NeverIllegalAddress | internal/modbus/rtu.go:37-43 | an exception reply to a read whose CRC is right never yields data nor the code of an illegal address, whatever its slave and code and whatever follows |
| Framing.RunOrderly | internal/broker/broker.go:386-468 | in every run a request goes out only on a connection on which every earlier request was answered with data, a confirmation or an illegal address |
| Framing.TcpBoundaries | internal/modbus/tcp.go:32-77 | over TCP every request of every run begins behind whole frames, whatever the device sends, stale or late |
| Framing.BehindReplies | internal/modbus/tcp.go:32-77 | if the device sends whole frames, it begins exactly behind some number of them |
| Framing.AnswersAreMine | internal/modbus/tcp.go:52-74 | every answer that keeps the connection is what the first reply with the identifier given to that request says, byte by byte: data behind their count, a confirmation that is no exception, or exception code 2; the replies skipped before it have other identifiers, and the next request begins behind it |
| Framing.FrameSays | internal/broker/broker.go:626-634 | what the broker makes of any whole frame, by the bytes of the frame |
| Framing.SharedExactly | internal/modbus/tcp.go:16 | the identifiers, the lowest sixteen bits of a counter of all requests, are shared by two requests if and only if a multiple of 65536 requests lies between them |
| Framing.OwnReplies | internal/modbus/tcp.go:32-77 | so, if each reply carries the identifier of the request it is to, no request of a run is answered by a reply to another one fewer than 65536 requests away, and the reply to it is not skipped, in whatever order replies come |
| Framing.RtuBoundaries | internal/modbus/rtu.go:25-66 | over RTU every request before which no illegal address was reported on its connection begins behind whole replies |
| Framing.SoundRequests | internal/broker/broker.go:386-468 | if an RTU device answers the requests of each connection in order, reads with replies whose CRC is right and writes with eight bytes or an exception, every request begins exactly behind the replies to those before it, and no read is taken for one of an illegal address |
| Framing.SlipsExactly | internal/modbus/rtu.go:37-43 | an exception reply is taken for an illegal address if and only if its low CRC byte is 2 and something follows; the connection is then kept one byte into what follows, and the CRC was wrong |
| Battery.GenerateBatteryGroups | internal/register/battery.go:10-48 | builds the channel groups and the global statistics |
| Battery.CountBatteryChannels | internal/hub/hub_streaming.go:35-43 | counts the groups whose name begins with the channel prefix |
| Battery.CountExact | internal/hub/hub_streaming.go:32-43 | counting the channels of the n-channel section gives n, for all n |
| Battery.ChannelAt | internal/register/battery.go:10-34 | up to nine channels, channel c has seven values from 0x0604 + 7c and three from 0x0644 + 4c on, one register each |
| Battery.CountReported | internal/hub/hub_streaming.go:276-280 | the count in the reply is read high byte first |
| Battery.DetectChannels | internal/hub/hub_streaming.go:282-318 | a reply to the pack count read asks for a rebuild if and only if it carries a count from one to eight other than the section's, and the rebuilt section would not ask again |
| Battery.StableDeviceRebuildsOnce | internal/hub/hub_streaming.go:282-318 | a device that always reports the same count causes at most one rebuild, and none if the section already fits |
| Battery.BatteryAddressesDistinct | internal/register/battery.go:10-48 | up to nine channels no two probes of the battery section have the same address |
| Battery.TenthChannelCollides | internal/register/battery.go:13-14 | with ten channels or more two of the section's probes do |
| Battery.DistinctExactly | internal/register/battery.go:10-48 | so the addresses are distinct if and only if there are at most nine channels |
| Battery.PackQueryInvertible | internal/register/battery.go:111-120 | the coordinates can be read back from the query word if and only if the tower belongs to its input, the group fits four bits and the pack a byte |
| Pv.GeneratePVGroups | internal/register/pv.go:9-30 | builds the groups of the PV section |
| Pv.ChannelAt | internal/register/pv.go:9-30 | channel c has voltage, current and power in three registers from 0x0584 + 3c on, and the total power follows the channels |
| Hubs.NewGroupedSection | internal/hub/section.go:50-64 | a new section holds its groups, their probes, a plan for them and a fresh tracker |
| Hubs.Hub.SubscribeClient | internal/hub/hub.go:307-352 | new state of the hub after a subscription, slow clients and unknown sections included |
| Hubs.Hub.UnsubscribeClient | internal/hub/hub.go:355-373 | new state after an unsubscription; the last subscriber to leave cancels the read |
| Hubs.Hub.RemoveClient | internal/hub/hub.go:542-553 | new state after a removal |
| Hubs.Hub.SendToClient | internal/hub/hub.go:467-480 | a send that does not block, or removes the client |
| Hubs.Hub.SendToEach | internal/hub/hub.go:529-538 | a broadcast loop that removes clients on the way has one result, whatever the order of the map |
| Hubs.Hub.BroadcastAll | internal/hub/hub.go:483-496 | a broadcast to all clients |
| Hubs.Hub.BroadcastToSection | internal/hub/hub.go:499-539 | a broadcast to a section's subscribers |
| Hubs.Hub.TriggerSectionRead | internal/hub/hub.go:418-443 | cancels the section's read and starts another under a new context |
| Hubs.Hub.HandleReadCycle | internal/hub/hub.go:377-408 | starts a section or pack read unless one of the five guards says no |
| Hubs.Hub.HandleSelectPack | internal/hub/hub.go:680-720 | clamps the coordinates, remembers them and reads the pack |
| Hubs.Hub.ConfigurePv | internal/hub/hub.go:608-638 | rebuilds the PV section for the clamped channel count and reads it if anyone listens |
| Hubs.Hub.ChannelsDetected | internal/hub/hub_streaming.go:297-309 | rebuilds the battery section, tells its clients and reads it again |
| Hubs.Hub.HandleStateEvent | internal/hub/hub.go:258-302 | tells all clients, and resets plans and trackers or cancels all reads |
| Hubs.Hub.HandleResult | internal/hub/hub.go:198-206 | marks read-once sections and passes the result on |
| Hubs.Hub.Shutdown | internal/hub/hub.go:556-567 | closes every channel and cancels every read |
| HubModel.DeliverNext | internal/hub/hub.go:489-495 | one round of a broadcast loop, for any client not yet served, turns the result for the clients served into the result for one more |
| HubSteps.StepExactly | internal/hub/hub.go:186-443 | every event starts exactly the reads of the table (a new subscriber's while the link is up, a refresh, a due read cycle, a pack, a changed channel count), and sets link, read-once and reader marks, groups and trackers as it says |
| HubSteps.RunFlags | internal/hub/hub.go:198-302 | in every state of every run: the hub counts as connected if and only if the last change of the link was a connection, a read-once section as read if and only if it was completed and not refreshed since, and as being read if and only if a read was started and no reader has ended since |
| HubSteps.CycleStartsExactly | internal/hub/hub.go:377-408 | a read cycle asked for starts a read, of the section or of the selected pack, if and only if the hub runs, the link is up by the events so far, the section exists and has a subscriber, no reader is marked, and it is not a read-once section completed since the last refresh |
| HubSteps.CycleRunExactly | internal/hub/hub_streaming.go:89-203 | a reader's cycle updates the tracker of its own section as the cycle of that section's plan says, and nothing else |
| HubClients.ClientExactly | internal/hub/hub.go:186-553 | every event sends each client exactly what the table owes it, puts it in the section it asked for, and loses it if and only if it goes or has no room |
| HubClients.SelectionExactly | internal/hub/hub.go:313-373 | the selected pack is the one asked for, brought into range, until somebody turns to the battery overview or away from it |
| HubClients.DrainsOldest | internal/hub/client.go:33-40 | a client's messages leave its queue in order |
| HubReads.HeldExactly | internal/hub/hub.go:307-443 | a section's read context is replaced if the event starts a read, and cancelled if and only if a disconnect is asked for, the link is lost, a subscriber moves away, or nobody is left |
| HubReads.LiveExactly | internal/hub/hub.go:412-443 | so a read stays live if and only if the event neither replaces nor cancels it, and every read that is started is live |
| HubReads.StopsAll | internal/hub/hub.go:556-567 | when the hub stops, every registered channel is closed and no read is live |
| HubTheorems.EveryRunGood | internal/hub/hub.go:166-211 | in every run whose subscriptions come from registered clients all invariants below hold, and no step sends on a closed channel or closes one twice |
| HubResults.SubscriptionsConsistent | internal/hub/hub.go:307-373 | in every reachable state a client is in a section's subscriber set if and only if it is recorded for that section, hence in at most one, and only while registered |
| HubResults.OneLiveReader | internal/hub/hub.go:412-443 | in every reachable state a section has at most one uncancelled read context, overview and pack reads together, and holds it |
| HubResults.SilentAfterDrop | internal/hub/hub.go:292-301 | right after a Disconnected or Reconnecting event, a disconnect command or shutdown no read context is live |
| HubResults.PlansStayCurrent | internal/hub/hub.go:266-291 | in every reachable state each section's probes and plan are those of its groups and its tracker's non-Normal entries are spans of that plan |
| HubResults.HubCyclesConserve | internal/hub/section.go:50-64 | so the plan of every section of the hub covers its probes exactly, and message conservation holds for every cycle that reads it |
| HubResults.BatteryReadsAgree | internal/hub/hub_streaming.go:268-332 | a working battery cycle gives every probe its individual result, up to nine channels |
| HubDetection.OneRebuildPerConnection | internal/hub/hub_streaming.go:261-313 | in any run of hub events without a reconnect in which a detection is handled at once, a device whose channel count does not change has its section rebuilt at most once |
| HubDetection.RebuildsExactly | internal/hub/hub_streaming.go:282-313 | when the readers the hub has started queue rebuilds, those of a connection are exactly the ones queued before the first was handled, but for what is still queued |
| HubDetection.TwoRebuilds | internal/hub/hub_streaming.go:282-313 | wherever a battery reader has yet to detect, a refresh before its rebuild is handled starts a second reader that detects too, and two rebuilds follow |
| HubResults.TwoRebuildsReached | internal/hub/hub.go:236-245 | every hub with a battery section reaches such a state, with that reader live, when a client connects and subscribes |
| HubResults.PacksAddressed | internal/hub/hub.go:686-701 | every pack read ever started addresses the pack it was started for without ambiguity |
| HubResults.PanicExact | internal/hub/hub.go:542-553 | in a reachable state an event sends on a closed channel or closes one twice if and only if it registers or subscribes a client whose channel is closed |
| HubResults.LateSubscriptionPanics | internal/hub/hub.go:214-237 | a subscription handled after its client was removed does |
| HubResults.ResultsDelivered | internal/hub/hub.go:522-539 | a result reaches exactly the clients of its section, once each, and exactly those without room are removed, from every section |
| HubResults.LinkChangesDelivered | internal/hub/hub.go:258-302 | every client is told of a change of the link once, battery clients get the reset schema behind it after a reconnect, and exactly the clients without room for what they are owed are lost |

## Left out

- ExactCover: for probes that overlap without being nested `NoWrap` is sufficient but not necessary, because a later
  probe that happens to be contiguous can repair a span whose end has wrapped. For nested ones it is exact.
- LimitExact: the converse is about nested overlaps; `PlanLimitExact` decides the others, by the order of the sorted
  probes.
- OneRebuildPerConnection: takes a detection and the rebuild it queues as one step; `RebuildsExactly` has the queue,
  though not its capacity.
- DamageRejected: leaves damage to the length byte out, because it changes which bytes are taken for the CRC.
- RunGood: takes the delays to be unbounded integers and the base to be positive and at most the cap; `DelaysExact` says
  what happens otherwise.
- ReadFull: the modelled stream reports its end on the read after the last byte, as Go's TCP connections do, not
  together with it.
- Races between a running reader and the hub, and results still buffered when a read is cancelled: every hub event and
  every read cycle is one step.
- Whether the `reading` flag tracks the live reader: it does not, since a cancelled goroutine clears it too.
- The broker's state event channel, which drops events when it is full; hub events are any sequence.
- The broker's slave id, and the connection mutex.
- Clients and sections as heap objects: they belong to the event loop alone and are records in the hub's maps, so
  aliasing is not modelled.
- The section named "system" also reads fault registers, and BMS overviews are post-processed; neither changes plans,
  trackers or subscriptions.
- The pack tracker and the pack's write-settle-read sequence; a pack read is a context that is started and cancelled.
- Sections without groups or without a tracker: the hub registers none.
- The timing settings of `configure`, which are clamped and passed on.
- `IsDegraded` and `IsSkipped`, which are comparisons with the modelled state.
- Value formatting, enum and fault tables, the register lists of the other sections, JSON, WebSockets, HTTP, logging and
  command-line flags.
- Scripts under tools/.

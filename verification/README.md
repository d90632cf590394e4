# A model of c-link in Dafny

c-link implements both ends of CC-Link IE Field Basic: a master that polls groups of slaves with
broadcast UDP requests, and the slave that answers them. This project models the cyclic part of both
ends and proves what they promise to each other.

| part | files |
|---|---|
| Words, bits, byte buffers, the wrap-around timer | `Words`, `Buffers`, `Timer` |
| Configuration, its validators, the station layout | `Config`, `Layout` |
| Frames as bytes: printer, parser, patching in place | `Frames`, `Responses`, `RequestFrame`, `ResponseFrame`, `Image`, `WireBytes` |
| The master as values: device, group, whole master | `Fsm`, `Statistics`, `DeviceModel`, `GroupModel`, `GroupTurns`, `MasterModel` |
| The master as objects, with the source's loops, tables and buffers | `MasterEngine` |
| The slave as values and as objects | `SlaveModel`, `SlaveTurns`, `SlaveInvariant`, `SlaveAnswers`, `SlaveRuns`, `SlaveEngine` |
| The master over whole runs | `GroupRuns`, `DeviceRuns`, `Histories`, `DeviceSteps`, `FrameViews`, `Scans`, `ScanInvariant`, `ScanStarts`, `Startup`, `MasterTheorems`, `ArbitrationSafety`, `WordAgreement`, `Disconnections`, `DisableLatency`, `Blanking`, `Freshness`, `Progress`, `MasterReports`, `ResponseRules`, `RequestContents`, `ResponseLedger`, `LinkCallbacks`, `SentFrames` |
| Master and slaves together | `Delivery`, `ClosedLoop`, `Serving`, `Network`, `NetworkInvariant`, `NetworkDelivery`, `NetworkProgress`, `SecondMaster`, `MasterStatus` |

The event loops, the frame buffers and the memory areas of the source are classes over arrays
(`Clm`, `GroupData`, `Cls`, `RequestFrame`, `ResponseFrame`, `Timer`). Their methods are proved against
functions on values: one event run to completion, one input handled, one run. What the source promises
is proved of those functions over every run. A run is any sequence of polls, received datagrams and
calls of the application; sending and the callbacks are entries of a trace. Times are 32-bit stamps
that wrap.

From the end of initialisation on, one step of the master is seen from each group as a list of acts,
each with the condition under which the source performs it (`GroupRuns.StepIsActs`). What every act
keeps, every run keeps (`ScanInvariant.RunInvariant`).

The compile-time limits on groups and stations are symbolic, within the range that the `#error` checks of
`src/master/clm_master.c` allow.

## Model

| member | source | states |
|---|---|---|
| NetworkInvariant.ClosedLoopHolds | src/master/clm_iefb.c:1530-1663 | With one valid group, all devices enabled, matching slaves, and frames that arrive once, in any order, before a timer that waits for them: scan k carries sequence 0 if k = 0, else ((k-1) mod 65535)+1, shows every device, and ends with success; a scan with nothing under way has ended; from scan 1 on every device is connected and every slave is under this master's control |
| NetworkInvariant.ArrivalsEndScans | src/master/clm_iefb.c:2027-2255 | In that loop every arriving frame either ends the scan or leaves one arrival less to come, of at most two per device |
| NetworkProgress.ScanEndsWithItsFrames | src/master/clm_iefb.c:1530-1663 | Over every run of that loop with n devices, the frames that have arrived are 2n for each scan begun less those the open scan still waits for; scan k has ended, with success, if and only if 2n(k+1) frames have arrived |
| NetworkInvariant.NextKeeps | src/slave/cls_iefb.c:1710-1846 | The loop invariant holds after every arrival, poll, and call of either application |
| NetworkDelivery.OutputsAreDelivered | src/slave/cls_iefb.c:138-204 | Over every run of the loop, each register and bit a slave reads after a request is the one in the master's output memory of that device when the request was sent, whatever happened in between |
| NetworkDelivery.InputsAreDelivered | src/master/clm_iefb.c:580-609 | Over every run of the loop, each register and bit the master reads for a device after its response is the one the slave held when it answered |
| NetworkDelivery.OthersHold | src/master/clm_iefb.c:227-277 | While a frame of a device is under way nothing else ends the scan or touches that frame |
| Serving.RequestServed | src/slave/cls_iefb.c:1220-1279 | A poll with a request of the loop leaves the slave bound to this master and answers once, with success, in a form the master takes |
| Serving.FirstPollKeepsMasterIff | src/slave/cls_iefb.c:1101-1202 | The poll in which a free slave takes its master keeps it if and only if the total timeout, cast to 32 bits, is not zero |
| SecondMaster.SecondMasterGoesSilent | src/slave/cls_iefb.c:968-1003 | Over every run of a second master: a slave that another master controls answers its request exactly once, with 0xCFE0, and after that answer the second master never sends again in any group, unless the device is disabled there or has answered that request before |
| SecondMaster.SlaveObjects | src/slave/cls_iefb.c:1710-1846 | The poll that brings the request sends one reply, to the second master, with 0xCFE0, no data, and the slave's own status |
| MasterStatus.StatusIsTold | src/slave/cls_iefb.c:392-474 | After a served request the last status callback of the slave says whether the master's application runs and, from version 2 on, whether its user stopped it |
| Delivery.SlaveFindsItself | src/common/cl_iefb.c:715-793 | In every request of the master a slave finds its configured station and count, and nothing when the request shows it as disabled |
| Delivery.OutputDelivery | src/master/clm_iefb.c:1019-1082 | In any group, whatever its other devices are: each register and bit that a bound slave reads after the request of a scan start is the one in the master's output memory of that device at that moment |
| Delivery.InputDelivery | src/master/clm_iefb.c:580-609 | In any group: each register and bit the master reads after a response it takes for a connected device is the one in the response |
| Delivery.OutputsArrive | src/slave/cls_iefb.c:138-204 | A bound slave takes exactly its part of the request into RY and RWw, or zeros when its bit is off, and answers with its own inputs |
| ScanInvariant.StepKeeps | src/master/clm_iefb.c:1792-1856 | Every step of the master keeps the invariant of every group: layout, frame contents, alternating log, scan boundaries, timers |
| ScanInvariant.RunInvariant | src/master/clm_iefb.c:1865-1880 | What every possible act keeps holds after every run |
| GroupRuns.StepIsActs | src/master/clm_iefb.c:2027-2375 | Every step is, seen from each group, a chain of acts under the conditions of the source |
| RequestContents.RequestCarries | src/master/clm_iefb.c:1530-1585 | Over every run: the header fields of each request are the configuration, the sequence number, the clock of the input that sends it, the status the application set last, and the stored parameter number plus one |
| RequestContents.RunIsTraced | src/master/clm_iefb.c:2750-2776 | Over every run the status and the outputs are those the application set last, the scan start is the time of the input that sent the last request, and the application was told the state the master is in |
| ResponseRules.ReplyWrites | src/master/clm_iefb.c:2083-2231 | Every response changes what is kept of its device, and makes the master report, by rules on end code, number, size and state; nothing else of any device's record changes |
| ResponseRules.StepReportsAre | src/master/clm_iefb.c:2316-2375 | One step reports exactly: arbitration lost to a foreign request, a second answer, a complaint, a changed alarm, a changed error code or management information |
| ResponseRules.SecondAnswerIsReported | src/master/clm_iefb.c:2108-2129 | The whole new master after a second answer: one report, one more invalid frame, the device in LISTEN, nothing else |
| ResponseLedger.SecondAnswersAreTold | src/master/clm_iefb.c:2108-2129 | Over every run: a response is reported as of a duplicate slave if and only if its device is enabled, has left LISTEN, and the last response kept since the last statistics clear has the same number |
| ResponseLedger.TwoAnswersAreTold | src/master/clm_iefb.c:2108-2129 | Over every run: of two answers of one address with one number, the second is reported, its data dropped and the device put in LISTEN, unless the device is disabled or in LISTEN by then |
| ResponseLedger.RunMatches | src/master/clm_iefb.c:2083-2231 | Over every run the latest values, the counters of incoming, alarm and invalid frames, and the response-time statistics are those of an account of the inputs |
| ResponseLedger.StatisticsOfRun | src/master/clm_iefb.c:2221-2229 | Over every run the statistics describe the counted response times, each from the time of the input that sent the request to that of the response modulo 2^32, if and only if their total fits 32 bits |
| LinkCallbacks.CallbacksFollowBit | src/master/clm_iefb.c:1029-1049 | Over every run connect and disconnect callbacks of a device take turns, and the last one is its transmission bit |
| SentFrames.SentIsCounted | src/master/clm_iefb.c:1076-1079 | Over every run the number of sent frames is the number of scans that started while the device was enabled, since the last statistics clear |
| Startup.InitKeeps | src/master/clm_iefb.c:3000-3100 | Initialisation establishes the invariant: all groups in arbitration, nothing sent, one fresh arbitration timer |
| MasterTheorems.RequestsAlternate | src/master/clm_iefb.c:299-329 | Requests and link scan callbacks alternate; request k has its sequence number, is accepted by the slave's parser and decodes to what was written |
| MasterTheorems.NoStuckGroup | src/master/clm_iefb.c:1931-1962 | A running group always waits for a running timer; with constant link scan time both timers are equal during a scan; sequence 0 and "all have answered" exclude a sending device |
| Progress.DueTimerIsServed | src/master/clm_iefb.c:1931-1962 | A poll that finds the awaited timer run out ends the scan or starts the next one |
| ScanStarts.StartingAct | src/master/clm_iefb.c:1530-1585 | Scans start at scan boundaries only, with nothing written since |
| ArbitrationSafety.StepPhase | src/master/clm_iefb.c:1432-1513 | All groups move together through standby, arbitration and running, exactly as the events say, and the master state is that phase |
| ArbitrationSafety.ArbitrationSafety | src/master/clm_iefb.c:1499-1513 | Over every run: a request was sent only if a poll came at least the arbitration time after initialisation, on the 32-bit clock, and no foreign request was handled before it |
| ArbitrationSafety.LoserIsSilent | src/master/clm_iefb.c:1679-1782 | Over every run: after a foreign request in arbitration, or a report of a second master while running, no group ever sends a request again |
| WordAgreement.WordIsOrOfBits | src/master/clm_iefb.c:1019-1082 | Without forcing, the transmission word is the OR of bit shifted by station over the devices, so bits of continuation stations are 0 |
| WordAgreement.TalliesBalance | src/master/clm_iefb.c:1019-1082 | Without a statistics clear, connects minus disconnects is the device's transmission bit |
| Disconnections.ExactDisconnections | src/master/clm_iefb.c:1102-1147 | Over every run the timeout count is the number of scans the device missed in a row, counted from the link scan callbacks, and below the limit; a miss drops the device if and only if it makes the row as long as the limit, and each drop is counted once |
| Disconnections.ScanLostIff | src/master/clm_iefb.c:1601-1620 | A step reports a failed scan if and only if it is a poll that finds the response timer of an open scan run out |
| Disconnections.StepDisconnects | src/master/clm_iefb.c:1151-1193 | One step: the count goes up exactly on a miss, to zero on a good answer or on leaving the cycle |
| DeviceSteps.StepOnDevice | src/master/clm_iefb.c:1205-1282 | The events a step sends to a device, given as a function of master and input, say exactly what becomes of it |
| Disconnections.RowsAgree | src/master/clm_iefb.c:1102-1147 | Over every run the misses counted from what the application sees are the misses counted from the events sent to the device, and so are the drops, modulo 2^32 |
| DisableLatency.DisabledIsBlankFromSecondScan | src/master/clm_iefb.c:1019-1082 | A device disabled and not forced shows 0.0.0.0, bit off and zero data in every request from the second scan start on |
| Blanking.DisabledIsBlankIff | src/master/clm_iefb.c:1151-1193 | After every run, whatever comes next: a request that goes out while a device is disabled and not forced shows it as blank (0.0.0.0, bit off, zero data) if and only if the scan start finds the device in LISTEN |
| DisableLatency.DisabledIsStillShown | src/master/clm_iefb.c:1175-1179 | The failing case: a disabled device that a scan start finds in CYCLIC_SENT keeps its address, bit and data in that request |
| Freshness.InputsAreFresh | src/master/clm_iefb.c:2083-2231 | A step changes a device's input area only if it takes a response for it, from its address, of its size, and with the current sequence number when connected; an unconnected device's area takes zeros |
| SlaveInvariant.SlaveRunKeeps | src/slave/cls_iefb.c:1557-1632 | The slave's invariant holds over every run from initialisation |
| SlaveInvariant.SingleControllingMaster | src/slave/cls_iefb.c:674-688 | At rest a master is stored, its timer runs and a connection is reported exactly in MASTER_CONTROL, the disabling timer runs exactly while waiting; error frames carry no data; every reply is one the master's parser accepts |
| SlaveInvariant.RequestHandled | src/slave/cls_iefb.c:1710-1846 | A request is answered at most once, to its sender; success only from and to the stored master at the stored station; the controlling master never changes without leaving MASTER_CONTROL |
| SlaveAnswers.TakesMasterIff | src/slave/cls_iefb.c:822-850 | A request takes a slave from MASTER_NONE to MASTER_CONTROL if and only if it lists the slave once, with its configured number of stations, and with its bit off |
| SlaveAnswers.EarlyBitIsRefused | src/slave/cls_iefb.c:800-866 | With the bit already on: without a master only the duplication report, under control nothing, while waiting to be disabled one answer with the slave's end code |
| SlaveAnswers.MasterIsTaken | src/slave/cls_iefb.c:1101-1202 | With the bit off: the whole new slave, bound to that master at that station, outputs zeroed, timer started, callbacks made, and one answer without data |
| SlaveAnswers.SecondMasterIsRefused | src/slave/cls_iefb.c:968-1003 | A request of another master: one report and one answer with 0xCFE0 and no data; state, master and areas stay |
| SlaveAnswers.WrongCountIsRefused | src/slave/cls_iefb.c:1020-1044 | A wrong number of stations: the report, then 0xCFE1; a controlled slave gives up its master, a waiting one only reports |
| SlaveAnswers.CyclicRequestIsServed | src/slave/cls_iefb.c:1220-1279 | A request of the own master is served if and only if it has the stored group, names the slave at the stored station and reaches its last one; then the whole new slave and the answer, field by field |
| SlaveAnswers.IgnoredIfAbsent | src/slave/cls_iefb.c:711-778 | A disabled slave, and one that looks itself up in vain, does nothing |
| SlaveRuns.RunIsSound | src/slave/cls_iefb.c:894-952 | Over every run: status, end code and inputs are those the application set last, both frames carry the configured device data, and the last status callback says what the slave remembers of the master |
| SlaveRuns.MasterIsLost | src/slave/cls_iefb.c:1292-1310 | A poll that finds the master's timer run out: disconnect, status, MASTER_NONE, nothing stored |
| SlaveRuns.DisableTakesEffect | src/slave/cls_iefb.c:1461-1510 | Disabling: at once without a master, else 2.5 seconds later, with the end code for an error or a request |
| SlaveInvariant.PollAnswersOnce | src/slave/cls_iefb.c:1950-1996 | A poll answers at most its datagram; its timers answer nothing |
| SlaveInvariant.TotalTimeoutIsExactIff | src/common/cl_iefb.c:837-849 | The product of timeout and count never overflows; the slave's timer gets the exact total within its documented range if and only if the product is at most 2147483 ms |
| Serving.ZeroTimerIff | src/slave/cls_iefb.c:1171-1176 | The slave's timer is zero if and only if the product of timeout and count is a multiple of 2^29 ms |
| SlaveTurns.SlaveTurnsMakeEvent | src/slave/cls_iefb.c:1557-1632 | Each turn of the slave's event loop asks for an event of lower rank, and the turns together make the big step |
| SlaveTurns.SlaveMatrixIsCells | src/slave/cls_iefb.c:1640-1678 | The slave's matrix is the table row if there is one, else stay without action |
| GroupTurns.GroupTurnsMakeEvent | src/master/clm_iefb.c:1792-1856 | The same of the group's event loop |
| GroupModel.GroupMatrixIsCells | src/master/clm_iefb.c:1887-1921 | The same of the group's matrix |
| DeviceModel.TurnsMakeAfter | src/master/clm_iefb.c:1205-1282 | The same of the device's event loop |
| DeviceModel.DeviceMatrixIsCells | src/master/clm_iefb.c:1317-1351 | The same of the device's matrix |
| Fsm.LookupCases | src/master/clm_iefb.c:1317-1351 | A matrix cell built row by row is a row of the table, or the default when no row fits |
| MasterEngine.Clm.DeviceFsmEvent | src/master/clm_iefb.c:1205-1282 | The device loop over the matrix, with its writes to frame, word and trace, makes the big step |
| MasterEngine.Clm.GroupFsmEvent | src/master/clm_iefb.c:1792-1856 | The group loop makes the big step of the group |
| MasterEngine.Clm.OnLinkscanStart | src/master/clm_iefb.c:1530-1585 | A scan start patches the frame of every device, sends it and starts the timers |
| MasterEngine.Clm.HandleInputFrame | src/master/clm_iefb.c:2317-2375 | A received datagram changes the objects exactly as the model's step |
| MasterEngine.Clm.PeriodicTimers | src/master/clm_iefb.c:2938-2998 | The timers of a poll, group by group, likewise |
| MasterEngine.NewMaster | src/master/clm_iefb.c:3000-3100 | Initialisation builds objects whose value is the model's initial master |
| MasterEngine.HaveReceivedFromAllOf | src/master/clm_iefb.c:227-277 | The loop over the devices decides whether all expected answers are in |
| MasterEngine.UpdateFrameSequenceNo | src/master/clm_iefb.c:57-69 | From the number of request k to that of request k+1: the residue modulo 65535 plus one, never 0 |
| SlaveEngine.Cls.FsmEvent | src/slave/cls_iefb.c:1557-1632 | The slave's loop with exit and entry actions makes the big step |
| SlaveEngine.Cls.HandleInputFrame | src/slave/cls_iefb.c:1864-1902 | A received datagram changes the slave exactly as the model's step |
| SlaveEngine.Cls.CopyCyclicDataFromRequest | src/slave/cls_iefb.c:138-204 | The copied part of the request, or zeros; refused exactly when the station does not fit |
| WireBytes.RequestBytes | src/common/cl_types.h:373-512 | Every byte of an encoded request by arithmetic on its fields: offsets, widths, byte order, marks and reserved bytes |
| WireBytes.ResponseBytes | src/common/cl_types.h:399-527 | The same of responses |
| WireBytes.MasterIdInstance | src/common/cl_iefb.c:85-110 | A request of 192.168.3.1 has 01 03 A8 C0 at bytes 47 to 50 |
| Frames.RequestRoundTrip | src/common/cl_iefb.c:508-600 | A byte string is accepted from an address and decodes to r if and only if it is the printed r and r is one that address may send |
| Responses.ResponseRoundTrip | src/common/cl_iefb.c:1054-1174 | The same of responses |
| Responses.KindsAreDisjoint | src/common/cl_iefb.c:165-191 | No bytes pass the first check of both kinds of frame |
| Responses.ParserAssertionHoldsIff | src/common/cl_iefb.c:1124-1174 | Of responses with valid headers the parser's assertion holds exactly for those of at most 16 stations, or of no whole number of stations |
| RequestFrame.RequestFrame.UpdateSlaveId | src/master/clm_iefb.c:396-418 | Patching the buffer is patching the frame it prints |
| RequestFrame.RequestFrame.InitialiseSlaveIds | src/master/clm_iefb.c:341-379 | The nested loop writes the ID list of all devices shown |
| ResponseFrame.PatchReply | src/common/cl_iefb.c:686-713 | Writing the reply's header fields into the buffer of a frame gives the buffer of the patched frame |
| Layout.SearchFindsConfiguredStation | src/common/cl_iefb.c:715-793 | For every pattern of enabled devices, an enabled slave finds exactly its station and count, a disabled one nothing |
| Layout.AnalyzeSlaveIds | src/common/cl_iefb.c:715-793 | The loop computes that search |
| Layout.PatchShowsDevice | src/master/clm_iefb.c:396-418 | One patch changes the ID list to the one with that device shown or hidden |
| Layout.RangesPartition | src/master/clm_iefb.c:130-158 | Every station of a group belongs to exactly one device |
| Config.ValidateConfig | src/master/clm_master.c:84-299 | Accepts exactly the valid configurations, although its 16-bit sums could wrap |
| Config.ValidateConfigDuplicates | src/master/clm_master.c:310-370 | Accepts exactly the configurations without a repeated slave address |
| Timer.ExpiredIff | src/common/cl_timer.c:68-84 | The 32-bit test holds if and only if the elapsed time modulo 2^32 is between the period and 2^31-1 |
| Timer.ExpiryRefinesUnboundedClock | src/common/cl_timer.c:68-84 | Up to 2^31 microseconds it is the test on a clock that never wraps |
| Timer.EarlyClockNeverExpires | src/common/cl_timer.c:68-84 | A clock up to 2^31 microseconds behind the start never expires a timer |
| Timer.PeriodLimitIsExact | src/common/cl_timer.c:34-39 | A timer can expire at all if and only if its period is at most 2^31-1 |
| Timer.AgreesWithUnboundedClockIff | src/common/cl_timer.c:68-84 | When the test agrees with a clock that never wraps, for any elapsed time |
| Statistics.StatisticsAreExactIff | src/master/clm_iefb.c:518-541 | Sum, average, extremes and number are those of the counted samples, at most as many as configured, if and only if their exact total fits 32 bits |
| Statistics.UniformBoundIsExact | src/master/clm_iefb.c:518-541 | A bound on every sample guarantees that if and only if it is at most 2^31+1 |
| Statistics.AverageBetweenExtremes | src/master/clm_iefb.c:518-541 | The average lies between minimum and maximum |
| Image.BitGetAfterSet | src/common/cl_iefb.c:865-881 | Reading a bit after writing one gives the new value for that bit and the old for every other, and changes no byte outside |
| Image.RegisterGetAfterSet | src/common/cl_iefb.c:883-894 | The same of registers |
| Image.CalcBitArea | src/common/cl_iefb.c:865-881 | Area, byte and mask address the bit with number 64*area + 8*byte + bit |
| Image.SetOneDeviceOnly | src/master/clm_iefb.c:2624-2654 | A write through one device's area changes no bit of another device |

## Findings

Statements about the code that do not hold without a condition, each with the exact condition.

| source | what fails | proved condition |
|---|---|---|
| src/common/cl_iefb.c:1171 | The assertion behind the response parser, which a comment calls already checked, fails for responses of 17 to 20 stations, which fit the 1500-byte buffer | `Responses.ParserAssertionHoldsIff`, with an instance in `Responses.ParserAssertionFailsFor17Stations`; received frames that would fail it are excluded by `MasterModel.Allowed` |
| src/slave/cls_iefb.c:1173 | The cast of the total timeout to 32 bits loses part of it; 24197 ms times 355 leaves 408 microseconds | `SlaveInvariant.TotalTimeoutIsExactIff`, with the instance `SlaveInvariant.TotalTimeoutTruncates` |
| src/slave/cls_iefb.c:1173 | A product that is a multiple of 2^29 ms leaves a timer of zero, and the poll that takes the master drops it again | `Serving.ZeroTimerIff`, `Serving.FirstPollKeepsMasterIff`, with a valid configuration of this kind in `Serving.ZeroTimerInstance` |
| src/common/cl_timer.c:68-84 | A timer polled 2^31 microseconds or more after its start can read as not expired | `Timer.AgreesWithUnboundedClockIff`, with the instance `Timer.LatePollMissesExpiry` |
| src/master/clm_iefb.c:523-540 | The sum of response times can wrap when a sample is longer than 2^31+1 microseconds | `Statistics.StatisticsAreExactIff`, `Statistics.UniformBoundIsExact` |
| src/master/clm_iefb.c:1178 | A device that is disabled while connected still shows its address, bit and old data in the next request | It does if and only if the scan start does not find the device in LISTEN: `Blanking.DisabledIsBlankIff`, with the failing case in `DisableLatency.DisabledIsStillShown`; the requests after it are blank by `DisableLatency.DisabledIsBlankFromSecondScan` |

Where code and comment differ the model follows the code: `cl_timer_is_expired` is documented in
`src/common/cl_timer.h` as "greater than" the period and tests "at least".

## Left out

- Sockets, the operating system layer, network interfaces and file storage: sending is an entry of the trace and always succeeds, receiving is an arbitrary datagram, and the stored parameter number is an argument of initialisation.
- The socket that answers arbitration on the same port, and the remote port of frames.
- SLMP node search and IP setting.
- PARAMETER_CHANGE in the group table and IP_UPDATED in the slave table are rows of the tables and of the event loops; no code of the core raises them, so they are no inputs of a run.
- Callback bodies and calls from a callback back into the stack: callbacks are entries of the trace.
- The limiter that may swallow error callbacks: the trace records the report that asks for one.
- Logging, the log limiter of the slave, debug printing, argument checks of the API wrappers.
- Entries of configuration arrays beyond their counts: sequences end where the counts say.
- Statistics clear on the objects: the model has it as an input of a run, `Clm` has no method for it.
- MasterModel.Allowed: excludes received frames at which the response parser's own assertion would stop the program.
- NetworkInvariant.ClosedLoopHolds: one group with every device enabled throughout, as the loop of one request and its answers is per group; several groups, and devices enabled or disabled at any time, appear in all results about the master alone and in `Delivery`. Lost and repeated frames are not part of the loop; they are inputs of the runs of each side.
- NetworkInvariant.NetInv: a happening of the loop is in time when no timer runs out while it waits for a frame; what timeouts do is stated of the master and the slave alone.

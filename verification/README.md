# Verified model of the data logger's cores

This project models, in Dafny, the parts of a Modbus data logger whose correctness is hard
to see from the code, and proves what they promise. Sockets, the serial driver, SQL, Qt
signals and the screens are reduced to outcomes: a reply arrives, fails or times out; a
statement works or does not; a worker reports or never does. Each event handler runs to
completion before the next event, as a slot of its thread does; where another thread can come
in between, the model has a step boundary there.

| File | What it models |
|---|---|
| `SerialWorker.dfy`, `SerialLog.dfy`, `CoilPlan.dfy`, `AlarmTrigger.dfy` | the serial worker: its pump and protocol, the coil cache against the device, the alarm evaluator |
| `ReadingQueue.dfy` | the durable queue of readings with its spill file |
| `PortGuard.dfy` | ownership of the RS-485 port by any number of workers |
| `StopRetry.dfy` | asynchronous stop, restart and retry of monitoring |
| `Calibration.dfy` | the least-squares line of a calibration |
| `Transactions.dfy`, `AccountTable.dfy`, `Accounts.dfy`, `Lockout.dfy` | accounts, their audit trail, sessions and lockout |
| `AuditedConfig.dfy` | audited writes to sensors and settings, and the configuration's revision |
| `Downsampler.dfy`, `RateLimiter.dfy`, `PasswordHasher.dfy`, `FtpReply.dfy`, `RegisterCodec.dfy` | algorithms: thinning a trend, the request limit, password hashes, FTP replies, register values |
| `Prelude.dfy`, `SetFacts.dfy`, `Octets.dfy` | shared definitions |

`dafny verify dfyconfig.toml` checks everything.

## How the state machines are stated

A client library may or may not take a request; `lossless` says that it takes every one on an
open line, and then each step of the serial worker ensures which request is awaited next.

The serial worker is proved against an automaton over its observable events (`SerialLog`):
the class carries a ghost log of what it does, every method keeps the automaton's verdict
`Ok`, and what an accepted log means (first in first out, one request in flight, complete
rounds, silence after a stop) is proved about logs alone. The reading queue, the account
service and the settings writers carry ghost histories in the same way. Where a claim is about
whole runs there is a `Run` method that performs an arbitrary sequence of events and ensures
it at the end, which, the sequence being arbitrary, is every moment.

## What the code needs, and where it falls short

The proofs rest on these facts about the surroundings:

- A reply to a request that has timed out is never delivered afterwards. On a timeout the
  worker does not disconnect the reply, so this is a hypothesis on the client library.
- An error reply to a coil write means the coil did not change; a write that timed out may or
  may not have taken effect.
- The claims about coils, and only they, need linked outputs with distinct coils, none of them
  polled as a sensor of its own (`CoilPlan.Distinct`); the pump and its protocol are proved for
  any settings. For any settings in which two active outputs share a coil and are to be set
  differently, `SharedCoilDefeatsTheCache` shows the cache wrong about one of them once the
  plan of the code was confirmed throughout, and `SharedCoil` gives such settings. While the
  worker does not own the port, others may drive the coils at will.
- One worker at a time writes to the spill file. A worker abandoned by a backstop and its
  successor share the path, and the later spill of the two can replace what the other saved;
  two such workers are not modelled.
- `stop()` of the serial worker comes between events, as a queued slot does.

Where the code does less than it seems to, the model keeps the code and states the exact
condition:

- A spill file that cannot be opened at start is overwritten by the next spill, and its
  records are lost (`SpilledRecordsSurvive` is an equivalence, `UnreadableFileIsLost` an
  example).
- Requeueing after a failed flush can take the queue past its limit: a flush that does not
  commit leaves it within the limit exactly when batch and queue together were
  (`FinishFlush`), restoring a spill file exactly when its records and the queue are, and
  every other step keeps the limit (`Perform`). `QueueOutgrowsItsLimit` reaches twice the
  limit.
- A worker abandoned by a backstop can report during a later stop and end it early. A stop
  ended by the counter has passed over no more of its own workers than there were reports
  outstanding when it began, so one begun with none is honest (`CounterIsHonest`);
  `LateReportEndsALaterStop` is an example of the other kind.
- A change of settings while a retry is waiting cancels the retry and starts nothing in its
  place, and the blocking stop at exit drops a waiting intent.
- The comment in `connectToPort` says the first poll runs after the reset. In the code it is
  accepted in that call exactly when the pump is idle once the device has opened
  (`ConnectToPort`), which with a reset to send it is not: `FirstPollIsSkipped` starts a worker
  that has accepted the reset alone. The next tick polls.
- One query that fails while the settings are read adds a row of defaults to an `app_config`
  that has one, after which no sensor, calibration or token write commits until the revision
  has got to its maximum (`StrayRowStopsBumps`, `FailedQueryBlocksSensorWrites`); with such a
  row and the first one at the maximum a write can commit without a step of the revision
  (`StepCanBeLost`), which is why the revision is the number of commits only up to the
  maximum.
- The destructor of the serial worker relies on its stop having run. When the stop was dropped
  the guard is released before the client is deleted, and a tester can open a second client
  meanwhile (`TwoOpenDuringDestruction`); apart from workers being destroyed at most one client
  is open (`AtMostOneOpen`).
- A manual write drives the coil whose address its sensor has. Where that is the coil of a
  linked output, the cached state of the output is wrong after the write, for all settings
  with the reset on connecting (`ManualWriteDefeatsTheCache`); where no manual write reaches
  such a coil, every cached state is true in every run (`CacheIsTrue`, `Run`).
- A first administrator can be set up while somebody is signed in when the count of accounts
  has failed. Its session is real exactly when the new account is still an active
  administrator's as the result arrives (`FinishTask`); if it was changed in between, the
  session can make a change the trail shows to be unauthorised (`UnrealManagerMisuses`,
  `SetupOverSessionStrays`). Left alone it is in order (`SetupOverSessionAlone`), and without
  such a session every manager is an administrator and every change authorised.
- A wrong password whose failure the database does not record is a free guess, because the
  result of recording it is not looked at (`UnrecordedTriesAreFree`); `AttackIsSlow` and
  `GuessingIsSlow` speak of recorded failures. A wrong old password in a change of password is
  neither counted nor slowed.
- A data type the codec does not know is written as a pair and read as one word. Which whole
  numbers come back depends on the format (`OtherTypesComeBackExactly`); 1 in ABCD does not
  (`OtherTypesDoNotComeBack`).
- The request limit of ten a second lets through up to nineteen requests of an address in a
  second (`Burst` reaches them), or twenty while the clock still shows its very first second.

## Model

| member | source | states |
|---|---|---|
| AlarmTrigger.StateIsTwoIndependentTriggers | src/network/modbus/ModbusWorker.cpp:35-59 | after any readings the text-typed state is the encoding of two triggers, high and low, that never influence each other |
| AlarmTrigger.NoHysteresisIsStateless | src/network/modbus/ModbusWorker.cpp:35-59 | with hysteresis 0 or below the result is a plain threshold test of the last value |
| AlarmTrigger.ChatterBound | src/network/modbus/ModbusWorker.cpp:35-59 | for each flag, (changes - 1) times the hysteresis is at most the total variation of the readings |
| AlarmTrigger.FlagsReadBack | src/network/modbus/ModbusWorker.cpp:384-393 | the substring tests recover exactly the flags the text was made from |
| SerialLog.Fifo | src/network/modbus/ModbusWorker.cpp:135-164 | operations begin in the order they were accepted, and each ends once before the next begins |
| SerialLog.OneInFlight | src/network/modbus/ModbusWorker.cpp:166-209 | at every moment before a stop at most one request is unanswered |
| SerialLog.RoundsAreComplete | src/network/modbus/ModbusWorker.cpp:304-307 | a poll round that ends has visited every sensor once and in order, within a bounded number of requests |
| SerialLog.NothingAfterStop | src/network/modbus/ModbusWorker.cpp:106-118 | after a stop no continuation and no queued operation does anything |
| CoilPlan.GatherDesired | src/network/modbus/ModbusWorker.cpp:448-470 | the nested walk over links computes, for every active linked output, the disjunction of what its links ask and its coil |
| CoilPlan.SelectWrites | src/network/modbus/ModbusWorker.cpp:470-481 | in whatever order the hash is walked, one write for exactly the outputs whose cached state is missing or different |
| CoilPlan.BuildDoWrites | src/network/modbus/ModbusWorker.cpp:448-481 | for any settings, one write for exactly the active linked outputs whose cached state is missing or wrong, with the state its alarms ask for and a coil some link gives it |
| CoilPlan.WiredCoil | src/network/modbus/ModbusWorker.cpp:448-481 | with distinct coils a coil some link gives an output is the only one it has |
| CoilPlan.BuildResetWrites | src/network/modbus/ModbusWorker.cpp:693-717 | for any settings, the fail-safe reset writes every linked output once, active or not, to off |
| CoilPlan.ConfirmedWriteAgrees | src/network/modbus/ModbusWorker.cpp:483-506 | a confirmed write makes its own cache entry true and spoils no other output's |
| CoilPlan.ResetConfirms | src/network/modbus/ModbusWorker.cpp:719-746 | a confirmed reset write leaves only the outputs after it in doubt |
| CoilPlan.ResetForgets | src/network/modbus/ModbusWorker.cpp:743-744 | forgetting an output after an error leaves only the outputs after it in doubt |
| CoilPlan.ConfirmedChainConverges | src/network/modbus/ModbusWorker.cpp:448-506 | once every write of a plan is confirmed, each active linked output is on exactly when some linked alarm triggers it, and the next plan is empty |
| CoilPlan.ConfirmedResetTurnsOff | src/network/modbus/ModbusWorker.cpp:693-746 | a reset whose writes are confirmed leaves the linked outputs off and known to be off |
| CoilPlan.SharedCoilDefeatsTheCache | src/network/modbus/ModbusWorker.cpp:448-506 | when two active outputs have one coil and are to be set differently, whatever was cached, confirming the whole plan leaves the cache wrong about one of them |
| CoilPlan.SharedCoil | src/network/modbus/ModbusWorker.cpp:448-506 | settings for which the plan of the code, all confirmed, makes the cache wrong |
| CoilPlan.WritesAreBounded | src/network/modbus/ModbusWorker.cpp:448-481 | for any settings, a chain has no more writes than there are linked outputs |
| SerialWorker.ModbusWorker.EnqueueOp | src/network/modbus/ModbusWorker.cpp:135-139 | while running an operation is accepted at once, its first request goes out if the pump was idle, and the invariants of pump, cache and log hold again; a stopped worker does nothing |
| SerialWorker.ModbusWorker.PumpNextOp | src/network/modbus/ModbusWorker.cpp:141-155 | the operation at the head of the queue begins with the request that is its own first one, or the pump goes idle with an empty queue |
| SerialWorker.ModbusWorker.OpDone | src/network/modbus/ModbusWorker.cpp:157-164 | an operation may end only when nothing is awaited, and a poll round only when every sensor was visited |
| SerialWorker.ModbusWorker.Send | src/network/modbus/ModbusWorker.cpp:166-178 | a request is taken only on an open line, by a client that takes every request always, and its continuation is the one awaited |
| SerialWorker.ModbusWorker.PollSensorAt | src/network/modbus/ModbusWorker.cpp:304-307 | the sensor asked for is read next, a round goes on to its end whatever cannot be sent, and what is known of chain, cache and alarms stays |
| SerialWorker.ModbusWorker.OnRead | src/network/modbus/ModbusWorker.cpp:321-444 | a good reading changes exactly its sensor's alarm state or cached state, an error nothing, and a timeout tears the connection down; the next request is the sensor's first outstanding write or input, or the next sensor |
| SerialWorker.ModbusWorker.OnAnalog | src/network/modbus/ModbusWorker.cpp:374-444 | an analog reading is judged with hysteresis and followed by exactly the writes its alarms make outstanding |
| SerialWorker.ModbusWorker.WriteDoChain | src/network/modbus/ModbusWorker.cpp:483-506 | write k of the chain is sent next, or after the last the inputs are read; a write that cannot be sent is passed over without changing cache, alarms or device |
| SerialWorker.ModbusWorker.OnWrite | src/network/modbus/ModbusWorker.cpp:483-506 | a good reply caches exactly the written state, an error keeps the old one, and both go on to the next write; a timeout tears the connection down whether or not the coil moved |
| SerialWorker.ModbusWorker.ReadDiChain | src/network/modbus/ModbusWorker.cpp:508-552 | the next active input of the sensor is read, or after the last the next sensor; alarms and coil states are left alone |
| SerialWorker.ModbusWorker.OnDi | src/network/modbus/ModbusWorker.cpp:508-552 | an answered input is followed by the next active one, and a timeout tears the connection down |
| SerialWorker.ModbusWorker.ResetDoCoils | src/network/modbus/ModbusWorker.cpp:693-717 | the reset forgets all alarms and writes off, to every linked output, beginning with the first |
| SerialWorker.ModbusWorker.ResetWriteAt | src/network/modbus/ModbusWorker.cpp:719-729 | write k of the reset is sent next; one that cannot be sent leaves its output unknown |
| SerialWorker.ModbusWorker.OnReset | src/network/modbus/ModbusWorker.cpp:719-746 | a confirmed reset write caches off, an error forgets the output, and both go on to the next write; a timeout tears the connection down |
| SerialWorker.ModbusWorker.RunManualWrite | src/network/modbus/ModbusWorker.cpp:656-675 | the write goes to the coil of the first sensor with that number, or nowhere |
| SerialWorker.ModbusWorker.OnManual | src/network/modbus/ModbusWorker.cpp:656-690 | a manual write caches its state only when confirmed, and makes foreign the coil it drove and no other |
| SerialWorker.ModbusWorker.ResetConnectionAfterHang | src/network/modbus/ModbusWorker.cpp:554-568 | after a hang there is no client, no connection and no claim on the port |
| SerialWorker.ModbusWorker.ConnectToPort | src/network/modbus/ModbusWorker.cpp:221-273 | connecting succeeds exactly when the port is ours or free and the device opens; the first poll is accepted in the same call exactly when the pump is idle once the device has opened; a failure changes no cached state |
| SerialWorker.ModbusWorker.DeviceOpened | src/network/modbus/ModbusWorker.cpp:242-263 | on connecting either the fail-safe reset is the first operation accepted, or all cached alarms and coil states are forgotten |
| SerialWorker.ModbusWorker.StartUp | src/network/modbus/ModbusWorker.cpp:81-104 | a worker that starts and connects has accepted the reset alone, and awaits its first reply, when there is an output to reset and the client takes it, and otherwise has accepted the first poll as well |
| SerialWorker.FirstPollIsSkipped | src/network/modbus/ModbusWorker.cpp:253-265 | a started and connected worker whose first poll was skipped |
| SerialWorker.ModbusWorker.OnPollTimer | src/network/modbus/ModbusWorker.cpp:285-302 | a tick starts a round exactly when connected and idle, so rounds never overlap |
| SerialWorker.ModbusWorker.Shutdown | src/network/modbus/ModbusWorker.cpp:106-118 | a stop drops what is awaited and queued, gives the port back and is the last thing observed |
| SerialWorker.ModbusWorker.OnAnswer | src/network/modbus/ModbusWorker.cpp:180-198 | an answer is taken only for an awaited request, runs its continuation once, and loses the connection exactly on a timeout |
| SerialWorker.ModbusWorker.WriteSingleCoil | src/network/modbus/ModbusWorker.cpp:656-690 | a manual write is queued behind what is under way, and is sent at once to the coil of the first sensor with its number when nothing is |
| SerialWorker.ModbusWorker.CachedStatesAreTrue | src/network/modbus/ModbusWorker.cpp:253-263 | with distinct coils, while connected with no reset outstanding, a cached state of a linked output equals its coil unless a manual write reaches that coil and was the last to drive it |
| SerialWorker.ModbusWorker.CacheIsTrue | src/network/modbus/ModbusWorker.cpp:253-263 | with distinct coils none of which a manual write reaches, every cached state of a linked output equals its coil |
| SerialWorker.ModbusWorker.OutputsFollowAlarms | src/network/modbus/ModbusWorker.cpp:448-506 | from the end of a chain confirmed throughout until the next chain or reset, whatever is done or awaited meanwhile: nothing is left to write, and with distinct coils every active linked output is on exactly when its alarms ask for it, unless a manual write reaches its coil and was the last to drive it |
| SerialWorker.ModbusWorker.Run | src/network/modbus/ModbusWorker.cpp:81-307 | over any events, timeouts, stops and foreign coil writes and under any settings: an accepted log and a pump active exactly while one reply is awaited; with distinct coils a true cache and, after a confirmed chain, outputs that follow the alarms, for every output whose coil no manual write reaches or drove last |
| SerialWorker.ManualWriteDefeatsTheCache | src/network/modbus/ModbusWorker.cpp:656-690 | for all settings with distinct coils and the reset on connecting in which a manual write reaches a linked output's coil, a run after which the cached state is wrong |
| ReadingQueue.SpillAndLoadBack | src/network/workers/DatabaseWorker.cpp:98-127 | what is spilled is what the next start loads, in order |
| ReadingQueue.Overflow | src/network/workers/DatabaseWorker.cpp:27-30 | dropping the oldest moves one reading to the dropped and keeps the order of the rest |
| ReadingQueue.Requeueing | src/network/workers/DatabaseWorker.cpp:172-175 | a batch put back in front loses, doubles and reorders nothing |
| ReadingQueue.Restoring | src/network/workers/DatabaseWorker.cpp:85-93 | the spilled records enter in front of what has arrived and keep order and conservation |
| ReadingQueue.OwedAfterOverflow | src/network/workers/DatabaseWorker.cpp:24-32 | an overflow during a flush cannot move a spilled record beyond the count still owed |
| ReadingQueue.OwedAfterCommit | src/network/workers/DatabaseWorker.cpp:179-183 | a commit settles as many debts as it has records, and no spilled record is left uncounted |
| ReadingQueue.DatabaseWorker.Enqueue | src/network/workers/DatabaseWorker.cpp:24-32 | the newest reading always fits while running, at the cost of the oldest when full; a stopped worker refuses it |
| ReadingQueue.DatabaseWorker.LoadSpilledQueue | src/network/workers/DatabaseWorker.cpp:71-96 | the records of a readable list go in front in their order and are counted; an unreadable or garbled file changes nothing |
| ReadingQueue.DatabaseWorker.PrependRecords | src/network/workers/DatabaseWorker.cpp:85-93 | prepending from the end puts exactly the objects of the array in front, in order, and counts them |
| ReadingQueue.DatabaseWorker.TakeBatch | src/network/workers/DatabaseWorker.cpp:133-139 | the whole queue becomes the batch in one step |
| ReadingQueue.DatabaseWorker.Requeue | src/network/workers/DatabaseWorker.cpp:143-145 | a batch the database did not take stands in front of what arrived meanwhile, in its order |
| ReadingQueue.DatabaseWorker.FinishFlush | src/network/workers/DatabaseWorker.cpp:141-190 | a flush commits its whole batch or none of it; one that does not commit leaves the queue within its limit exactly when batch and queue together were; the spill file goes only when all its records are committed, skipped or dropped |
| ReadingQueue.DatabaseWorker.StopAndTakeBatch | src/network/workers/DatabaseWorker.cpp:53-57 | after a stop no reading is accepted and the queue goes into one last flush |
| ReadingQueue.DatabaseWorker.SaveSpilledQueue | src/network/workers/DatabaseWorker.cpp:98-127 | the new file holds exactly the queue and only then does the queue leave memory; a failed write changes neither |
| ReadingQueue.DatabaseWorker.StopWithoutDatabase | src/network/workers/DatabaseWorker.cpp:53-69 | a stop with the database unreachable leaves exactly the queue in the file |
| ReadingQueue.DatabaseWorker.Perform | src/network/workers/DatabaseWorker.cpp:24-190 | a queue within its limit stays there at every step but an uncommitted flush and a restore, and at those exactly when what is put together fits |
| ReadingQueue.QueueOutgrowsItsLimit | src/network/workers/DatabaseWorker.cpp:133-146 | a run that leaves twice the limit in the queue |
| ReadingQueue.DatabaseWorker.SpilledRecordsSurvive | src/network/workers/DatabaseWorker.cpp:71-127 | at any moment a record of the initial file is stored, skipped, dropped or still on disk, if and only if the file was loaded or has not been overwritten |
| ReadingQueue.DatabaseWorker.Run | src/network/workers/DatabaseWorker.cpp:24-190 | over any interleaving, cut anywhere: every accepted reading is in exactly one place, commits follow arrival order, and spilled records are accounted for |
| ReadingQueue.UnreadableFileIsLost | src/network/workers/DatabaseWorker.cpp:74-74 | a file that cannot be opened at start is lost to the spill at stop |
| PortGuard.Guard.TryLock | src/utils/modbus/ModbusPortGuard.h:42-49 | a guard exactly when the mutex was free, and it is then the holder |
| PortGuard.Guard.MoveFrom | src/utils/modbus/ModbusPortGuard.h:26-38 | moving passes ownership without ever unlocking it, and moving to oneself does nothing |
| PortGuard.Guard.Release | src/utils/modbus/ModbusPortGuard.h:53-59 | a release unlocks once and never another's lock |
| PortGuard.PortUser.AcquirePort | src/network/workers/TesterWorker.cpp:83-96 | the port is had exactly when it already was ours, or was free and for a tester the probe succeeded; a failed attempt leaves the lock as it was |
| PortGuard.PortUser.ReleasePort | src/network/workers/TesterWorker.cpp:98-100 | giving up the guard frees the mutex and touches no other worker |
| PortGuard.PortUser.ConnectToPort | src/network/modbus/ModbusWorker.cpp:221-273 | a monitor opens its client only with the guard, and never disturbs another owner |
| PortGuard.PortUser.ResetConnectionAfterHang | src/network/modbus/ModbusWorker.cpp:554-568 | after a hang neither client nor guard is left, and the mutex is free if it was ours |
| PortGuard.PortUser.StopSlot | src/network/modbus/ModbusWorker.cpp:106-118 | a stop closes the client and frees the port |
| PortGuard.PortUser.DestroyMembers | src/network/modbus/ModbusWorker.cpp:24-28 | the destructor releases the guard whether or not the client is still open |
| PortGuard.PortUser.DoConnect | src/network/workers/TesterWorker.cpp:28-81 | a tester opens its client only with the guard, and frees the port when it cannot |
| PortGuard.PortUser.DoDisconnect | src/network/workers/TesterWorker.cpp:102-113 | disconnecting closes the client and frees the port |
| PortGuard.AtMostOneOpen | src/utils/modbus/ModbusPortGuard.h:19-63 | an open client's guard holds the mutex, so of the clients open in the process at most one belongs to a worker that is not being destroyed |
| PortGuard.LockedIsOwned | src/utils/modbus/ModbusPortGuard.h:19-63 | the mutex is locked exactly when some worker has a guard, the holder: no lock is leaked |
| PortGuard.Interleave | src/network/workers/TesterWorker.cpp:28-113 | any schedule of connects, hangs, stops, disconnects and destructions of any number of workers keeps ownership single and every lock owned by a worker |
| PortGuard.TwoOpenDuringDestruction | src/network/modbus/ModbusWorker.cpp:24-28 | without its stop a worker under destruction lets a second client open |
| StopRetry.DelayTable | src/core/MonitorController.cpp:666-670 | the delays are 5, 10, 20, 40 and then 60 seconds |
| StopRetry.MonitorController.StartPolling | src/core/MonitorController.cpp:121-169 | starting cancels a waiting retry and needs a sensor |
| StopRetry.MonitorController.StopPollingWithIntent | src/core/MonitorController.cpp:312-352 | a stop begins only while polling and not stopping; only then is its intent kept, and it waits for exactly the workers alive |
| StopRetry.MonitorController.OnWorkerAsyncStopped | src/core/MonitorController.cpp:354-358 | the last report awaited ends the stop and carries out its intent, with the workers passed over on record; an earlier one only counts |
| StopRetry.MonitorController.OnLateReport | src/core/MonitorController.cpp:354-358 | a report left over from an earlier stop counts towards the present one |
| StopRetry.MonitorController.OnBackstop | src/core/MonitorController.cpp:346-351 | a backstop ends a stop under way, of whatever age, and is idle otherwise |
| StopRetry.MonitorController.FinalizeStop | src/core/MonitorController.cpp:360-397 | ending a stop clears it and carries out its intent exactly once |
| StopRetry.MonitorController.StopPollingSync | src/core/MonitorController.cpp:399-431 | the blocking stop ends everything, a waiting retry and a waiting intent included |
| StopRetry.MonitorController.ScheduleRetry | src/core/MonitorController.cpp:672-688 | while polling a retry stops first, otherwise it starts its timer; a waiting retry is not restarted |
| StopRetry.MonitorController.FinishRetry | src/core/MonitorController.cpp:690-707 | one timer, with the delay of its place in the streak |
| StopRetry.MonitorController.OnDataReady | src/core/MonitorController.cpp:512-520 | a reading while polling ends the streak of failures |
| StopRetry.MonitorController.OnModbusError | src/core/MonitorController.cpp:571-592 | the error that reaches the limit while polling begins a stop that retries; fewer errors, and errors while stopping or waiting to retry, change nothing but the count |
| StopRetry.MonitorController.OnModbusStopped | src/core/MonitorController.cpp:602-609 | an unexpected exit while polling begins a stop that retries, and changes nothing otherwise |
| StopRetry.MonitorController.OnWatchdogMiss | src/core/MonitorController.cpp:647-651 | a dead worker while polling begins a stop that retries, and changes nothing otherwise |
| StopRetry.MonitorController.RefreshSensors | src/core/MonitorController.cpp:432-460 | a change restarts monitoring exactly when it ran and was not stopping, and cancels a waiting retry for good |
| StopRetry.MonitorController.StreakBacksOff | src/core/MonitorController.cpp:666-707 | the delays of an unbroken streak never decrease and stay within 5 and 60 seconds |
| StopRetry.MonitorController.CounterIsHonest | src/core/MonitorController.cpp:312-358 | a stop ended by the counter has passed over no more of its own workers than reports were outstanding when it began; none if no earlier stop was cut short |
| StopRetry.MonitorController.Run | src/core/MonitorController.cpp:312-431 | over any events: stopping implies polling, a retry implies not polling, an intent implies stopping, every stop ends once, every intent is carried out at most once, and every end by the counter is as honest as the reports outstanding at its begin allow |
| StopRetry.LateReportEndsALaterStop | src/core/MonitorController.cpp:347-358 | a concrete run in which an abandoned worker ends a later stop with one of its own workers passed over |
| Calibration.RawValuesVary | src/utils/calc/CalibrationMath.cpp:18-30 | true exactly when the range of raw values exceeds the tolerance relative to their magnitude, and then two of them differ |
| Calibration.FitLine | src/utils/calc/CalibrationMath.cpp:42-126 | fails for fewer than two points or values that do not vary and in no other case; else the line is the only minimum, with its residuals, the largest of them and R squared |
| Calibration.Means | src/utils/calc/CalibrationMath.cpp:61-70 | whatever the origin, the shifted loop finds the true means |
| Calibration.CentredSums | src/utils/calc/CalibrationMath.cpp:72-81 | the second loop computes the centred sums of squares and products |
| Calibration.SlopeAndIntercept | src/utils/calc/CalibrationMath.cpp:59-89 | the sum of squares is positive for values that vary, and slope and intercept are those of the centred sums |
| Calibration.Residuals | src/utils/calc/CalibrationMath.cpp:97-111 | residuals in order, the largest in size and the sum of squares |
| Calibration.CentredSumsGiveNormal | src/utils/calc/CalibrationMath.cpp:88-89 | residuals sum to zero and are orthogonal to the raw values |
| Calibration.NormalIsOptimal | src/utils/calc/CalibrationMath.cpp:42-126 | every other line is worse by exactly the squared distance between the two lines on the points |
| Calibration.BestLineIsUnique | src/utils/calc/CalibrationMath.cpp:42-126 | a line as good is the same line |
| Calibration.OrderDoesNotMatter | src/utils/calc/CalibrationMath.cpp:42-126 | the line depends on the points with their multiplicities, not on their order |
| Calibration.SumIgnoresOrder | src/utils/calc/CalibrationMath.cpp:65-81 | no sum depends on the order of the points |
| Calibration.ShiftCancels | src/utils/calc/CalibrationMath.cpp:59-70 | the centre does not depend on the origin chosen |
| Calibration.ResidualSpread | src/utils/calc/CalibrationMath.cpp:97-121 | what is left over is the spread of the references less what the line explains |
| Calibration.RSquaredIsCorrelation | src/utils/calc/CalibrationMath.cpp:113-122 | R squared from the residuals is Sxy squared over Sxx Syy and lies between 0 and 1 |
| Lockout.LockSecondsFor | src/core/AuthService.cpp:22-31 | the loop computes min(60 times 2 to the (n/5 - 1), 900), and 0 below five |
| Lockout.LockSecondsIsMonotone | src/core/AuthService.cpp:22-31 | more failures never lock for less, and five are needed to lock at all |
| Lockout.AttackIsSlow | src/core/AuthService.cpp:427-455 | with a clock that does not run backwards the failure after n others comes no earlier than the first plus all n waits |
| Lockout.UnrecordedTriesAreFree | src/core/AuthService.cpp:436-446 | failures that are never recorded leave the account clean, however many |
| Lockout.WaitsInTheLongRun | src/core/AuthService.cpp:22-31 | from the 25th failure on each costs another 15 minutes |
| Transactions.Connection.RunWithAudit | src/core/AuthService.cpp:67-82 | change and audit row both happen or neither does, whichever statement fails |
| AccountTable.LastAdminIsExact | src/core/AuthService.cpp:838-846 | while the count can be read the guard refuses exactly the changes that leave no active administrator, and when it cannot be read it refuses more |
| AccountTable.FindByUsername | src/data/repositories/UserAccountDao.cpp:67-79 | a row of that name exactly when there is one and the query works |
| AccountTable.SoundAfterInsert | src/data/repositories/UserAccountDao.cpp:81-123 | a recorded insertion keeps an active administrator and a trail that tells every standing |
| AccountTable.SoundAfterChange | src/core/AuthService.cpp:848-874 | a recorded and guarded change or removal keeps an active administrator and a trail that tells every standing |
| Accounts.AuthService.RequestLogin | src/core/AuthService.cpp:379-391 | a login is started only without a session and with no other work under way |
| Accounts.AuthService.RequestFirstAdmin | src/core/AuthService.cpp:537-562 | a first administrator is asked for only while the service believes there are no accounts |
| Accounts.AuthService.RequestCreateUser | src/core/AuthService.cpp:676-706 | only a manager's request for a known role is started, and a refusal is noted |
| Accounts.AuthService.RequestResetPassword | src/core/AuthService.cpp:755-776 | only a manager's request for another account is started, and a refusal is noted |
| Accounts.AuthService.TryPassword | src/core/AuthService.cpp:420-463 | accepted exactly when active, not locked and matching; a refusal of an active account is one more try and counts exactly when wrong and recorded, and success clears lock and tries |
| Accounts.AuthService.WorkLogin | src/core/AuthService.cpp:393-470 | succeeds exactly when the name is found and its account is active, not locked and matched; one refused counts against it as the lockout says |
| Accounts.AuthService.WorkUnlock | src/core/AuthService.cpp:485-534 | succeeds exactly when the session's own account is found, active, not locked and matched, and counts like a login |
| Accounts.AuthService.WorkFirstAdmin | src/core/AuthService.cpp:564-611 | succeeds exactly when there are no accounts or the count failed, the name is free, and hash and statements work; then one administrator and one audit row |
| Accounts.AuthService.WorkCreateUser | src/core/AuthService.cpp:707-752 | succeeds exactly when the name is free and hash and statements work; the new account must change its password, with exactly one audit row, and a failure changes nothing |
| Accounts.AuthService.WorkChangePassword | src/core/AuthService.cpp:630-673 | succeeds exactly when the account is found, the old password matches, and hash and statements work; it ends the duty to change and clears the lock |
| Accounts.AuthService.WorkResetPassword | src/core/AuthService.cpp:777-816 | succeeds exactly when the account is found, the policy is met, and hash and statements work; it sets a duty to change and clears the lock, with exactly one audit row, and a failure changes nothing |
| Accounts.AuthService.Work | src/core/AuthService.cpp:314-333 | background work takes no account's role or access away, adds at most one audit row, and records the tries exactly as its outcome says |
| Accounts.AuthService.FinishTask | src/core/AuthService.cpp:335-377 | only now does the session change, and exactly as the result says; the session of a first administrator is real exactly when the account still is an active administrator's |
| Accounts.AuthService.Lock | src/core/AuthService.cpp:288-300 | a session is locked, whether or not the row about it is written |
| Accounts.AuthService.Logout | src/core/AuthService.cpp:302-312 | no session is left |
| Accounts.AuthService.ManagersAreAdmins | src/core/AuthService.cpp:155-175 | unless a session was begun on an administrator's account changed since its setup, whoever may manage accounts is an active administrator in the database with no password to change |
| Accounts.AuthService.Change | src/core/AuthService.cpp:848-874 | a guarded change happens with its row or not at all, and sessions and pending work stay real |
| Accounts.AuthService.SetUserActive | src/core/AuthService.cpp:819-874 | succeeds exactly when a manager asks, not to disable himself or the last administrator, and every statement works; changes that flag only, even when background work runs in between |
| Accounts.AuthService.SetUserRole | src/core/AuthService.cpp:876-936 | succeeds exactly when a manager asks for another's role and an administrator remains; changes that role only |
| Accounts.AuthService.UpdateUser | src/core/AuthService.cpp:938-1009 | role and access change together under the same guards, and the row names exactly what changed |
| Accounts.AuthService.DeleteUser | src/core/AuthService.cpp:1011-1070 | removes exactly the account, never one's own or the last administrator |
| Accounts.AuthService.GuessingIsSlow | src/core/AuthService.cpp:427-524 | on every reachable account the recorded failures since its lock was cleared are spaced by the full schedule, over logins and unlocks alike |
| Accounts.Step | src/core/AuthService.cpp:819-1070 | once there is an active administrator, every event leaves one |
| Accounts.Run | src/core/AuthService.cpp:537-1070 | over any run from a new database: no accounts or an active administrator, a trail whose replay is the table of roles and access, and, unless a session was begun on an administrator's account changed since its setup, every management change made by an active administrator |
| Accounts.UnrealManagerMisuses | src/core/AuthService.cpp:819-874 | whoever may manage accounts without being an active administrator in the database can make an unauthorised change |
| Accounts.SetupOverSessionStrays | src/core/AuthService.cpp:335-355 | a run with a setup over a session whose account is disabled before the result arrives, and an unauthorised change |
| Accounts.SetupOverSessionAlone | src/core/AuthService.cpp:335-355 | the same run without the disabling ends with a real session and only authorised changes |
| AuditedConfig.BumpSteps | src/data/repositories/AppConfigDao.cpp:213-227 | a bump that affects exactly one row steps the revision by one, held at the maximum |
| AuditedConfig.StrayRowStopsBumps | src/data/repositories/AppConfigDao.cpp:213-220 | with a further row that can be stepped a bump affects two rows or more, and so is refused |
| AuditedConfig.StepCanBeLost | src/data/repositories/AppConfigDao.cpp:213-227 | with a stray row and the first at the maximum a bump succeeds without a step |
| AuditedConfig.LastRowWins | src/core/SensorListModel.cpp:397-410 | of the rows of the form only the last that names a sensor counts, and only symbol and transmission change |
| AuditedConfig.Station.Load | src/data/repositories/AppConfigDao.cpp:82-113 | returns the first row, and adds nothing but a row of defaults, when there is none or the query fails |
| AuditedConfig.Station.BumpRevision | src/data/repositories/AppConfigDao.cpp:213-227 | returns the new revision exactly when one row was affected and read back, otherwise -1 |
| AuditedConfig.Station.UpdateTransmissions | src/core/SensorListModel.cpp:397-413 | the loop applies the rows in order, skips ids below 1 and stops at a failure |
| AuditedConfig.Station.RunOp | src/core/SensorListModel.cpp:252-414 | each sensor operation has exactly its effect, and fails for a missing sensor or a failing statement |
| AuditedConfig.Station.CommitSensorWrite | src/core/SensorListModel.cpp:204-241 | commits exactly when everything works and one row can be bumped; then its effect, one step and one audit row, otherwise nothing |
| AuditedConfig.Station.SaveConfigWithAudit | src/core/SettingsController.cpp:27-56 | the stored revision is stepped, not the screens' old one; both agree afterwards, and a failure leaves database and screens' revision |
| AuditedConfig.Station.RegenerateRestToken | src/core/SettingsController.cpp:323-367 | a new token with one step and one audit row, or nothing at all |
| AuditedConfig.Station.ApplyCalibration | src/core/CalibrationController.cpp:261-324 | session, coefficients, revision and audit row together, for an analog sensor that exists, or nothing |
| AuditedConfig.Station.Check | src/network/rest/RestConfigUpdater.cpp:43-59 | a request passes exactly when every field it has is valid |
| AuditedConfig.Station.RestApply | src/network/rest/RestConfigUpdater.cpp:41-101 | refused before the database is touched exactly when invalid; accepted with the stored revision plus one and only the given fields changed; otherwise nothing changes |
| AuditedConfig.FailedQueryBlocksSensorWrites | src/data/repositories/AppConfigDao.cpp:82-113 | over any tables with a row of settings and any run after one failed query: until the revision is at its maximum only settings are ever written, no sensor, calibration or token |
| AuditedConfig.Run | src/core/SensorListModel.cpp:204-241 | over any run of the five writers with failures anywhere: revision is the initial one plus the number of audit rows, held at 2147483647 |
| Downsampler.BucketsFollowOn | src/utils/chart/Downsampler.cpp:39-43 | when points must go no bucket is empty and each begins where the last ended |
| Downsampler.BucketsPartition | src/utils/chart/Downsampler.cpp:37-45 | every inner point lies in exactly one bucket |
| Downsampler.ProductsFit | src/utils/chart/Downsampler.cpp:42-43 | the index products fit 32 bits for 200000 points and a limit of 800 |
| Downsampler.Extremes | src/utils/chart/Downsampler.cpp:46-50 | the first minimum and the first maximum of a bucket |
| Downsampler.BucketExtremes | src/utils/chart/Downsampler.cpp:32-61 | the first point and exactly every bucket's first minimum and maximum, at most maxPoints - 1 of them |
| Downsampler.AppendAlarms | src/utils/chart/Downsampler.cpp:64-69 | every alarm point within the trend is added |
| Downsampler.SortUnique | src/utils/chart/Downsampler.cpp:71-72 | the same indices, increasing, each once |
| Downsampler.MinMax | src/utils/chart/Downsampler.cpp:6-79 | the points kept are exactly first, last, alarms and bucket extremes, in order, and no more than maxPoints and the alarms |
| Downsampler.EnvelopeIsKept | src/utils/chart/Downsampler.cpp:28-79 | every point lies between two kept points, of its own bucket when it is dropped |
| Downsampler.ThinningIsDetermined | src/utils/chart/Downsampler.cpp:71-78 | what is kept determines the result |
| RateLimiter.SecondIsBounded | src/network/rest/RestApiService.cpp:103-117 | any second of windows let through at most twenty, and nineteen when requests opened them |
| RateLimiter.Limiter.CheckRateLimit | src/network/rest/RestApiService.cpp:103-117 | a request passes exactly while its window has let through fewer than ten; other addresses are untouched unless the table is emptied |
| RateLimiter.Run | src/network/rest/RestApiService.cpp:103-117 | over any run: at most twenty (nineteen) in any second between two emptyings, and at most 257 entries |
| RateLimiter.Burst | src/network/rest/RestApiService.cpp:103-117 | nineteen requests of one address within a second do pass |
| PasswordHasher.ConstantTimeEquals | src/utils/security/PasswordHasher.cpp:38-46 | equal exactly when the bytes are |
| PasswordHasher.XorInto | src/utils/security/PasswordHasher.cpp:77-79 | the exclusive or, in place |
| PasswordHasher.BlocksBeginApart | src/utils/security/PasswordHasher.cpp:66-72 | blocks with different 32-bit numbers begin with different inputs |
| PasswordHasher.DeriveBlock | src/utils/security/PasswordHasher.cpp:66-81 | one block is F of section 5.2 of RFC 8018 |
| PasswordHasher.DeriveKey | src/utils/security/PasswordHasher.cpp:56-86 | the loops compute PBKDF2 of section 5.2 of RFC 8018, and nothing for arguments they refuse |
| PasswordHasher.ShorterKeyIsPrefix | src/utils/security/PasswordHasher.cpp:56-86 | a shorter key is the beginning of a longer one |
| PasswordHasher.FormatReadsBack | src/utils/security/PasswordHasher.cpp:103-107 | splitting the stored form gives back its four parts |
| PasswordHasher.DecimalReadsBack | src/utils/security/PasswordHasher.cpp:105-105 | a printed count reads back and has no separator |
| PasswordHasher.Hash | src/utils/security/PasswordHasher.cpp:88-108 | the stored form of the derived key, or nothing for refused arguments |
| PasswordHasher.Verify | src/utils/security/PasswordHasher.cpp:110-145 | accepted exactly when the form is sound and the password derives its key; renewal is asked exactly for weaker parameters |
| PasswordHasher.HashedIsAccepted | src/utils/security/PasswordHasher.cpp:88-145 | what was hashed is accepted, and another password exactly when it derives the same key |
| PasswordHasher.HashThenVerify | src/utils/security/PasswordHasher.cpp:88-145 | hashing and verifying succeeds exactly for accepted arguments, and present defaults are never asked to be renewed |
| FtpReply.LinesGrow | src/network/ftp/FtpClient.cpp:21-27 | more bytes add lines and change none |
| FtpReply.TrimmedIsTrimmed | src/network/ftp/FtpClient.cpp:28-28 | trimming takes all blanks from both ends and nothing else |
| FtpReply.RescanIsIdle | src/network/ftp/FtpClient.cpp:22-42 | scanning undecided lines again with the code they left decides nothing |
| FtpReply.ScanFindsTheReply | src/network/ftp/FtpClient.cpp:29-41 | one pass finds a reply exactly when some line decides it, and finds its code |
| FtpReply.ScanBuffer | src/network/ftp/FtpClient.cpp:21-43 | the inner loop is one pass over the complete lines |
| FtpReply.ReadReply | src/network/ftp/FtpClient.cpp:13-50 | the code depends on the bytes alone and not on how they were cut, and is returned with the piece that completes the deciding line |
| RegisterCodec.OrdersAreInvolutions | src/utils/modbus/ModbusCodec.cpp:72-98 | every byte order puts the octets where its name says and undoes itself |
| RegisterCodec.TruncatedIsTowardsZero | src/utils/modbus/ModbusCodec.cpp:119-152 | conversion to an integer truncates towards zero and stays in range |
| RegisterCodec.EncodedDecodes | src/utils/modbus/ModbusCodec.cpp:47-166 | an integer type refuses exactly what is not finite or out of range, and all else decodes to its truncation in every format |
| RegisterCodec.EncodedFloatDecodes | src/utils/modbus/ModbusCodec.cpp:141-146 | a float type refuses exactly what has no finite float, and all else decodes to the nearest float |
| RegisterCodec.DecodedEncodes | src/utils/modbus/ModbusCodec.cpp:47-166 | registers of an integer type, or of a finite float, are written back unchanged |
| RegisterCodec.PackFloat32 | src/network/modbus/ModbusTcpServerService.cpp:191-194 | the server's pair decodes as float32 in ABCD |
| RegisterCodec.PackU32 | src/network/modbus/ModbusTcpServerService.cpp:195-197 | the server's pair decodes as uint32 in ABCD |
| RegisterCodec.OtherTypesComeBackExactly | src/utils/modbus/ModbusCodec.cpp:38-166 | an unknown data type refuses exactly what uint32 refuses, and a whole number comes back exactly when the word read first is all of it, for each format |
| RegisterCodec.OtherTypesDoNotComeBack | src/utils/modbus/ModbusCodec.cpp:38-45 | the number 1 written in ABCD as an unknown type reads back as another |

## Left out

- Sockets, the serial driver, HTTP routing, the FTP command sequence, OpenSSL, file formats and SQL text: only their outcomes appear.
- Screens, table models, charts other than the thinning, locale, fonts, report files and log rotation.
- Liveness: that a reconnect or a retry eventually succeeds depends on the outside and is not claimed.
- The reply that arrives after its timeout: excluded by hypothesis, see above.
- The payload of readings (formula, decimals, status texts) and heartbeats: the serial worker's model keeps alarms and coil states only.
- Standalone outputs in the coil cache: the reset does not touch their entries, so no claim is made about them.
- Backoff of the serial worker's own reconnect timer: any delay may pass between ticks.
- The loading of the spill file is one step although the source does not lock the queue while it prepends.
- A crash between a commit and the removal of the spill file: the file stays, as when removal fails, and its records may be stored twice by the next start.
- Ticket numbers of readings, the orders in which hashes are walked and the logs are devices of the model.
- Several workers' threads inside the guard: a try for the mutex is one step.
- Rounding in the regression: doubles are exact reals, so the checks against infinities and the too-close case cannot arise.
- Password text, its policy and Unicode normalisation: an outcome of the form; names are compared in one canonical case.
- Display names and time stamps of accounts, and the idle timer that locks a session.
- A background task's work on the database is one step; it may fall between the check and the transaction of enabling, disabling or changing a role.
- Deletion of old audit rows: the replay is of the whole trail.
- Permission checks in front of the configuration writers, and the writers of links, which do not step the revision.
- SettingsController::syncSystemTime, which saves the screens' settings at boot outside any audited transaction.
- The repair of an empty station code or time zone while settings are loaded.
- Signs, blanks and overflow in the iteration count of a stored hash: only plain digits are read; strings made by the hasher have nothing else.
- The text of an FTP reply: only its code is independent of how the bytes arrive.
- Names of data types and formats are values, not strings with their case and blanks.
- Sorting and dropping repeats in the downsampler stand for the library's routines, by effect.
- HistoryViewModel and the tester's scan: their completion claims do not hold as written.
- Schema migration.

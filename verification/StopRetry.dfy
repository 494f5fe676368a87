/**
 Start, asynchronous stop and retry of monitoring (src/core/MonitorController.cpp).

 Everything here runs on the main thread; the events are the calls of the user interface,
 the queued signals of the worker threads and the timers, in any order. A stop is over
 when both workers have reported, when a backstop timer has fired, or when it is
 overtaken by the blocking stop at program exit.
 */
module StopRetry {
  import opened Prelude

  datatype AfterStop = Nothing | Restart | Retry

  /**
   How a stop came to its end. For one the counter ended: how many of its own workers had
   not reported then, and how many reports of earlier stops were outstanding when it began.
   */
  datatype Ending = ByCounter(unreported: nat, left: nat) | ByBackstop | BySync | AtOnce

  const RETRY_BASE_MS := 5000
  const RETRY_MAX_MS := 60000
  const MAX_CONSECUTIVE_ERRORS := 10

  // ---- The backoff ----------------------------------------------------------------

  function ComputeRetryDelayMs(retryCount: int): int {
    var count := if retryCount < 0 then 0 else retryCount;
    Min(RETRY_BASE_MS * Pow2(Min(count, 4)), RETRY_MAX_MS)
  }

  /** 5, 10, 20, 40 seconds, and 60 from then on. */
  lemma DelayTable(n: int)
    ensures ComputeRetryDelayMs(n) ==
            if n <= 0 then 5000 else if n == 1 then 10000 else if n == 2 then 20000 else if n == 3 then 40000 else 60000
  {
    assert Pow2(1) == 2 && Pow2(2) == 4 && Pow2(3) == 8;
    assert Pow2(4) == 16;
  }

  /** The delays since the failures began; they only ever grow, and stay within bounds. */
  ghost predicate Backoff(delays: seq<int>) {
    && (forall i :: 0 <= i < |delays| ==> RETRY_BASE_MS <= delays[i] <= RETRY_MAX_MS)
    && (forall i, j :: 0 <= i < j < |delays| ==> delays[i] <= delays[j])
  }

  predicate OnRung(delay: int, i: nat) { delay == ComputeRetryDelayMs(i) }

  ghost predicate Ladder(delays: seq<int>) {
    forall i {:trigger OnRung(delays[i], i)} :: 0 <= i < |delays| ==> OnRung(delays[i], i)
  }

  lemma NextRung(delays: seq<int>)
    requires Ladder(delays)
    ensures Ladder(delays + [ComputeRetryDelayMs(|delays|)])
  {
    var delays' := delays + [ComputeRetryDelayMs(|delays|)];
    forall i | 0 <= i < |delays'| ensures OnRung(delays'[i], i) {
      if i < |delays| { assert OnRung(delays[i], i); }
    }
  }

  lemma LadderIsBackoff(delays: seq<int>)
    requires Ladder(delays)
    ensures Backoff(delays)
  {
    forall i | 0 <= i < |delays| ensures RETRY_BASE_MS <= delays[i] <= RETRY_MAX_MS {
      assert OnRung(delays[i], i);
      DelayTable(i);
    }
    forall i, j | 0 <= i < j < |delays| ensures delays[i] <= delays[j] {
      assert OnRung(delays[i], i) && OnRung(delays[j], j);
      DelayTable(i);
      DelayTable(j);
    }
  }

  /** An end that may leave a worker unreported. */
  predicate CutShort(e: Ending) { e.ByBackstop? || e.BySync? }

  /** An end at which every worker of the stop has reported. */
  predicate Honest(e: Ending) { e.AtOnce? || (e.ByCounter? && e.unreported == 0) }

  /** A worker passed over was stood in for by a report outstanding from before the stop. */
  predicate Fair(e: Ending) { e.ByCounter? ==> e.unreported <= e.left }

  predicate NoCuts(es: seq<Ending>) { es == [] || (NoCuts(es[..|es| - 1]) && !CutShort(es[|es| - 1])) }

  /** Every end is fair, and until some stop was cut short every end is honest or the first cut. */
  predicate Recorded(es: seq<Ending>) {
    es == [] ||
    var earlier, last := es[..|es| - 1], es[|es| - 1];
    Recorded(earlier) && Fair(last) && (NoCuts(earlier) ==> CutShort(last) || Honest(last))
  }

  /** True of every list of ends; what is known of one is looked up through it. */
  predicate Ends(es: seq<Ending>) { true }

  /** The ends are as recorded, and unless some stop was cut short no report is outstanding. */
  ghost predicate HonestRecord(es: seq<Ending>, outstanding: nat) {
    forall e {:trigger Ends(e)} :: Ends(e) && e == es ==> Recorded(e) && (NoCuts(e) ==> outstanding == 0)
  }

  lemma OneMoreEnd(es: seq<Ending>, how: Ending, before: nat, after: nat)
    requires HonestRecord(es, before) && Fair(how)
    requires CutShort(how) || (before == 0 ==> Honest(how) && after == 0)
    ensures HonestRecord(es + [how], after)
  {
    assert Ends(es);
    assert (es + [how])[..|es|] == es;
  }

  lemma {:induction false} RecordedMembers(es: seq<Ending>, i: nat)
    requires i < |es| && Recorded(es)
    ensures Fair(es[i]) && (NoCuts(es[..i]) ==> CutShort(es[i]) || Honest(es[i]))
  {
    if i < |es| - 1 {
      RecordedMembers(es[..|es| - 1], i);
      assert es[..|es| - 1][..i] == es[..i];
    }
  }

  lemma {:induction false} WithoutCuts(es: seq<Ending>)
    requires forall e :: e in es ==> !CutShort(e)
    ensures NoCuts(es)
  {
    if es != [] { WithoutCuts(es[..|es| - 1]); }
  }

  function Bit(b: bool): nat { if b then 1 else 0 }

  // ---- The controller -------------------------------------------------------------

  datatype Event =
    | Start(hasSensors: bool)
    | UserStop(mbLive: bool, dbLive: bool)
    | ConfigChanged(mbLive: bool, dbLive: bool)
    | ReadingArrives
    | ModbusError(mbLive: bool, dbLive: bool)
    | ModbusExits(mbLive: bool, dbLive: bool)
    | WatchdogMiss(mbLive: bool, dbLive: bool)
    | ModbusReports
    | DatabaseReports
    | LateReport
    | LateReportNeverComes
    | Backstop
    | RestartDue(hasSensors: bool)
    | RetryDue(hasSensors: bool)
    | SyncStop

  class MonitorController {
    var isPolling: bool
    var isStopping: bool
    var pendingStops: int
    var afterStop: AfterStop
    var retryCount: nat
    var retryActive: bool
    var consecutiveErrors: nat
    var restartTimers: nat  // one-shot timers that will call startPolling

    // One-shot connections to workerStopped: of this stop, and left over from earlier ones.
    var modbusPending: bool
    var databasePending: bool
    var leftOver: nat

    ghost var entered: nat            // stops begun
    ghost var endings: seq<Ending>    // stops over
    ghost var asked: nat              // intents accepted
    ghost var carried: nat            // intents carried out
    ghost var discarded: nat          // intents overtaken by the blocking stop
    ghost var leftAtBegin: nat        // reports of earlier stops outstanding when this one began
    ghost var lateHits: nat           // of those, the ones counted towards this stop
    ghost var delays: seq<int>        // retry delays since the streak of failures began

    ghost predicate Valid()
      reads this
    {
      && (isStopping ==> isPolling)
      && (retryActive ==> !isPolling)
      && (afterStop != Nothing ==> isStopping)
      && (isStopping ==> pendingStops > 0 && pendingStops + lateHits == Bit(modbusPending) + Bit(databasePending))
      && (isStopping ==> lateHits + leftOver <= leftAtBegin)
      && (!isStopping ==> pendingStops == 0 && lateHits == 0 && !modbusPending && !databasePending)
      && entered == |endings| + Bit(isStopping)
      && asked == carried + discarded + Bit(afterStop != Nothing)
      && Backing() && OnRecord()
    }

    /** The delays of the present streak, one for each retry. */
    ghost predicate Backing()
      reads this`delays, this`retryCount
    {
      |delays| == retryCount && Ladder(delays)
    }

    ghost predicate OnRecord()
      reads this`endings, this`leftOver, this`lateHits
    {
      HonestRecord(endings, leftOver + lateHits)
    }

    constructor ()
      ensures Valid() && !isPolling && !retryActive && entered == 0 && endings == [] && leftOver == 0
    {
      isPolling, isStopping, pendingStops, afterStop := false, false, 0, Nothing;
      retryCount, retryActive, consecutiveErrors, restartTimers := 0, false, 0, 0;
      modbusPending, databasePending, leftOver := false, false, 0;
      entered, endings, asked, carried, discarded, delays := 0, [], 0, 0, 0, [];
      leftAtBegin, lateHits := 0, 0;
    }

    method ForgetFailures()
      requires Valid()
      modifies this`retryCount, this`delays
      ensures Valid() && retryCount == 0
    {
      retryCount := 0;
      delays := [];
    }

    method CancelRetry()
      requires Valid()
      modifies this`retryActive
      ensures Valid() && !retryActive
    {
      if retryActive { retryActive := false; }
    }

    method StartPolling(hasSensors: bool)
      requires Valid()
      modifies this`retryActive, this`isPolling, this`consecutiveErrors
      ensures Valid() && isPolling == (old(isPolling) || hasSensors)
      ensures !old(isPolling) ==> !retryActive
    {
      if isPolling { return; }
      CancelRetry();
      if !hasSensors { return; }
      isPolling := true;
      consecutiveErrors := 0;
    }

    /** A stop can begin: monitoring runs and is not being stopped. */
    twostate predicate Begins()
      reads this
    {
      old(isPolling && !isStopping)
    }

    /** The stop has begun and waits for the workers there are. */
    twostate predicate Stopping(after: AfterStop, mbLive: bool, dbLive: bool)
      reads this
    {
      && isStopping && afterStop == after && endings == old(endings)
      && pendingStops == Bit(mbLive) + Bit(dbLive) && lateHits == 0 && leftAtBegin == leftOver
      && modbusPending == mbLive && databasePending == dbLive && restartTimers == old(restartTimers)
    }

    /** Begins a stop unless one is under way; only then is the intent remembered. */
    method StopPollingWithIntent(after: AfterStop, mbLive: bool, dbLive: bool)
      requires Valid()
      modifies this
      ensures Valid() && leftOver == old(leftOver) && consecutiveErrors == old(consecutiveErrors)
      ensures var kept := if after == Nothing then [] else old(delays);
              delays == if Begins() && !mbLive && !dbLive && after == Retry then kept + [ComputeRetryDelayMs(|kept|)]
                        else kept
      ensures Begins() ==> entered == old(entered) + 1 && asked == old(asked) + Bit(after != Nothing)
      ensures Begins() && (mbLive || dbLive) ==> Stopping(after, mbLive, dbLive)
      ensures Begins() && !mbLive && !dbLive ==>
                && !isPolling && endings == old(endings) + [AtOnce] && (retryActive <==> after == Retry)
                && restartTimers == old(restartTimers) + Bit(after == Restart)
      ensures !Begins() ==>
                && isPolling == old(isPolling) && isStopping == old(isStopping) && afterStop == old(afterStop)
                && endings == old(endings) && !retryActive && restartTimers == old(restartTimers)
                && entered == old(entered) && asked == old(asked)
    {
      CancelRetry();
      if after == Nothing {
        ForgetFailures();
      }
      if !isPolling || isStopping { return; }
      StopWorkers(after, mbLive, dbLive);
    }

    /** The stop begins; with no worker to wait for it is over at once. */
    method StopWorkers(after: AfterStop, mbLive: bool, dbLive: bool)
      requires Valid() && isPolling && !isStopping
      modifies this
      ensures Valid() && leftOver == old(leftOver) && consecutiveErrors == old(consecutiveErrors)
      ensures entered == old(entered) + 1 && asked == old(asked) + Bit(after != Nothing)
      ensures if mbLive || dbLive then Stopping(after, mbLive, dbLive) && delays == old(delays)
              else Finished(AtOnce, after)
    {
      BeginStop(after);
      ConnectReports(mbLive, dbLive);
      if pendingStops == 0 {
        FinalizeStop(AtOnce);
      }
    }

    /** No monitoring and no stop: one more end, and the intent has been carried out. */
    twostate predicate Finished(how: Ending, after: AfterStop)
      reads this
    {
      && !isPolling && !isStopping && afterStop == Nothing
      && endings == old(endings) + [how]
      && (retryActive <==> after == Retry) && restartTimers == old(restartTimers) + Bit(after == Restart)
      && delays == (if after == Retry then old(delays) + [ComputeRetryDelayMs(|old(delays)|)] else old(delays))
    }

    method BeginStop(after: AfterStop)
      requires isPolling && !isStopping
      modifies this`afterStop, this`isStopping, this`entered, this`asked, this`leftAtBegin
      ensures isStopping && afterStop == after && entered == old(entered) + 1 && leftAtBegin == leftOver
      ensures asked == old(asked) + Bit(after != Nothing)
    {
      afterStop := after;
      if after != Nothing { asked := asked + 1; }
      isStopping := true;
      entered := entered + 1;
      leftAtBegin := leftOver;
    }

    /** One report is awaited from each worker that is still there. */
    method ConnectReports(mbLive: bool, dbLive: bool)
      requires !modbusPending && !databasePending
      modifies this`pendingStops, this`modbusPending, this`databasePending
      ensures modbusPending == mbLive && databasePending == dbLive && pendingStops == Bit(mbLive) + Bit(dbLive)
    {
      pendingStops := 0;
      if mbLive {
        pendingStops := pendingStops + 1;
        modbusPending := true;
      }
      if dbLive {
        pendingStops := pendingStops + 1;
        databasePending := true;
      }
    }

    /** A worker of this stop has stopped: onWorkerAsyncStopped through its one-shot connection. */
    method OnWorkerAsyncStopped(modbus: bool)
      requires Valid()
      requires if modbus then modbusPending else databasePending
      modifies this
      ensures Valid()
      ensures if old(pendingStops) == 1 then Ended(ByCounter(old(lateHits), old(leftAtBegin)))
              else && isStopping && pendingStops == old(pendingStops) - 1 && endings == old(endings)
                   && leftOver == old(leftOver) && lateHits == old(lateHits)
                   && afterStop == old(afterStop) && leftAtBegin == old(leftAtBegin)
    {
      if modbus { modbusPending := false; } else { databasePending := false; }
      pendingStops := pendingStops - 1;
      if pendingStops == 0 {
        FinalizeStop(ByCounter(Bit(modbusPending) + Bit(databasePending), leftAtBegin));
      }
    }

    /** The same slot, reached through a connection an earlier stop left behind. */
    method OnLateReport()
      requires Valid() && leftOver > 0
      modifies this
      ensures Valid()
      ensures if old(isStopping) && old(pendingStops) == 1 then Ended(ByCounter(old(lateHits) + 1, old(leftAtBegin)))
              else isStopping == old(isStopping) && isPolling == old(isPolling) && endings == old(endings)
                   && pendingStops == old(pendingStops) - Bit(old(isStopping))
    {
      leftOver := leftOver - 1;
      if !isStopping || pendingStops <= 0 { return; }
      lateHits := lateHits + 1;
      pendingStops := pendingStops - 1;
      if pendingStops == 0 {
        FinalizeStop(ByCounter(Bit(modbusPending) + Bit(databasePending), leftAtBegin));
      }
    }

    method OnBackstop()
      requires Valid()
      modifies this
      ensures Valid()
      ensures if old(isStopping)
              then Ended(ByBackstop) && leftOver == old(leftOver + Bit(modbusPending) + Bit(databasePending))
              else isPolling == old(isPolling) && endings == old(endings) && retryActive == old(retryActive)
    {
      if !isStopping || pendingStops <= 0 { return; }
      FinalizeStop(ByBackstop);
    }

    /** A stop is over: nothing is left of it, and its intent has been carried out. */
    twostate predicate Ended(how: Ending)
      reads this
    {
      && Finished(how, old(afterStop))
      && carried == old(carried) + Bit(old(afterStop) != Nothing) && discarded == old(discarded)
      && consecutiveErrors == old(consecutiveErrors)
    }

    /** Reports of this stop that are still to come stay connected. */
    method RecordEnd(ghost how: Ending)
      requires OnRecord() && Fair(how)
      requires CutShort(how) || (leftOver + lateHits == 0 ==> Honest(how) && !modbusPending && !databasePending)
      modifies this`endings, this`leftOver, this`modbusPending, this`databasePending, this`lateHits
      ensures OnRecord() && endings == old(endings) + [how]
      ensures leftOver == old(leftOver + Bit(modbusPending) + Bit(databasePending))
      ensures !modbusPending && !databasePending && lateHits == 0
    {
      OneMoreEnd(endings, how, leftOver + lateHits, leftOver + Bit(modbusPending) + Bit(databasePending));
      endings := endings + [how];
      leftOver := leftOver + Bit(modbusPending) + Bit(databasePending);
      modbusPending, databasePending, lateHits := false, false, 0;
    }

    method FinalizeStop(ghost how: Ending)
      requires isStopping && isPolling && !retryActive
      requires entered == |endings| + 1 && asked == carried + discarded + Bit(afterStop != Nothing)
      requires Backing() && OnRecord() && Fair(how)
      requires CutShort(how) || (leftOver + lateHits == 0 ==> Honest(how) && !modbusPending && !databasePending)
      modifies this
      ensures Valid() && Ended(how) && entered == old(entered) && asked == old(asked)
      ensures leftOver == old(leftOver + Bit(modbusPending) + Bit(databasePending))
    {
      RecordEnd(how);
      var after := ClearStop();
      CarryOut(after);
    }

    /** Monitoring is over, and the intent is taken to be carried out. */
    method ClearStop() returns (after: AfterStop)
      modifies this`pendingStops, this`isPolling, this`isStopping, this`afterStop, this`carried
      ensures pendingStops == 0 && !isPolling && !isStopping && afterStop == Nothing
      ensures after == old(afterStop) && carried == old(carried) + Bit(after != Nothing)
    {
      pendingStops := 0;
      isPolling := false;
      isStopping := false;
      after := afterStop;
      afterStop := Nothing;
      if after != Nothing { carried := carried + 1; }
    }

    /** What the intent of a stop leads to. */
    method CarryOut(after: AfterStop)
      requires Valid() && !isPolling && !retryActive
      modifies this`restartTimers, this`retryActive, this`retryCount, this`delays
      ensures Valid() && restartTimers == old(restartTimers) + Bit(after == Restart)
              && (retryActive <==> after == Retry)
      ensures delays == if after == Retry then old(delays) + [ComputeRetryDelayMs(|old(delays)|)] else old(delays)
    {
      if after == Restart {
        restartTimers := restartTimers + 1;
      } else if after == Retry {
        FinishRetry();
      }
    }

    /** The blocking stop at program exit; it drops the intent of a stop it overtakes. */
    method StopPollingSync()
      requires Valid()
      modifies this
      ensures Valid() && !isPolling && !isStopping && !retryActive && afterStop == Nothing
      ensures carried == old(carried) && restartTimers == old(restartTimers)
      ensures old(isStopping) ==> endings == old(endings) + [BySync]
      ensures !old(isStopping) ==> endings == old(endings) && entered == old(entered)
    {
      CancelRetry();
      if isPolling {
        EndNow();
      }
    }

    method EndNow()
      requires Valid() && isPolling
      modifies this`isPolling, this`isStopping, this`pendingStops, this`afterStop, this`discarded
      modifies this`endings, this`leftOver, this`modbusPending, this`databasePending, this`lateHits
      ensures Valid() && !isPolling && !isStopping && afterStop == Nothing
      ensures old(isStopping) ==> endings == old(endings) + [BySync]
      ensures !old(isStopping) ==> endings == old(endings)
    {
      if isStopping {
        RecordEnd(BySync);
      }
      pendingStops := 0;
      if afterStop != Nothing { discarded := discarded + 1; }
      afterStop := Nothing;
      isPolling := false;
      isStopping := false;
    }

    // ---- Retry ----------------------------------------------------------------------

    /** A failure while monitoring: a stop that is to retry begins, or without workers the retry waits at once. */
    twostate predicate Failed(mbLive: bool, dbLive: bool)
      reads this
    {
      if mbLive || dbLive then
        isStopping && afterStop == Retry && entered == old(entered) + 1 && endings == old(endings)
          && delays == old(delays)
      else
        && retryActive && !isPolling && endings == old(endings) + [AtOnce]
        && delays == old(delays) + [ComputeRetryDelayMs(|old(delays)|)]
    }

    twostate predicate Untouched()
      reads this
    {
      && isPolling == old(isPolling) && isStopping == old(isStopping) && afterStop == old(afterStop)
      && pendingStops == old(pendingStops) && retryActive == old(retryActive) && retryCount == old(retryCount)
      && delays == old(delays) && endings == old(endings) && entered == old(entered)
    }

    method ScheduleRetry(mbLive: bool, dbLive: bool)
      requires Valid() && !isStopping
      modifies this
      ensures Valid() && (old(isPolling) ==> Failed(mbLive, dbLive)) && consecutiveErrors == old(consecutiveErrors)
      ensures old(retryActive) ==> retryActive && delays == old(delays)
      ensures !old(retryActive) && !old(isPolling) ==> retryActive && |delays| == |old(delays)| + 1
    {
      if retryActive { return; }
      if !isPolling || isStopping {
        FinishRetry();
        return;
      }
      StopPollingWithIntent(Retry, mbLive, dbLive);
    }

    method FinishRetry()
      requires Valid() && !isPolling
      modifies this`retryActive, this`retryCount, this`delays
      ensures Valid() && retryActive
      ensures if old(retryActive) then delays == old(delays)
              else delays == old(delays) + [ComputeRetryDelayMs(|old(delays)|)]
    {
      if retryActive { return; }
      NextRung(delays);
      var delayMs := ComputeRetryDelayMs(retryCount);
      retryCount := retryCount + 1;
      retryActive := true;
      delays := delays + [delayMs];
    }

    /** A reading: the failures are over. */
    method OnDataReady()
      requires Valid()
      modifies this`consecutiveErrors, this`retryCount, this`delays
      ensures Valid() && (isPolling && !isStopping ==> retryCount == 0 && consecutiveErrors == 0)
    {
      if !isPolling || isStopping { return; }
      consecutiveErrors := 0;
      if retryCount > 0 {
        ForgetFailures();
      }
    }

    method OnModbusError(mbLive: bool, dbLive: bool)
      requires Valid()
      modifies this
      ensures Valid()
      ensures old(isStopping) || old(consecutiveErrors) + 1 < MAX_CONSECUTIVE_ERRORS || old(retryActive) ==> Untouched()
      ensures !old(isStopping) && old(consecutiveErrors) + 1 >= MAX_CONSECUTIVE_ERRORS && old(isPolling) ==>
                Failed(mbLive, dbLive)
      ensures consecutiveErrors == old(consecutiveErrors) + Bit(!old(isStopping))
    {
      if isStopping { return; }
      consecutiveErrors := consecutiveErrors + 1;
      if consecutiveErrors >= MAX_CONSECUTIVE_ERRORS {
        if retryActive { return; }
        ScheduleRetry(mbLive, dbLive);
      }
    }

    method OnModbusStopped(mbLive: bool, dbLive: bool)
      requires Valid()
      modifies this
      ensures Valid()
      ensures if old(isPolling && !isStopping) then Failed(mbLive, dbLive) else Untouched()
    {
      if isStopping { return; }
      if isPolling {
        ScheduleRetry(mbLive, dbLive);
      }
    }

    method OnWatchdogMiss(mbLive: bool, dbLive: bool)
      requires Valid()
      modifies this
      ensures Valid()
      ensures if old(isPolling && !isStopping) then Failed(mbLive, dbLive) else Untouched()
    {
      if isPolling && !isStopping {
        ScheduleRetry(mbLive, dbLive);
      }
    }

    /** refreshSensors: a restart follows exactly when monitoring was running and not yet stopping. */
    method RefreshSensors(mbLive: bool, dbLive: bool)
      requires Valid()
      modifies this
      ensures Valid()
      ensures old(isPolling && !isStopping) ==>
                if mbLive || dbLive then isStopping && afterStop == Restart
                else !isPolling && restartTimers == old(restartTimers) + 1
      // While a retry is waiting the change cancels it and nothing takes its place.
      ensures old(retryActive) ==> !retryActive && !isPolling && restartTimers == old(restartTimers) && retryCount == 0
      ensures old(isStopping) ==> isStopping && afterStop == old(afterStop)
    {
      var retryingBefore := retryActive;
      if isPolling || retryingBefore {
        CancelRetry();
        if retryingBefore { ForgetFailures(); }
        StopPollingWithIntent(Restart, mbLive, dbLive);
      }
    }

    method OnRetryTimer(hasSensors: bool)
      requires Valid() && retryActive
      modifies this`retryActive, this`isPolling, this`consecutiveErrors
      ensures Valid() && !retryActive && isPolling == hasSensors
    {
      retryActive := false;
      StartPolling(hasSensors);
    }

    // ---- Whole runs -------------------------------------------------------------------

    /** Delays of one unbroken streak of failures never decrease and stay in [5 s, 60 s]. */
    lemma StreakBacksOff()
      requires Valid()
      ensures Backoff(delays)
    {
      LadderIsBackoff(delays);
    }

    /**
     A stop the counter ended has passed over no more of its own workers than there were
     reports outstanding when it began; so a stop begun with none, as all are until one has
     been cut short by a backstop or by the blocking stop, has heard from each of them.
     */
    lemma CounterIsHonest(i: nat)
      requires Valid() && i < |endings| && endings[i].ByCounter?
      ensures endings[i].unreported <= endings[i].left
      ensures (forall e :: e in endings[..i] ==> !CutShort(e)) ==> endings[i].unreported == 0
    {
      assert Ends(endings);
      RecordedMembers(endings, i);
      if forall e :: e in endings[..i] ==> !CutShort(e) { WithoutCuts(endings[..i]); }
    }

    /**
     Any events in any order: stopping implies polling, a waiting retry implies not polling,
     an intent waits only while stopping; every stop begun has ended exactly once or is the
     present one, every intent has been carried out once, was overtaken at exit or is the
     present one; the delays back off; and a worker passed over by the counter was stood in
     for by a report outstanding from before.
     */
    method Run(events: seq<Event>)
      requires Valid()
      modifies this
      ensures Valid()
      ensures (isStopping ==> isPolling) && (retryActive ==> !isPolling) && (afterStop != Nothing ==> isStopping)
      ensures entered == |endings| + Bit(isStopping) && asked == carried + discarded + Bit(afterStop != Nothing)
      ensures Backoff(delays)
      ensures forall i :: 0 <= i < |endings| && endings[i].ByCounter? ==> endings[i].unreported <= endings[i].left
    {
      for k := 0 to |events|
        invariant Valid()
      {
        match events[k] {
          case Start(hasSensors) => StartPolling(hasSensors);
          case UserStop(mb, db) => StopPollingWithIntent(Nothing, mb, db);
          case ConfigChanged(mb, db) => RefreshSensors(mb, db);
          case ReadingArrives => OnDataReady();
          case ModbusError(mb, db) => OnModbusError(mb, db);
          case ModbusExits(mb, db) => OnModbusStopped(mb, db);
          case WatchdogMiss(mb, db) => OnWatchdogMiss(mb, db);
          case ModbusReports => if modbusPending { OnWorkerAsyncStopped(true); }
          case DatabaseReports => if databasePending { OnWorkerAsyncStopped(false); }
          case LateReport => if leftOver > 0 { OnLateReport(); }
          case LateReportNeverComes => if leftOver > 0 { leftOver := leftOver - 1; }
          case Backstop => OnBackstop();
          case RestartDue(hasSensors) =>
            if restartTimers > 0 {
              restartTimers := restartTimers - 1;
              StartPolling(hasSensors);
            }
          case RetryDue(hasSensors) => if retryActive { OnRetryTimer(hasSensors); }
          case SyncStop => StopPollingSync();
        }
      }
      StreakBacksOff();
      forall i | 0 <= i < |endings| && endings[i].ByCounter? ensures endings[i].unreported <= endings[i].left {
        CounterIsHonest(i);
      }
    }
  }

  /**
   The condition matters: once a hung worker has been abandoned, its late report can end a
   later stop while a worker of that stop has not reported.
   */
  method LateReportEndsALaterStop() returns (m: MonitorController)
    ensures fresh(m) && m.Valid() && m.endings == [ByBackstop, ByCounter(1, 2)]
  {
    m := AbandonedStop();
    m.StartPolling(true);
    m.StopPollingWithIntent(Nothing, true, true);
    m.OnWorkerAsyncStopped(true);
    m.OnLateReport();
  }

  /** A first stop whose two workers hang and are abandoned by the backstop. */
  method AbandonedStop() returns (m: MonitorController)
    ensures fresh(m) && m.Valid() && m.endings == [ByBackstop] && m.leftOver == 2 && !m.isPolling && !m.isStopping
  {
    m := new MonitorController();
    m.StartPolling(true);
    m.StopPollingWithIntent(Nothing, true, true);
    m.OnBackstop();
  }
}

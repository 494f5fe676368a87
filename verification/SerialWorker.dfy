/**
 The serial worker (src/network/modbus/ModbusWorker.cpp): a pump that runs queued
 operations one at a time with at most one request on the wire, a connection that can be
 lost and rebuilt, and a cache of coil states that must not disagree with the device.

 A continuation of the source is a value of Task here: what is to happen once the awaited
 reply is in. Every event handler runs to completion before the next event, as a slot of
 the worker's thread does.
 */
module SerialWorker {
  import opened AlarmTrigger
  import opened CoilPlan
  import opened SerialLog

  /** The client: absent after a hang, or present and closed or open. */
  datatype Link = NoClient | Closed | Open

  datatype Task =
    | NoTask
    | Poll(idx: nat)                               // sensor idx has been asked for its value
    | Write(idx: nat, writes: seq<DoWrite>, k: nat) // write k of the chain of sensor idx
    | ReadDi(idx: nat, k: nat)                     // channel k of sensor idx
    | Reset(writes: seq<DoWrite>, k: nat)          // write k of the fail-safe reset
    | Manual(sensorId: int, coil: Coil, value: bool)

  /** How a request ends. A timed-out write may or may not have reached the coil. */
  datatype Reply = Good(value: real, bit: bool) | Failed | TimedOut(tookEffect: bool)

  datatype Event =
    | Start(portFree: bool, deviceOk: bool)
    | PollTick
    | ReconnectTick(portFree: bool, deviceOk: bool)
    | Answer(reply: Reply)
    | WriteRequest(sensorId: int, value: bool)
    | LineDrops
    | Stop

  function ChannelsOf(links: seq<LinkRow>, analogId: int): seq<Channel> {
    if links == [] then []
    else if links[0].analogId == analogId then links[0].channels
    else ChannelsOf(links[1..], analogId)
  }

  /** One reading of an analog sensor, judged against what was remembered of it. */
  function AlarmsAfter(alarms: Alarms, sensor: Sensor, value: real, hysteresis: real): Alarms {
    var prev := if sensor.id in alarms then alarms[sensor.id] else QUIET;
    alarms[sensor.id := Evaluate(value, prev, sensor.thresholds, hysteresis)]
  }

  // ---- How many requests an operation may need ------------------------------------

  ghost function Outputs(s: Settings): nat { |LinkedIds(s)| }

  ghost function Inputs(s: Settings, idx: nat): nat
    requires idx < |s.sensors|
  {
    |ChannelsOf(s.links, s.sensors[idx].id)|
  }

  ghost function WorkFrom(s: Settings, idx: nat): nat
    decreases |s.sensors| - idx
  {
    if idx >= |s.sensors| then 0 else 1 + Outputs(s) + Inputs(s, idx) + WorkFrom(s, idx + 1)
  }

  ghost function Budget(s: Settings, op: Op): nat {
    match op
    case PollOp => WorkFrom(s, 0)
    case ResetOp => Outputs(s)
    case WriteOp(_, _) => 1
  }

  ghost function BudgetOf(s: Settings): Op -> nat { op => Budget(s, op) }

  /** The first active input channel from an index on, or the number of channels. */
  function NextInput(channels: seq<Channel>, from: nat): (k: nat)
    requires from <= |channels|
    ensures from <= k <= |channels|
    decreases |channels| - from
  {
    if from == |channels| || (channels[from].io.DI? && channels[from].active) then from
    else NextInput(channels, from + 1)
  }

  /** True of every log; what is known of one is looked up through it. */
  predicate IsLog(log: seq<Entry>) { true }

  /** The automaton accepts the log and has got to this state, with these operations accepted. */
  ghost predicate IsVerdict(log: seq<Entry>, cfg: Settings, mon: Monitor, accepted: seq<Op>) {
    forall l {:trigger IsLog(l)} :: IsLog(l) && l == log ==>
      Judge(l, |cfg.sensors|, BudgetOf(cfg)) == Ok(mon) && accepted == AcceptedOps(l)
  }

  lemma VerdictAppend(log: seq<Entry>, cfg: Settings, mon: Monitor, accepted: seq<Op>, e: Entry)
    requires IsVerdict(log, cfg, mon, accepted) && Observe(mon, e, |cfg.sensors|, BudgetOf(cfg)).Ok?
    ensures IsVerdict(log + [e], cfg, Observe(mon, e, |cfg.sensors|, BudgetOf(cfg)).m,
                      if e.Accepted? then accepted + [e.op] else accepted)
  {
    assert IsLog(log);
    JudgeAppend(log, e, |cfg.sensors|, BudgetOf(cfg));
    AcceptedAppend(log, e);
  }

  class ModbusWorker {
    const cfg: Settings
    /** The client takes every request it is offered on an open line. */
    const lossless: bool

    var running: bool
    var connected: bool
    var link: Link
    var ownsPort: bool
    var opQueue: seq<Op>
    var pumpActive: bool
    var awaiting: Task
    var alarms: Alarms
    var doStates: Cache

    ghost var lit: set<Coil>      // the coils of the device that are on
    ghost var foreign: set<Coil>  // coils driven by a manual write since the worker last wrote them
    ghost var chainClean: bool    // every write of the current chain was confirmed
    ghost var log: seq<Entry>
    ghost var accepted: seq<Op>   // the operations accepted, as the log has them
    ghost var mon: Monitor        // the verdict on log

    // ---- Invariants ---------------------------------------------------------------

    ghost predicate Tracked()
      reads this`log, this`mon, this`accepted
    {
      IsVerdict(log, cfg, mon, accepted)
    }

    /** After a chain confirmed throughout, every active output's cached state is what the alarms ask for. */
    ghost predicate Clean()
      reads this`chainClean, this`alarms, this`doStates
    {
      chainClean && Unpolled(cfg) ==> AllSettled(cfg, alarms, doStates)
    }

    ghost predicate Agreement()
      reads this`doStates, this`lit, this`foreign
    {
      Distinct(cfg) ==> Agrees(cfg, doStates, lit, foreign)
    }

    /** Only a manual write under a polled sensor's number makes a coil foreign. */
    ghost predicate Bounded()
      reads this`foreign
    {
      forall c :: c in foreign ==> Reached(cfg, c)
    }

    /** Cached states are to be trusted once connected, unless a reset is queued or under way. */
    ghost predicate CacheOk(resetComing: bool)
      reads this`running, this`link, this`ownsPort, this`connected, this`opQueue, this`awaiting, this`doStates,
            this`lit, this`foreign
    {
      && (running && link == Open ==> ownsPort)
      && (running && connected ==> ownsPort && link != NoClient)
      && (running && connected && !resetComing && ResetOp !in opQueue && !awaiting.Reset? ==> Agreement())
    }

    ghost predicate TaskOk()
      reads this`awaiting, this`mon, this`chainClean, this`alarms, this`doStates, this`lit, this`foreign
    {
      match awaiting
      case NoTask => Clean()
      case Poll(i) =>
        && i < |cfg.sensors| && mon.op == PollOp && mon.next == i + 1
        && mon.sends + Outputs(cfg) + Inputs(cfg, i) + WorkFrom(cfg, i + 1) <= WorkFrom(cfg, 0) && Clean()
      case Write(i, writes, k) =>
        && i < |cfg.sensors| && k < |writes| && mon.op == PollOp && mon.next == i + 1
        && mon.sends + (|writes| - k - 1) + Inputs(cfg, i) + WorkFrom(cfg, i + 1) <= WorkFrom(cfg, 0)
        && LinkedWrites(cfg, writes)
        && (chainClean ==> ChainClean(cfg, alarms, doStates, writes, k))
      case ReadDi(i, k) =>
        && i < |cfg.sensors| && k < Inputs(cfg, i) && mon.op == PollOp && mon.next == i + 1
        && mon.sends + (Inputs(cfg, i) - k - 1) + WorkFrom(cfg, i + 1) <= WorkFrom(cfg, 0)
        && Clean()
      case Reset(writes, k) =>
        && k < |writes| && mon.op == ResetOp && mon.sends + (|writes| - k - 1) <= Outputs(cfg)
        && ResetUpTo(writes, k) && !chainClean
      case Manual(id, coil, _) =>
        mon.op.WriteOp? && Drives(cfg, id, coil) && Clean()
    }

    ghost predicate ResetUpTo(writes: seq<DoWrite>, k: nat)
      reads this`doStates, this`lit, this`foreign
    {
      && LinkedWrites(cfg, writes) && AllOff(writes)
      && (Distinct(cfg) ==> AgreesExcept(cfg, doStates, lit, foreign, writes, k))
    }

    /** What holds between events. */
    ghost predicate Consistent(resetComing: bool)
      reads this
    {
      && Tracked() && Bounded()
      && CacheOk(resetComing)
      && mon.inFlight == mon.busy == pumpActive == (awaiting != NoTask)
      && mon.queue == opQueue
      && (!pumpActive ==> opQueue == [])
      && (!running ==> opQueue == [] && !pumpActive)
      && (mon.halted ==> !running)
      && (pumpActive ==> link != NoClient && ownsPort)
      && TaskOk()
    }

    ghost predicate Valid()
      reads this
    {
      Consistent(false)
    }

    /** What holds while an operation runs within one event. */
    ghost predicate Mid(op: Op)
      reads this
    {
      && Tracked() && Bounded()
      && running && pumpActive && awaiting == NoTask
      && mon.busy && !mon.inFlight && !mon.halted && mon.op == op && mon.queue == opQueue
      && CacheOk(op == ResetOp)
    }

    ghost predicate InRound(idx: nat, needed: nat)
      reads this
    {
      Mid(PollOp) && mon.next == idx && mon.sends + needed <= WorkFrom(cfg, 0)
    }

    /** What the continuation of a task finds when its reply is in. */
    ghost predicate Resumable(task: Task)
      reads this
    {
      && link != NoClient
      && match task
         case NoTask => false
         case Poll(i) =>
           i < |cfg.sensors| && InRound(i + 1, Outputs(cfg) + Inputs(cfg, i) + WorkFrom(cfg, i + 1)) && Clean()
         case Write(i, writes, k) =>
           && i < |cfg.sensors| && k < |writes| && LinkedWrites(cfg, writes)
           && InRound(i + 1, (|writes| - k - 1) + Inputs(cfg, i) + WorkFrom(cfg, i + 1))
           && (chainClean ==> ChainClean(cfg, alarms, doStates, writes, k))
         case ReadDi(i, k) =>
           && i < |cfg.sensors| && k < Inputs(cfg, i)
           && InRound(i + 1, (Inputs(cfg, i) - k - 1) + WorkFrom(cfg, i + 1))
           && Clean()
         case Reset(writes, k) =>
           && k < |writes| && Mid(ResetOp) && mon.sends + (|writes| - k - 1) <= Outputs(cfg)
           && ResetUpTo(writes, k) && !chainClean
         case Manual(id, coil, _) =>
           mon.op.WriteOp? && Mid(mon.op) && Drives(cfg, id, coil) && Clean()
    }

    /** With such a client and the line open, this is what is awaited next. */
    ghost predicate Next(task: Task)
      reads this`link, this`awaiting
    {
      lossless && link == Open ==> awaiting == task
    }

    /** After the outputs of a sensor, or its input before from: its next active input, or else the next sensor. */
    ghost predicate GoesOn(idx: nat, from: nat)
      requires idx < |cfg.sensors| && from <= Inputs(cfg, idx)
      reads this`link, this`awaiting
    {
      var k := NextInput(ChannelsOf(cfg.links, cfg.sensors[idx].id), from);
      if k < Inputs(cfg, idx) then Next(ReadDi(idx, k)) else idx + 1 < |cfg.sensors| ==> Next(Poll(idx + 1))
    }

    /** The connection and the device are as before, and the log has only grown. */
    twostate predicate Undisturbed()
      reads this
    {
      && running == old(running) && connected == old(connected) && link == old(link) && ownsPort == old(ownsPort)
      && lit == old(lit) && foreign == old(foreign) && old(log) <= log
    }

    /** The same, and no operation was accepted. */
    twostate predicate Kept()
      reads this
    {
      Undisturbed() && accepted == old(accepted) && |opQueue| <= old(|opQueue|)
    }

    /** What is known of the chain is as before, unless a reset was waiting in the queue; it never gets better. */
    twostate predicate CleanKept()
      reads this
    {
      (chainClean ==> old(chainClean)) && (ResetOp !in old(opQueue) ==> chainClean == old(chainClean))
    }

    /** A timeout always tears the connection down and gives the port back. */
    ghost predicate Hung(reply: Reply)
      reads this
    {
      reply.TimedOut? ==> !connected && link == NoClient && !ownsPort
    }

    /** Alarms and cached states are as before, unless a reset was waiting in the queue. */
    twostate predicate CachesKept()
      reads this
    {
      ResetOp !in old(opQueue) ==> alarms == old(alarms) && doStates == old(doStates)
    }

    constructor (cfg: Settings, lossless: bool)
      ensures Valid() && this.cfg == cfg && this.lossless == lossless && !running && log == [] && accepted == []
              && !mon.halted
    {
      this.cfg, this.lossless := cfg, lossless;
      running, connected, link, ownsPort := false, false, NoClient, false;
      opQueue, pumpActive, awaiting := [], false, NoTask;
      alarms, doStates := map[], map[];
      lit, foreign, chainClean, log, mon, accepted := {}, {}, false, [], FRESH, [];
    }

    ghost method Note(e: Entry)
      requires Tracked() && Observe(mon, e, |cfg.sensors|, BudgetOf(cfg)).Ok?
      modifies this`log, this`mon, this`accepted
      ensures Tracked() && log == old(log) + [e]
      ensures mon == Observe(old(mon), e, |cfg.sensors|, BudgetOf(cfg)).m
      ensures accepted == if e.Accepted? then old(accepted) + [e.op] else old(accepted)
    {
      VerdictAppend(log, cfg, mon, accepted, e);
      mon := Observe(mon, e, |cfg.sensors|, BudgetOf(cfg)).m;
      log := log + [e];
      if e.Accepted? { accepted := accepted + [e.op]; }
    }

    /** The first request of an operation. */
    ghost predicate Starts(op: Op)
      reads this`link, this`awaiting
    {
      match op
      case PollOp => cfg.sensors != [] ==> Next(Poll(0))
      case ResetOp => link == Open ==>
          exists writes :: IsReset(cfg, writes) && (writes != [] ==> Next(Reset(writes, 0)))
      case WriteOp(id, v) => forall i :: FirstWithId(cfg.sensors, id, i) ==> Next(Manual(id, cfg.sensors[i].coil, v))
    }

    // ---- The pump -----------------------------------------------------------------

    method EnqueueOp(op: Op)
      requires Consistent(op == ResetOp)
      modifies this
      ensures Valid() && Undisturbed() && accepted == if running then old(accepted) + [op] else old(accepted)
      ensures ResetOp !in old(opQueue) && op != ResetOp ==>
                alarms == old(alarms) && doStates == old(doStates) && chainClean == old(chainClean)
      ensures if old(pumpActive) then pumpActive else opQueue == []
      ensures running && op == ResetOp && old(!pumpActive) && link == Open && NoOutputs(cfg) ==> !pumpActive
      ensures running ==> |old(log)| < |log| && log[|old(log)|] == Accepted(op)
      ensures running && old(!pumpActive) ==> Starts(op)
      ensures !running ==> log == old(log)
    {
      if running { Note(Accepted(op)); }
      opQueue := opQueue + [op];
      if !pumpActive {
        PumpNextOp();
      }
    }

    method PumpNextOp()
      requires Tracked() && Bounded() && awaiting == NoTask && CacheOk(false) && Clean()
      requires !mon.busy && !mon.inFlight && (running ==> mon.queue == opQueue && !mon.halted)
      requires !running ==> mon.queue == []
      modifies this
      ensures Valid() && Kept() && CachesKept() && CleanKept()
      ensures running && old(opQueue) != [] ==> Starts(old(opQueue[0]))
      ensures if old(opQueue) == [] then !pumpActive else |opQueue| < |old(opQueue)|
      ensures running && old(opQueue) == [ResetOp] && link == Open && NoOutputs(cfg) ==> !pumpActive
      ensures !running ==> log == old(log)
      decreases |opQueue|, 0, 0, 0
    {
      if !running {
        opQueue := [];
        pumpActive := false;
        return;
      }
      if opQueue == [] {
        pumpActive := false;
        return;
      }
      var op := Dequeue();
      match op {
        case PollOp => PollSensorAt(0);
        case ResetOp => ResetDoCoils();
        case WriteOp(id, v) => RunManualWrite(id, v);
      }
    }

    /** The operation at the head of the queue begins. */
    method Dequeue() returns (op: Op)
      requires Tracked() && Bounded() && awaiting == NoTask && CacheOk(false) && running && opQueue != []
      requires !mon.busy && !mon.inFlight && mon.queue == opQueue && !mon.halted
      modifies this`pumpActive, this`opQueue, this`log, this`mon, this`accepted
      ensures op == old(opQueue[0]) && opQueue == old(opQueue[1..]) && pumpActive
      ensures Mid(op) && mon.next == 0 && mon.sends == 0 && old(log) <= log && accepted == old(accepted)
    {
      pumpActive := true;
      op := opQueue[0];
      Note(Begun(op));
      opQueue := opQueue[1..];
    }

    method OpDone(ghost op: Op)
      requires Mid(op)
      requires op == PollOp ==> mon.next == |cfg.sensors|
      requires CacheOk(false) && Clean()
      modifies this
      ensures Valid() && Kept() && CachesKept() && CleanKept()
      ensures old(opQueue) == [] ==> !pumpActive
      decreases |opQueue|, 0, 1, 0
    {
      Note(Ended);
      PumpNextOp();
    }

    /** Hand a request to the client: it is taken only on an open line, and even then not always. */
    method Send(task: Task) returns (queued: bool)
      requires Tracked() && mon.busy && !mon.inFlight && !mon.halted && mon.sends < Budget(cfg, mon.op)
      modifies this`awaiting, this`log, this`mon, this`accepted
      ensures Tracked() && (queued ==> link == Open) && (lossless && link == Open ==> queued)
      ensures queued ==>
                && awaiting == task && log == old(log) + [Sent]
                && mon == old(mon).(inFlight := true, sends := old(mon.sends) + 1)
      ensures !queued ==> awaiting == old(awaiting) && log == old(log) && mon == old(mon)
      ensures accepted == old(accepted)
    {
      queued := *;
      if link != Open { queued := false; } else if lossless { queued := true; }
      if queued {
        Note(Sent);
        awaiting := task;
      }
    }

    // ---- One poll round -----------------------------------------------------------

    method PollSensorAt(idx: nat)
      requires idx <= |cfg.sensors| && InRound(idx, WorkFrom(cfg, idx)) && Clean()
      modifies this
      ensures Valid() && Kept() && CachesKept() && CleanKept() && (idx < |cfg.sensors| ==> Next(Poll(idx)))
      decreases |opQueue|, 1 + |cfg.sensors| - idx, 3, 0
    {
      if idx >= |cfg.sensors| {
        OpDone(PollOp);
        return;
      }
      var queued := AskSensor(idx);
      if !queued {
        PollSensorAt(idx + 1);
      }
    }

    /** The round reaches a sensor and asks it, if there is a client to ask. */
    method AskSensor(idx: nat) returns (queued: bool)
      requires idx < |cfg.sensors| && InRound(idx, WorkFrom(cfg, idx)) && Clean()
      modifies this`awaiting, this`log, this`mon, this`accepted
      ensures old(log) <= log && accepted == old(accepted)
      ensures queued ==> Valid() && awaiting == Poll(idx)
      ensures !queued ==> InRound(idx + 1, WorkFrom(cfg, idx + 1)) && !(lossless && link == Open)
    {
      Note(Visited(idx));
      queued := false;
      if link != NoClient {
        queued := Send(Poll(idx));
      }
    }

    /** The outstanding writes come next, or if there are none the sensor's inputs. */
    ghost predicate Planned(idx: nat, alarms: Alarms, cache: Cache)
      requires idx < |cfg.sensors|
      reads this`link, this`awaiting
    {
      exists plan ::
          IsPlan(cfg, alarms, cache, plan) && if plan != [] then Next(Write(idx, plan, 0)) else GoesOn(idx, 0)
    }

    method OnRead(idx: nat, reply: Reply)
      requires Resumable(Poll(idx))
      modifies this
      ensures Valid() && running && lit == old(lit) && foreign == old(foreign) && old(log) <= log
              && accepted == old(accepted)
      ensures !reply.TimedOut? && !(reply.Good? && cfg.sensors[idx].kind.Analog?) ==> CleanKept()
      ensures Hung(reply) && (!reply.TimedOut? ==> Kept())
      ensures reply.Good? && cfg.sensors[idx].kind.Analog? ==>
                Planned(idx, AlarmsAfter(old(alarms), cfg.sensors[idx], reply.value, cfg.hysteresis), old(doStates))
      ensures !(reply.Good? && cfg.sensors[idx].kind.Analog?) && idx + 1 < |cfg.sensors| ==> Next(Poll(idx + 1))
      ensures ResetOp !in old(opQueue) ==>
                && alarms == (if reply.Good? && cfg.sensors[idx].kind.Analog?
                              then AlarmsAfter(old(alarms), cfg.sensors[idx], reply.value, cfg.hysteresis)
                              else old(alarms))
                && doStates == (if reply.Good? && cfg.sensors[idx].kind.StandaloneDo?
                                then old(doStates)[cfg.sensors[idx].id := reply.bit] else old(doStates))
    {
      if reply.Good? && cfg.sensors[idx].kind.Analog? {
        OnAnalog(idx, reply.value);
        return;
      }
      if reply.TimedOut? {
        ResetConnectionAfterHang();
      } else if reply.Good? && cfg.sensors[idx].kind.StandaloneDo? {
        CacheReading(idx, reply.bit);
      }
      PollSensorAt(idx + 1);
    }

    /** What an output polled as a sensor reads; a linked one would be spoilt by it. */
    method CacheReading(idx: nat, bit: bool)
      requires Resumable(Poll(idx))
      modifies this`doStates
      ensures InRound(idx + 1, WorkFrom(cfg, idx + 1)) && Clean()
      ensures doStates == old(doStates)[cfg.sensors[idx].id := bit]
    {
      var sensor := cfg.sensors[idx];
      if Unpolled(cfg) { OtherStateStaysSettled(cfg, alarms, doStates, sensor.id, bit); }
      doStates := doStates[sensor.id := bit];
    }

    /** A reading of an analog sensor: judge it, then write what the outputs should be. */
    method OnAnalog(idx: nat, value: real)
      requires Resumable(Poll(idx)) && cfg.sensors[idx].kind.Analog?
      modifies this
      ensures Valid() && Kept()
      ensures Planned(idx, AlarmsAfter(old(alarms), cfg.sensors[idx], value, cfg.hysteresis), old(doStates))
      ensures ResetOp !in old(opQueue) ==>
                alarms == AlarmsAfter(old(alarms), cfg.sensors[idx], value, cfg.hysteresis) && doStates == old(doStates)
      ensures lossless && link == Open && ResetOp !in old(opQueue) ==> chainClean
    {
      alarms := AlarmsAfter(alarms, cfg.sensors[idx], value, cfg.hysteresis);
      var writes := BuildDoWrites(cfg, alarms, doStates);
      chainClean := true;
      PlanStartsClean(cfg, alarms, doStates, writes);
      WritesAreBounded(cfg, writes);
      WriteDoChain(idx, writes, 0);
    }

    method WriteDoChain(idx: nat, writes: seq<DoWrite>, k: nat)
      requires idx < |cfg.sensors| && k <= |writes| && LinkedWrites(cfg, writes)
      requires InRound(idx + 1, (|writes| - k) + Inputs(cfg, idx) + WorkFrom(cfg, idx + 1))
      requires chainClean ==> link != NoClient && ChainClean(cfg, alarms, doStates, writes, k)
      modifies this
      ensures Valid() && Kept() && CachesKept() && (chainClean ==> old(chainClean))
      ensures lossless && link == Open ==> CleanKept()
      ensures if k < |writes| then Next(Write(idx, writes, k)) else GoesOn(idx, 0)
      decreases |opQueue|, 1 + |cfg.sensors| - idx, 2, |writes| - k
    {
      if link == NoClient || k >= |writes| {
        if chainClean {
          CleanEndIsSettled(cfg, alarms, doStates, writes);
        }
        ReadDiChain(idx, 0);
        return;
      }
      var queued := Send(Write(idx, writes, k));
      if !queued {
        chainClean := false;
        WriteDoChain(idx, writes, k + 1);
      }
    }

    method OnWrite(idx: nat, writes: seq<DoWrite>, k: nat, reply: Reply)
      requires Resumable(Write(idx, writes, k))
      modifies this
      ensures Valid() && running && old(log) <= log && accepted == old(accepted)
      ensures foreign == if reply.Good? then old(foreign) - {writes[k].coil} else old(foreign)
      ensures !reply.Good? ==> !chainClean
      ensures reply.Good? && lossless && link == Open ==> CleanKept()
      ensures Hung(reply) && (reply.Failed? ==> Kept())
      ensures !reply.TimedOut? ==> connected == old(connected) && link == old(link) && ownsPort == old(ownsPort)
      ensures if k + 1 < |writes| then Next(Write(idx, writes, k + 1)) else GoesOn(idx, 0)
      ensures lit == if reply.Good? || (reply.TimedOut? && reply.tookEffect)
                     then Driven(old(lit), writes[k].coil, writes[k].want) else old(lit)
      ensures ResetOp !in old(opQueue) ==>
                && alarms == old(alarms)
                && doStates == (if reply.Good? then old(doStates)[writes[k].doId := writes[k].want] else old(doStates))
    {
      match reply {
        case TimedOut(tookEffect) =>
          OnWriteLost(idx, writes, k, tookEffect);
        case Failed =>
          chainClean := false;
          WriteDoChain(idx, writes, k + 1);
        case Good(_, _) =>
          OnWriteConfirmed(idx, writes, k);
      }
    }

    /** A write that timed out may have taken effect all the same; the connection starts anew. */
    method OnWriteLost(idx: nat, writes: seq<DoWrite>, k: nat, tookEffect: bool)
      requires Resumable(Write(idx, writes, k))
      modifies this
      ensures Valid() && running && old(log) <= log && accepted == old(accepted) && !chainClean
      ensures Hung(TimedOut(tookEffect)) && link == NoClient && foreign == old(foreign)
      ensures lit == if tookEffect then Driven(old(lit), writes[k].coil, writes[k].want) else old(lit)
      ensures ResetOp !in old(opQueue) ==> alarms == old(alarms) && doStates == old(doStates)
    {
      if tookEffect { lit := Driven(lit, writes[k].coil, writes[k].want); }
      ResetConnectionAfterHang();
      ReadDiChain(idx, 0);
    }

    method OnWriteConfirmed(idx: nat, writes: seq<DoWrite>, k: nat)
      requires Resumable(Write(idx, writes, k))
      modifies this
      ensures Valid() && running && connected == old(connected) && link == old(link) && ownsPort == old(ownsPort)
      ensures accepted == old(accepted) && (lossless && link == Open ==> CleanKept())
      ensures old(log) <= log && lit == Driven(old(lit), writes[k].coil, writes[k].want)
      ensures foreign == old(foreign) - {writes[k].coil}
      ensures if k + 1 < |writes| then Next(Write(idx, writes, k + 1)) else GoesOn(idx, 0)
      ensures ResetOp !in old(opQueue) ==>
                alarms == old(alarms) && doStates == old(doStates)[writes[k].doId := writes[k].want]
    {
      ConfirmOne(idx, writes, k);
      WriteDoChain(idx, writes, k + 1);
    }

    method ConfirmOne(idx: nat, writes: seq<DoWrite>, k: nat)
      requires Resumable(Write(idx, writes, k))
      modifies this`lit, this`foreign, this`doStates
      ensures InRound(idx + 1, (|writes| - k - 1) + Inputs(cfg, idx) + WorkFrom(cfg, idx + 1))
      ensures chainClean ==> ChainClean(cfg, alarms, doStates, writes, k + 1)
      ensures lit == Driven(old(lit), writes[k].coil, writes[k].want) && foreign == old(foreign) - {writes[k].coil}
      ensures doStates == old(doStates)[writes[k].doId := writes[k].want]
    {
      if chainClean {
        ConfirmKeepsClean(cfg, alarms, doStates, writes, k);
      }
      if Distinct(cfg) {
        WiredCoil(cfg, writes[k].doId, writes[k].coil);
        ConfirmedWriteAgrees(cfg, doStates, lit, foreign, writes[k]);
      }
      Confirm(writes[k]);
    }

    /** A confirmed write: the coil is as asked, and the cache may say so. */
    method Confirm(w: DoWrite)
      modifies this`lit, this`foreign, this`doStates
      ensures lit == Driven(old(lit), w.coil, w.want)
      ensures foreign == old(foreign) - {w.coil}
      ensures doStates == old(doStates)[w.doId := w.want]
    {
      lit := Driven(lit, w.coil, w.want);
      foreign := foreign - {w.coil};
      doStates := doStates[w.doId := w.want];
    }

    method ReadDiChain(idx: nat, from: nat)
      requires idx < |cfg.sensors| && from <= Inputs(cfg, idx)
      requires InRound(idx + 1, (Inputs(cfg, idx) - from) + WorkFrom(cfg, idx + 1))
      requires Clean()
      modifies this
      ensures Valid() && Kept() && CachesKept() && CleanKept() && GoesOn(idx, from)
      decreases |opQueue|, 1 + |cfg.sensors| - idx, 1, Inputs(cfg, idx) - from
    {
      var channels := ChannelsOf(cfg.links, cfg.sensors[idx].id);
      var k := from;
      while k < |channels| && !(channels[k].io.DI? && channels[k].active)
        invariant from <= k <= |channels| && NextInput(channels, from) == NextInput(channels, k)
      {
        k := k + 1;
      }
      if link != Open || k >= |channels| {
        PollSensorAt(idx + 1);
        return;
      }
      var queued := Send(ReadDi(idx, k));
      if !queued {
        ReadDiChain(idx, k + 1);
      }
    }

    method OnDi(idx: nat, k: nat, reply: Reply)
      requires Resumable(ReadDi(idx, k))
      modifies this
      ensures Valid() && CachesKept() && lit == old(lit) && foreign == old(foreign) && old(log) <= log
              && accepted == old(accepted)
      ensures !reply.TimedOut? ==> CleanKept()
      ensures running && Hung(reply) && (!reply.TimedOut? ==> Kept()) && GoesOn(idx, k + 1)
    {
      if reply.TimedOut? {
        ResetConnectionAfterHang();
        PollSensorAt(idx + 1);
      } else {
        ReadDiChain(idx, k + 1);
      }
    }

    // ---- The fail-safe reset --------------------------------------------------------

    method ResetDoCoils()
      requires Mid(ResetOp) && mon.sends == 0
      modifies this
      ensures Valid() && Kept() && Starts(ResetOp) && !chainClean
      ensures link == Open && NoOutputs(cfg) && old(opQueue) == [] ==> !pumpActive
      decreases |opQueue|, 1, 1, 0
    {
      alarms := map[];
      chainClean := false;
      if link != Open {
        doStates := map[];
        OpDone(ResetOp);
        return;
      }
      var writes := BuildResetWrites(cfg);
      WritesAreBounded(cfg, writes);
      NothingToReset(cfg, writes);
      ResetStarts(cfg, doStates, lit, foreign, writes);
      ResetWriteAt(writes, 0);
      assert IsReset(cfg, writes);
    }

    method ResetWriteAt(writes: seq<DoWrite>, k: nat)
      requires k <= |writes| && Mid(ResetOp) && mon.sends + (|writes| - k) <= Outputs(cfg)
      requires !chainClean && (link == NoClient || ResetUpTo(writes, k))
      modifies this
      ensures Valid() && Kept() && !chainClean && (k < |writes| ==> Next(Reset(writes, k)))
      ensures k == |writes| && old(opQueue) == [] ==> !pumpActive
      ensures lossless && link == Open && ResetOp !in old(opQueue) ==> doStates == old(doStates)
      decreases |opQueue|, 1, 0, |writes| - k
    {
      if link == NoClient || k >= |writes| {
        if link != NoClient && Distinct(cfg) {
          ResetEnds(cfg, doStates, lit, foreign, writes);
        }
        OpDone(ResetOp);
        return;
      }
      var queued := Send(Reset(writes, k));
      if !queued {
        if Distinct(cfg) { ResetForgets(cfg, doStates, lit, foreign, writes, k); }
        doStates := doStates - {writes[k].doId};
        ResetWriteAt(writes, k + 1);
      }
    }

    method OnReset(writes: seq<DoWrite>, k: nat, reply: Reply)
      requires Resumable(Reset(writes, k))
      modifies this
      ensures Valid() && running && old(log) <= log && accepted == old(accepted)
      ensures foreign == if reply.Good? then old(foreign) - {writes[k].coil} else old(foreign)
      ensures Hung(reply) && (reply.Failed? ==> Kept())
      ensures !reply.TimedOut? ==> connected == old(connected) && link == old(link) && ownsPort == old(ownsPort)
      ensures !reply.TimedOut? ==> |opQueue| <= |old(opQueue)| && (k + 1 < |writes| ==> Next(Reset(writes, k + 1)))
      ensures !reply.TimedOut? && k + 1 == |writes| && old(opQueue) == [] ==> !pumpActive
      ensures lossless && link == Open && ResetOp !in old(opQueue) ==>
                doStates == if reply.Good? then old(doStates)[writes[k].doId := writes[k].want]
                            else old(doStates) - {writes[k].doId}
      ensures lit == if reply.Good? || (reply.TimedOut? && reply.tookEffect)
                     then old(lit) - {writes[k].coil} else old(lit)
    {
      match reply {
        case TimedOut(tookEffect) =>
          OnResetLost(writes, k, tookEffect);
        case Good(_, _) =>
          if Distinct(cfg) { ResetConfirms(cfg, doStates, lit, foreign, writes, k); }
          Confirm(writes[k]);
          ResetWriteAt(writes, k + 1);
        case Failed =>
          if Distinct(cfg) { ResetForgets(cfg, doStates, lit, foreign, writes, k); }
          doStates := doStates - {writes[k].doId};
          ResetWriteAt(writes, k + 1);
      }
    }

    method OnResetLost(writes: seq<DoWrite>, k: nat, tookEffect: bool)
      requires Resumable(Reset(writes, k))
      modifies this
      ensures Valid() && running && old(log) <= log && accepted == old(accepted) && foreign == old(foreign)
      ensures Hung(TimedOut(tookEffect)) && link == NoClient
      ensures lit == if tookEffect then old(lit) - {writes[k].coil} else old(lit)
    {
      if tookEffect { lit := lit - {writes[k].coil}; }
      ResetConnectionAfterHang();
      OpDone(ResetOp);
    }

    // ---- A manual coil write ---------------------------------------------------------

    method RunManualWrite(sensorId: int, value: bool)
      requires Mid(WriteOp(sensorId, value)) && mon.sends == 0 && Clean()
      modifies this
      ensures Valid() && Kept() && CachesKept() && CleanKept() && Starts(WriteOp(sensorId, value))
      decreases |opQueue|, 1, 0, 0
    {
      if link != Open {
        OpDone(WriteOp(sensorId, value));
        return;
      }
      var i := 0;
      while i < |cfg.sensors| && cfg.sensors[i].id != sensorId
        invariant i <= |cfg.sensors| && forall j :: 0 <= j < i ==> cfg.sensors[j].id != sensorId
      {
        i := i + 1;
      }
      if i == |cfg.sensors| {
        OpDone(WriteOp(sensorId, value));
        return;
      }
      var queued := Send(Manual(sensorId, cfg.sensors[i].coil, value));
      if !queued {
        OpDone(WriteOp(sensorId, value));
      }
    }

    method OnManual(sensorId: int, coil: Coil, value: bool, reply: Reply)
      requires Resumable(Manual(sensorId, coil, value))
      modifies this
      ensures Valid() && running && old(log) <= log && accepted == old(accepted)
      ensures foreign == if reply.Good? then old(foreign) + {coil} else old(foreign)
      ensures !reply.TimedOut? ==> CleanKept() && |opQueue| <= |old(opQueue)|
      ensures Hung(reply) && (reply.Failed? ==> Kept()) && (old(opQueue) == [] ==> !pumpActive)
      ensures !reply.TimedOut? ==> connected == old(connected) && link == old(link) && ownsPort == old(ownsPort)
      ensures lit == if reply.Good? || (reply.TimedOut? && reply.tookEffect)
                     then Driven(old(lit), coil, value) else old(lit)
      ensures ResetOp !in old(opQueue) ==>
                && alarms == old(alarms)
                && doStates == (if reply.Good? then old(doStates)[sensorId := value] else old(doStates))
    {
      match reply {
        case Good(_, _) =>
          ConfirmManual(sensorId, coil, value);
        case TimedOut(tookEffect) =>
          if tookEffect { lit := Driven(lit, coil, value); }
          ResetConnectionAfterHang();
        case Failed =>
      }
      OpDone(mon.op);
    }

    /** A confirmed manual write: the coil is no longer the linked output's alone. */
    method ConfirmManual(sensorId: int, coil: Coil, value: bool)
      requires Resumable(Manual(sensorId, coil, value))
      modifies this`lit, this`foreign, this`doStates
      ensures Mid(mon.op) && Clean()
      ensures lit == Driven(old(lit), coil, value) && foreign == old(foreign) + {coil}
      ensures doStates == old(doStates)[sensorId := value]
    {
      if Unpolled(cfg) { OtherStateStaysSettled(cfg, alarms, doStates, sensorId, value); }
      lit := Driven(lit, coil, value);
      foreign := foreign + {coil};
      doStates := doStates[sensorId := value];
    }

    // ---- Connection ------------------------------------------------------------------

    method ResetConnectionAfterHang()
      modifies this`connected, this`link, this`ownsPort, this`chainClean
      ensures !connected && link == NoClient && !ownsPort && !chainClean
    {
      connected := false;
      link := NoClient;
      ownsPort := false;
      chainClean := false;
    }

    /** A client to connect with, and the port to connect over: free, or already ours. */
    method TakePort(portFree: bool) returns (ok: bool)
      requires Valid() && running
      modifies this`link, this`ownsPort
      ensures Valid() && link != NoClient
      ensures ok == ownsPort == (old(ownsPort) || portFree)
    {
      if link == NoClient { link := Closed; }
      if !ownsPort && portFree { ownsPort := true; }
      ok := ownsPort;
    }

    /**
     connectToPort: the port must be free or already ours, and the device must open. A first
     poll is accepted in the same call exactly when the pump is idle once the device has
     opened; with a reset whose reply is awaited it is skipped, and the next tick polls.
     */
    method ConnectToPort(portFree: bool, deviceOk: bool) returns (ok: bool, ghost idle: bool)
      requires Valid() && running
      modifies this
      ensures Valid() && running && old(log) <= log && lit == old(lit)
      ensures ok <==> deviceOk && (old(ownsPort) || portFree)
      ensures ok ==> connected && accepted == old(accepted) + OnOpening() + if idle then [PollOp] else []
      ensures ok ==> link == Open && IdleOnceOpen(old(pumpActive), idle)
      ensures ok && lossless && cfg.failSafe && !NoOutputs(cfg) && old(!pumpActive) ==> AwaitsReset()
      ensures !ok ==> !connected && doStates == old(doStates) && log == old(log)
    {
      var taken := TakePort(portFree);
      if !taken || !deviceOk {
        connected := false;
        return false, false;
      }
      DeviceOpened();
      idle := !pumpActive;
      OnPollTimer();
      ok := true;
    }

    /** What is accepted because the device has opened. */
    ghost function OnOpening(): seq<Op> { if cfg.failSafe then [ResetOp] else [] }

    /** Whether the pump is idle once the device has opened. */
    ghost predicate IdleOnceOpen(wasActive: bool, idle: bool) {
      && (wasActive ==> !idle)
      && (!wasActive && (!cfg.failSafe || NoOutputs(cfg)) ==> idle)
      && (lossless && cfg.failSafe && !NoOutputs(cfg) ==> !idle)
    }

    /** The device has opened: queue the fail-safe reset, or forget everything cached. */
    method DeviceOpened()
      requires Valid() && running && ownsPort && link != NoClient
      modifies this
      ensures Valid() && running && ownsPort && connected && link == Open && lit == old(lit) && old(log) <= log
      ensures cfg.failSafe ==> |old(log)| < |log| && log[|old(log)|] == Accepted(ResetOp)
      ensures !cfg.failSafe ==> alarms == map[] && doStates == map[] && log == old(log)
      ensures accepted == old(accepted) + OnOpening() && IdleOnceOpen(old(pumpActive), !pumpActive)
      ensures lossless && cfg.failSafe && !NoOutputs(cfg) && old(!pumpActive) ==> AwaitsReset()
    {
      if cfg.failSafe {
        OpenWithReset();
      } else {
        ForgetStates();
        link := Open;
        connected := true;
      }
    }

    method OpenWithReset()
      requires Valid() && running && ownsPort && link != NoClient
      modifies this
      ensures Valid() && running && ownsPort && connected && link == Open && lit == old(lit) && old(log) <= log
      ensures |old(log)| < |log| && log[|old(log)|] == Accepted(ResetOp) && accepted == old(accepted) + [ResetOp]
      ensures (old(pumpActive) ==> pumpActive) && (old(!pumpActive) && NoOutputs(cfg) ==> !pumpActive)
      ensures lossless && !NoOutputs(cfg) ==> pumpActive && (old(!pumpActive) ==> AwaitsReset())
    {
      link := Open;
      connected := true;
      EnqueueOp(ResetOp);
      if !NoOutputs(cfg) { ResetOfSomething(); }
    }

    /** The first reply of a reset is awaited, and nothing else is queued. */
    ghost predicate AwaitsReset()
      reads this`opQueue, this`awaiting
    {
      opQueue == [] && awaiting.Reset? && awaiting.k == 0 && IsReset(cfg, awaiting.writes)
    }

    /** A reset with something to write waits for its first reply. */
    lemma ResetOfSomething()
      requires Valid() && link == Open && !NoOutputs(cfg)
      ensures lossless && Starts(ResetOp) ==> pumpActive && (opQueue == [] ==> AwaitsReset())
    {
      if Starts(ResetOp) {
        var writes :| IsReset(cfg, writes) && (writes != [] ==> Next(Reset(writes, 0)));
        NothingToReset(cfg, writes);
      }
    }

    /** Nothing cached is nothing wrong. */
    method ForgetStates()
      requires Valid()
      modifies this`alarms, this`doStates, this`chainClean
      ensures Valid() && Agreement() && alarms == map[] && doStates == map[]
    {
      alarms := map[];
      doStates := map[];
      chainClean := false;
    }

    method OnPollTimer()
      requires Valid()
      modifies this
      ensures Valid() && running == old(running) && old(log) <= log && lit == old(lit)
      ensures old(pumpActive || !running) ==> log == old(log) && awaiting == old(awaiting) && opQueue == old(opQueue)
      ensures link == old(link)
      ensures old(running && connected && link == Open && !pumpActive) ==>
                |old(log)| < |log| && log[|old(log)|] == Accepted(PollOp)
      ensures connected == old(connected && (!running || link == Open))
      ensures accepted == old(accepted) +
              if old(running && connected && link == Open && !pumpActive) then [PollOp] else []
    {
      if !running { return; }
      if !connected || link != Open {
        connected := false;
        return;
      }
      if pumpActive || opQueue != [] { return; }
      EnqueueOp(PollOp);
    }

    method TryReconnect(portFree: bool, deviceOk: bool)
      requires Valid()
      modifies this
      ensures Valid() && running == old(running) && old(log) <= log && lit == old(lit)
      ensures !running ==> log == old(log)
    {
      if !running { return; }
      var _, _ := ConnectToPort(portFree, deviceOk);
    }

    method StartUp(portFree: bool, deviceOk: bool)
      requires Valid() && !running && !mon.halted
      modifies this
      ensures Valid() && running && old(log) <= log && lit == old(lit) && (connected <==> portFree && deviceOk)
      ensures connected && lossless && cfg.failSafe && !NoOutputs(cfg) ==>
                accepted == old(accepted) + [ResetOp] && link == Open && AwaitsReset()
      ensures connected && (!cfg.failSafe || NoOutputs(cfg)) ==> accepted == old(accepted) + OnOpening() + [PollOp]
    {
      running := true;
      connected := false;
      link := Closed;
      ownsPort := false;
      var _, _ := ConnectToPort(portFree, deviceOk);
    }

    /** stop(): whatever was awaited or queued is dropped, and the port is given back. */
    method Shutdown()
      requires Valid() && !mon.halted
      modifies this
      ensures Valid() && !running && !ownsPort && link != Open
      ensures awaiting == NoTask && opQueue == [] && !pumpActive
      ensures log == old(log) + [Halted]
    {
      running := false;
      DropWork();
      if link == Open { link := Closed; }
      ownsPort := false;
    }

    /** Nothing is awaited or queued any more, and the automaton sees the stop. */
    method DropWork()
      requires Tracked() && !mon.halted
      modifies this`awaiting, this`opQueue, this`pumpActive, this`chainClean, this`log, this`mon, this`accepted
      ensures Tracked() && awaiting == NoTask && opQueue == [] && !pumpActive && !chainClean
      ensures log == old(log) + [Halted] && mon.halted && !mon.busy && !mon.inFlight && mon.queue == []
    {
      awaiting := NoTask;
      opQueue := [];
      pumpActive := false;
      chainClean := false;
      Note(Halted);
    }

    /** The awaited request is answered; what is left is to run its continuation. */
    method TakeAwaited() returns (task: Task)
      requires Valid() && awaiting != NoTask
      modifies this`awaiting, this`log, this`mon, this`accepted
      ensures accepted == old(accepted)
      ensures task == old(awaiting) && Resumable(task) && awaiting == NoTask && log == old(log) + [Answered]
    {
      task := awaiting;
      Note(Answered);
      awaiting := NoTask;
    }

    /** The reply, error or timeout of the awaited request. */
    method OnAnswer(reply: Reply)
      requires Valid()
      modifies this
      ensures Valid() && running == old(running) && old(log) <= log && accepted == old(accepted)
      ensures old(awaiting != NoTask) ==> |old(log)| < |log| && log[|old(log)|] == Answered
      ensures old(awaiting == NoTask) ==> log == old(log)
      ensures old(awaiting != NoTask) ==> Hung(reply)
      ensures !reply.TimedOut? ==> connected == old(connected) && link == old(link) && ownsPort == old(ownsPort)
    {
      if awaiting == NoTask { return; }
      var task := TakeAwaited();
      match task {
        case Poll(i) => OnRead(i, reply);
        case Write(i, writes, k) => OnWrite(i, writes, k, reply);
        case ReadDi(i, k) => OnDi(i, k, reply);
        case Reset(writes, k) => OnReset(writes, k, reply);
        case Manual(id, coil, v) => OnManual(id, coil, v, reply);
      }
    }

    method WriteSingleCoil(sensorId: int, value: bool)
      requires Valid()
      modifies this
      ensures Valid() && Undisturbed()
      ensures running ==> |old(log)| < |log| && log[|old(log)|] == Accepted(WriteOp(sensorId, value))
      ensures running && old(!pumpActive) ==> opQueue == [] && Starts(WriteOp(sensorId, value))
      ensures ResetOp !in old(opQueue) ==> alarms == old(alarms) && doStates == old(doStates)
      ensures !running ==> log == old(log)
    {
      EnqueueOp(WriteOp(sensorId, value));
    }

    /** The line is lost without the worker being told. */
    method LoseLine()
      requires Valid()
      modifies this`link
      ensures Valid() && log == old(log)
    {
      if link == Open { link := Closed; }
    }

    /** Whoever else holds the port may drive the coils as it likes. */
    ghost method OthersDrive(coils: set<Coil>)
      requires Valid() && !ownsPort
      modifies this`lit
      ensures Valid() && lit == coils
    {
      lit := coils;
    }

    /** Connected, with no reset queued or under way: what is cached is to be trusted. */
    predicate Trusting()
      reads this`running, this`connected, this`opQueue, this`awaiting
    {
      running && connected && ResetOp !in opQueue && !awaiting.Reset?
    }

    /**
     The cache is worth something: with distinct coils, while connected and with no reset
     outstanding, every cached state of a linked output equals its coil, unless the last to
     drive the coil was a manual write under a polled sensor's number.
     */
    lemma CachedStatesAreTrue(id: int)
      requires Valid() && Distinct(cfg) && Trusting() && IsLinkedDo(cfg, id) && id in doStates
      ensures CoilOf(cfg, id) !in foreign || !Reached(cfg, CoilOf(cfg, id)) ==>
                (doStates[id] <==> CoilOf(cfg, id) in lit)
    {
      assert AgreesOn(cfg, doStates, lit, foreign, id);
    }

    /** When no manual write drives a linked output's coil, that is all of them. */
    lemma CacheIsTrue()
      requires Valid() && Distinct(cfg) && Trusting()
      ensures Agrees(cfg, doStates, lit, foreign) && (Unreached(cfg) ==> Agrees(cfg, doStates, lit, {}))
    {
      forall id | Unreached(cfg) && IsLinkedDo(cfg, id) ensures AgreesOn(cfg, doStates, lit, {}, id) {
        if id in doStates { CachedStatesAreTrue(id); }
      }
    }

    /** Nor is a write of a chain under way. */
    predicate Settled()
      reads this`running, this`connected, this`opQueue, this`awaiting
    {
      Trusting() && !awaiting.Write?
    }

    /**
     Once a chain in which every write was confirmed has ended, and until the next one begins,
     whatever the worker does meanwhile: every active output that is not polled as a sensor is
     cached as its alarms ask, whatever buildDoWrites returns is empty, and with distinct
     coils the output is on exactly when its alarms ask for it.
     */
    lemma OutputsFollowAlarms(id: int, plan: seq<DoWrite>)
      requires Valid() && Settled() && chainClean && Unpolled(cfg)
      requires IsActiveDo(cfg, id) && IsPlan(cfg, alarms, doStates, plan)
      ensures plan == [] && CoilPlan.Settled(cfg, alarms, doStates, id) && IsLinkedDo(cfg, id)
      ensures Distinct(cfg) && (CoilOf(cfg, id) !in foreign || !Reached(cfg, CoilOf(cfg, id))) ==>
                (CoilOf(cfg, id) in lit <==> Desired(cfg, alarms, id))
    {
      OutputFollowsAlarms(id);
      if plan != [] {
        assert Targets(plan, plan[0].doId);
      }
    }

    lemma OutputFollowsAlarms(id: int)
      requires Valid() && Settled() && chainClean && Unpolled(cfg) && IsActiveDo(cfg, id)
      ensures CoilPlan.Settled(cfg, alarms, doStates, id) && IsLinkedDo(cfg, id)
      ensures Distinct(cfg) && (CoilOf(cfg, id) !in foreign || !Reached(cfg, CoilOf(cfg, id))) ==>
                (CoilOf(cfg, id) in lit <==> Desired(cfg, alarms, id))
    {
      var w :| Linked(cfg, w) && w.ch.io.DO? && w.ch.active && w.ch.id == id;
      assert Clean();
      if Distinct(cfg) { CachedStatesAreTrue(id); }
    }

    // ---- Whole runs --------------------------------------------------------------------

    /**
     Any sequence of events whatever from construction on, under any settings, with the coils
     driven by others whenever the port is not ours: the worker stays valid, its log is an
     accepted one and the pump is active exactly while one reply is awaited; with distinct
     coils the cached states are true, and after a chain confirmed throughout the outputs
     follow the alarms. The exception, a coil last driven by a manual write, is possible only
     for the coils such a write reaches. The thread calls start() once.
     */
    method Run(events: seq<Event>, ghost others: seq<set<Coil>>)
      requires Valid() && !running && log == [] && |others| == |events|
      modifies this
      ensures Valid()
      ensures Judge(log, |cfg.sensors|, BudgetOf(cfg)).Ok?
      ensures pumpActive == (awaiting != NoTask) && (!pumpActive ==> opQueue == [])
      ensures forall c :: c in foreign ==> Reached(cfg, c)
      ensures Distinct(cfg) && Trusting() ==>
                Agrees(cfg, doStates, lit, foreign) && (Unreached(cfg) ==> Agrees(cfg, doStates, lit, {}))
      ensures Settled() && chainClean && Unpolled(cfg) ==> AllSettled(cfg, alarms, doStates)
      ensures Settled() && chainClean && Distinct(cfg) ==>
                forall id :: IsActiveDo(cfg, id) ==>
                  && IsLinkedDo(cfg, id)
                  && (CoilOf(cfg, id) !in foreign || Unreached(cfg) ==>
                        (CoilOf(cfg, id) in lit <==> Desired(cfg, alarms, id)))
    {
      assert IsLog(log);
      var started := false;
      for i := 0 to |events|
        invariant Valid()
        invariant !started ==> !running && !mon.halted
      {
        if !ownsPort {
          OthersDrive(others[i]);
        }
        match events[i] {
          case Start(portFree, deviceOk) =>
            if !started {
              StartUp(portFree, deviceOk);
              started := true;
            }
          case PollTick => OnPollTimer();
          case ReconnectTick(portFree, deviceOk) => TryReconnect(portFree, deviceOk);
          case Answer(reply) => OnAnswer(reply);
          case WriteRequest(id, v) => WriteSingleCoil(id, v);
          case LineDrops => LoseLine();
          case Stop => if running { Shutdown(); }
        }
        assert IsLog(log);
      }
      assert IsLog(log);
      if Distinct(cfg) && Trusting() { CacheIsTrue(); }
      if Settled() && chainClean && Distinct(cfg) {
        forall id | IsActiveDo(cfg, id)
          ensures IsLinkedDo(cfg, id)
          ensures CoilOf(cfg, id) !in foreign || Unreached(cfg) ==>
                    (CoilOf(cfg, id) in lit <==> Desired(cfg, alarms, id))
        {
          OutputFollowsAlarms(id);
        }
      }
    }
  }

  /** One output linked to one sensor: enough for a reset that has to wait for a reply. */
  const ONE_OUTPUT := Settings([Sensor(1, Analog, Coil(1, 0), Thresholds(false, 0.0, true, 50.0))],
                               [LinkRow(1, [Channel(2, DO, true, Coil(1, 5), true, false)])], 0.0, true)

  lemma OneOutputIsLinked()
    ensures Distinct(ONE_OUTPUT) && IsLinkedDo(ONE_OUTPUT, 2)
  {
    var w := Wire(1, Channel(2, DO, true, Coil(1, 5), true, false));
    assert Wires(ONE_OUTPUT.links) == [w];
    assert Linked(ONE_OUTPUT, w);
  }

  /** The first poll can be skipped: the worker has started and connected, and only the reset was accepted. */
  method FirstPollIsSkipped() returns (w: ModbusWorker)
    ensures fresh(w) && w.Valid() && w.running && w.connected && w.accepted == [ResetOp]
  {
    OneOutputIsLinked();
    w := new ModbusWorker(ONE_OUTPUT, true);
    w.StartUp(true, true);
  }

  /** One good reply to a reset. */
  method ConfirmReset(w: ModbusWorker, writes: seq<DoWrite>, k: nat)
    requires w.Valid() && w.lossless && w.running && w.connected && w.link == Open && w.opQueue == []
    requires w.awaiting == Reset(writes, k)
    modifies w
    ensures w.Valid() && w.running && w.connected && w.link == Open && w.opQueue == [] && k < |writes|
    ensures if k + 1 < |writes| then w.awaiting == Reset(writes, k + 1) else !w.pumpActive
    ensures w.doStates == old(w.doStates)[writes[k].doId := writes[k].want]
  {
    var _ := w.TakeAwaited();
    w.OnReset(writes, k, Good(0.0, false));
  }

  /** A worker whose reset on connecting has been confirmed throughout. */
  method AfterReset(cfg: Settings) returns (w: ModbusWorker)
    requires cfg.failSafe && !NoOutputs(cfg)
    ensures fresh(w) && w.cfg == cfg && w.lossless && w.Valid() && w.Trusting() && w.link == Open && !w.pumpActive
    ensures forall id :: IsLinkedDo(cfg, id) ==> id in w.doStates && !w.doStates[id]
  {
    w := new ModbusWorker(cfg, true);
    w.StartUp(true, true);
    var writes := w.awaiting.writes;
    for k := 0 to |writes|
      invariant fresh(w) && w.cfg == cfg && w.Valid() && w.running && w.connected && w.link == Open && w.opQueue == []
      invariant if k < |writes| then w.awaiting == Reset(writes, k) else !w.pumpActive
      invariant forall j :: 0 <= j < k ==> writes[j].doId in w.doStates && !w.doStates[writes[j].doId]
    {
      ConfirmReset(w, writes, k);
    }
    forall id | IsLinkedDo(cfg, id) ensures id in w.doStates && !w.doStates[id] {
      assert Targets(writes, id);
    }
  }

  /**
   The exception is real, for all settings that have it: where a manual write drives the
   coil of a linked output, one such write after the reset leaves the output cached as off
   with its coil on.
   */
  method ManualWriteDefeatsTheCache(cfg: Settings, id: int, sensorId: int) returns (w: ModbusWorker)
    requires cfg.failSafe && Distinct(cfg) && IsLinkedDo(cfg, id) && Drives(cfg, sensorId, CoilOf(cfg, id))
    ensures fresh(w) && w.cfg == cfg && w.Valid() && w.Trusting()
    ensures id in w.doStates && w.doStates[id] != (CoilOf(cfg, id) in w.lit)
  {
    w := AfterReset(cfg);
    ghost var i :| FirstWithId(cfg.sensors, sensorId, i) && cfg.sensors[i].coil == CoilOf(cfg, id);
    w.WriteSingleCoil(sensorId, true);
    assert w.awaiting == Manual(sensorId, cfg.sensors[i].coil, true);
    var task := w.TakeAwaited();
    w.OnManual(task.sensorId, task.coil, task.value, Good(0.0, true));
  }
}

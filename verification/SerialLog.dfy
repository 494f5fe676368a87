/**
 The protocol of the serial pump (src/network/modbus/ModbusWorker.cpp), written as an
 automaton over the events the worker can be seen to perform. It knows nothing of how
 the worker is programmed; the worker proves that its own log is always accepted.
 */
module SerialLog {

  /** An operation of the pump: the fail-safe reset, a poll round, or a manual coil write. */
  datatype Op = ResetOp | PollOp | WriteOp(sensorId: int, value: bool)

  datatype Entry =
    | Accepted(op: Op)  // queued while running
    | Begun(op: Op)     // taken from the queue
    | Visited(idx: nat) // sensor idx of the current poll round
    | Sent              // a request is on the wire
    | Answered          // its reply, error or timeout
    | Ended             // the current operation is over
    | Halted            // stop()

  datatype Monitor = Monitor(queue: seq<Op>, busy: bool, op: Op, next: nat, inFlight: bool, sends: nat, halted: bool)

  datatype Verdict = Rejected | Ok(m: Monitor)

  const FRESH := Monitor([], false, PollOp, 0, false, 0, false)

  /** One observed event; n is the number of sensors of a round, bound limits the requests of an operation. */
  function Observe(m: Monitor, e: Entry, n: nat, bound: Op -> nat): Verdict {
    if m.halted then Rejected
    else match e
      case Accepted(op) => Ok(m.(queue := m.queue + [op]))
      case Begun(op) =>
        if !m.busy && m.queue != [] && m.queue[0] == op
        then Ok(Monitor(m.queue[1..], true, op, 0, false, 0, false)) else Rejected
      case Visited(i) =>
        if m.busy && m.op == PollOp && !m.inFlight && i == m.next < n then Ok(m.(next := i + 1)) else Rejected
      case Sent =>
        if m.busy && !m.inFlight && m.sends < bound(m.op)
        then Ok(m.(inFlight := true, sends := m.sends + 1)) else Rejected
      case Answered => if m.inFlight then Ok(m.(inFlight := false)) else Rejected
      case Ended =>
        if m.busy && !m.inFlight && (m.op == PollOp ==> m.next == n) then Ok(m.(busy := false)) else Rejected
      case Halted => Ok(Monitor([], false, m.op, 0, false, 0, true))
  }

  function Judge(log: seq<Entry>, n: nat, bound: Op -> nat): Verdict {
    if log == [] then Ok(FRESH)
    else
      var v := Judge(log[..|log| - 1], n, bound);
      if v.Rejected? then Rejected else Observe(v.m, log[|log| - 1], n, bound)
  }

  lemma JudgeAppend(log: seq<Entry>, e: Entry, n: nat, bound: Op -> nat)
    requires Judge(log, n, bound).Ok?
    ensures Judge(log + [e], n, bound) == Observe(Judge(log, n, bound).m, e, n, bound)
  {
    assert (log + [e])[..|log|] == log;
  }

  // ---- What acceptance means ---------------------------------------------------

  function AcceptedOps(log: seq<Entry>): seq<Op> {
    if log == [] then []
    else AcceptedOps(log[..|log| - 1]) + if log[|log| - 1].Accepted? then [log[|log| - 1].op] else []
  }

  lemma AcceptedAppend(log: seq<Entry>, e: Entry)
    ensures AcceptedOps(log + [e]) == if e.Accepted? then AcceptedOps(log) + [e.op] else AcceptedOps(log)
  {
    assert (log + [e])[..|log|] == log;
  }

  function BegunOps(log: seq<Entry>): seq<Op> {
    if log == [] then []
    else BegunOps(log[..|log| - 1]) + if log[|log| - 1].Begun? then [log[|log| - 1].op] else []
  }

  function Count(log: seq<Entry>, e: Entry): nat {
    if log == [] then 0 else Count(log[..|log| - 1], e) + if log[|log| - 1] == e then 1 else 0
  }

  /** The sensors visited since the last Begun. */
  function RoundSoFar(log: seq<Entry>): seq<nat> {
    if log == [] then []
    else match log[|log| - 1]
      case Begun(_) => []
      case Visited(i) => RoundSoFar(log[..|log| - 1]) + [i]
      case _ => RoundSoFar(log[..|log| - 1])
  }

  function SentSinceBegun(log: seq<Entry>): nat {
    if log == [] then 0
    else match log[|log| - 1]
      case Begun(_) => 0
      case Sent => SentSinceBegun(log[..|log| - 1]) + 1
      case _ => SentSinceBegun(log[..|log| - 1])
  }

  function Upto(n: nat): (r: seq<nat>)
    ensures |r| == n && forall i :: 0 <= i < n ==> r[i] == i
  {
    seq(n, i => i)
  }

  lemma {:induction false} OpsInOrder(log: seq<Entry>, n: nat, bound: Op -> nat)
    requires Judge(log, n, bound).Ok? && !Judge(log, n, bound).m.halted
    ensures AcceptedOps(log) == BegunOps(log) + Judge(log, n, bound).m.queue
  {
    if log == [] {
    } else {
      var before, e := log[..|log| - 1], log[|log| - 1];
      OpsInOrder(before, n, bound);
      OneMoreOp(Judge(before, n, bound).m, e, AcceptedOps(before), BegunOps(before), n, bound);
    }
  }

  lemma OneMoreOp(m: Monitor, e: Entry, accepted: seq<Op>, begun: seq<Op>, n: nat, bound: Op -> nat)
    requires Observe(m, e, n, bound).Ok? && !Observe(m, e, n, bound).m.halted && accepted == begun + m.queue
    ensures (if e.Accepted? then accepted + [e.op] else accepted) ==
            (if e.Begun? then begun + [e.op] else begun) + Observe(m, e, n, bound).m.queue
  {
    if e.Accepted? {
      Regroup(begun, m.queue, [e.op]);
    } else if e.Begun? {
      assert m.queue == [e.op] + m.queue[1..];
      Regroup(begun, [e.op], m.queue[1..]);
    }
  }

  lemma Regroup(a: seq<Op>, b: seq<Op>, c: seq<Op>)
    ensures a + b + c == a + (b + c)
  {}

  lemma {:induction false} BegunAreAccepted(log: seq<Entry>, n: nat, bound: Op -> nat)
    requires Judge(log, n, bound).Ok?
    ensures BegunOps(log) <= AcceptedOps(log)
  {
    if log != [] {
      BegunAreAccepted(log[..|log| - 1], n, bound);
      if !Judge(log, n, bound).m.halted {
        OpsInOrder(log, n, bound);
      }
    }
  }

  lemma {:induction false} OpsEndOnce(log: seq<Entry>, n: nat, bound: Op -> nat)
    requires Judge(log, n, bound).Ok?
    ensures var m := Judge(log, n, bound).m;
            !m.halted ==> |BegunOps(log)| == Count(log, Ended) + if m.busy then 1 else 0
  {
    if log != [] {
      OpsEndOnce(log[..|log| - 1], n, bound);
    }
  }

  lemma {:induction false} RequestsAlternate(log: seq<Entry>, n: nat, bound: Op -> nat)
    requires Judge(log, n, bound).Ok?
    ensures var m := Judge(log, n, bound).m;
            && (m.inFlight ==> m.busy)
            && (!m.halted ==> Count(log, Sent) == Count(log, Answered) + if m.inFlight then 1 else 0)
            && (!m.halted && m.busy ==> SentSinceBegun(log) == m.sends <= bound(m.op))
  {
    if log != [] {
      RequestsAlternate(log[..|log| - 1], n, bound);
    }
  }

  lemma {:induction false} RoundInOrder(log: seq<Entry>, n: nat, bound: Op -> nat)
    requires Judge(log, n, bound).Ok?
    ensures var m := Judge(log, n, bound).m;
            !m.halted && m.busy && m.op == PollOp ==> m.next <= n && RoundSoFar(log) == Upto(m.next)
  {
    if log != [] {
      RoundInOrder(log[..|log| - 1], n, bound);
      var e := log[|log| - 1];
      if e.Visited? {
        assert Upto(e.idx + 1) == Upto(e.idx) + [e.idx];
      }
    }
  }

  lemma {:induction false} PrefixAccepted(log: seq<Entry>, k: nat, n: nat, bound: Op -> nat)
    requires Judge(log, n, bound).Ok? && k <= |log|
    ensures Judge(log[..k], n, bound).Ok?
  {
    if k < |log| {
      PrefixAccepted(log[..|log| - 1], k, n, bound);
      assert log[..|log| - 1][..k] == log[..k];
    } else {
      assert log[..k] == log;
    }
  }

  /**
   First in, first out: at every moment before stop() the operations begun so far are
   exactly the first ones accepted, and all but the current one have ended, once each.
   */
  lemma Fifo(log: seq<Entry>, k: nat, n: nat, bound: Op -> nat)
    requires Judge(log, n, bound).Ok? && k <= |log|
    ensures BegunOps(log[..k]) <= AcceptedOps(log[..k])
    ensures Halted !in log[..k] ==> Count(log[..k], Ended) <= |BegunOps(log[..k])| <= Count(log[..k], Ended) + 1
  {
    PrefixAccepted(log, k, n, bound);
    BegunAreAccepted(log[..k], n, bound);
    OpsEndOnce(log[..k], n, bound);
    HaltedIsRecorded(log[..k], n, bound);
  }

  /** At every moment before stop() at most one request is unanswered. */
  lemma OneInFlight(log: seq<Entry>, k: nat, n: nat, bound: Op -> nat)
    requires Judge(log, n, bound).Ok? && k <= |log| && Halted !in log[..k]
    ensures Count(log[..k], Answered) <= Count(log[..k], Sent) <= Count(log[..k], Answered) + 1
  {
    PrefixAccepted(log, k, n, bound);
    RequestsAlternate(log[..k], n, bound);
    HaltedIsRecorded(log[..k], n, bound);
  }

  /** A poll round that ends has visited every sensor, once, in order, within its budget of requests. */
  lemma RoundsAreComplete(log: seq<Entry>, k: nat, n: nat, bound: Op -> nat)
    requires Judge(log, n, bound).Ok? && k < |log| && log[k] == Ended
    requires BegunOps(log[..k]) != [] && BegunOps(log[..k])[|BegunOps(log[..k])| - 1] == PollOp
    ensures RoundSoFar(log[..k]) == Upto(n)
    ensures SentSinceBegun(log[..k]) <= bound(PollOp)
  {
    PrefixAccepted(log, k, n, bound);
    PrefixAccepted(log, k + 1, n, bound);
    assert log[..k + 1][..k] == log[..k];
    RoundInOrder(log[..k], n, bound);
    RequestsAlternate(log[..k], n, bound);
    CurrentOpIsLastBegun(log[..k], n, bound);
  }

  lemma {:induction false} CurrentOpIsLastBegun(log: seq<Entry>, n: nat, bound: Op -> nat)
    requires Judge(log, n, bound).Ok? && Judge(log, n, bound).m.busy
    ensures BegunOps(log) != [] && BegunOps(log)[|BegunOps(log)| - 1] == Judge(log, n, bound).m.op
  {
    var e := log[|log| - 1];
    if !e.Begun? {
      CurrentOpIsLastBegun(log[..|log| - 1], n, bound);
    }
  }

  lemma {:induction false} HaltedIsRecorded(log: seq<Entry>, n: nat, bound: Op -> nat)
    requires Judge(log, n, bound).Ok?
    ensures Judge(log, n, bound).m.halted <==> Halted in log
  {
    if log != [] {
      HaltedIsRecorded(log[..|log| - 1], n, bound);
      assert log == log[..|log| - 1] + [log[|log| - 1]];
    }
  }

  /** After stop() nothing is observed any more: no continuation and no queued operation runs. */
  lemma NothingAfterStop(log: seq<Entry>, k: nat, n: nat, bound: Op -> nat)
    requires Judge(log, n, bound).Ok? && k < |log| && log[k] == Halted
    ensures k == |log| - 1
  {
    if k < |log| - 1 {
      assert log[..k + 2][..k + 1] == log[..k + 1] && log[..k + 1][k] == Halted;
      PrefixAccepted(log, k + 1, n, bound);
      HaltedIsRecorded(log[..k + 1], n, bound);
      PrefixAccepted(log, k + 2, n, bound);
    }
  }
}

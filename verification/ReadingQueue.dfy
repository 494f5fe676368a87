/**
 The durable queue of readings (src/network/workers/DatabaseWorker.cpp). Readings come in
 from the main thread while the worker thread moves them to the database in batches; what
 cannot be written at shutdown is spilled to a file that the next start loads again.

 Every method is one step that the other thread, or a crash, can come after: a flush is
 the two steps around the database write, a stop is the flush and then the spill.
 */
module ReadingQueue {

  /** One reading; the ticket tells equal readings apart and grows with arrival. */
  datatype Reading = Reading(ticket: int, sensorId: int, value: real)

  /** An element of the spill file; only JSON objects are readings. */
  datatype Item = Record(r: Reading) | NotARecord

  datatype SpillFile = Absent | Garbled | Listing(items: seq<Item>)

  /** What the database makes of a batch: some rows may be refused one by one. */
  datatype Outcome = CannotOpen | CommitFailed | Committed(refused: set<Reading>, removeOk: bool)

  datatype Step =
    | DoStart
    | DoLoad(canOpen: bool)
    | DoEnqueue(sensorId: int, value: real)
    | DoTakeBatch
    | DoFinishFlush(outcome: Outcome)
    | DoStop
    | DoSave(writeOk: bool)

  datatype Phase = Created | Loading | Idle | Flushing | LastFlush | Spilling | Finished

  const MAX_QUEUE := 10000

  function RecordsOf(items: seq<Item>): seq<Reading> {
    if items == [] then []
    else (if items[0].Record? then [items[0].r] else []) + RecordsOf(items[1..])
  }

  function Records(file: SpillFile): seq<Reading> {
    if file.Listing? then RecordsOf(file.items) else []
  }

  /** True of every file; what the records of a file are is looked up through it. */
  predicate Read(file: SpillFile) { true }

  ghost predicate AreRecords(rs: seq<Reading>, file: SpillFile) {
    forall f {:trigger Read(f)} :: Read(f) && f == file ==> rs == Records(f)
  }

  predicate IsSpilled(r: Reading, records: seq<Reading>) { r in records }

  /** Every record of the file has been disposed of: committed, skipped or dropped. */
  ghost predicate AllDone(records: seq<Reading>, through: seq<Reading>, dropped: seq<Reading>) {
    forall r {:trigger IsSpilled(r, records)} :: IsSpilled(r, records) ==> r in through || r in dropped
  }

  lemma DoneStaysDone(records: seq<Reading>, through: seq<Reading>, more: seq<Reading>, dropped: seq<Reading>,
                      lost: seq<Reading>)
    ensures AllDone(records, through, dropped) ==> AllDone(records, through + more, dropped + lost)
  {}

  /** The records of the file are older than any arrival of this run, and in order. */
  ghost predicate AllEarlier(records: seq<Reading>) {
    Increasing(records) && forall r {:trigger IsSpilled(r, records)} :: IsSpilled(r, records) ==> !Arrived(r)
  }

  ghost predicate AllAccepted(records: seq<Reading>, accepted: seq<Reading>) {
    forall r {:trigger IsSpilled(r, records)} :: IsSpilled(r, records) ==> r in accepted
  }

  lemma RestoredAreAccepted(records: seq<Reading>, arrived: seq<Reading>)
    ensures AllAccepted(records, records + arrived)
  {}

  function AsItems(rs: seq<Reading>): (items: seq<Item>)
    ensures |items| == |rs| && forall i :: 0 <= i < |rs| ==> items[i] == Record(rs[i])
  {
    seq(|rs|, i requires 0 <= i < |rs| => Record(rs[i]))
  }

  lemma {:induction false} SpillAndLoadBack(rs: seq<Reading>)
    ensures RecordsOf(AsItems(rs)) == rs
  {
    if rs != [] {
      SpillAndLoadBack(rs[1..]);
      assert AsItems(rs)[1..] == AsItems(rs[1..]);
    }
  }

  predicate Before(a: Reading, b: Reading) { a.ticket < b.ticket }

  /** An arrival of this run, as opposed to a record of the spill file. */
  predicate Arrived(r: Reading) { r.ticket >= 0 }

  ghost predicate Increasing(rs: seq<Reading>) {
    forall i, j {:trigger Before(rs[i], rs[j])} :: 0 <= i < j < |rs| ==> Before(rs[i], rs[j])
  }

  ghost predicate AllBefore(rs: seq<Reading>, ts: seq<Reading>) {
    forall a, b {:trigger Before(a, b)} :: a in rs && b in ts ==> Before(a, b)
  }

  lemma IncreasingConcat(rs: seq<Reading>, ts: seq<Reading>)
    requires Increasing(rs) && Increasing(ts) && AllBefore(rs, ts)
    ensures Increasing(rs + ts)
  {
    forall i, j | 0 <= i < j < |rs + ts| ensures Before((rs + ts)[i], (rs + ts)[j]) {
      var a, b := (rs + ts)[i], (rs + ts)[j];
      if j < |rs| {
        assert Before(rs[i], rs[j]);
      } else if i < |rs| {
        assert a in rs && b == ts[j - |rs|] && b in ts;
      } else {
        assert Before(ts[i - |rs|], ts[j - |rs|]);
      }
    }
  }

  /** The readings of a batch the database took, and those it refused, in their order. */
  function Taken(batch: seq<Reading>, refused: set<Reading>): seq<Reading> {
    if batch == [] then []
    else
      var front, last := batch[..|batch| - 1], batch[|batch| - 1];
      if last in refused then Taken(front, refused) else Taken(front, refused) + [last]
  }

  function Refused(batch: seq<Reading>, refused: set<Reading>): seq<Reading> {
    if batch == [] then []
    else
      var front, last := batch[..|batch| - 1], batch[|batch| - 1];
      if last in refused then Refused(front, refused) + [last] else Refused(front, refused)
  }

  function Times(r: Reading, rs: seq<Reading>): nat { multiset(rs)[r] }

  lemma TimesConcat(r: Reading, rs: seq<Reading>, ts: seq<Reading>)
    ensures Times(r, rs + ts) == Times(r, rs) + Times(r, ts)
  {}

  lemma TimesMember(r: Reading, rs: seq<Reading>)
    ensures Times(r, rs) > 0 <==> r in rs
  {
    assert r in rs <==> r in multiset(rs);
  }

  lemma {:induction false} TakenOrRefused(batch: seq<Reading>, refused: set<Reading>, r: Reading)
    ensures Times(r, batch) == Times(r, Taken(batch, refused)) + Times(r, Refused(batch, refused))
  {
    if batch != [] {
      var front, last := batch[..|batch| - 1], batch[|batch| - 1];
      TakenOrRefused(front, refused, r);
      OneMore(r, front, last);
      assert batch == front + [last];
      if last in refused {
        OneMore(r, Refused(front, refused), last);
      } else {
        OneMore(r, Taken(front, refused), last);
      }
    }
  }

  lemma OneMore(r: Reading, rs: seq<Reading>, last: Reading)
    ensures Times(r, rs + [last]) == Times(r, rs) + if r == last then 1 else 0
  {
    TimesConcat(r, rs, [last]);
  }

  lemma Prepended(batch: seq<Reading>, i: nat, queue: seq<Reading>)
    requires i < |batch|
    ensures [batch[i]] + (batch[i + 1..] + queue) == batch[i..] + queue
  {
    assert [batch[i]] + batch[i + 1..] == batch[i..];
  }

  /** How many spilled records are still owed to the database after a commit of n records. */
  function Owed(spilled: nat, n: nat): nat { if n < spilled then spilled - n else 0 }

  /** Where readings are: in memory in two places, and in three they do not come back from. */
  datatype Places = Places(through: seq<Reading>, batch: seq<Reading>, queue: seq<Reading>,
                           dropped: seq<Reading>, spilled: seq<Reading>)

  /** In how many places a reading is. */
  function TimesIn(r: Reading, p: Places): nat {
    Times(r, p.through) + Times(r, p.batch) + Times(r, p.queue) + Times(r, p.dropped) + Times(r, p.spilled)
  }

  /** Every accepted reading is in exactly one place, and nothing else is anywhere. */
  ghost predicate Conserved(accepted: seq<Reading>, p: Places) {
    forall r {:trigger TimesIn(r, p)} :: TimesIn(r, p) == Times(r, accepted)
  }

  /** What went through a commit was either stored or skipped. */
  ghost predicate StoredOrSkipped(through: seq<Reading>, table: seq<Reading>, skipped: seq<Reading>) {
    forall r {:trigger TimesStored(r, table, skipped)} :: TimesStored(r, table, skipped) == Times(r, through)
  }

  function TimesStored(r: Reading, table: seq<Reading>, skipped: seq<Reading>): nat {
    Times(r, table) + Times(r, skipped)
  }

  lemma StoredOrSkippedAfterCommit(through: seq<Reading>, table: seq<Reading>, skipped: seq<Reading>,
                          batch: seq<Reading>, refused: set<Reading>)
    requires StoredOrSkipped(through, table, skipped)
    ensures StoredOrSkipped(through + batch, table + Taken(batch, refused), skipped + Refused(batch, refused))
  {
    forall r
      ensures TimesStored(r, table + Taken(batch, refused), skipped + Refused(batch, refused)) ==
              Times(r, through + batch)
    {
      assert TimesStored(r, table, skipped) == Times(r, through);
      TakenOrRefused(batch, refused, r);
      TimesConcat(r, through, batch);
      TimesConcat(r, table, Taken(batch, refused));
      TimesConcat(r, skipped, Refused(batch, refused));
    }
  }

  /** What has been committed, is being committed and waits is in order of arrival. */
  ghost predicate InOrder(p: Places) { Increasing(p.through + p.batch + p.queue) }

  lemma ConservedMembers(accepted: seq<Reading>, p: Places, r: Reading)
    requires Conserved(accepted, p)
    ensures r in accepted <==>
            r in p.through || r in p.batch || r in p.queue || r in p.dropped || r in p.spilled
  {
    assert TimesIn(r, p) == Times(r, accepted);
    TimesMember(r, accepted);
    TimesMember(r, p.through);
    TimesMember(r, p.batch);
    TimesMember(r, p.queue);
    TimesMember(r, p.dropped);
    TimesMember(r, p.spilled);
  }

  lemma Arrival(accepted: seq<Reading>, p: Places, r: Reading)
    requires Conserved(accepted, p) && InOrder(p)
    requires AllBefore(accepted, [r])
    ensures Conserved(accepted + [r], p.(queue := p.queue + [r]))
    ensures InOrder(p.(queue := p.queue + [r]))
  {
    forall x ensures TimesIn(x, p.(queue := p.queue + [r])) == Times(x, accepted + [r]) {
      assert TimesIn(x, p) == Times(x, accepted);
      TimesConcat(x, p.queue, [r]);
      TimesConcat(x, accepted, [r]);
    }
    var line := p.through + p.batch + p.queue;
    forall a | a in line ensures a in accepted {
      ConservedMembers(accepted, p, a);
    }
    IncreasingConcat(line, [r]);
    assert p.through + p.batch + (p.queue + [r]) == line + [r];
  }

  lemma Overflow(accepted: seq<Reading>, p: Places)
    requires Conserved(accepted, p) && InOrder(p) && p.queue != []
    ensures Conserved(accepted, p.(queue := p.queue[1..], dropped := p.dropped + [p.queue[0]]))
    ensures InOrder(p.(queue := p.queue[1..]))
  {
    var p' := p.(queue := p.queue[1..], dropped := p.dropped + [p.queue[0]]);
    forall x ensures TimesIn(x, p') == Times(x, accepted) {
      assert TimesIn(x, p) == Times(x, accepted);
      assert p.queue == [p.queue[0]] + p.queue[1..];
      TimesConcat(x, [p.queue[0]], p.queue[1..]);
      TimesConcat(x, p.dropped, [p.queue[0]]);
    }
    var line, k := p.through + p.batch + p.queue, |p.through + p.batch|;
    var line' := p.through + p.batch + p.queue[1..];
    forall i, j | 0 <= i < j < |line'| ensures Before(line'[i], line'[j]) {
      var i', j' := if i < k then i else i + 1, if j < k then j else j + 1;
      assert line'[i] == line[i'] && line'[j] == line[j'];
      assert Before(line[i'], line[j']);
    }
  }

  lemma Taking(accepted: seq<Reading>, p: Places)
    requires Conserved(accepted, p) && InOrder(p) && p.batch == []
    ensures Conserved(accepted, p.(batch := p.queue, queue := []))
    ensures InOrder(p.(batch := p.queue, queue := []))
  {
    forall x ensures TimesIn(x, p.(batch := p.queue, queue := [])) == Times(x, accepted) {
      assert TimesIn(x, p) == Times(x, accepted);
    }
    assert p.through + p.queue + [] == p.through + p.batch + p.queue;
  }

  lemma Requeueing(accepted: seq<Reading>, p: Places)
    requires Conserved(accepted, p) && InOrder(p)
    ensures Conserved(accepted, p.(batch := [], queue := p.batch + p.queue))
    ensures InOrder(p.(batch := [], queue := p.batch + p.queue))
  {
    forall x ensures TimesIn(x, p.(batch := [], queue := p.batch + p.queue)) == Times(x, accepted) {
      assert TimesIn(x, p) == Times(x, accepted);
      TimesConcat(x, p.batch, p.queue);
    }
    assert p.through + [] + (p.batch + p.queue) == p.through + p.batch + p.queue;
  }

  lemma Committing(accepted: seq<Reading>, p: Places)
    requires Conserved(accepted, p) && InOrder(p)
    ensures Conserved(accepted, p.(through := p.through + p.batch, batch := []))
    ensures InOrder(p.(through := p.through + p.batch, batch := []))
  {
    forall x ensures TimesIn(x, p.(through := p.through + p.batch, batch := [])) == Times(x, accepted) {
      assert TimesIn(x, p) == Times(x, accepted);
      TimesConcat(x, p.through, p.batch);
    }
    assert p.through + p.batch + [] + p.queue == p.through + p.batch + p.queue;
  }

  lemma SpillingOut(accepted: seq<Reading>, p: Places)
    requires Conserved(accepted, p) && InOrder(p) && p.batch == [] && p.spilled == []
    ensures Conserved(accepted, p.(queue := [], spilled := p.queue))
    ensures InOrder(p.(queue := [], spilled := p.queue))
  {
    forall x ensures TimesIn(x, p.(queue := [], spilled := p.queue)) == Times(x, accepted) {
      assert TimesIn(x, p) == Times(x, accepted);
    }
    var line := p.through + p.batch + p.queue;
    var kept := p.through + p.batch + [];
    forall i, j | 0 <= i < j < |kept| ensures Before(kept[i], kept[j]) {
      assert kept[i] == line[i] && kept[j] == line[j];
      assert Before(line[i], line[j]);
    }
  }

  lemma Restoring(accepted: seq<Reading>, p: Places, earlier: seq<Reading>)
    requires Conserved(accepted, p) && InOrder(p) && p.through == p.batch == []
    requires Increasing(accepted) && Increasing(earlier) && AllBefore(earlier, accepted)
    ensures Conserved(earlier + accepted, p.(queue := earlier + p.queue))
    ensures InOrder(p.(queue := earlier + p.queue)) && Increasing(earlier + accepted)
  {
    forall x ensures TimesIn(x, p.(queue := earlier + p.queue)) == Times(x, earlier + accepted) {
      assert TimesIn(x, p) == Times(x, accepted);
      TimesConcat(x, earlier, p.queue);
      TimesConcat(x, earlier, accepted);
    }
    forall a | a in p.queue ensures a in accepted {
      ConservedMembers(accepted, p, a);
    }
    assert p.through + p.batch + p.queue == p.queue;
    assert p.through + p.batch + (earlier + p.queue) == earlier + p.queue;
    IncreasingConcat(earlier, p.queue);
    IncreasingConcat(earlier, accepted);
  }

  lemma EarlierFirst(records: seq<Reading>, accepted: seq<Reading>)
    requires AllEarlier(records) && OwedFirst(0, accepted)
    ensures AllBefore(records, accepted)
  {
    NothingOwed(accepted);
    forall a, b | a in records && b in accepted ensures Before(a, b) {
      assert IsSpilled(a, records);
    }
  }

  /** The records of the spill file in front of what has arrived. */
  lemma RestoredInOrder(accepted: seq<Reading>, p: Places, records: seq<Reading>)
    requires Conserved(accepted, p) && InOrder(p) && p.through == p.batch == []
    requires Increasing(accepted) && AllEarlier(records) && OwedFirst(0, accepted)
    ensures Conserved(records + accepted, p.(queue := records + p.queue))
    ensures InOrder(p.(queue := records + p.queue))
    ensures Increasing(records + accepted) && AllAccepted(records, records + accepted)
  {
    EarlierFirst(records, accepted);
    Restoring(accepted, p, records);
    RestoredAreAccepted(records, accepted);
  }

  // ---- What is owed to the spill file ---------------------------------------------

  /** Restored records still in memory can only be among the first few. */
  ghost predicate OwedFirst(owed: nat, memory: seq<Reading>) {
    owed <= |memory| && forall i {:trigger Arrived(memory[i])} :: owed <= i < |memory| ==> Arrived(memory[i])
  }

  lemma OwedAfterArrival(owed: nat, memory: seq<Reading>, r: Reading)
    requires OwedFirst(owed, memory) && Arrived(r)
    ensures OwedFirst(owed, memory + [r])
  {
    forall i | owed <= i < |memory + [r]| ensures Arrived((memory + [r])[i]) {
      if i < |memory| { assert Arrived(memory[i]); }
    }
  }

  /** Losing a reading while gaining one shifts the restored records towards the front only. */
  lemma OwedAfterOverflow(owed: nat, batch: seq<Reading>, queue: seq<Reading>, r: Reading)
    requires OwedFirst(owed, batch + queue) && queue != [] && Arrived(r)
    ensures OwedFirst(owed, batch + (queue[1..] + [r]))
  {
    var memory, memory' := batch + queue, batch + (queue[1..] + [r]);
    forall i | owed <= i < |memory'| ensures Arrived(memory'[i]) {
      if i < |memory| - 1 {
        var i' := if i < |batch| then i else i + 1;
        assert memory'[i] == memory[i'];
        assert Arrived(memory[i']);
      }
    }
  }

  /** A commit of the batch settles as many of the debts as it has records. */
  lemma OwedAfterCommit(owed: nat, batch: seq<Reading>, queue: seq<Reading>)
    requires OwedFirst(owed, batch + queue)
    ensures OwedFirst(Owed(owed, |batch|), queue)
  {
    forall i | Owed(owed, |batch|) <= i < |queue| ensures Arrived(queue[i]) {
      assert Arrived((batch + queue)[|batch| + i]);
    }
  }

  lemma RestoredOwed(records: seq<Reading>, arrived: seq<Reading>)
    requires OwedFirst(0, arrived)
    ensures OwedFirst(|records|, records + arrived)
  {
    forall i | |records| <= i < |records + arrived| ensures Arrived((records + arrived)[i]) {
      assert Arrived(arrived[i - |records|]);
    }
  }

  lemma NothingOwed(memory: seq<Reading>)
    requires OwedFirst(0, memory)
    ensures forall r :: r in memory ==> Arrived(r)
  {
    forall r | r in memory ensures Arrived(r) {
      var i :| 0 <= i < |memory| && memory[i] == r;
      assert Arrived(memory[i]);
    }
  }

  class DatabaseWorker {
    const hasSpillPath: bool
    const initialFile: SpillFile
    ghost const earlier: seq<Reading>  // the records of the initial file

    var queue: seq<Reading>
    var running: bool
    var spilledCount: nat
    var batch: seq<Reading>   // the batch a flush has taken and not yet written
    var phase: Phase

    var file: SpillFile       // on disk
    var table: seq<Reading>   // in the database

    ghost var accepted: seq<Reading>  // everything restored or enqueued, in order
    ghost var through: seq<Reading>   // everything a commit has disposed of, in order
    ghost var skipped: seq<Reading>   // refused by the database, row by row
    ghost var dropped: seq<Reading>   // lost to the size limit
    ghost var spilled: seq<Reading>   // handed to the spill file at stop
    ghost var restored: bool          // the initial file was read
    ghost var overwritten: bool       // a spill has replaced the initial file

    ghost function Where(): Places
      reads this`through, this`batch, this`queue, this`dropped, this`spilled
    {
      Places(through, batch, queue, dropped, spilled)
    }

    /** Readings of the initial file carry negative tickets, arrivals do not. */
    ghost predicate TicketsOk()
      reads this`accepted, this`restored, this`overwritten, this`spilled
    {
      && Increasing(accepted) && AllEarlier(earlier)
      && (if restored then AllAccepted(earlier, accepted) else OwedFirst(0, accepted))
      && (!overwritten ==> spilled == [])
    }

    /** Restored readings not yet through can only be among the first spilledCount in memory. */
    ghost predicate SpillOwed()
      reads this`spilledCount, this`batch, this`queue, this`restored, this`file, this`overwritten
    {
      && OwedFirst(spilledCount, batch + queue)
      && (spilledCount > 0 ==> restored && file == initialFile && !overwritten)
    }

    /** The file on disk: still the initial one, the last spill, or removed when nothing was owed. */
    ghost predicate FileOk()
      reads this`overwritten, this`file, this`spilled, this`restored, this`through, this`dropped
    {
      && (overwritten ==> file == Listing(AsItems(spilled)))
      && (!overwritten ==>
            || file == initialFile
            || (file == Absent && restored && AllDone(earlier, through, dropped)))
      && (!hasSpillPath ==> file == initialFile && !restored)
    }

    predicate InBound()
      reads this`queue
    {
      |queue| <= MAX_QUEUE
    }

    ghost predicate PhaseOk()
      reads this`running, this`phase, this`batch, this`restored, this`through, this`spilledCount, this`file, this`queue
      reads this`overwritten
    {
      && (overwritten ==> queue == [] && phase == Finished)
      && (running ==> phase != Created && phase != LastFlush && phase != Spilling && phase != Finished)
      && (phase != Flushing && phase != LastFlush ==> batch == [])
      && (phase == Created || phase == Loading ==>
            !restored && through == [] && spilledCount == 0 && file == initialFile)
      && (phase == Created ==> queue == [])
    }

    ghost predicate Valid()
      reads this
    {
      && Conserved(accepted, Where()) && InOrder(Where())
      && StoredOrSkipped(through, table, skipped)
      && TicketsOk() && SpillOwed() && FileOk() && PhaseOk()
      && AreRecords(earlier, initialFile)
    }

    constructor (hasSpillPath: bool, file: SpillFile)
      requires AllEarlier(Records(file))
      ensures Valid() && this.file == this.initialFile == file && earlier == Records(file)
              && this.hasSpillPath == hasSpillPath
      ensures !running && phase == Created && accepted == []
    {
      this.hasSpillPath, this.initialFile, this.file := hasSpillPath, file, file;
      this.earlier := Records(file);
      this.table := [];
      queue, batch, running, spilledCount, phase := [], [], false, 0, Created;
      accepted, through, skipped, dropped, spilled := [], [], [], [], [];
      restored, overwritten := false, false;
    }

    /** enqueue, on the main thread: the newest reading always fits, if need be at the cost of the oldest. */
    method Enqueue(r: Reading)
      requires Valid() && Arrived(r) && AllBefore(accepted, [r])
      modifies this`queue, this`accepted, this`dropped
      ensures Valid()
      ensures !running ==> queue == old(queue) && accepted == old(accepted)
      ensures running ==>
                && accepted == old(accepted) + [r]
                && (|old(queue)| < MAX_QUEUE ==> queue == old(queue) + [r] && dropped == old(dropped))
                && (|old(queue)| >= MAX_QUEUE ==>
                      queue == old(queue)[1..] + [r] && dropped == old(dropped) + [old(queue)[0]])
    {
      if !running { return; }
      if |queue| >= MAX_QUEUE {
        DoneStaysDone(earlier, through, [], dropped, [queue[0]]);
        assert through + [] == through;
        OwedAfterOverflow(spilledCount, batch, queue, r);
        DropOldest();
      } else {
        OwedAfterArrival(spilledCount, batch + queue, r);
        assert batch + queue + [r] == batch + (queue + [r]);
      }
      Append(r);
    }

    method DropOldest()
      requires Conserved(accepted, Where()) && InOrder(Where()) && queue != []
      modifies this`queue, this`dropped
      ensures queue == old(queue)[1..] && dropped == old(dropped) + [old(queue)[0]]
      ensures Conserved(accepted, Where()) && InOrder(Where())
    {
      Overflow(accepted, Where());
      dropped := dropped + [queue[0]];
      queue := queue[1..];
    }

    method Append(r: Reading)
      requires Conserved(accepted, Where()) && InOrder(Where())
      requires TicketsOk() && Arrived(r) && AllBefore(accepted, [r])
      modifies this`queue, this`accepted
      ensures queue == old(queue) + [r] && accepted == old(accepted) + [r]
      ensures Conserved(accepted, Where()) && InOrder(Where()) && TicketsOk()
    {
      ArrivalKeepsTickets(r);
      Arrival(accepted, Where(), r);
      queue := queue + [r];
      accepted := accepted + [r];
    }

    lemma ArrivalKeepsTickets(r: Reading)
      requires TicketsOk() && Arrived(r) && AllBefore(accepted, [r])
      ensures Increasing(accepted + [r])
      ensures if restored then AllAccepted(earlier, accepted + [r]) else OwedFirst(0, accepted + [r])
    {
      IncreasingConcat(accepted, [r]);
      if !restored {
        OwedAfterArrival(0, accepted, r);
      }
    }

    /** start(), first half: from now on readings are accepted. */
    method Start()
      requires Valid() && phase == Created
      modifies this`running, this`phase
      ensures Valid() && running && phase == Loading
    {
      running := true;
      phase := Loading;
    }

    /** start(), second half: the spilled readings go to the front; the file stays until they are in the database. */
    method LoadSpilledQueue(canOpen: bool)
      requires Valid() && phase == Loading
      modifies this`phase, this`queue, this`spilledCount, this`accepted, this`restored
      ensures Valid() && phase == Idle
      ensures restored <==> hasSpillPath && canOpen && file.Listing?
      ensures accepted == (if restored then earlier + old(accepted) else old(accepted))
      ensures restored ==> file == initialFile && queue == earlier + old(queue) && spilledCount == |earlier|
      ensures !restored ==> queue == old(queue) && spilledCount == 0
    {
      phase := Idle;
      if !hasSpillPath || !canOpen || !file.Listing? { return; }
      assert batch + queue == queue;
      Restore();
    }

    /** The file is a list: its records are in memory again, and owed. */
    method Restore()
      requires Conserved(accepted, Where()) && InOrder(Where()) && TicketsOk() && !restored && through == batch == []
      requires file.Listing? && file == initialFile && AreRecords(earlier, initialFile) && OwedFirst(0, queue)
      modifies this`queue, this`spilledCount, this`accepted, this`restored
      ensures Conserved(accepted, Where()) && InOrder(Where()) && TicketsOk() && restored
      ensures accepted == earlier + old(accepted) && queue == earlier + old(queue) && spilledCount == |earlier|
      ensures OwedFirst(spilledCount, batch + queue)
    {
      LoadRecords();
      CountRestored(old(queue));
    }

    method LoadRecords()
      requires file.Listing? && file == initialFile && AreRecords(earlier, initialFile)
      modifies this`queue, this`spilledCount
      ensures queue == earlier + old(queue) && spilledCount == |earlier|
    {
      assert Read(file);
      spilledCount := PrependRecords(file.items);
    }

    /** What was put in front now counts as accepted. */
    ghost method CountRestored(arrived: seq<Reading>)
      requires queue == earlier + arrived && spilledCount == |earlier|
      requires Conserved(accepted, Where().(queue := arrived)) && InOrder(Where().(queue := arrived))
      requires TicketsOk() && !restored && through == batch == [] && OwedFirst(0, arrived)
      modifies this`accepted, this`restored
      ensures Conserved(accepted, Where()) && InOrder(Where()) && TicketsOk() && restored
      ensures accepted == earlier + old(accepted) && OwedFirst(spilledCount, batch + queue)
    {
      RestoredInOrder(accepted, Where().(queue := arrived), earlier);
      RestoredOwed(earlier, arrived);
      assert batch + queue == queue;
      restored := true;
      accepted := earlier + accepted;
    }

    /** The records of the file, put in front of the queue one by one from its end. */
    method PrependRecords(items: seq<Item>) returns (count: nat)
      modifies this`queue
      ensures queue == RecordsOf(items) + old(queue) && count == |RecordsOf(items)|
    {
      count := 0;
      var i := |items|;
      while i > 0
        invariant 0 <= i <= |items|
        invariant queue == RecordsOf(items[i..]) + old(queue)
        invariant count == |RecordsOf(items[i..])|
      {
        i := i - 1;
        assert items[i..][1..] == items[i + 1..];
        if items[i].Record? {
          queue := [items[i].r] + queue;
          count := count + 1;
        }
      }
      assert items[0..] == items;
    }

    /** flush(), up to the database: the whole queue becomes the batch. */
    method TakeBatch()
      requires Valid() && phase == Idle
      modifies this`batch, this`queue, this`phase
      ensures Valid()
      ensures old(queue) == [] ==> phase == Idle && queue == [] && batch == []
      ensures old(queue) != [] ==> phase == Flushing && batch == old(queue) && queue == []
    {
      if queue == [] { return; }
      Taking(accepted, Where());
      assert batch + queue == queue + [];
      batch, queue := queue, [];
      phase := Flushing;
    }

    /** The database did not take the batch: it goes back in front, one by one from its end. */
    method Requeue()
      modifies this`queue, this`batch
      ensures queue == old(batch) + old(queue) && batch == []
    {
      var i := |batch|;
      while i > 0
        invariant 0 <= i <= |batch| && batch == old(batch)
        invariant queue == batch[i..] + old(queue)
      {
        i := i - 1;
        Prepended(batch, i, old(queue));
        queue := [batch[i]] + queue;
      }
      batch := [];
    }

    /** flush(), from the database on. */
    method FinishFlush(outcome: Outcome)
      requires Valid() && (phase == Flushing || phase == LastFlush)
      modifies this`phase, this`queue, this`batch, this`table, this`skipped, this`through, this`spilledCount, this`file
      ensures Valid() && batch == []
      ensures phase == old(AfterFlush())
      ensures !outcome.Committed? ==>
                && queue == old(batch) + old(queue) && spilledCount == old(spilledCount)
                && table == old(table) && skipped == old(skipped) && through == old(through) && file == old(file)
      ensures !outcome.Committed? ==> (InBound() <==> |old(batch)| + |old(queue)| <= MAX_QUEUE)
      ensures outcome.Committed? ==>
                && queue == old(queue) && through == old(through) + old(batch)
                && table == old(table) + Taken(old(batch), outcome.refused)
                && skipped == old(skipped) + Refused(old(batch), outcome.refused)
                && spilledCount == Owed(old(spilledCount), |old(batch)|)
      // The file goes only when this commit, or one before it, has disposed of all its records.
      ensures file == old(file)
           || (file == Absent && outcome.Committed? && old(file) == initialFile && AllDone(earlier, through, dropped))
    {
      if outcome.Committed? {
        Acknowledge(outcome);
        phase := AfterFlush();
      } else {
        FlushFailed();
      }
    }

    function AfterFlush(): Phase
      reads this`phase
    {
      if phase == Flushing then Idle else Spilling
    }

    /**
     A flush that did not commit. The queue may come out longer than its limit: it keeps to
     the limit exactly when batch and queue together do.
     */
    method FlushFailed()
      requires Valid() && (phase == Flushing || phase == LastFlush)
      modifies this`phase, this`queue, this`batch
      ensures Valid() && batch == [] && queue == old(batch) + old(queue) && phase == old(AfterFlush())
      ensures InBound() <==> |old(batch)| + |old(queue)| <= MAX_QUEUE
    {
      PutBack();
      phase := AfterFlush();
    }

    /** Nothing is lost, doubled or reordered by requeueing, and the debts stay what they were. */
    method PutBack()
      requires Conserved(accepted, Where()) && InOrder(Where()) && OwedFirst(spilledCount, batch + queue)
      modifies this`queue, this`batch
      ensures Conserved(accepted, Where()) && InOrder(Where()) && OwedFirst(spilledCount, batch + queue)
      ensures queue == old(batch) + old(queue) && batch == []
    {
      Requeueing(accepted, Where());
      ghost var after := Where().(batch := [], queue := batch + queue);
      Requeue();
      assert Where() == after && batch + queue == old(batch + queue);
    }

    /** The batch is in the database: the debts it settles are struck off, and the file goes with the last. */
    method Acknowledge(outcome: Outcome)
      requires Conserved(accepted, Where()) && InOrder(Where()) && StoredOrSkipped(through, table, skipped)
      requires TicketsOk() && SpillOwed() && FileOk() && outcome.Committed?
      modifies this`batch, this`table, this`skipped, this`through, this`spilledCount, this`file
      ensures Conserved(accepted, Where()) && InOrder(Where()) && StoredOrSkipped(through, table, skipped)
      ensures SpillOwed() && FileOk() && batch == []
      ensures through == old(through) + old(batch)
      ensures table == old(table) + Taken(old(batch), outcome.refused)
      ensures skipped == old(skipped) + Refused(old(batch), outcome.refused)
      ensures spilledCount == Owed(old(spilledCount), |old(batch)|)
      ensures file == old(file) || (file == Absent && old(file) == initialFile && AllDone(earlier, through, dropped))
    {
      var owed := spilledCount;
      StoreBatch(outcome.refused);
      RemoveWhenSettled(owed, outcome.removeOk);
    }

    /** The file goes when the last debt has just been settled. */
    method RemoveWhenSettled(owed: nat, removeOk: bool)
      requires Conserved(accepted, Where()) && TicketsOk() && FileOk() && OwedFirst(spilledCount, batch + queue)
      requires owed > 0 ==> restored && file == initialFile && !overwritten
      modifies this`file
      ensures FileOk() && (spilledCount > 0 ==> file == old(file))
      ensures file == old(file) || (file == Absent && old(file) == initialFile && AllDone(earlier, through, dropped))
    {
      if owed > 0 && spilledCount == 0 && hasSpillPath && removeOk {
        RemoveFile();
      }
    }

    method StoreBatch(refused: set<Reading>)
      requires Conserved(accepted, Where()) && InOrder(Where()) && StoredOrSkipped(through, table, skipped)
      requires OwedFirst(spilledCount, batch + queue)
      modifies this`table, this`skipped, this`through, this`batch, this`spilledCount
      ensures Conserved(accepted, Where()) && InOrder(Where()) && StoredOrSkipped(through, table, skipped)
      ensures OwedFirst(spilledCount, batch + queue) && batch == []
      ensures old(FileOk()) ==> FileOk()
      ensures through == old(through) + old(batch)
      ensures table == old(table) + Taken(old(batch), refused)
      ensures skipped == old(skipped) + Refused(old(batch), refused)
      ensures spilledCount == Owed(old(spilledCount), |old(batch)|)
    {
      StoredOrSkippedAfterCommit(through, table, skipped, batch, refused);
      Committing(accepted, Where());
      OwedAfterCommit(spilledCount, batch, queue);
      DoneStaysDone(earlier, through, batch, dropped, []);
      assert dropped + [] == dropped;
      table := table + Taken(batch, refused);
      skipped := skipped + Refused(batch, refused);
      through := through + batch;
      if spilledCount > 0 {
        var consumed := if spilledCount < |batch| then spilledCount else |batch|;
        spilledCount := spilledCount - consumed;
      }
      batch := [];
      assert batch + queue == queue;
    }

    method RemoveFile()
      requires Conserved(accepted, Where()) && AllEarlier(earlier) && AllAccepted(earlier, accepted)
      requires spilled == [] && OwedFirst(0, batch + queue)
      modifies this`file
      ensures file == Absent && AllDone(earlier, through, dropped)
    {
      DoneOnceNothingOwed();
      file := Absent;
    }

    lemma DoneOnceNothingOwed()
      requires Conserved(accepted, Where()) && AllEarlier(earlier) && AllAccepted(earlier, accepted)
      requires spilled == [] && OwedFirst(0, batch + queue)
      ensures AllDone(earlier, through, dropped)
    {
      NothingOwed(batch + queue);
      forall r | IsSpilled(r, earlier) ensures r in through || r in dropped {
        ConservedMembers(accepted, Where(), r);
        assert r in batch + queue <==> r in batch || r in queue;
      }
    }

    /** stop(), first part: no more readings, and one last flush. */
    method StopAndTakeBatch()
      requires Valid() && phase == Idle
      modifies this`running, this`batch, this`queue, this`phase
      ensures Valid() && !running
      ensures old(queue) == [] ==> phase == Spilling && queue == []
      ensures old(queue) != [] ==> phase == LastFlush && batch == old(queue) && queue == []
    {
      running := false;
      TakeBatch();
      phase := if phase == Flushing then LastFlush else Spilling;
    }

    /** stop(), last part: what the last flush left behind replaces the spill file, all or nothing. */
    method SaveSpilledQueue(writeOk: bool)
      requires Valid() && phase == Spilling
      modifies this`phase, this`file, this`queue, this`spilled, this`overwritten, this`spilledCount
      ensures Valid() && phase == Finished
      ensures if old(queue) != [] && hasSpillPath && writeOk
              then queue == [] && Records(file) == old(queue) && overwritten && spilled == old(queue)
              else queue == old(queue) && file == old(file) && overwritten == old(overwritten)
    {
      phase := Finished;
      if queue == [] || !hasSpillPath || !writeOk { return; }
      ReplaceFile();
      assert batch + queue == [];
    }

    /** The new file is complete before the queue leaves memory. */
    method ReplaceFile()
      requires Conserved(accepted, Where()) && InOrder(Where()) && batch == [] && spilled == []
      modifies this`file, this`queue, this`spilled, this`overwritten, this`spilledCount
      ensures Conserved(accepted, Where()) && InOrder(Where())
      ensures queue == [] && spilled == old(queue) && overwritten && spilledCount == 0
      ensures file == Listing(AsItems(spilled)) && Records(file) == spilled
    {
      SpillAndLoadBack(queue);
      SpillingOut(accepted, Where());
      file := Listing(AsItems(queue));
      spilled, overwritten := queue, true;
      queue, spilledCount := [], 0;
    }

    /** stop() as a whole, when the database cannot be reached: the queue ends up in the spill file. */
    method StopWithoutDatabase()
      requires Valid() && phase == Idle && queue != [] && hasSpillPath
      modifies this`running, this`phase, this`queue, this`batch, this`table, this`skipped, this`through
      modifies this`spilledCount, this`file, this`spilled, this`overwritten
      ensures Valid() && overwritten && Records(file) == old(queue) && table == old(table) && skipped == old(skipped)
    {
      StopAndTakeBatch();
      FinishFlush(CannotOpen);
      assert queue == old(queue) by { assert old(queue) + [] == old(queue); }
      SaveSpilledQueue(true);
    }

    // ---- What a crash leaves -----------------------------------------------------------

    /** A record of the spill file is accounted for: stored, skipped as unusable, dropped, or still on disk. */
    ghost predicate Accounted(r: Reading)
      reads this
    {
      r in table || r in skipped || r in dropped || r in Records(file)
    }

    /**
     Whenever the program dies, every record the spill file held at start is accounted for,
     unless the file could not be opened then and a later spill has replaced it; those
     records, and only those, are gone.
     */
    lemma SpilledRecordsSurvive(r: Reading)
      requires Valid() && IsSpilled(r, earlier)
      ensures Accounted(r) <==> restored || !overwritten
    {
      ConservedMembers(accepted, Where(), r);
      assert TimesStored(r, table, skipped) == Times(r, through);
      TimesMember(r, through);
      TimesMember(r, table);
      TimesMember(r, skipped);
      SpillAndLoadBack(spilled);
      assert Read(initialFile);
      if !restored {
        NothingOwed(accepted);
      }
    }

    /**
     Any interleaving of the steps of both threads, from a worker just made, cut short by a
     crash wherever it may: every accepted reading is in exactly one place, commits and what
     waits for them are in order of arrival, and the records of the spill file are accounted
     for unless a spill has replaced a file that could not be opened.
     */
    method Run(steps: seq<Step>)
      requires Valid() && phase == Created && accepted == []
      modifies this
      ensures Valid()
      ensures Conserved(accepted, Where()) && InOrder(Where()) && StoredOrSkipped(through, table, skipped)
      ensures forall r :: IsSpilled(r, earlier) ==> (Accounted(r) <==> restored || !overwritten)
    {
      var clock := 0;
      for i := 0 to |steps|
        invariant Valid() && clock >= 0
        invariant forall a :: a in accepted ==> a.ticket < clock
      {
        clock := Perform(steps[i], clock);
      }
      forall r | IsSpilled(r, earlier) ensures Accounted(r) <==> restored || !overwritten {
        SpilledRecordsSurvive(r);
      }
    }

    /** Steps that can take a queue within its limit beyond it, and when they do. */
    twostate predicate Exceeds(step: Step)
      reads this
    {
      || (step.DoFinishFlush? && old(phase == Flushing || phase == LastFlush) && !step.outcome.Committed?
          && old(|batch| + |queue|) > MAX_QUEUE)
      || (step.DoLoad? && old(phase) == Loading && restored && |earlier| + old(|queue|) > MAX_QUEUE)
    }

    /** One step of a run; arrivals are numbered. */
    method Perform(step: Step, clock: int) returns (clock': int)
      requires Valid() && clock >= 0 && forall a :: a in accepted ==> a.ticket < clock
      modifies this
      ensures Valid() && clock' >= clock && forall a :: a in accepted ==> a.ticket < clock'
      ensures old(InBound()) ==> (InBound() <==> !Exceeds(step))
    {
      clock' := clock;
      match step {
        case DoStart => if phase == Created { Start(); }
        case DoLoad(canOpen) =>
          if phase == Loading {
            ghost var before := accepted;
            LoadSpilledQueue(canOpen);
            OnlyOldTickets(before, clock);
          }
        case DoEnqueue(sensorId, value) =>
          Enqueue(Reading(clock, sensorId, value));
          clock' := clock + 1;
        case DoTakeBatch => if phase == Idle { TakeBatch(); }
        case DoFinishFlush(outcome) => if phase == Flushing || phase == LastFlush { FinishFlush(outcome); }
        case DoStop => if phase == Idle { StopAndTakeBatch(); }
        case DoSave(writeOk) => if phase == Spilling { SaveSpilledQueue(writeOk); }
      }
    }

    lemma OnlyOldTickets(before: seq<Reading>, clock: int)
      requires Valid() && clock >= 0 && forall a :: a in before ==> a.ticket < clock
      requires accepted == before || accepted == earlier + before
      ensures forall a :: a in accepted ==> a.ticket < clock
    {
      forall a | a in accepted ensures a.ticket < clock {
        if a !in before {
          assert IsSpilled(a, earlier);
        }
      }
    }
  }

  /** The limit can be exceeded: a full queue is being flushed, fills up again, and the flush fails. */
  method QueueOutgrowsItsLimit(sensorId: int, value: real) returns (w: DatabaseWorker)
    ensures fresh(w) && w.Valid() && w.phase == Idle && |w.queue| == 2 * MAX_QUEUE
  {
    NoRecords();
    w := new DatabaseWorker(false, Absent);
    w.Start();
    w.LoadSpilledQueue(false);
    var clock := Fill(w, 0, sensorId, value);
    w.TakeBatch();
    clock := Fill(w, clock, sensorId, value);
    w.FinishFlush(CannotOpen);
  }

  lemma NoRecords()
    ensures AllEarlier(Records(Absent))
  {}

  /** Arrivals until an empty queue is full. */
  method Fill(w: DatabaseWorker, clock: nat, sensorId: int, value: real) returns (clock': nat)
    requires w.Valid() && w.running && w.queue == [] && forall a :: a in w.accepted ==> a.ticket < clock
    modifies w
    ensures w.Valid() && w.running && |w.queue| == MAX_QUEUE && forall a :: a in w.accepted ==> a.ticket < clock'
    ensures w.phase == old(w.phase) && w.batch == old(w.batch)
  {
    clock' := clock;
    for i := 0 to MAX_QUEUE
      invariant w.Valid() && w.running && |w.queue| == i && forall a :: a in w.accepted ==> a.ticket < clock'
      invariant w.phase == old(w.phase) && w.batch == old(w.batch)
    {
      w.Enqueue(Reading(clock', sensorId, value));
      clock' := clock' + 1;
    }
  }

  /** The exception is real: a file that cannot be opened at start is lost to the spill at stop. */
  method UnreadableFileIsLost(lost: Reading, r: Reading) returns (w: DatabaseWorker)
    requires !Arrived(lost) && Arrived(r)
    ensures fresh(w) && w.Valid() && IsSpilled(lost, w.earlier) && !w.Accounted(lost)
  {
    OneEarlierRecord(lost);
    w := new DatabaseWorker(true, Listing([Record(lost)]));
    w.Start();
    w.LoadSpilledQueue(false);
    w.Enqueue(r);
    w.StopWithoutDatabase();
    w.SpilledRecordsSurvive(lost);
  }

  lemma OneEarlierRecord(lost: Reading)
    requires !Arrived(lost)
    ensures AllEarlier(Records(Listing([Record(lost)]))) && IsSpilled(lost, Records(Listing([Record(lost)])))
  {
    assert RecordsOf([Record(lost)]) == [lost];
  }
}

/**
 The output coils of the serial worker (src/network/modbus/ModbusWorker.cpp): which coil
 every linked digital output wants, which writes are outstanding, and what the cache of
 confirmed coil states is worth.
 */
module CoilPlan {
  import opened AlarmTrigger
  import SetFacts

  datatype SensorKind = Analog | StandaloneDi | StandaloneDo

  datatype Coil = Coil(slaveId: int, address: int)

  datatype Sensor = Sensor(id: int, kind: SensorKind, coil: Coil, thresholds: Thresholds)

  datatype IoType = DI | DO | OtherIo

  /** A digital sensor linked to an analog one. */
  datatype Channel = Channel(id: int, io: IoType, active: bool, coil: Coil, onMax: bool, onMin: bool)

  /** The channels of one analog sensor; the rows stand in the order the hash is walked. */
  datatype LinkRow = LinkRow(analogId: int, channels: seq<Channel>)

  datatype Settings = Settings(sensors: seq<Sensor>, links: seq<LinkRow>, hysteresis: real, failSafe: bool)

  datatype DoWrite = DoWrite(doId: int, coil: Coil, want: bool)

  type Alarms = map<int, AlarmState>
  type Cache = map<int, bool>

  // ---- Links -------------------------------------------------------------------

  datatype Wire = Wire(analogId: int, ch: Channel)

  ghost function RowWires(row: LinkRow, n: nat): (r: seq<Wire>)
    requires n <= |row.channels|
    ensures |r| == n && forall i :: 0 <= i < n ==> r[i] == Wire(row.analogId, row.channels[i])
  {
    seq(n, i requires 0 <= i < n => Wire(row.analogId, row.channels[i]))
  }

  ghost function Wires(links: seq<LinkRow>): seq<Wire> {
    if links == [] then []
    else Wires(links[..|links| - 1]) + RowWires(links[|links| - 1], |links[|links| - 1].channels|)
  }

  ghost predicate Linked(s: Settings, w: Wire) { w in Wires(s.links) }

  ghost predicate IsLinkedDo(s: Settings, id: int) {
    exists w :: Linked(s, w) && w.ch.io.DO? && w.ch.id == id
  }

  ghost predicate NoOutputs(s: Settings) { forall id :: !IsLinkedDo(s, id) }

  ghost predicate IsActiveDo(s: Settings, id: int) {
    exists w :: Linked(s, w) && w.ch.io.DO? && w.ch.active && w.ch.id == id
  }

  ghost function LinkedIds(s: Settings): (r: set<int>)
    ensures forall w :: Linked(s, w) && w.ch.io.DO? ==> w.ch.id in r
  {
    set w | w in Wires(s.links) && w.ch.io.DO? :: w.ch.id
  }

  ghost function CoilOf(s: Settings, id: int): Coil
    requires IsLinkedDo(s, id)
  {
    LinkOf(s, id).ch.coil
  }

  ghost function LinkOf(s: Settings, id: int): Wire
    requires IsLinkedDo(s, id)
  {
    var w :| Linked(s, w) && w.ch.io.DO? && w.ch.id == id;
    w
  }

  lemma LinkOfIsLinked(s: Settings, id: int)
    requires IsLinkedDo(s, id)
    ensures var w := LinkOf(s, id); Linked(s, w) && w.ch.io.DO? && w.ch.id == id
  {}

  ghost predicate SameOutput(v: Wire, w: Wire) { v.ch.id == w.ch.id }

  /**
   The address plan the coil cache relies on: one coil for each linked output, one linked
   output for each coil, and no linked output polled as a sensor of its own.
   */
  ghost predicate Distinct(s: Settings) {
    && Unpolled(s)
    && (forall v, w {:trigger SameOutput(v, w)} :: Linked(s, v) && Linked(s, w) && v.ch.io.DO? && w.ch.io.DO? ==>
          (SameOutput(v, w) <==> v.ch.coil == w.ch.coil))
  }

  ghost predicate Unpolled(s: Settings) { forall i :: 0 <= i < |s.sensors| ==> !IsLinkedDo(s, s.sensors[i].id) }

  /** The sensor a manual write under its number is for. */
  predicate FirstWithId(sensors: seq<Sensor>, id: int, i: int) {
    0 <= i < |sensors| && sensors[i].id == id && forall j :: 0 <= j < i ==> sensors[j].id != id
  }

  /** A manual write under this number drives this coil. */
  ghost predicate Drives(s: Settings, id: int, coil: Coil) {
    exists i :: FirstWithId(s.sensors, id, i) && s.sensors[i].coil == coil
  }

  /** A manual write under some polled sensor's number drives the coil. */
  ghost predicate Reached(s: Settings, coil: Coil) { exists id :: Drives(s, id, coil) }

  /** No manual write drives the coil of a linked output. */
  ghost predicate Unreached(s: Settings) {
    forall id :: IsLinkedDo(s, id) ==> !Reached(s, CoilOf(s, id))
  }

  // ---- What the alarms ask for ---------------------------------------------------

  predicate Fires(alarms: Alarms, analogId: int, ch: Channel) {
    && analogId in alarms
    && alarms[analogId].isAlarm
    && ((ch.onMax && Contains(alarms[analogId].kind, "max")) || (ch.onMin && Contains(alarms[analogId].kind, "min")))
  }

  /** On exactly when some active link of the output fires. */
  ghost predicate Desired(s: Settings, alarms: Alarms, id: int) {
    exists w :: Linked(s, w) && w.ch.io.DO? && w.ch.active && w.ch.id == id && Fires(alarms, w.analogId, w.ch)
  }

  ghost predicate Settled(s: Settings, alarms: Alarms, cache: Cache, id: int) {
    id in cache && cache[id] == Desired(s, alarms, id)
  }

  ghost predicate Targets(writes: seq<DoWrite>, id: int) {
    exists j :: 0 <= j < |writes| && writes[j].doId == id
  }

  ghost predicate TargetsFrom(writes: seq<DoWrite>, k: nat, id: int) {
    exists j :: k <= j < |writes| && writes[j].doId == id
  }

  ghost predicate AllOff(writes: seq<DoWrite>) { forall j :: 0 <= j < |writes| ==> !writes[j].want }

  /** Some link has the output at this coil. */
  ghost predicate IsWired(s: Settings, id: int, coil: Coil) {
    exists w :: Linked(s, w) && w.ch.io.DO? && w.ch.id == id && w.ch.coil == coil
  }

  /** Writes to linked outputs only, at most one each, at a coil some link gives them. */
  ghost predicate LinkedWrites(s: Settings, writes: seq<DoWrite>) {
    && (forall j :: 0 <= j < |writes| ==> IsWired(s, writes[j].doId, writes[j].coil))
    && (forall i, j :: 0 <= i < j < |writes| ==> writes[i].doId != writes[j].doId)
  }

  /** With distinct coils, a write to a linked output is to its own coil. */
  lemma WiredCoil(s: Settings, id: int, coil: Coil)
    requires Distinct(s) && IsWired(s, id, coil)
    ensures IsLinkedDo(s, id) && coil == CoilOf(s, id)
  {
    var w :| Linked(s, w) && w.ch.io.DO? && w.ch.id == id && w.ch.coil == coil;
    LinkOfIsLinked(s, id);
    assert SameOutput(w, LinkOf(s, id));
  }

  /** The outstanding writes: exactly the active outputs whose cached state is missing or wrong. */
  ghost predicate IsPlan(s: Settings, alarms: Alarms, cache: Cache, writes: seq<DoWrite>) {
    && LinkedWrites(s, writes)
    && (forall id :: Targets(writes, id) <==> IsActiveDo(s, id) && !Settled(s, alarms, cache, id))
    && (forall j :: 0 <= j < |writes| ==> writes[j].want == Desired(s, alarms, writes[j].doId))
  }

  ghost predicate Over(wires: seq<Wire>, id: int, firing: bool, alarms: Alarms) {
    exists w :: w in wires && w.ch.io.DO? && w.ch.active && w.ch.id == id
                && (firing ==> Fires(alarms, w.analogId, w.ch))
  }

  ghost predicate Gathered(wires: seq<Wire>, alarms: Alarms, desired: map<int, bool>, coilAddr: map<int, Coil>) {
    && (forall id :: id in desired <==> Over(wires, id, false, alarms))
    && (forall id :: id in desired ==> (desired[id] <==> Over(wires, id, true, alarms)))
    && coilAddr.Keys == desired.Keys
    && (forall id :: id in coilAddr ==>
          exists w :: w in wires && w.ch.io.DO? && w.ch.id == id && w.ch.coil == coilAddr[id])
  }

  /** What the walk has gathered after some wires. */
  ghost function Gather(wires: seq<Wire>, alarms: Alarms): (map<int, bool>, map<int, Coil>) {
    if wires == [] then (map[], map[])
    else
      var (desired, coilAddr) := Gather(wires[..|wires| - 1], alarms);
      var w := wires[|wires| - 1];
      if w.ch.io.DO? && w.ch.active then
        (desired[w.ch.id := (w.ch.id in desired && desired[w.ch.id]) || Fires(alarms, w.analogId, w.ch)],
         coilAddr[w.ch.id := w.ch.coil])
      else (desired, coilAddr)
  }

  lemma {:induction false} GatherIsGathered(wires: seq<Wire>, alarms: Alarms)
    ensures Gathered(wires, alarms, Gather(wires, alarms).0, Gather(wires, alarms).1)
  {
    if wires == [] {
    } else {
      var before, w := wires[..|wires| - 1], wires[|wires| - 1];
      GatherIsGathered(before, alarms);
      assert wires == before + [w];
      GatherOne(before, w, alarms, Gather(before, alarms).0, Gather(before, alarms).1,
                Gather(wires, alarms).0, Gather(wires, alarms).1);
    }
  }

  lemma GatherOne(wires: seq<Wire>, w: Wire, alarms: Alarms,
                  desired: map<int, bool>, coilAddr: map<int, Coil>,
                  desired': map<int, bool>, coilAddr': map<int, Coil>)
    requires Gathered(wires, alarms, desired, coilAddr)
    requires if w.ch.io.DO? && w.ch.active
             then
               && desired' == desired[w.ch.id :=
                    (w.ch.id in desired && desired[w.ch.id]) || Fires(alarms, w.analogId, w.ch)]
               && coilAddr' == coilAddr[w.ch.id := w.ch.coil]
             else desired' == desired && coilAddr' == coilAddr
    ensures Gathered(wires + [w], alarms, desired', coilAddr')
  {
    var all := wires + [w];
    forall id, firing: bool
      ensures Over(all, id, firing, alarms) <==>
              Over(wires, id, firing, alarms)
              || (w.ch.io.DO? && w.ch.active && w.ch.id == id && (firing ==> Fires(alarms, w.analogId, w.ch)))
    {
      assert w in all && forall v :: v in wires ==> v in all;
    }
    forall id | id in coilAddr'
      ensures exists v :: v in all && v.ch.io.DO? && v.ch.id == id && v.ch.coil == coilAddr'[id]
    {
      if w.ch.io.DO? && w.ch.active && id == w.ch.id {
        assert w in all;
      } else {
        var v :| v in wires && v.ch.io.DO? && v.ch.id == id && v.ch.coil == coilAddr[id];
        assert v in all;
      }
    }
  }

  /** The wires met when the nested walk stands before channel c of row r. */
  ghost function Met(links: seq<LinkRow>, r: nat, c: nat): seq<Wire>
    requires r < |links| && c <= |links[r].channels|
  {
    Wires(links[..r]) + RowWires(links[r], c)
  }

  lemma MetStart(links: seq<LinkRow>, r: nat)
    requires r < |links|
    ensures Met(links, r, 0) == Wires(links[..r])
  {
    assert RowWires(links[r], 0) == [];
  }

  lemma MetNext(links: seq<LinkRow>, r: nat, c: nat)
    requires r < |links| && c < |links[r].channels|
    ensures Met(links, r, c + 1) == Met(links, r, c) + [Wire(links[r].analogId, links[r].channels[c])]
  {
    var row := links[r];
    assert RowWires(row, c + 1) == RowWires(row, c) + [Wire(row.analogId, row.channels[c])];
  }

  lemma MetEnd(links: seq<LinkRow>, r: nat)
    requires r < |links|
    ensures Met(links, r, |links[r].channels|) == Wires(links[..r + 1])
  {
    assert links[..r + 1][..r] == links[..r];
  }

  /** The gathering half of buildDoWrites: what every active linked output should be, and where. */
  method GatherDesired(s: Settings, alarms: Alarms) returns (desired: map<int, bool>, coilAddr: map<int, Coil>)
    ensures (desired, coilAddr) == Gather(Wires(s.links), alarms)
  {
    desired, coilAddr := map[], map[];
    for r := 0 to |s.links|
      invariant (desired, coilAddr) == Gather(Wires(s.links[..r]), alarms)
    {
      var row := s.links[r];
      MetStart(s.links, r);
      for c := 0 to |row.channels|
        invariant (desired, coilAddr) == Gather(Met(s.links, r, c), alarms)
      {
        var ch := row.channels[c];
        MetNext(s.links, r, c);
        assert Met(s.links, r, c + 1)[..|Met(s.links, r, c)|] == Met(s.links, r, c);
        if ch.io.DO? && ch.active {
          coilAddr := coilAddr[ch.id := ch.coil];
          var on := Fires(alarms, row.analogId, ch);
          desired := desired[ch.id := (ch.id in desired && desired[ch.id]) || on];
        }
      }
      MetEnd(s.links, r);
    }
    assert s.links[..|s.links|] == s.links;
  }

  /** buildDoWrites: gather, then skip the outputs already known to be as desired. */
  method BuildDoWrites(s: Settings, alarms: Alarms, cache: Cache) returns (out: seq<DoWrite>)
    ensures IsPlan(s, alarms, cache, out)
  {
    var desired, coilAddr := GatherDesired(s, alarms);
    GatherIsGathered(Wires(s.links), alarms);
    out := SelectWrites(desired, coilAddr, cache);
    SelectionIsPlan(s, alarms, desired, coilAddr, cache, out);
  }

  lemma SelectionIsPlan(s: Settings, alarms: Alarms, desired: map<int, bool>, coilAddr: map<int, Coil>,
                        cache: Cache, writes: seq<DoWrite>)
    requires Gathered(Wires(s.links), alarms, desired, coilAddr) && Selection(writes, desired, coilAddr, cache)
    ensures IsPlan(s, alarms, cache, writes)
  {
    GatheredIsDesired(s, alarms, desired, coilAddr);
  }

  predicate Known(cache: Cache, id: int, state: bool) { id in cache && cache[id] == state }

  /** Of these outputs, those not known to be as desired have their one write. */
  ghost predicate Selected(writes: seq<DoWrite>, ids: seq<int>, desired: map<int, bool>, coilAddr: map<int, Coil>,
                           cache: Cache) {
    && (forall j :: 0 <= j < |writes| ==>
          && writes[j].doId in ids && writes[j].doId in desired && writes[j].doId in coilAddr
          && writes[j] == DoWrite(writes[j].doId, coilAddr[writes[j].doId], desired[writes[j].doId]))
    && (forall i, j :: 0 <= i < j < |writes| ==> writes[i].doId != writes[j].doId)
    && (forall id :: Targets(writes, id) <==> id in ids && id in desired && !Known(cache, id, desired[id]))
  }

  lemma SelectedNext(writes: seq<DoWrite>, ids: seq<int>, id: int,
                     desired: map<int, bool>, coilAddr: map<int, Coil>, cache: Cache)
    requires Selected(writes, ids, desired, coilAddr, cache) && id !in ids && id in desired && id in coilAddr
    ensures Selected(if Known(cache, id, desired[id]) then writes
                     else writes + [DoWrite(id, coilAddr[id], desired[id])],
                     ids + [id], desired, coilAddr, cache)
  {
    TargetsAppend(writes, DoWrite(id, coilAddr[id], desired[id]));
  }

  /** Every output not known to be as desired has one write, to its coil and with its state. */
  ghost predicate Selection(writes: seq<DoWrite>, desired: map<int, bool>, coilAddr: map<int, Coil>, cache: Cache) {
    && (forall j :: 0 <= j < |writes| ==>
          && writes[j].doId in desired && writes[j].doId in coilAddr
          && writes[j] == DoWrite(writes[j].doId, coilAddr[writes[j].doId], desired[writes[j].doId]))
    && (forall i, j :: 0 <= i < j < |writes| ==> writes[i].doId != writes[j].doId)
    && (forall id :: Targets(writes, id) <==> id in desired && !Known(cache, id, desired[id]))
  }

  lemma SelectedAll(writes: seq<DoWrite>, ids: seq<int>,
                    desired: map<int, bool>, coilAddr: map<int, Coil>, cache: Cache)
    requires Selected(writes, ids, desired, coilAddr, cache) && forall id :: id in desired ==> id in ids
    ensures Selection(writes, desired, coilAddr, cache)
  {}

  method SelectWrites(desired: map<int, bool>, coilAddr: map<int, Coil>, cache: Cache) returns (out: seq<DoWrite>)
    requires coilAddr.Keys == desired.Keys
    ensures Selection(out, desired, coilAddr, cache)
  {
    var order := SetFacts.HashOrder(desired.Keys);
    out := [];
    for i := 0 to |order|
      invariant Selected(out, order[..i], desired, coilAddr, cache)
    {
      var id := order[i];
      assert id !in order[..i] && order[..i + 1] == order[..i] + [id];
      assert id in coilAddr.Keys;
      SelectedNext(out, order[..i], id, desired, coilAddr, cache);
      if !Known(cache, id, desired[id]) {
        out := out + [DoWrite(id, coilAddr[id], desired[id])];
      }
    }
    assert order[..|order|] == order;
    SelectedAll(out, order, desired, coilAddr, cache);
  }

  lemma TargetsAppend(writes: seq<DoWrite>, w: DoWrite)
    ensures forall id :: Targets(writes + [w], id) <==> Targets(writes, id) || id == w.doId
  {
    forall id ensures Targets(writes + [w], id) <==> Targets(writes, id) || id == w.doId {
      assert (writes + [w])[|writes|] == w;
      assert forall j :: 0 <= j < |writes| ==> (writes + [w])[j] == writes[j];
    }
  }

  lemma GatheredIsDesired(s: Settings, alarms: Alarms, desired: map<int, bool>, coilAddr: map<int, Coil>)
    requires Gathered(Wires(s.links), alarms, desired, coilAddr)
    ensures forall id :: id in desired <==> IsActiveDo(s, id)
    ensures forall id :: id in desired ==> desired[id] == Desired(s, alarms, id) && IsWired(s, id, coilAddr[id])
  {
    forall id
      ensures id in desired <==> IsActiveDo(s, id)
      ensures id in desired ==> desired[id] == Desired(s, alarms, id) && IsWired(s, id, coilAddr[id])
    {
      if id in desired {
        var w :| w in Wires(s.links) && w.ch.io.DO? && w.ch.id == id && w.ch.coil == coilAddr[id];
        assert Linked(s, w);
      }
      assert Over(Wires(s.links), id, false, alarms) <==> IsActiveDo(s, id);
      assert Over(Wires(s.links), id, true, alarms) <==> Desired(s, alarms, id);
    }
  }

  // ---- The cache against the device ----------------------------------------------

  /** What is known of one output: its cache entry, unless foreign, equals its coil. */
  ghost predicate AgreesOn(s: Settings, cache: Cache, lit: set<Coil>, foreign: set<Coil>, id: int)
    requires IsLinkedDo(s, id)
  {
    id in cache && CoilOf(s, id) !in foreign ==> (cache[id] <==> CoilOf(s, id) in lit)
  }

  ghost predicate Agrees(s: Settings, cache: Cache, lit: set<Coil>, foreign: set<Coil>) {
    forall id :: IsLinkedDo(s, id) ==> AgreesOn(s, cache, lit, foreign, id)
  }

  /** The device after a coil write took effect. */
  function Driven(lit: set<Coil>, coil: Coil, want: bool): set<Coil> {
    if want then lit + {coil} else lit - {coil}
  }

  /** A confirmed write makes its own entry true and cannot spoil another output's. */
  lemma ConfirmedWriteAgrees(s: Settings, cache: Cache, lit: set<Coil>, foreign: set<Coil>, w: DoWrite)
    requires Distinct(s) && IsLinkedDo(s, w.doId) && w.coil == CoilOf(s, w.doId)
    ensures forall id :: IsLinkedDo(s, id) && (id == w.doId || AgreesOn(s, cache, lit, foreign, id)) ==>
              AgreesOn(s, cache[w.doId := w.want], Driven(lit, w.coil, w.want), foreign - {w.coil}, id)
  {
    forall id | IsLinkedDo(s, id) && id != w.doId
      ensures CoilOf(s, id) != w.coil
    {
      OtherCoil(s, id, w.doId);
    }
  }

  /** A reset under way: outputs it has not dealt with yet, from write k on, need not agree. */
  ghost predicate AgreesExcept(s: Settings, cache: Cache, lit: set<Coil>, foreign: set<Coil>, writes: seq<DoWrite>,
                               k: nat) {
    forall id :: IsLinkedDo(s, id) && !TargetsFrom(writes, k, id) ==> AgreesOn(s, cache, lit, foreign, id)
  }

  lemma ResetStarts(s: Settings, cache: Cache, lit: set<Coil>, foreign: set<Coil>, writes: seq<DoWrite>)
    requires forall id :: IsLinkedDo(s, id) ==> Targets(writes, id)
    ensures AgreesExcept(s, cache, lit, foreign, writes, 0)
  {
    assert forall id :: Targets(writes, id) ==> TargetsFrom(writes, 0, id);
  }

  lemma ResetConfirms(s: Settings, cache: Cache, lit: set<Coil>, foreign: set<Coil>, writes: seq<DoWrite>, k: nat)
    requires Distinct(s) && LinkedWrites(s, writes) && k < |writes|
    requires AgreesExcept(s, cache, lit, foreign, writes, k)
    ensures AgreesExcept(s, cache[writes[k].doId := writes[k].want], Driven(lit, writes[k].coil, writes[k].want),
                         foreign - {writes[k].coil}, writes, k + 1)
  {
    WiredCoil(s, writes[k].doId, writes[k].coil);
    ConfirmedWriteAgrees(s, cache, lit, foreign, writes[k]);
    assert forall id :: TargetsFrom(writes, k, id) ==> TargetsFrom(writes, k + 1, id) || id == writes[k].doId;
  }

  lemma ResetForgets(s: Settings, cache: Cache, lit: set<Coil>, foreign: set<Coil>, writes: seq<DoWrite>, k: nat)
    requires k < |writes|
    requires AgreesExcept(s, cache, lit, foreign, writes, k)
    ensures AgreesExcept(s, cache - {writes[k].doId}, lit, foreign, writes, k + 1)
  {
    assert forall id :: TargetsFrom(writes, k, id) ==> TargetsFrom(writes, k + 1, id) || id == writes[k].doId;
  }

  lemma ResetEnds(s: Settings, cache: Cache, lit: set<Coil>, foreign: set<Coil>, writes: seq<DoWrite>)
    requires AgreesExcept(s, cache, lit, foreign, writes, |writes|)
    ensures Agrees(s, cache, lit, foreign)
  {
    assert forall id :: !TargetsFrom(writes, |writes|, id);
  }

  // ---- A chain in which every write is confirmed ---------------------------------

  /** The chain has confirmed the first k writes of a plan. */
  ghost predicate ChainClean(s: Settings, alarms: Alarms, cache: Cache, writes: seq<DoWrite>, k: nat)
    requires k <= |writes|
  {
    && LinkedWrites(s, writes)
    && (forall j :: k <= j < |writes| ==> writes[j].want == Desired(s, alarms, writes[j].doId))
    && (forall id :: IsActiveDo(s, id) && !TargetsFrom(writes, k, id) ==> Settled(s, alarms, cache, id))
  }

  lemma PlanStartsClean(s: Settings, alarms: Alarms, cache: Cache, writes: seq<DoWrite>)
    requires IsPlan(s, alarms, cache, writes)
    ensures ChainClean(s, alarms, cache, writes, 0)
  {
    assert forall id :: Targets(writes, id) ==> TargetsFrom(writes, 0, id);
  }

  lemma ConfirmKeepsClean(s: Settings, alarms: Alarms, cache: Cache, writes: seq<DoWrite>, k: nat)
    requires k < |writes| && ChainClean(s, alarms, cache, writes, k)
    ensures ChainClean(s, alarms, cache[writes[k].doId := writes[k].want], writes, k + 1)
  {
    forall id | IsActiveDo(s, id) && !TargetsFrom(writes, k + 1, id)
      ensures Settled(s, alarms, cache[writes[k].doId := writes[k].want], id)
    {
      if id != writes[k].doId {
        assert !TargetsFrom(writes, k, id);
      }
    }
  }

  lemma CleanEndIsSettled(s: Settings, alarms: Alarms, cache: Cache, writes: seq<DoWrite>)
    requires ChainClean(s, alarms, cache, writes, |writes|)
    ensures AllSettled(s, alarms, cache)
  {
    assert forall id :: !TargetsFrom(writes, |writes|, id);
  }

  ghost predicate AllSettled(s: Settings, alarms: Alarms, cache: Cache) {
    forall id :: IsActiveDo(s, id) ==> Settled(s, alarms, cache, id)
  }

  lemma OtherStateStaysSettled(s: Settings, alarms: Alarms, cache: Cache, id: int, bit: bool)
    requires !IsLinkedDo(s, id)
    ensures AllSettled(s, alarms, cache) ==> AllSettled(s, alarms, cache[id := bit])
  {}

  function CacheAfter(cache: Cache, writes: seq<DoWrite>, k: nat): Cache
    requires k <= |writes|
  {
    if k == 0 then cache else CacheAfter(cache, writes, k - 1)[writes[k - 1].doId := writes[k - 1].want]
  }

  function CoilsAfter(lit: set<Coil>, writes: seq<DoWrite>, k: nat): set<Coil>
    requires k <= |writes|
  {
    if k == 0 then lit else Driven(CoilsAfter(lit, writes, k - 1), writes[k - 1].coil, writes[k - 1].want)
  }

  lemma {:induction false} ConfirmedPrefixIsClean(s: Settings, alarms: Alarms, cache: Cache, writes: seq<DoWrite>,
                                                  k: nat)
    requires IsPlan(s, alarms, cache, writes) && k <= |writes|
    ensures ChainClean(s, alarms, CacheAfter(cache, writes, k), writes, k)
  {
    if k == 0 {
      PlanStartsClean(s, alarms, cache, writes);
    } else {
      ConfirmedPrefixIsClean(s, alarms, cache, writes, k - 1);
      ConfirmKeepsClean(s, alarms, CacheAfter(cache, writes, k - 1), writes, k - 1);
    }
  }

  lemma {:induction false} ConfirmedPrefixAgrees(s: Settings, cache: Cache, lit: set<Coil>, writes: seq<DoWrite>,
                                                 k: nat)
    requires Distinct(s) && LinkedWrites(s, writes) && k <= |writes|
    requires Agrees(s, cache, lit, {})
    ensures Agrees(s, CacheAfter(cache, writes, k), CoilsAfter(lit, writes, k), {})
  {
    if k > 0 {
      ConfirmedPrefixAgrees(s, cache, lit, writes, k - 1);
      WiredCoil(s, writes[k - 1].doId, writes[k - 1].coil);
      ConfirmedWriteAgrees(s, CacheAfter(cache, writes, k - 1), CoilsAfter(lit, writes, k - 1), {}, writes[k - 1]);
      assert {} - {writes[k - 1].coil} == {};
    }
  }

  /**
   Convergence: when every write of a plan is confirmed, every active linked output is on
   exactly when some linked analog's alarm triggers it, in the cache and on the device, and
   whatever buildDoWrites returns next is empty.
   */
  lemma ConfirmedChainConverges(s: Settings, alarms: Alarms, cache: Cache, lit: set<Coil>, writes: seq<DoWrite>,
                                next: seq<DoWrite>)
    requires Distinct(s) && Agrees(s, cache, lit, {})
    requires IsPlan(s, alarms, cache, writes)
    requires IsPlan(s, alarms, CacheAfter(cache, writes, |writes|), next)
    ensures next == []
    ensures forall id :: IsActiveDo(s, id) ==>
              && IsLinkedDo(s, id)
              && (CoilOf(s, id) in CoilsAfter(lit, writes, |writes|) <==> Desired(s, alarms, id))
  {
    ConfirmedPrefixIsClean(s, alarms, cache, writes, |writes|);
    ConfirmedPrefixAgrees(s, cache, lit, writes, |writes|);
    var cache' := CacheAfter(cache, writes, |writes|);
    CleanEndIsSettled(s, alarms, cache', writes);
    if next != [] {
      assert Targets(next, next[0].doId);
    }
    forall id | IsActiveDo(s, id)
      ensures IsLinkedDo(s, id)
      ensures CoilOf(s, id) in CoilsAfter(lit, writes, |writes|) <==> Desired(s, alarms, id)
    {
      var w :| Linked(s, w) && w.ch.io.DO? && w.ch.active && w.ch.id == id;
      assert AgreesOn(s, cache', CoilsAfter(lit, writes, |writes|), {}, id);
    }
  }

  /** A reset whose writes are all confirmed leaves every linked output known to be off. */
  lemma {:induction false} ConfirmedResetTurnsOff(s: Settings, cache: Cache, lit: set<Coil>, writes: seq<DoWrite>,
                                                  k: nat)
    requires Distinct(s) && LinkedWrites(s, writes) && AllOff(writes) && k <= |writes|
    ensures forall id :: IsLinkedDo(s, id) && Targets(writes[..k], id) ==>
              && id in CacheAfter(cache, writes, k) && !CacheAfter(cache, writes, k)[id]
              && CoilOf(s, id) !in CoilsAfter(lit, writes, k)
  {
    if k > 0 {
      ConfirmedResetTurnsOff(s, cache, lit, writes, k - 1);
      WiredCoil(s, writes[k - 1].doId, writes[k - 1].coil);
      assert writes[..k] == writes[..k - 1] + [writes[k - 1]];
      TargetsAppend(writes[..k - 1], writes[k - 1]);
    }
  }

  /** After these writes, all confirmed, the cache has the output and not as its coil is. */
  ghost predicate IsWrong(cache: Cache, lit: set<Coil>, writes: seq<DoWrite>, id: int, coil: Coil) {
    var cache', lit' := CacheAfter(cache, writes, |writes|), CoilsAfter(lit, writes, |writes|);
    id in cache' && cache'[id] != (coil in lit')
  }

  /**
   Why distinct coils are needed: of two active outputs that share a coil, one to be on and
   one off, whatever was cached of them, the cache is wrong about one once the plan of the
   code has been confirmed throughout.
   */
  lemma SharedCoilDefeatsTheCache(s: Settings, alarms: Alarms, cache: Cache, lit: set<Coil>, writes: seq<DoWrite>,
                                  a: int, b: int, coil: Coil)
    requires IsPlan(s, alarms, cache, writes) && IsActiveDo(s, a) && IsActiveDo(s, b)
    requires Desired(s, alarms, a) && !Desired(s, alarms, b)
    requires forall w :: Linked(s, w) && w.ch.io.DO? && w.ch.id in {a, b} ==> w.ch.coil == coil
    ensures forall j :: 0 <= j < |writes| && writes[j].doId in {a, b} ==> writes[j].coil == coil
    ensures IsWrong(cache, lit, writes, a, coil) || IsWrong(cache, lit, writes, b, coil)
  {
    ConfirmedPrefixIsClean(s, alarms, cache, writes, |writes|);
    CleanEndIsSettled(s, alarms, CacheAfter(cache, writes, |writes|), writes);
    assert Settled(s, alarms, CacheAfter(cache, writes, |writes|), a);
    assert Settled(s, alarms, CacheAfter(cache, writes, |writes|), b);
  }

  /** Two outputs on one coil, one to be on above the maximum and one below the minimum. */
  const TWO_ON_ONE := Settings([Sensor(1, Analog, Coil(1, 0), Thresholds(true, 10.0, true, 50.0))],
                               [LinkRow(1, [Channel(2, DO, true, Coil(1, 5), true, false),
                                            Channel(3, DO, true, Coil(1, 5), false, true)])], 0.0, false)

  const ABOVE: Alarms := map[1 := AlarmState(true, "max")]

  lemma TwoOnOneDiffer()
    ensures IsActiveDo(TWO_ON_ONE, 2) && IsActiveDo(TWO_ON_ONE, 3)
    ensures Desired(TWO_ON_ONE, ABOVE, 2) && !Desired(TWO_ON_ONE, ABOVE, 3)
    ensures forall w :: Linked(TWO_ON_ONE, w) ==> w.ch.coil == Coil(1, 5)
  {
    var above, below := Wire(1, TWO_ON_ONE.links[0].channels[0]), Wire(1, TWO_ON_ONE.links[0].channels[1]);
    assert TWO_ON_ONE.links[..0] == [];
    assert Wires(TWO_ON_ONE.links) == [above, below];
    ContainsFacts();
    assert Linked(TWO_ON_ONE, above) && Linked(TWO_ON_ONE, below);
    assert Fires(ABOVE, 1, above.ch) && !Fires(ABOVE, 1, below.ch);
  }

  /** Such settings are not refused: an alarm at the maximum, every write confirmed, and the cache is wrong. */
  method SharedCoil(lit: set<Coil>) returns (writes: seq<DoWrite>)
    ensures IsPlan(TWO_ON_ONE, ABOVE, map[], writes)
    ensures exists id :: IsActiveDo(TWO_ON_ONE, id) && IsWrong(map[], lit, writes, id, Coil(1, 5))
  {
    TwoOnOneDiffer();
    writes := BuildDoWrites(TWO_ON_ONE, ABOVE, map[]);
    SharedCoilDefeatsTheCache(TWO_ON_ONE, ABOVE, map[], lit, writes, 2, 3, Coil(1, 5));
  }

  /** The writes of a fail-safe reset: every linked output once, off. */
  ghost predicate IsReset(s: Settings, writes: seq<DoWrite>) {
    LinkedWrites(s, writes) && AllOff(writes) && forall id :: Targets(writes, id) <==> IsLinkedDo(s, id)
  }

  lemma NothingToReset(s: Settings, writes: seq<DoWrite>)
    requires IsReset(s, writes)
    ensures NoOutputs(s) <==> writes == []
  {
    if writes != [] {
      assert Targets(writes, writes[0].doId);
    }
  }

  /** The coil writes of the fail-safe reset: every linked output once, active or not, off. */
  method BuildResetWrites(s: Settings) returns (writes: seq<DoWrite>)
    ensures IsReset(s, writes)
  {
    writes := [];
    var doneIds: set<int> := {};
    for r := 0 to |s.links|
      invariant ResetSoFar(s, Wires(s.links[..r]), writes, doneIds)
    {
      var row := s.links[r];
      MetStart(s.links, r);
      for c := 0 to |row.channels|
        invariant ResetSoFar(s, Met(s.links, r, c), writes, doneIds)
      {
        var ch := row.channels[c];
        WireIsLinked(s, r, c);
        MetNext(s.links, r, c);
        if ch.io.DO? && ch.id !in doneIds {
          ResetOne(s, Met(s.links, r, c), Wire(row.analogId, ch), writes, doneIds);
          doneIds := doneIds + {ch.id};
          writes := writes + [DoWrite(ch.id, ch.coil, false)];
        }
      }
      MetEnd(s.links, r);
    }
    assert s.links[..|s.links|] == s.links;
  }

  ghost predicate ResetSoFar(s: Settings, wires: seq<Wire>, writes: seq<DoWrite>, doneIds: set<int>) {
    && LinkedWrites(s, writes)
    && AllOff(writes)
    && (forall id :: id in doneIds <==> Targets(writes, id))
    && (forall id :: id in doneIds <==> exists w :: w in wires && w.ch.io.DO? && w.ch.id == id)
  }

  lemma ResetOne(s: Settings, wires: seq<Wire>, w: Wire, writes: seq<DoWrite>, doneIds: set<int>)
    requires ResetSoFar(s, wires, writes, doneIds)
    requires Linked(s, w) && w.ch.io.DO? && w.ch.id !in doneIds
    ensures ResetSoFar(s, wires + [w], writes + [DoWrite(w.ch.id, w.ch.coil, false)], doneIds + {w.ch.id})
  {
    assert IsWired(s, w.ch.id, w.ch.coil);
    var writes' := writes + [DoWrite(w.ch.id, w.ch.coil, false)];
    assert writes'[|writes|].doId == w.ch.id;
    forall j | 0 <= j < |writes| ensures writes'[j].doId != w.ch.id {
      assert Targets(writes, writes[j].doId);
    }
    TargetsAppend(writes, DoWrite(w.ch.id, w.ch.coil, false));
  }

  lemma WireIsLinked(s: Settings, r: nat, c: nat)
    requires r < |s.links| && c < |s.links[r].channels|
    ensures Linked(s, Wire(s.links[r].analogId, s.links[r].channels[c]))
  {
    WireIsIn(s.links, r, c);
  }

  lemma {:induction false} WireIsIn(links: seq<LinkRow>, r: nat, c: nat)
    requires r < |links| && c < |links[r].channels|
    ensures Wire(links[r].analogId, links[r].channels[c]) in Wires(links)
  {
    if r < |links| - 1 {
      WireIsIn(links[..|links| - 1], r, c);
    } else {
      assert RowWires(links[r], |links[r].channels|)[c] in Wires(links);
    }
  }

  lemma OtherCoil(s: Settings, a: int, b: int)
    requires Distinct(s) && IsLinkedDo(s, a) && IsLinkedDo(s, b) && a != b
    ensures CoilOf(s, a) != CoilOf(s, b)
  {
    LinkOfIsLinked(s, a);
    LinkOfIsLinked(s, b);
    assert !SameOutput(LinkOf(s, a), LinkOf(s, b));
  }

  /** Writes to distinct linked outputs are no more than the outputs that are linked. */
  lemma WritesAreBounded(s: Settings, writes: seq<DoWrite>)
    requires LinkedWrites(s, writes)
    ensures |writes| <= |LinkedIds(s)|
  {
    var ids := seq(|writes|, j requires 0 <= j < |writes| => writes[j].doId);
    forall j | 0 <= j < |ids| ensures ids[j] in LinkedIds(s) {
      assert IsWired(s, writes[j].doId, writes[j].coil);
    }
    SetFacts.NoMoreThan(ids, LinkedIds(s));
  }
}

/**
 Writes to the configuration and the sensors, each in one transaction with its audit row and
 a step of the configuration's revision (src/core/SensorListModel.cpp,
 src/core/SettingsController.cpp, src/core/CalibrationController.cpp,
 src/network/rest/RestConfigUpdater.cpp, src/data/repositories/AppConfigDao.cpp).

 Central stations compare revisions, so a write that commits must step it and one that fails
 must leave no trace. Any statement of any write may fail.
 */
module AuditedConfig {
  import opened Prelude
  import opened Transactions

  const MAX_REVISION := 0x7fff_ffff
  const DEFAULT_REVISION := 1

  datatype Settings = Settings(stationCode: string, stationName: string, pollInterval: int, serialPort: string,
                               baudrate: int, autoAddTransmit: bool)

  /** A row of app_config; id 0 means not stored. */
  datatype Config = Config(id: nat, revision: int, token: string, settings: Settings)

  datatype Sensor = Sensor(analog: bool, name: string, symbol: string, transmit: bool, coefficient: (real, real))

  datatype Session = Session(sensorId: int, points: nat, a: real, b: real)

  /** Rows of app_config in the order a query meets them: there should be one. */
  datatype Tables = Tables(configs: seq<Config>, sensors: Sensors, sessions: seq<Session>)

  /** Sensors by id, and the highest id given out. */
  datatype Sensors = Sensors(rows: map<nat, Sensor>, lastId: nat)

  datatype Action =
    SensorAdd | SensorUpdate | SensorDelete | SensorTransmission | SettingsSave(what: string) | TokenChange |
    CalibrationApply | RemoteSave(peer: string)

  datatype Entry = Ok(action: Action, entityId: int)

  /** What the database does with one write: its transaction, its queries and its statements. */
  datatype World = World(around: Faults, selects: bool, inserts: bool, selectsAgain: bool, finds: bool,
                         saves: bool, savesSession: bool, bumps: bool, readsBack: bool)

  function Revision(configs: seq<Config>): int { if configs == [] then DEFAULT_REVISION else configs[0].revision }

  // ---- Statements on app_config ------------------------------------------------------

  function Default(id: nat): Config {
    Config(id, DEFAULT_REVISION, "", Settings("device", "", 3, "/dev/ttyUSB0", 9600, true))
  }

  /** INSERT without an id, UPDATE by id otherwise; an UPDATE that meets no row is no error. */
  function Saved(configs: seq<Config>, c: Config): seq<Config> {
    if c.id == 0 then configs + [c.(id := |configs| + 1)]
    else seq(|configs|, i requires 0 <= i < |configs| => if configs[i].id == c.id then c else configs[i])
  }

  function Bumped(configs: seq<Config>): seq<Config> {
    seq(|configs|, i requires 0 <= i < |configs| =>
      if configs[i].revision < MAX_REVISION then configs[i].(revision := configs[i].revision + 1) else configs[i])
  }

  /** The rows an UPDATE below the maximum affects. */
  function Bumpable(configs: seq<Config>): nat {
    if configs == [] then 0 else (if configs[0].revision < MAX_REVISION then 1 else 0) + Bumpable(configs[1..])
  }

  function WithToken(configs: seq<Config>, token: string): seq<Config> {
    seq(|configs|, i requires 0 <= i < |configs| => configs[i].(token := token))
  }

  lemma {:induction false} BumpableRows(configs: seq<Config>)
    ensures Bumpable(configs) <= |configs|
    ensures Bumpable(configs) > 0 ==> exists i :: 0 <= i < |configs| && configs[i].revision < MAX_REVISION
    ensures Bumpable(configs) == 0 ==> forall i :: 0 <= i < |configs| ==> configs[i].revision >= MAX_REVISION
  {
    if configs != [] {
      BumpableRows(configs[1..]);
      if Bumpable(configs[1..]) > 0 {
        var i :| 0 <= i < |configs[1..]| && configs[1..][i].revision < MAX_REVISION;
        assert configs[i + 1] == configs[1..][i];
      } else if Bumpable(configs) == 0 {
        forall i | 0 <= i < |configs| ensures configs[i].revision >= MAX_REVISION {
          if i > 0 { assert configs[i] == configs[1..][i - 1]; }
        }
      } else {
        assert configs[0].revision < MAX_REVISION;
      }
    }
  }

  /** A bump that affects one row steps the revision, unless that row is not the one that is read. */
  lemma BumpSteps(configs: seq<Config>)
    requires Bumpable(configs) == 1 && Revision(configs) <= MAX_REVISION
    ensures configs != [] && Revision(Bumped(configs)) == Min(Revision(configs) + 1, MAX_REVISION)
    ensures Revision(configs) == MAX_REVISION ==> |configs| > 1
  {
    BumpableRows(configs);
  }

  lemma SingleRow(configs: seq<Config>)
    requires |configs| == 1
    ensures Bumpable(configs) == if configs[0].revision < MAX_REVISION then 1 else 0
  {
    assert configs[1..] == [];
  }

  /** A further row puts a stop to every write that bumps, unless one of the two is worn out. */
  lemma StrayRowStopsBumps(configs: seq<Config>, k: nat)
    requires 0 < k < |configs| && configs[0].revision < MAX_REVISION && configs[k].revision < MAX_REVISION
    ensures Bumpable(configs) >= 2
  {
    BumpableRows(configs[1..]);
    assert configs[1..][k - 1] == configs[k];
  }

  // ---- Sensors -----------------------------------------------------------------------

  datatype TransmissionRow = TransmissionRow(sensorId: int, symbol: string, enabled: bool)

  datatype SensorOp =
    | Add(sensor: Sensor)
    | Update(id: int, sensor: Sensor, transmitGiven: bool)
    | Delete(id: int)
    | Transmission(rows: seq<TransmissionRow>)

  function ActionOf(op: SensorOp): Action {
    match op
    case Add(_) => SensorAdd
    case Update(_, _, _) => SensorUpdate
    case Delete(_) => SensorDelete
    case Transmission(_) => SensorTransmission
  }

  /** One row of the transmission form; ids the table does not know, and ids below 1, change nothing. */
  function SetTransmission(sensors: map<nat, Sensor>, row: TransmissionRow): map<nat, Sensor> {
    if 0 < row.sensorId && row.sensorId in sensors
    then sensors[row.sensorId := sensors[row.sensorId].(symbol := row.symbol, transmit := row.enabled)]
    else sensors
  }

  function SetTransmissions(sensors: map<nat, Sensor>, rows: seq<TransmissionRow>): map<nat, Sensor> {
    if rows == [] then sensors else SetTransmission(SetTransmissions(sensors, rows[..|rows| - 1]), rows[|rows| - 1])
  }

  /** The form rows above this one do not matter to it, and those below only where they name its sensor. */
  lemma {:induction false} LastRowWins(sensors: map<nat, Sensor>, rows: seq<TransmissionRow>, id: nat)
    requires id in sensors && id > 0
    ensures var after := SetTransmissions(sensors, rows);
            && after.Keys == sensors.Keys
            && (forall i :: 0 <= i < |rows| && rows[i].sensorId == id &&
                            (forall j :: i < j < |rows| ==> rows[j].sensorId != id) ==>
                  after[id] == sensors[id].(symbol := rows[i].symbol, transmit := rows[i].enabled))
            && ((forall i :: 0 <= i < |rows| ==> rows[i].sensorId != id) ==> after[id] == sensors[id])
            && after[id] == sensors[id].(symbol := after[id].symbol, transmit := after[id].transmit)
  {
    if rows != [] {
      var before, last := rows[..|rows| - 1], rows[|rows| - 1];
      LastRowWins(sensors, before, id);
      assert forall i :: 0 <= i < |before| ==> before[i] == rows[i];
    }
  }

  /** The sensors after an operation, or None when the operation gives up. */
  function SensorsAfter(t: Sensors, op: SensorOp, autoAdd: bool): Option<Sensors> {
    match op
    case Add(s) => Some(Sensors(t.rows[t.lastId + 1 := if s.analog && autoAdd then s.(transmit := true) else s],
                                t.lastId + 1))
    case Update(id, s, given) =>
      if 0 < id && id in t.rows
      then Some(t.(rows := t.rows[id := if given then s else s.(transmit := t.rows[id].transmit)]))
      else None
    case Delete(id) => if 0 < id && id in t.rows then Some(t.(rows := t.rows - {id})) else None
    case Transmission(rows) => Some(t.(rows := SetTransmissions(t.rows, rows)))
  }

  function EntityOf(t: Sensors, op: SensorOp): int {
    match op
    case Add(_) => t.lastId + 1
    case Update(id, _, _) => id
    case Delete(id) => id
    case Transmission(_) => 0
  }

  predicate OpWorks(t: Sensors, op: SensorOp, w: World) {
    match op
    case Add(_) => w.saves
    case Transmission(rows) => w.saves || forall i :: 0 <= i < |rows| ==> rows[i].sensorId <= 0
    case Update(id, _, _) => w.finds && w.saves && 0 < id && id in t.rows
    case Delete(id) => w.finds && w.saves && 0 < id && id in t.rows
  }

  // ---- The remote update ----------------------------------------------------------------

  /** The fields of a request; texts are trimmed, a number that is none reads as -1. */
  datatype Body = Body(pollInterval: Option<int>, baudrate: Option<int>, serialPort: Option<string>,
                       stationCode: Option<string>, stationName: Option<string>)

  datatype Status = Accepted(revision: int) | BadRequest | StorageError

  const BAUDRATES := {1200, 2400, 4800, 9600, 19200, 38400, 57600, 115200}

  predicate IsTtyName(c: char) {
    'A' <= c <= 'Z' || 'a' <= c <= 'z' || '0' <= c <= '9' || c == '_' || c == '.' || c == '-'
  }

  predicate IsTtyPath(path: string) {
    && 9 <= |path| <= 72 && path[..8] == "/dev/tty"
    && forall i :: 8 <= i < |path| ==> IsTtyName(path[i])
  }

  predicate Acceptable(b: Body) {
    && (b.pollInterval.Some? ==> 1 <= b.pollInterval.value <= 3600)
    && (b.baudrate.Some? ==> b.baudrate.value in BAUDRATES)
    && (b.serialPort.Some? ==> IsTtyPath(b.serialPort.value))
    && (b.stationCode.Some? ==> b.stationCode.value != "")
  }

  function Merged(s: Settings, b: Body): Settings {
    s.(pollInterval := Get(b.pollInterval, s.pollInterval), baudrate := Get(b.baudrate, s.baudrate),
       serialPort := Get(b.serialPort, s.serialPort), stationCode := Get(b.stationCode, s.stationCode),
       stationName := Get(b.stationName, s.stationName))
  }

  // ---- What happens to the station -----------------------------------------------------

  datatype Event =
    | WriteSensor(op: SensorOp, w: World)
    | SaveSettings(what: string, edited: Settings, before: World, w: World, after: World)
    | NewToken(token: string, w: World)
    | Calibrate(sensorId: int, a: real, b: real, points: nat, w: World)
    | Remote(body: Body, peer: string, w: World)
    | Look(w: World)

  // ---- What holds over runs ----------------------------------------------------------------

  ghost predicate Stored(configs: seq<Config>) { forall i :: 0 <= i < |configs| ==> configs[i].id > 0 }

  /**
   The revision counts the committed writes, up to the maximum, and stops counting there only
   when a stray row exists.
   */
  ghost predicate Counted(configs: seq<Config>, initial: int, commits: nat) {
    && Stored(configs)
    && 0 <= initial
    && Revision(configs) == Min(initial + commits, MAX_REVISION)
    && (|configs| <= 1 ==> initial + commits <= MAX_REVISION)
  }

  /** Loads may add a row of defaults, and nothing else. */
  ghost predicate OnlyDefaultsAdded(before: Tables, after: Tables) {
    && after == before.(configs := after.configs)
    && (after.configs == before.configs || after.configs == before.configs + [Default(|before.configs| + 1)])
  }

  /** What a load leaves in the table, and the row it returns. */
  function Loaded(configs: seq<Config>, w: World): (seq<Config>, Config) {
    if w.selects && configs != [] then (configs, configs[0])
    else
      var configs' := if w.inserts then Saved(configs, Default(0)) else configs;
      (configs', if w.selectsAgain && configs' != [] then configs'[0] else Default(0))
  }

  /** app_config as the body of a sensor write leaves it: adding an analog sensor loads the settings. */
  function ConfigsInside(configs: seq<Config>, op: SensorOp, w: World): seq<Config> {
    if op.Add? && op.sensor.analog then Loaded(configs, w).0 else configs
  }

  /** As long as the revision can be stepped there is a further row that could be as well. */
  ghost predicate Blocked(configs: seq<Config>) {
    Revision(configs) < MAX_REVISION ==> exists k :: 0 < k < |configs| && configs[k].revision < MAX_REVISION
  }

  lemma BlockedStopsBumps(configs: seq<Config>)
    requires Blocked(configs) && Revision(configs) < MAX_REVISION
    ensures Bumpable(configs) >= 2
  {
    var k :| 0 < k < |configs| && configs[k].revision < MAX_REVISION;
    StrayRowStopsBumps(configs, k);
  }

  lemma BlockedAfterLoad(configs: seq<Config>, w: World)
    requires Blocked(configs) && 0 <= Revision(configs) <= MAX_REVISION && configs != []
    ensures Blocked(Loaded(configs, w).0) && Revision(Loaded(configs, w).0) == Revision(configs)
  {
    var configs' := Loaded(configs, w).0;
    if Revision(configs') < MAX_REVISION {
      var k :| 0 < k < |configs| && configs[k].revision < MAX_REVISION;
      assert configs'[k] == configs[k];
    }
  }

  /** Rows written over with the first row's number keep the others' revisions or get the new one. */
  lemma BlockedAfterSave(configs: seq<Config>, c: Config)
    requires Blocked(configs) && configs != [] && c.id > 0 && configs[0].id == c.id && configs[0].revision < c.revision
    ensures Blocked(Saved(configs, c))
  {
    var configs' := Saved(configs, c);
    if Revision(configs') < MAX_REVISION {
      var k :| 0 < k < |configs| && configs[k].revision < MAX_REVISION;
      assert configs'[k] == configs[k] || configs'[k] == c;
    }
  }

  /** No write among these that bumps the revision. */
  ghost predicate OnlySaves(audit: seq<Entry>) {
    forall e :: e in audit ==> e.action.SettingsSave? || e.action.RemoteSave?
  }

  /** The revision never falls; and while it is blocked and below its maximum only settings are written. */
  ghost predicate Went(configs: seq<Config>, audit: seq<Entry>, configs': seq<Config>, audit': seq<Entry>) {
    && Revision(configs) <= Revision(configs')
    && (configs != [] && Blocked(configs) ==>
          && configs' != [] && Blocked(configs')
          && (Revision(configs') < MAX_REVISION && OnlySaves(audit) ==> OnlySaves(audit')))
  }

  lemma WentOn(c: seq<Config>, a: seq<Entry>, c': seq<Config>, a': seq<Entry>, c'': seq<Config>, a'': seq<Entry>)
    requires Went(c, a, c', a') && Went(c', a', c'', a'')
    ensures Went(c, a, c'', a'')
  {}

  lemma LoadsDoNotCount(before: Tables, after: Tables, initial: int, commits: nat)
    requires OnlyDefaultsAdded(before, after) && Counted(before.configs, initial, commits)
    ensures Counted(after.configs, initial, commits)
  {}

  lemma SteppedOnce(configs: seq<Config>, configs': seq<Config>, initial: int, commits: nat)
    requires Counted(configs, initial, commits) && Stored(configs') && |configs'| >= |configs|
    requires Revision(configs') == Min(Revision(configs) + 1, MAX_REVISION)
    requires Revision(configs) == MAX_REVISION ==> |configs'| > 1
    ensures Counted(configs', initial, commits + 1)
  {}

  class Station {
    const db: Connection<Tables, Entry>
    /** The settings as the screens hold them, which may lag behind the database. */
    var cfg: Config
    ghost const initialRevision: int
    ghost var commits: nat

    ghost predicate Valid()
      reads this, db
    {
      && !db.inTransaction
      && Counted(db.data.configs, initialRevision, commits)
      && |db.audit| == commits
    }

    constructor (tables: Tables)
      requires Stored(tables.configs) && 0 <= Revision(tables.configs) <= MAX_REVISION
      ensures Valid() && fresh(db) && db.data == tables && commits == 0 && initialRevision == Revision(tables.configs)
    {
      db := new Connection(tables);
      cfg := Default(0);
      initialRevision, commits := Revision(tables.configs), 0;
    }

    // ---- AppConfigDao ------------------------------------------------------------------

    /** The first row; without one, or when the query fails, defaults are inserted first. */
    method Load(w: World) returns (c: Config)
      modifies db`data
      ensures db.data == old(db.data).(configs := Loaded(old(db.data.configs), w).0)
              && c == Loaded(old(db.data.configs), w).1
      ensures OnlyDefaultsAdded(old(db.data), db.data)
    {
      if w.selects && db.data.configs != [] { return db.data.configs[0]; }
      if w.inserts { db.data := db.data.(configs := Saved(db.data.configs, Default(0))); }
      c := Default(0);
      if w.selectsAgain && db.data.configs != [] { c := db.data.configs[0]; }
    }

    /** The new revision, or -1. Even a refused bump may have changed rows, so the caller must roll back. */
    method BumpRevision(w: World) returns (revision: int)
      requires 0 <= Revision(db.data.configs) <= MAX_REVISION
      modifies db`data
      ensures db.data ==
              old(db.data).(configs := if w.bumps then Bumped(old(db.data.configs)) else old(db.data.configs))
      ensures if w.bumps && w.readsBack && Bumpable(old(db.data.configs)) == 1
              then revision == Revision(db.data.configs) == Min(Revision(old(db.data.configs)) + 1, MAX_REVISION)
              else revision == -1
    {
      if !w.bumps { return -1; }
      var affected := Bumpable(db.data.configs);
      db.data := db.data.(configs := Bumped(db.data.configs));
      if affected != 1 || !w.readsBack { return -1; }
      BumpSteps(old(db.data.configs));
      revision := db.data.configs[0].revision;
    }

    // ---- SensorListModel -----------------------------------------------------------------

    /** One pass over the transmission form; it stops at the first statement that fails. */
    method UpdateTransmissions(rows: seq<TransmissionRow>, w: World) returns (ok: bool)
      modifies db`data
      ensures ok <==> w.saves || forall i :: 0 <= i < |rows| ==> rows[i].sensorId <= 0
      ensures ok ==> db.data == old(db.data).(sensors :=
                       old(db.data.sensors).(rows := SetTransmissions(old(db.data.sensors.rows), rows)))
      ensures db.data == old(db.data).(sensors := db.data.sensors)
    {
      var i := 0;
      while i < |rows|
        invariant 0 <= i <= |rows|
        invariant w.saves || forall j :: 0 <= j < i ==> rows[j].sensorId <= 0
        invariant db.data == old(db.data).(sensors :=
                    old(db.data.sensors).(rows := SetTransmissions(old(db.data.sensors.rows), rows[..i])))
      {
        var row := rows[i];
        assert rows[..i + 1][..i] == rows[..i];
        if row.sensorId > 0 {
          if !w.saves { return false; }
          db.data := db.data.(sensors := db.data.sensors.(rows := SetTransmission(db.data.sensors.rows, row)));
        }
        i := i + 1;
      }
      assert rows[..i] == rows;
      ok := true;
    }

    /** The body of a sensor write, inside the caller's transaction. */
    method RunOp(op: SensorOp, w: World) returns (ok: bool, entityId: int)
      modifies db`data
      ensures OnlyDefaultsAdded(old(db.data), db.data.(sensors := old(db.data.sensors)))
      ensures db.data.configs ==
              if op.Add? && op.sensor.analog then Loaded(old(db.data.configs), w).0 else old(db.data.configs)
      ensures ok ==> Some(db.data.sensors) ==
                     SensorsAfter(old(db.data.sensors), op, Loaded(old(db.data.configs), w).1.settings.autoAddTransmit)
      ensures ok <==> OpWorks(old(db.data.sensors), op, w)
      ensures entityId == EntityOf(old(db.data.sensors), op) || !ok
    {
      ok, entityId := false, 0;
      match op {
        case Add(s) =>
          var s' := s;
          if s.analog {
            var c := Load(w);
            if c.settings.autoAddTransmit { s' := s'.(transmit := true); }
          }
          if !w.saves { return; }
          entityId := db.data.sensors.lastId + 1;
          db.data := db.data.(sensors := Sensors(db.data.sensors.rows[db.data.sensors.lastId + 1 := s'],
                                                 db.data.sensors.lastId + 1));
        case Update(id, s, given) =>
          if !w.finds || id <= 0 || id !in db.data.sensors.rows { return; }
          var s' := s;
          if !given { s' := s'.(transmit := db.data.sensors.rows[id].transmit); }
          if !w.saves { return; }
          entityId := id;
          db.data := db.data.(sensors := db.data.sensors.(rows := db.data.sensors.rows[id := s']));
        case Delete(id) =>
          if !w.finds || id <= 0 || id !in db.data.sensors.rows { return; }
          if !w.saves { return; }
          entityId := id;
          db.data := db.data.(sensors := db.data.sensors.(rows := db.data.sensors.rows - {id}));
        case Transmission(rows) =>
          var done := UpdateTransmissions(rows, w);
          if !done { return; }
      }
      ok := true;
    }

    /** Ends a transaction: its audit row and the commit, or the rollback. */
    method Conclude(ready: bool, e: Entry, w: World) returns (ok: bool)
      requires db.inTransaction && |db.savedAudit| == commits && Counted(db.savedData.configs, initialRevision, commits)
      requires ready ==> db.audit == db.savedAudit && Counted(db.data.configs, initialRevision, commits + 1)
      modifies db, this`commits
      ensures Valid()
      ensures ok <==> ready && w.around.appends && w.around.commits
      ensures ok ==> db.data == old(db.data) && db.audit == old(db.savedAudit) + [e] && commits == old(commits) + 1
      ensures !ok ==> db.data == old(db.savedData) && db.audit == old(db.savedAudit) && commits == old(commits)
    {
      ok := ready;
      if ok { ok := db.Append(e, w.around.appends); }
      if ok { ok := db.Commit(w.around.commits); }
      if ok { commits := commits + 1; } else { db.Rollback(); }
    }

    /**
     commitSensorWrite. A committed write has exactly the effect of its operation, one step
     of the revision and one audit row; a failed one has none.
     */
    method CommitSensorWrite(op: SensorOp, w: World) returns (ok: bool)
      requires Valid()
      modifies db, this`commits
      ensures Valid()
      ensures ok <==> && AllWork(w.around) && w.bumps && w.readsBack && OpWorks(old(db.data.sensors), op, w)
                      && Bumpable(ConfigsInside(old(db.data.configs), op, w)) == 1
      ensures ok ==> Some(db.data.sensors) ==
                     SensorsAfter(old(db.data.sensors), op, Loaded(old(db.data.configs), w).1.settings.autoAddTransmit)
      ensures ok ==> db.data.configs == Bumped(ConfigsInside(old(db.data.configs), op, w))
                     && db.data.sessions == old(db.data.sessions)
      ensures ok ==> db.audit == old(db.audit) + [Ok(ActionOf(op), EntityOf(old(db.data.sensors), op))]
                     && commits == old(commits) + 1
      ensures !ok ==> (db.data, db.audit, commits) == (old(db.data), old(db.audit), old(commits))
    {
      ok := db.Begin(w.around.begins);
      if !ok { return; }
      var entityId;
      ok, entityId := RunOp(op, w);
      ghost var inside := db.data;
      if ok {
        LoadsDoNotCount(old(db.data), old(db.data).(configs := inside.configs), initialRevision, commits);
        var revision := BumpRevision(w);
        ok := revision >= 0;
        if ok {
          BumpSteps(inside.configs);
          SteppedOnce(inside.configs, db.data.configs, initialRevision, commits);
        }
      }
      ok := Conclude(ok, Ok(ActionOf(op), entityId), w);
    }

    // ---- SettingsController -----------------------------------------------------------------

    /**
     saveConfigWithAudit: the screens' settings over the stored row, with the stored
     revision stepped rather than the screens' own, which may be old.
     */
    method SaveConfigWithAudit(what: string, w: World) returns (ok: bool)
      requires Valid()
      modifies db, this`cfg, this`commits
      ensures Valid()
      ensures var (configs, current) := Loaded(old(db.data.configs), w);
              && (ok <==> AllWork(w.around) && w.saves && current.id > 0 && current.revision < MAX_REVISION)
              && (ok ==> && cfg == old(cfg).(id := current.id, revision := current.revision + 1)
                         && db.data == old(db.data).(configs := Saved(configs, cfg))
                         && cfg.revision == Revision(db.data.configs) == Revision(old(db.data.configs)) + 1
                         && db.audit == old(db.audit) + [Ok(SettingsSave(what), current.id)]
                         && commits == old(commits) + 1)
      ensures !ok ==> (db.data, db.audit, commits) == (old(db.data), old(db.audit), old(commits))
                      && cfg == old(cfg).(id := cfg.id)
    {
      ok := db.Begin(w.around.begins);
      if !ok { return; }
      var current := Load(w);
      LoadsDoNotCount(old(db.data), db.data, initialRevision, commits);
      ghost var inside := db.data.configs;
      var previousRevision := cfg.revision;
      ok := current.id > 0 && current.revision < MAX_REVISION;
      if ok {
        cfg := cfg.(id := current.id, revision := current.revision + 1);
        ok := w.saves;
        if ok {
          db.data := db.data.(configs := Saved(db.data.configs, cfg));
          SteppedOnce(inside, db.data.configs, initialRevision, commits);
        }
      }
      ok := Conclude(ok, Ok(SettingsSave(what), cfg.id), w);
      if !ok { cfg := cfg.(revision := previousRevision); }
    }

    /** A new token, in one transaction; token is what the generator yields. */
    method RegenerateRestToken(token: string, w: World) returns (ok: bool)
      requires Valid() && token != ""
      modifies db, this`cfg, this`commits
      ensures Valid()
      ensures ok <==> AllWork(w.around) && w.saves && |old(db.data.configs)| == 1 && w.bumps && w.readsBack
                      && Bumpable(old(db.data.configs)) == 1
      ensures ok ==> && db.data == old(db.data).(configs := Bumped(WithToken(old(db.data.configs), token)))
                     && cfg == old(cfg).(token := token, revision := Revision(db.data.configs))
                     && Revision(db.data.configs) == Revision(old(db.data.configs)) + 1
                     && db.audit == old(db.audit) + [Ok(TokenChange, old(cfg).id)] && commits == old(commits) + 1
      ensures !ok ==> (db.data, db.audit, commits, cfg) == (old(db.data), old(db.audit), old(commits), old(cfg))
    {
      ok := db.Begin(w.around.begins);
      if !ok { return; }
      var revision := -1;
      ok := w.saves;
      if ok {
        db.data := db.data.(configs := WithToken(db.data.configs, token));
        ok := |db.data.configs| == 1;
        if ok {
          SingleRow(old(db.data.configs));
          SingleRow(db.data.configs);
        }
      }
      if ok {
        revision := BumpRevision(w);
        ok := revision >= 0;
        if ok { SteppedOnce(old(db.data.configs), db.data.configs, initialRevision, commits); }
      }
      ok := Conclude(ok, Ok(TokenChange, cfg.id), w);
      if ok { cfg := cfg.(token := token, revision := revision); }
    }

    /** A load outside any transaction, as every reader of the settings makes. */
    method Look(w: World) returns (c: Config)
      requires Valid()
      modifies db`data
      ensures Valid() && OnlyDefaultsAdded(old(db.data), db.data)
      ensures db.data.configs == Loaded(old(db.data.configs), w).0 && c == Loaded(old(db.data.configs), w).1
    {
      c := Load(w);
      LoadsDoNotCount(old(db.data), db.data, initialRevision, commits);
    }

    /** The screens read the settings again. */
    method LoadConfig(w: World)
      requires Valid()
      modifies db`data, this`cfg
      ensures Valid() && OnlyDefaultsAdded(old(db.data), db.data)
      ensures db.data.configs == Loaded(old(db.data.configs), w).0 && cfg == Loaded(old(db.data.configs), w).1
    {
      cfg := Look(w);
    }

    // ---- CalibrationController ------------------------------------------------------------------

    /** The transaction of apply: the session's history, the sensor's coefficients, the revision, the audit row. */
    method ApplyCalibration(sensorId: int, a: real, b: real, points: nat, w: World) returns (ok: bool)
      requires Valid()
      modifies db, this`commits
      ensures Valid()
      ensures ok <==> && AllWork(w.around) && w.finds && w.savesSession && w.saves && w.bumps && w.readsBack
                      && points >= 2
                      && 0 < sensorId && sensorId in old(db.data.sensors.rows)
                      && old(db.data.sensors.rows)[sensorId].analog
                      && Bumpable(old(db.data.configs)) == 1
      ensures ok ==> && db.data.sessions == old(db.data.sessions) + [Session(sensorId, points, a, b)]
                     && db.data.sensors == old(db.data.sensors).(rows := old(db.data.sensors.rows)[sensorId :=
                          old(db.data.sensors.rows)[sensorId].(coefficient := (a, b))])
                     && db.data.configs == Bumped(old(db.data.configs))
                     && db.audit == old(db.audit) + [Ok(CalibrationApply, sensorId)] && commits == old(commits) + 1
      ensures !ok ==> (db.data, db.audit, commits) == (old(db.data), old(db.audit), old(commits))
    {
      ok := false;
      var began := db.Begin(w.around.begins);
      if !began { return; }
      if w.finds && 0 < sensorId && sensorId in db.data.sensors.rows && db.data.sensors.rows[sensorId].analog {
        var sensor := db.data.sensors.rows[sensorId].(coefficient := (a, b));
        ok := w.savesSession && points >= 2;
        if ok {
          db.data := db.data.(sessions := db.data.sessions + [Session(sensorId, points, a, b)]);
          ok := w.saves;
        }
        if ok {
          db.data := db.data.(sensors := db.data.sensors.(rows := db.data.sensors.rows[sensorId := sensor]));
          var revision := BumpRevision(w);
          ok := revision >= 0;
          if ok {
            BumpSteps(old(db.data.configs));
            SteppedOnce(old(db.data.configs), db.data.configs, initialRevision, commits);
          }
        }
      }
      ok := Conclude(ok, Ok(CalibrationApply, sensorId), w);
    }

    // ---- RestConfigUpdater -------------------------------------------------------------------------

    /** The checks of the request, in the order the source makes them. */
    static method Check(body: Body) returns (ok: bool)
      ensures ok <==> Acceptable(body)
    {
      if body.pollInterval.Some? {
        var interval := body.pollInterval.value;
        if interval < 1 || interval > 3600 { return false; }
      }
      if body.baudrate.Some? && body.baudrate.value !in BAUDRATES { return false; }
      if body.serialPort.Some? && !IsTtyPath(body.serialPort.value) { return false; }
      if body.stationCode.Some? && body.stationCode.value == "" { return false; }
      ok := true;
    }

    /** apply: a request is checked before anything is touched, then merged into the stored row. */
    method RestApply(body: Body, peer: string, w: World) returns (status: Status)
      requires Valid()
      modifies db, this`commits
      ensures Valid()
      ensures status == BadRequest <==> !Acceptable(body)
      ensures var (configs, before) := Loaded(old(db.data.configs), w);
              && (status.Accepted? <==>
                    Acceptable(body) && AllWork(w.around) && w.saves && before.id > 0 && before.revision < MAX_REVISION)
              && (status.Accepted? ==>
                    && status.revision == Revision(db.data.configs) == Revision(old(db.data.configs)) + 1
                    && db.data == old(db.data).(configs := Saved(configs,
                         before.(settings := Merged(before.settings, body), revision := status.revision)))
                    && db.audit == old(db.audit) + [Ok(RemoteSave(peer), before.id)] && commits == old(commits) + 1)
      ensures !status.Accepted? ==> (db.data, db.audit, commits) == (old(db.data), old(db.audit), old(commits))
    {
      var sound := Check(body);
      if !sound { return BadRequest; }
      var began := db.Begin(w.around.begins);
      if !began { return StorageError; }
      var before := Load(w);
      LoadsDoNotCount(old(db.data), db.data, initialRevision, commits);
      ghost var inside := db.data.configs;
      if before.id == 0 || before.revision == MAX_REVISION {
        db.Rollback();
        return StorageError;
      }
      var after := before.(settings := Merged(before.settings, body), revision := before.revision + 1);
      var ok := w.saves;
      if ok {
        db.data := db.data.(configs := Saved(db.data.configs, after));
        SteppedOnce(inside, db.data.configs, initialRevision, commits);
      }
      ok := Conclude(ok, Ok(RemoteSave(peer), before.id), w);
      status := if ok then Accepted(after.revision) else StorageError;
    }

    // ---- Events ------------------------------------------------------------------------------------

    twostate predicate Goes()
      reads this, db
    {
      Went(old(db.data.configs), old(db.audit), db.data.configs, db.audit)
    }

    method Handle(event: Event)
      requires Valid()
      modifies this, db
      ensures Valid() && Goes()
    {
      match event {
        case WriteSensor(op, w) => WriteSensor(op, w);
        case SaveSettings(what, edited, before, w, after) => SaveSettings(what, edited, before, w, after);
        case NewToken(token, w) =>
          if token != "" { NewToken(token, w); }
        case Calibrate(sensorId, a, b, points, w) => Calibrate(sensorId, a, b, points, w);
        case Remote(body, peer, w) => Remote(body, peer, w);
        case Look(w) => Glance(w);
      }
    }

    method WriteSensor(op: SensorOp, w: World)
      requires Valid()
      modifies db, this`commits
      ensures Valid() && Goes()
    {
      ghost var configs := db.data.configs;
      if configs != [] && Blocked(configs) {
        BlockedAfterLoad(configs, w);
        if Revision(configs) < MAX_REVISION { BlockedStopsBumps(ConfigsInside(configs, op, w)); }
      }
      var ok := CommitSensorWrite(op, w);
    }

    method NewToken(token: string, w: World)
      requires Valid() && token != ""
      modifies this, db
      ensures Valid() && Goes()
    {
      ghost var configs := db.data.configs;
      if Blocked(configs) && Revision(configs) < MAX_REVISION { BlockedStopsBumps(configs); }
      var ok := RegenerateRestToken(token, w);
    }

    method Calibrate(sensorId: int, a: real, b: real, points: nat, w: World)
      requires Valid()
      modifies db, this`commits
      ensures Valid() && Goes()
    {
      ghost var configs := db.data.configs;
      if Blocked(configs) && Revision(configs) < MAX_REVISION { BlockedStopsBumps(configs); }
      var ok := ApplyCalibration(sensorId, a, b, points, w);
    }

    method Remote(body: Body, peer: string, w: World)
      requires Valid()
      modifies db, this`commits
      ensures Valid() && Goes()
    {
      ghost var configs := db.data.configs;
      if configs != [] && Blocked(configs) { BlockedAfterLoad(configs, w); }
      var status := RestApply(body, peer, w);
      if status.Accepted? && configs != [] && Blocked(configs) {
        var (configs', before) := Loaded(configs, w);
        BlockedAfterSave(configs', before.(settings := Merged(before.settings, body), revision := status.revision));
      }
    }

    /** The screens read the settings, are edited and saved, and read again when that fails. */
    method SaveSettings(what: string, edited: Settings, before: World, w: World, after: World)
      requires Valid()
      modifies this, db
      ensures Valid() && Goes()
    {
      Glance(before);
      cfg := cfg.(settings := edited);
      ghost var configs, audit := db.data.configs, db.audit;
      var ok := Save(what, w);
      WentOn(old(db.data.configs), old(db.audit), configs, audit, db.data.configs, db.audit);
      if !ok {
        configs, audit := db.data.configs, db.audit;
        Reload(after);
        WentOn(old(db.data.configs), old(db.audit), configs, audit, db.data.configs, db.audit);
      }
    }

    method Save(what: string, w: World) returns (ok: bool)
      requires Valid()
      modifies this, db
      ensures Valid() && Goes() && (!ok ==> (db.data, db.audit) == (old(db.data), old(db.audit)))
    {
      ghost var configs := db.data.configs;
      if configs != [] && Blocked(configs) { BlockedAfterLoad(configs, w); }
      ok := SaveConfigWithAudit(what, w);
      if ok && configs != [] && Blocked(configs) {
        BlockedAfterSave(Loaded(configs, w).0, cfg);
      }
    }

    method Reload(w: World)
      requires Valid()
      modifies db`data, this`cfg
      ensures Valid() && Goes()
    {
      ghost var configs := db.data.configs;
      if configs != [] && Blocked(configs) { BlockedAfterLoad(configs, w); }
      LoadConfig(w);
    }

    method Glance(w: World)
      requires Valid()
      modifies db`data
      ensures Valid() && Goes()
    {
      ghost var configs := db.data.configs;
      if configs != [] && Blocked(configs) { BlockedAfterLoad(configs, w); }
      var _ := Look(w);
    }
  }

  // ---- What a failed query can do ------------------------------------------------------------

  /**
   One query that fails while the settings are read, of a database that has a row of them,
   puts a row of defaults beside it; and from then on, until the revision has got to its
   maximum, nothing that bumps it is ever written: no sensor, no calibration, no token,
   whatever happens and however well the database works.
   */
  method FailedQueryBlocksSensorWrites(tables: Tables, glitch: World, events: seq<Event>) returns (station: Station)
    requires Stored(tables.configs) && tables.configs != [] && 0 <= Revision(tables.configs) <= MAX_REVISION
    requires !glitch.selects && glitch.inserts
    ensures fresh(station) && station.Valid()
    ensures Revision(station.db.data.configs) < MAX_REVISION ==> OnlySaves(station.db.audit)
  {
    station := new Station(tables);
    var _ := station.Look(glitch);
    ghost var n := |tables.configs|;
    assert station.db.data.configs[n] == Default(n + 1);
    for i := 0 to |events|
      invariant fresh(station) && fresh(station.db) && station.Valid()
      invariant station.db.data.configs != [] && Blocked(station.db.data.configs)
      invariant Revision(station.db.data.configs) < MAX_REVISION ==> OnlySaves(station.db.audit)
    {
      station.Handle(events[i]);
    }
  }

  /** With a stray row and the first row worn out, a write commits without stepping the revision. */
  lemma StepCanBeLost()
    ensures var configs := [Default(1).(revision := MAX_REVISION), Default(2)];
            Bumpable(configs) == 1 && Revision(Bumped(configs)) == Revision(configs)
  {
    var configs := [Default(1).(revision := MAX_REVISION), Default(2)];
    SingleRow(configs[1..]);
  }

  // ---- Runs ----------------------------------------------------------------------------------

  /**
   Any run of writes and loads over any tables, whatever fails and whenever: the revision is
   the first one plus the number of committed writes, held at the maximum; with a single row
   of settings it never comes to be held; and the trail has one row for each commit.
   */
  method Run(tables: Tables, events: seq<Event>) returns (station: Station)
    requires Stored(tables.configs) && 0 <= Revision(tables.configs) <= MAX_REVISION
    ensures fresh(station) && station.Valid() && station.initialRevision == Revision(tables.configs)
    ensures var revision := Revision(station.db.data.configs);
            && revision == Min(Revision(tables.configs) + |station.db.audit|, MAX_REVISION)
            && (|station.db.data.configs| <= 1 ==> revision == Revision(tables.configs) + |station.db.audit|)
  {
    station := new Station(tables);
    for i := 0 to |events|
      invariant fresh(station) && fresh(station.db) && station.Valid()
                && station.initialRevision == Revision(tables.configs)
    {
      station.Handle(events[i]);
    }
  }
}

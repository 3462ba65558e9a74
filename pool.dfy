/** The MySQL pool manager (dao/mysql/pool.go): one write pool, any number of read
    pools, and integer counters of the queries routed through them. Connecting, pinging
    and closing a pool are outcomes supplied by the caller; the clock is a parameter. */
module Pool {
  import opened Wrappers

  /** A connection pool, named by the host it connects to and the role it was opened for. */
  datatype Conn = WritePool(host: string) | ReadPool(host: string) | RawPool(host: string)

  /** The part of the MySQL settings the manager's decisions depend on. */
  datatype MySqlConfig = MySqlConfig(host: string, readHosts: seq<string>, enableReadWriteSplit: bool)

  /** What sql.DB.Stats() reports about a pool. */
  datatype DriverStats = DriverStats(
    maxOpenConnections: int, openConnections: int, inUse: int, idle: int,
    waitCount: int, waitDuration: int, maxIdleClosed: int, maxIdleTimeClosed: int, maxLifetimeClosed: int)

  const NoDriverStats := DriverStats(0, 0, 0, 0, 0, 0, 0, 0, 0)

  /** A query is slow when it takes more than one second (in nanoseconds). */
  const SlowQueryNanos := 1_000_000_000

  /** The integer fields of a PoolStats, as one value. */
  datatype StatsValues = StatsValues(
    pool: DriverStats, writeQueryCount: int, readQueryCount: int,
    slowQueryCount: int, errorCount: int, lastUpdateTime: int)

  class PoolStats {
    var pool: DriverStats
    var writeQueryCount: int
    var readQueryCount: int
    var slowQueryCount: int
    var errorCount: int
    var lastUpdateTime: int

    constructor (now: int)
      ensures Values() == StatsValues(NoDriverStats, 0, 0, 0, 0, now)
    {
      pool := NoDriverStats;
      writeQueryCount, readQueryCount, slowQueryCount, errorCount := 0, 0, 0, 0;
      lastUpdateTime := now;
    }

    /** A copy of the given values in a new PoolStats. */
    constructor Copy(v: StatsValues)
      ensures Values() == v
    {
      pool := v.pool;
      writeQueryCount, readQueryCount := v.writeQueryCount, v.readQueryCount;
      slowQueryCount, errorCount := v.slowQueryCount, v.errorCount;
      lastUpdateTime := v.lastUpdateTime;
    }

    function Values(): StatsValues
      reads this
    {
      StatsValues(pool, writeQueryCount, readQueryCount, slowQueryCount, errorCount, lastUpdateTime)
    }
  }

  /** The read pools that connect, in the order of their hosts. */
  function ConnectedReadPools(hosts: seq<string>, connects: Conn -> bool): seq<Conn>
    decreases |hosts|
  {
    if hosts == [] then []
    else
      var h := hosts[|hosts| - 1];
      ConnectedReadPools(hosts[..|hosts| - 1], connects) + (if connects(ReadPool(h)) then [ReadPool(h)] else [])
  }

  /** Exactly the hosts that connect get a read pool; the others are skipped, so there
      are never more read pools than hosts. */
  lemma {:induction false} ConnectedReadPoolsSpec(hosts: seq<string>, connects: Conn -> bool)
    ensures |ConnectedReadPools(hosts, connects)| <= |hosts|
    ensures forall c :: c in ConnectedReadPools(hosts, connects) <==> c.ReadPool? && c.host in hosts && connects(c)
    ensures ConnectedReadPools(hosts, connects) == [] <==> forall h :: h in hosts ==> !connects(ReadPool(h))
    decreases |hosts|
  {
    if hosts != [] {
      var n := |hosts| - 1;
      ConnectedReadPoolsSpec(hosts[..n], connects);
      assert hosts == hosts[..n] + [hosts[n]];
      forall c ensures c in ConnectedReadPools(hosts, connects) <==> c.ReadPool? && c.host in hosts && connects(c) {
        if c.ReadPool? && c.host in hosts && c.host != hosts[n] {
          assert c.host in hosts[..n];
        }
      }
    }
  }

  /** The read pool picked at `nowNanos`: UnixNano() % len(readDBs). */
  function ReadIndex(nowNanos: nat, n: nat): (i: nat)
    requires n > 0
    ensures i < n
    ensures nowNanos < n ==> i == nowNanos
  {
    nowNanos % n
  }

  /** One nanosecond later the next read pool is picked, wrapping around after the last:
      consecutive requests spread over all read pools in turn. */
  lemma ReadIndexRotates(nowNanos: nat, n: nat)
    requires n > 0
    ensures ReadIndex(nowNanos + 1, n) == (ReadIndex(nowNanos, n) + 1) % n
  {
    var q, r := nowNanos / n, nowNanos % n;
    assert nowNanos == q * n + r;
    if r + 1 < n {
      ModOf(nowNanos + 1, n, q, r + 1);
    } else {
      assert nowNanos + 1 == (q + 1) * n;
      ModOf(nowNanos + 1, n, q + 1, 0);
    }
  }

  lemma ModOf(a: int, n: int, q: int, r: int)
    requires n > 0 && 0 <= r < n && a == q * n + r
    ensures a % n == r
  {
    var k := q - a / n;
    assert k * n == a % n - r;
    MulSign(k, n);
  }

  lemma MulSign(k: int, n: int)
    requires n > 0
    ensures k >= 1 ==> k * n >= n
    ensures k <= -1 ==> k * n <= -n
  {
    if k >= 1 {
      assert k * n == (k - 1) * n + n;
    } else if k <= -1 {
      assert k * n == (k + 1) * n - n;
    }
  }

  class DBManager {
    var writeDB: Option<Conn>
    var readDBs: seq<Conn>
    /** The pools Close has been called on, in call order. */
    var closed: seq<Conn>
    const config: MySqlConfig
    const stats: PoolStats

    constructor (cfg: MySqlConfig, now: int)
      ensures config == cfg && writeDB == None && readDBs == [] && closed == []
      ensures fresh(stats) && stats.Values() == StatsValues(NoDriverStats, 0, 0, 0, 0, now)
    {
      config := cfg;
      writeDB, readDBs, closed := None, [], [];
      stats := new PoolStats(now);
    }

    /** Every pool the manager holds: the write pool first, then the read pools. */
    function Pools(): seq<Conn>
      reads this
    {
      (if writeDB.Some? then [writeDB.value] else []) + readDBs
    }

    method InitWriteDB(connects: Conn -> bool) returns (err: Option<Error>)
      modifies this
      ensures readDBs == old(readDBs) && closed == old(closed)
      ensures connects(WritePool(config.host)) ==> err == None && writeDB == Some(WritePool(config.host))
      ensures !connects(WritePool(config.host)) ==> err == Some(WriteConnectFailed) && writeDB == old(writeDB)
    {
      var pool := WritePool(config.host);
      if !connects(pool) {
        return Some(WriteConnectFailed);
      }
      writeDB := Some(pool);
      err := None;
    }

    /** One read pool per host that connects, in host order; an error when none is open. */
    method InitReadDBs(connects: Conn -> bool) returns (err: Option<Error>)
      modifies this
      ensures writeDB == old(writeDB) && closed == old(closed)
      ensures readDBs == old(readDBs) + ConnectedReadPools(config.readHosts, connects)
      ensures err == (if readDBs == [] then Some(AllReadHostsFailed) else None)
    {
      var hosts := config.readHosts;
      var i := 0;
      while i < |hosts|
        invariant 0 <= i <= |hosts|
        invariant writeDB == old(writeDB) && closed == old(closed)
        invariant readDBs == old(readDBs) + ConnectedReadPools(hosts[..i], connects)
      {
        var pool := ReadPool(hosts[i]);
        assert hosts[..i + 1][..i] == hosts[..i];
        if connects(pool) {
          readDBs := readDBs + [pool];
        }
        i := i + 1;
      }
      assert hosts[..i] == hosts;
      err := if readDBs == [] then Some(AllReadHostsFailed) else None;
    }

    /** init: the write pool must connect; read pools are opened only when read/write
        splitting is on and hosts are listed, and their failure is not an error. */
    method Init(connects: Conn -> bool) returns (err: Option<Error>)
      modifies this
      ensures closed == old(closed)
      ensures err == None <==> connects(WritePool(config.host))
      ensures err != None ==> err == Some(WriteConnectFailed) && writeDB == old(writeDB) && readDBs == old(readDBs)
      ensures err == None ==> writeDB == Some(WritePool(config.host))
      ensures err == None ==> readDBs == old(readDBs) + InitialReadPools(config, connects)
    {
      err := InitWriteDB(connects);
      if err != None {
        return;
      }
      if config.enableReadWriteSplit && |config.readHosts| > 0 {
        var readErr := InitReadDBs(connects);
      }
    }

    /** GetWriteDB: the write pool, counting one write query. */
    method GetWriteDB() returns (h: Option<Conn>)
      modifies stats
      ensures h == writeDB
      ensures stats.Values() == old(stats.Values()).(writeQueryCount := old(stats.writeQueryCount) + 1)
    {
      stats.writeQueryCount := stats.writeQueryCount + 1;
      h := writeDB;
    }

    /** GetReadDB: a read pool chosen by the clock, or the write pool when there is none;
        counts one read query. */
    method GetReadDB(nowNanos: nat) returns (h: Option<Conn>)
      modifies stats
      ensures readDBs == [] ==> h == writeDB
      ensures readDBs != [] ==> h == Some(readDBs[ReadIndex(nowNanos, |readDBs|)])
      ensures stats.Values() == old(stats.Values()).(readQueryCount := old(stats.readQueryCount) + 1)
    {
      stats.readQueryCount := stats.readQueryCount + 1;
      if |readDBs| == 0 {
        return writeDB;
      }
      h := Some(readDBs[nowNanos % |readDBs|]);
    }

    /** RecordQueryTime: one more slow query when the duration exceeds one second, one
        more error when the query failed; nothing else that is an integer changes. */
    method RecordQueryTime(durationNanos: int, isError: bool)
      modifies stats
      ensures stats.Values() == old(stats.Values()).(
        slowQueryCount := old(stats.slowQueryCount) + (if durationNanos > SlowQueryNanos then 1 else 0),
        errorCount := old(stats.errorCount) + (if isError then 1 else 0))
    {
      if durationNanos > SlowQueryNanos {
        stats.slowQueryCount := stats.slowQueryCount + 1;
      }
      if isError {
        stats.errorCount := stats.errorCount + 1;
      }
    }

    /** GetStats: refresh the pool figures from the write pool (when there is one) and
        the update time, then hand out a copy. */
    method GetStats(driver: DriverStats, now: int) returns (snap: PoolStats)
      modifies stats
      ensures stats.Values() == old(stats.Values()).(pool := if writeDB.Some? then driver else old(stats.pool), lastUpdateTime := now)
      ensures fresh(snap) && snap.Values() == stats.Values()
    {
      if writeDB.Some? {
        stats.pool := driver;
      }
      stats.lastUpdateTime := now;
      snap := new PoolStats.Copy(stats.Values());
    }

    /** HealthCheck: only the write pool's ping decides; read pools that do not answer
        are only logged. Pinging a missing write pool is a nil dereference, which panics. */
    method HealthCheck(answers: Conn -> bool) returns (err: Option<Error>)
      ensures writeDB == None ==> err == Some(NilDereference)
      ensures writeDB.Some? ==> err == (if answers(writeDB.value) then None else Some(WritePingFailed))
    {
      if writeDB == None {
        return Some(NilDereference);
      }
      if !answers(writeDB.value) {
        return Some(WritePingFailed);
      }
      err := None;
    }

    /** Close: every pool is closed, the write pool first, even after a failure; the
        error reports how many failed and is absent exactly when none did. */
    method Close(closes: Conn -> bool) returns (err: Option<Error>)
      modifies this
      ensures writeDB == old(writeDB) && readDBs == old(readDBs)
      ensures closed == old(closed) + Pools()
      ensures err == (if |Failed(Pools(), closes)| == 0 then None else Some(CloseFailed(|Failed(Pools(), closes)|)))
    {
      ghost var w: seq<Conn> := [];
      var failures := 0;
      if writeDB.Some? {
        closed := closed + [writeDB.value];
        w := [writeDB.value];
        FailedSnoc([], writeDB.value, closes);
        if !closes(writeDB.value) {
          failures := 1;
        }
      }
      assert w + readDBs == Pools();
      failures := CloseReadPools(closes, w, failures);
      err := if failures == 0 then None else Some(CloseFailed(failures));
    }

    /** The loop of Close over the read pools, continuing past failures. */
    method CloseReadPools(closes: Conn -> bool, ghost w: seq<Conn>, failures0: nat) returns (failures: nat)
      requires failures0 == |Failed(w, closes)|
      modifies this
      ensures writeDB == old(writeDB) && readDBs == old(readDBs)
      ensures closed == old(closed) + readDBs
      ensures failures == |Failed(w + readDBs, closes)|
    {
      failures := failures0;
      var i := 0;
      assert w + readDBs[..i] == w;
      while i < |readDBs|
        invariant 0 <= i <= |readDBs|
        invariant writeDB == old(writeDB) && readDBs == old(readDBs)
        invariant closed == old(closed) + readDBs[..i]
        invariant failures == |Failed(w + readDBs[..i], closes)|
      {
        var pool := readDBs[i];
        FailedSnoc(w + readDBs[..i], pool, closes);
        assert w + readDBs[..i + 1] == (w + readDBs[..i]) + [pool];
        assert readDBs[..i + 1] == readDBs[..i] + [pool];
        closed := closed + [pool];
        if !closes(pool) {
          failures := failures + 1;
        }
        i := i + 1;
      }
      assert readDBs[..i] == readDBs;
    }
  }

  /** The read pools init opens for a configuration. */
  function InitialReadPools(cfg: MySqlConfig, connects: Conn -> bool): seq<Conn> {
    if cfg.enableReadWriteSplit && |cfg.readHosts| > 0 then ConnectedReadPools(cfg.readHosts, connects) else []
  }

  /** The pools of `pools` that fail to close, in order. */
  function Failed(pools: seq<Conn>, closes: Conn -> bool): seq<Conn>
    decreases |pools|
  {
    if pools == [] then []
    else Failed(pools[..|pools| - 1], closes) + (if closes(pools[|pools| - 1]) then [] else [pools[|pools| - 1]])
  }

  lemma FailedSnoc(pools: seq<Conn>, c: Conn, closes: Conn -> bool)
    ensures Failed(pools + [c], closes) == Failed(pools, closes) + (if closes(c) then [] else [c])
  {
    assert (pools + [c])[..|pools|] == pools;
  }

  /** No failure is reported exactly when every pool closes. */
  lemma {:induction false} FailedSpec(pools: seq<Conn>, closes: Conn -> bool)
    ensures forall c :: c in Failed(pools, closes) <==> c in pools && !closes(c)
    ensures |Failed(pools, closes)| == 0 <==> forall c :: c in pools ==> closes(c)
    decreases |pools|
  {
    if pools != [] {
      var n := |pools| - 1;
      FailedSpec(pools[..n], closes);
      assert pools == pools[..n] + [pools[n]];
    }
  }

  // ---------- package-level state ----------

  /** The package variables: the manager (nil until InitAdvanced runs), the sync.Once
      flag, and the raw pool `db` that Init falls back to (dao/mysql/mysql.go). */
  class Registry {
    var manager: DBManager?
    var once: bool
    var db: Option<Conn>
    var rawClosed: bool

    constructor ()
      ensures manager == null && !once && db == None && !rawClosed
    {
      manager, once, db, rawClosed := null, false, None, false;
    }

    /** The handle the package-level GetWriteDB hands out. */
    function WriteHandle(): Option<Conn>
      reads this, manager
    {
      if manager == null then db else manager.writeDB
    }

    /** InitAdvanced as written: the manager is installed before its init runs and stays
        installed when init fails; a second call does nothing and reports no error. */
    method InitAdvanced(cfg: MySqlConfig, connects: Conn -> bool, now: int) returns (err: Option<Error>)
      modifies this
      ensures once && db == old(db) && rawClosed == old(rawClosed)
      ensures old(once) ==> err == None && manager == old(manager)
      ensures !old(once) ==> manager != null && fresh(manager) && fresh(manager.stats) && manager.config == cfg
      ensures !old(once) ==> (err == None <==> connects(WritePool(cfg.host)))
      ensures !old(once) && err != None ==> manager.writeDB == None && manager.readDBs == []
      ensures !old(once) && err == None ==>
        manager.writeDB == Some(WritePool(cfg.host)) && manager.readDBs == InitialReadPools(cfg, connects)
    {
      if once {
        return None;
      }
      once := true;
      var m := new DBManager(cfg, now);
      manager := m;
      err := m.Init(connects);
    }

    /** Init as written: the pool manager first, the raw pool only when it failed. */
    method Init(cfg: MySqlConfig, connects: Conn -> bool, now: int) returns (err: Option<Error>)
      modifies this
      ensures once && rawClosed == old(rawClosed)
      ensures old(once) ==> err == None && manager == old(manager) && db == old(db)
      ensures !old(once) ==> manager != null && fresh(manager) && fresh(manager.stats) && manager.config == cfg
      ensures !old(once) && connects(WritePool(cfg.host)) ==>
        (err == None && db == old(db) && manager.writeDB == Some(WritePool(cfg.host)))
      ensures !old(once) && !connects(WritePool(cfg.host)) ==> manager.writeDB == None
      ensures !old(once) && !connects(WritePool(cfg.host)) && connects(RawPool(cfg.host)) ==>
        (err == None && db == Some(RawPool(cfg.host)))
      ensures !old(once) && !connects(WritePool(cfg.host)) && !connects(RawPool(cfg.host)) ==>
        (err == Some(Backend) && db == None)
    {
      err := InitAdvanced(cfg, connects, now);
      if err == None {
        return;
      }
      if connects(RawPool(cfg.host)) {
        db, err := Some(RawPool(cfg.host)), None;
      } else {
        db, err := None, Some(Backend);
      }
    }

    /** InitAdvanced as evidently intended: the manager is installed only once its init
        has succeeded, so a failed init leaves the raw-pool fallback in force. */
    method InitAdvancedFixed(cfg: MySqlConfig, connects: Conn -> bool, now: int) returns (err: Option<Error>)
      modifies this
      ensures once && db == old(db) && rawClosed == old(rawClosed)
      ensures old(once) ==> err == None && manager == old(manager)
      ensures !old(once) ==> (err == None <==> connects(WritePool(cfg.host)))
      ensures !old(once) && err != None ==> manager == null
      ensures !old(once) && manager != null ==> fresh(manager) && fresh(manager.stats)
      ensures !old(once) && err == None ==>
        (manager != null && manager.config == cfg &&
         manager.writeDB == Some(WritePool(cfg.host)) && manager.readDBs == InitialReadPools(cfg, connects))
    {
      if once {
        return None;
      }
      once := true;
      var m := new DBManager(cfg, now);
      err := m.Init(connects);
      manager := if err == None then m else null;
    }

    /** Init over the corrected InitAdvanced: whenever the first Init reports success,
        the package-level write handle is a connected pool. */
    method InitFixed(cfg: MySqlConfig, connects: Conn -> bool, now: int) returns (err: Option<Error>)
      requires manager == null && db == None
      modifies this
      ensures once && rawClosed == old(rawClosed)
      ensures manager != null ==> fresh(manager) && fresh(manager.stats)
      ensures !old(once) && err == None ==> WriteHandle().Some?
      ensures !old(once) ==> (err == None <==> connects(WritePool(cfg.host)) || connects(RawPool(cfg.host)))
      ensures !old(once) && !connects(WritePool(cfg.host)) && connects(RawPool(cfg.host)) ==>
        WriteHandle() == Some(RawPool(cfg.host))
    {
      err := InitAdvancedFixed(cfg, connects, now);
      if err == None {
        return;
      }
      if connects(RawPool(cfg.host)) {
        db, err := Some(RawPool(cfg.host)), None;
      } else {
        db, err := None, Some(Backend);
      }
    }

    /** GetWriteDB: the manager's write pool, or the raw pool when there is no manager. */
    method GetWriteDB() returns (h: Option<Conn>)
      modifies if manager != null then {manager.stats} else {}
      ensures h == WriteHandle()
      ensures manager != null ==>
        manager.stats.Values() == old(manager.stats.Values()).(writeQueryCount := old(manager.stats.writeQueryCount) + 1)
    {
      if manager == null {
        return db;
      }
      h := manager.GetWriteDB();
    }

    /** GetReadDB: the manager's choice, or the raw pool when there is no manager. */
    method GetReadDB(nowNanos: nat) returns (h: Option<Conn>)
      modifies if manager != null then {manager.stats} else {}
      ensures manager == null ==> h == db
      ensures manager != null && manager.readDBs == [] ==> h == manager.writeDB
      ensures manager != null && manager.readDBs != [] ==>
        h == Some(manager.readDBs[ReadIndex(nowNanos, |manager.readDBs|)])
      ensures manager != null ==>
        manager.stats.Values() == old(manager.stats.Values()).(readQueryCount := old(manager.stats.readQueryCount) + 1)
    {
      if manager == null {
        return db;
      }
      h := manager.GetReadDB(nowNanos);
    }

    /** GetDBStats: nil without a manager, otherwise a fresh copy of its statistics. */
    method GetDBStats(driver: DriverStats, now: int) returns (snap: PoolStats?)
      modifies if manager != null then {manager.stats} else {}
      ensures manager == null <==> snap == null
      ensures manager != null ==>
        manager.stats.Values() == old(manager.stats.Values()).(
          pool := if manager.writeDB.Some? then driver else old(manager.stats.pool), lastUpdateTime := now)
      ensures snap != null ==> fresh(snap) && snap.Values() == manager.stats.Values()
    {
      if manager == null {
        return null;
      }
      snap := manager.GetStats(driver, now);
    }

    /** RecordQueryTime: counted by the manager, ignored without one. */
    method RecordQueryTime(durationNanos: int, isError: bool)
      modifies if manager != null then {manager.stats} else {}
      ensures manager != null ==> manager.stats.Values() == old(manager.stats.Values()).(
        slowQueryCount := old(manager.stats.slowQueryCount) + (if durationNanos > SlowQueryNanos then 1 else 0),
        errorCount := old(manager.stats.errorCount) + (if isError then 1 else 0))
    {
      if manager != null {
        manager.RecordQueryTime(durationNanos, isError);
      }
    }

    /** DBHealthCheck: the manager's check, or a ping of the raw pool. Either way a
        missing handle is dereferenced, which panics. */
    method DBHealthCheck(answers: Conn -> bool) returns (err: Option<Error>)
      ensures WriteHandle() == None ==> err == Some(NilDereference)
      ensures WriteHandle().Some? ==> err == (if answers(WriteHandle().value) then None else
        if manager == null then Some(Backend) else Some(WritePingFailed))
    {
      if manager == null {
        if db == None {
          return Some(NilDereference);
        }
        return if answers(db.value) then None else Some(Backend);
      }
      err := manager.HealthCheck(answers);
    }

    /** Close (dao/mysql/mysql.go): the manager's pools when there is a manager, and
        then the raw pool is never closed; the raw pool otherwise. Errors are only logged. */
    method Close(closes: Conn -> bool)
      modifies this, if manager != null then {manager} else {}
      ensures manager == old(manager) && db == old(db)
      ensures manager != null ==> manager.closed == old(manager.closed) + old(manager.Pools()) && rawClosed == old(rawClosed)
      ensures manager == null ==> rawClosed == (old(rawClosed) || db.Some?)
    {
      if manager != null {
        var err := manager.Close(closes);
        return;
      }
      if db.Some? {
        rawClosed := true;
      }
    }
  }

  /** The write handle after a failed pool-manager init and a successful raw connect:
      Init reports success, yet GetWriteDB hands out the manager's missing write pool
      instead of the connected raw pool, and Close would never close the raw pool. */
  method FailedAdvancedInitHidesRawPool(cfg: MySqlConfig, connects: Conn -> bool, answers: Conn -> bool, now: int)
    returns (err: Option<Error>, raw: Option<Conn>, h: Option<Conn>, health: Option<Error>)
    requires !connects(WritePool(cfg.host)) && connects(RawPool(cfg.host))
    ensures err == None && raw == Some(RawPool(cfg.host))
    ensures h == None
    ensures health == Some(NilDereference)
  {
    var r := new Registry();
    err := r.Init(cfg, connects, now);
    raw := r.db;
    h := r.GetWriteDB();
    health := r.DBHealthCheck(answers);
  }

  /** The same sequence over the corrected init: the write handle is the raw pool. */
  method FailedAdvancedInitFallsBack(cfg: MySqlConfig, connects: Conn -> bool, now: int)
    returns (err: Option<Error>, h: Option<Conn>)
    requires !connects(WritePool(cfg.host)) && connects(RawPool(cfg.host))
    ensures err == None
    ensures h == Some(RawPool(cfg.host))
  {
    var r := new Registry();
    err := r.InitFixed(cfg, connects, now);
    h := r.GetWriteDB();
  }
}

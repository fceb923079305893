/** The persistence collaborators of the service: the six repositories and the
    TypeORM query runner used for the DEX transaction. Their implementations
    are not part of this model; what they do is ASSUMED here and written once,
    as the `After*` functions: a successful `saveMany` / `saveOrUpdate` upserts
    its rows by natural key, a failing call writes nothing, `findByName` looks
    a chain up by name, and writes made through the query runner's manager
    reach the tables only on a successful commit. The classes below keep that
    state in fields and their methods are proved to follow the functions. */
module Persistence {
  import opened Common
  import opened Entities

  // ---- Upsert ------------------------------------------------------------

  /** The keys of a list of rows. */
  function KeysOf<K, V>(rows: seq<V>, key: V -> K): (ks: set<K>)
    ensures forall i :: 0 <= i < |rows| ==> key(rows[i]) in ks
  {
    if rows == [] then {} else {key(rows[0])} + KeysOf(rows[1..], key)
  }

  /** The keys of a batch are its rows' keys and nothing else. */
  lemma {:induction false} KeysOfOnlyRowKeys<K, V>(rows: seq<V>, key: V -> K, k: K)
    requires k in KeysOf(rows, key)
    ensures exists i :: 0 <= i < |rows| && key(rows[i]) == k
    decreases |rows|
  {
    if key(rows[0]) != k {
      KeysOfOnlyRowKeys(rows[1..], key, k);
      var i :| 0 <= i < |rows| - 1 && key(rows[1..][i]) == k;
      assert key(rows[i + 1]) == k;
    }
  }

  /** Insert-or-update of `rows`, one after the other, by `key`. */
  function Upsert<K, V>(table: map<K, V>, rows: seq<V>, key: V -> K): (t: map<K, V>)
    ensures t.Keys == table.Keys + KeysOf(rows, key)
    ensures forall k :: k in table && k !in KeysOf(rows, key) ==> t[k] == table[k]
    decreases |rows|
  {
    if rows == [] then table else Upsert(table[key(rows[0]) := rows[0]], rows[1..], key)
  }

  /** The row stored under a key is the last row with that key. */
  lemma {:induction false} UpsertLastWins<K, V>(table: map<K, V>, rows: seq<V>, key: V -> K, i: nat)
    requires i < |rows|
    requires forall j :: i < j < |rows| ==> key(rows[j]) != key(rows[i])
    ensures Upsert(table, rows, key)[key(rows[i])] == rows[i]
    decreases |rows|
  {
    if i == 0 {
      NotInKeysOf(rows[1..], key, key(rows[0]));
    } else {
      UpsertLastWins(table[key(rows[0]) := rows[0]], rows[1..], key, i - 1);
    }
  }

  /** A key no row has is not among the rows' keys. */
  lemma {:induction false} NotInKeysOf<K, V>(rows: seq<V>, key: V -> K, k: K)
    requires forall j :: 0 <= j < |rows| ==> key(rows[j]) != k
    ensures k !in KeysOf(rows, key)
  {
    if rows != [] {
      NotInKeysOf(rows[1..], key, k);
    }
  }

  /** What the rows' own keys end up holding does not depend on the table. */
  lemma {:induction false} UpsertOwnKeys<K, V>(t1: map<K, V>, t2: map<K, V>, rows: seq<V>, key: V -> K, k: K)
    requires k in KeysOf(rows, key)
    ensures Upsert(t1, rows, key)[k] == Upsert(t2, rows, key)[k]
    decreases |rows|
  {
    var k0 := key(rows[0]);
    if k in KeysOf(rows[1..], key) {
      UpsertOwnKeys(t1[k0 := rows[0]], t2[k0 := rows[0]], rows[1..], key, k);
    }
  }

  /** Upserting the same rows twice is the same as upserting them once. */
  lemma UpsertIdempotent<K, V>(table: map<K, V>, rows: seq<V>, key: V -> K)
    ensures Upsert(Upsert(table, rows, key), rows, key) == Upsert(table, rows, key)
  {
    var once := Upsert(table, rows, key);
    var twice := Upsert(once, rows, key);
    forall k | k in twice ensures twice[k] == once[k] {
      if k in KeysOf(rows, key) {
        UpsertOwnKeys(once, table, rows, key, k);
      }
    }
  }

  /** What a key of the rows ends up holding is one of the rows. */
  lemma {:induction false} UpsertOwnKeyFromRows<K, V>(table: map<K, V>, rows: seq<V>, key: V -> K, k: K)
    requires k in KeysOf(rows, key)
    ensures Upsert(table, rows, key)[k] in rows
    decreases |rows|
  {
    if k in KeysOf(rows[1..], key) {
      UpsertOwnKeyFromRows(table[key(rows[0]) := rows[0]], rows[1..], key, k);
      assert Upsert(table, rows, key)[k] in rows[1..];
    }
  }

  /** Upserting one row sets its key and nothing else. */
  lemma UpsertOne<K, V>(table: map<K, V>, row: V, key: V -> K)
    ensures Upsert(table, [row], key) == table[key(row) := row]
  {
    assert [row][1..] == [];
  }

  // ---- Database state ----------------------------------------------------

  /** One call the service makes on a repository, with its argument. */
  datatype RepoCall =
    | SaveChains(chains: seq<Chain>)
    | SaveProtocols(protocols: seq<Protocol>)
    | SaveStableCoins(stableCoins: seq<StableCoin>)
    | SaveYieldPools(yieldPools: seq<YieldPool>)
    | FindChainByName(name: string)
    | SaveDexInfo(dexInfo: DexInfo)
    | SaveDexProtocols(dexProtocols: seq<DexProtocol>)

  /** The committed tables, each keyed by its natural key, and the calls made
      on the repositories so far, in order. */
  datatype DbState = DbState(
    chains: map<string, Chain>,
    protocols: map<string, Protocol>,
    stableCoins: map<string, StableCoin>,
    yieldPools: map<string, YieldPool>,
    dexInfos: map<Option<string>, DexInfo>,
    dexProtocols: map<string, DexProtocol>,
    calls: seq<RepoCall>)

  function ChainKey(c: Chain): string { c.name }
  function ProtocolKey(p: Protocol): string { p.protocolId }
  function StableCoinKey(s: StableCoin): string { s.geckoId }
  function YieldPoolKey(y: YieldPool): string { y.pool }
  function DexProtocolKey(p: DexProtocol): string { p.defillamaId }

  /** A DexInfo row is keyed by the chain it belongs to. */
  function DexInfoKey(d: DexInfo): Option<string>
  {
    match d.chain
    case None => None
    case Some(c) => Some(c.name)
  }

  function AfterSaveChains(s: DbState, rows: seq<Chain>, o: Outcome): DbState
  {
    s.(chains := if o.Ok? then Upsert(s.chains, rows, ChainKey) else s.chains,
       calls := s.calls + [SaveChains(rows)])
  }

  function AfterSaveProtocols(s: DbState, rows: seq<Protocol>, o: Outcome): DbState
  {
    s.(protocols := if o.Ok? then Upsert(s.protocols, rows, ProtocolKey) else s.protocols,
       calls := s.calls + [SaveProtocols(rows)])
  }

  function AfterSaveStableCoins(s: DbState, rows: seq<StableCoin>, o: Outcome): DbState
  {
    s.(stableCoins := if o.Ok? then Upsert(s.stableCoins, rows, StableCoinKey) else s.stableCoins,
       calls := s.calls + [SaveStableCoins(rows)])
  }

  function AfterSaveYieldPools(s: DbState, rows: seq<YieldPool>, o: Outcome): DbState
  {
    s.(yieldPools := if o.Ok? then Upsert(s.yieldPools, rows, YieldPoolKey) else s.yieldPools,
       calls := s.calls + [SaveYieldPools(rows)])
  }

  /** What `chainRepository.findByName` resolves to. */
  function LookupChain(s: DbState, name: string): Option<Chain>
  {
    if name in s.chains then Some(s.chains[name]) else None
  }

  function AfterFindByName(s: DbState, name: string): DbState
  {
    s.(calls := s.calls + [FindChainByName(name)])
  }

  // ---- The query runner --------------------------------------------------

  datatype RunnerState = Created | Connected | InTransaction | Committed | RolledBack | Released

  /** One call the service makes on the query runner. */
  datatype RunnerCall = Connect | StartTransaction | CommitTransaction | RollbackTransaction | Release

  /** A query runner: where it is in its life cycle, the calls made on it, and
      the writes made through its manager that are not committed yet. */
  datatype TxState = TxState(
    state: RunnerState,
    trace: seq<RunnerCall>,
    pendingDexInfos: seq<DexInfo>,
    pendingDexProtocols: seq<DexProtocol>)

  /** The database and an open query runner together. */
  datatype Scope = Scope(db: DbState, tx: TxState)

  function FreshRunner(): TxState
  {
    TxState(Created, [], [], [])
  }

  function AfterConnect(t: TxState, o: Outcome): TxState
  {
    t.(state := if o.Ok? then Connected else t.state, trace := t.trace + [Connect])
  }

  function AfterStart(t: TxState, o: Outcome): TxState
  {
    t.(state := if o.Ok? then InTransaction else t.state, trace := t.trace + [StartTransaction])
  }

  /** `dexInfoRepository.saveOrUpdate(entity, queryRunner.manager)`. */
  function AfterSaveDexInfo(sc: Scope, d: DexInfo, o: Outcome): Scope
  {
    Scope(sc.db.(calls := sc.db.calls + [SaveDexInfo(d)]),
          if o.Ok? then sc.tx.(pendingDexInfos := sc.tx.pendingDexInfos + [d]) else sc.tx)
  }

  /** `dexProtocolRepository.saveMany(entities, queryRunner.manager)`. */
  function AfterSaveDexProtocols(sc: Scope, rows: seq<DexProtocol>, o: Outcome): Scope
  {
    Scope(sc.db.(calls := sc.db.calls + [SaveDexProtocols(rows)]),
          if o.Ok? then sc.tx.(pendingDexProtocols := sc.tx.pendingDexProtocols + rows) else sc.tx)
  }

  /** A successful commit applies the pending writes to the tables. */
  function AfterCommit(sc: Scope, o: Outcome): Scope
  {
    if o.Ok? then
      Scope(sc.db.(dexInfos := Upsert(sc.db.dexInfos, sc.tx.pendingDexInfos, DexInfoKey),
                   dexProtocols := Upsert(sc.db.dexProtocols, sc.tx.pendingDexProtocols, DexProtocolKey)),
            TxState(Committed, sc.tx.trace + [CommitTransaction], [], []))
    else
      Scope(sc.db, sc.tx.(trace := sc.tx.trace + [CommitTransaction]))
  }

  /** A successful rollback discards the pending writes. */
  function AfterRollback(t: TxState, o: Outcome): TxState
  {
    if o.Ok? then TxState(RolledBack, t.trace + [RollbackTransaction], [], [])
    else t.(trace := t.trace + [RollbackTransaction])
  }

  function AfterRelease(t: TxState, o: Outcome): TxState
  {
    t.(state := if o.Ok? then Released else t.state, trace := t.trace + [Release])
  }

  // ---- The stateful objects ----------------------------------------------

  /** The database seen through its repositories. */
  class Database {
    var chains: map<string, Chain>
    var protocols: map<string, Protocol>
    var stableCoins: map<string, StableCoin>
    var yieldPools: map<string, YieldPool>
    var dexInfos: map<Option<string>, DexInfo>
    var dexProtocols: map<string, DexProtocol>
    var calls: seq<RepoCall>

    function State(): DbState
      reads this
    {
      DbState(chains, protocols, stableCoins, yieldPools, dexInfos, dexProtocols, calls)
    }

    constructor (initial: DbState)
      ensures State() == initial
    {
      chains, protocols, stableCoins := initial.chains, initial.protocols, initial.stableCoins;
      yieldPools, dexInfos, dexProtocols := initial.yieldPools, initial.dexInfos, initial.dexProtocols;
      calls := initial.calls;
    }

    /** `chainRepository.saveMany(rows)`. */
    method SaveManyChains(rows: seq<Chain>, o: Outcome)
      modifies this
      ensures State() == AfterSaveChains(old(State()), rows, o)
    {
      if o.Ok? {
        chains := Upsert(chains, rows, ChainKey);
      }
      calls := calls + [SaveChains(rows)];
    }

    /** `protocolRepository.saveMany(rows)`. */
    method SaveManyProtocols(rows: seq<Protocol>, o: Outcome)
      modifies this
      ensures State() == AfterSaveProtocols(old(State()), rows, o)
    {
      if o.Ok? {
        protocols := Upsert(protocols, rows, ProtocolKey);
      }
      calls := calls + [SaveProtocols(rows)];
    }

    /** `stableCoinRepository.saveMany(rows)`. */
    method SaveManyStableCoins(rows: seq<StableCoin>, o: Outcome)
      modifies this
      ensures State() == AfterSaveStableCoins(old(State()), rows, o)
    {
      if o.Ok? {
        stableCoins := Upsert(stableCoins, rows, StableCoinKey);
      }
      calls := calls + [SaveStableCoins(rows)];
    }

    /** `yieldPoolRepository.saveMany(rows)`. */
    method SaveManyYieldPools(rows: seq<YieldPool>, o: Outcome)
      modifies this
      ensures State() == AfterSaveYieldPools(old(State()), rows, o)
    {
      if o.Ok? {
        yieldPools := Upsert(yieldPools, rows, YieldPoolKey);
      }
      calls := calls + [SaveYieldPools(rows)];
    }

    /** `chainRepository.findByName(name)`; on failure the chain is None. */
    method FindByName(name: string, o: Outcome) returns (chain: Option<Chain>)
      modifies this
      ensures State() == AfterFindByName(old(State()), name)
      ensures chain == if o.Ok? then LookupChain(old(State()), name) else None
    {
      chain := None;
      if o.Ok? && name in chains {
        chain := Some(chains[name]);
      }
      calls := calls + [FindChainByName(name)];
    }

    /** `dexInfoRepository.saveOrUpdate(d, runner.manager)`. */
    method SaveOrUpdateDexInfo(d: DexInfo, runner: QueryRunner, o: Outcome)
      requires runner.db == this
      modifies this, runner
      ensures Scope(State(), runner.Tx()) == AfterSaveDexInfo(old(Scope(State(), runner.Tx())), d, o)
    {
      calls := calls + [SaveDexInfo(d)];
      if o.Ok? {
        runner.pendingDexInfos := runner.pendingDexInfos + [d];
      }
    }

    /** `dexProtocolRepository.saveMany(rows, runner.manager)`. */
    method SaveManyDexProtocols(rows: seq<DexProtocol>, runner: QueryRunner, o: Outcome)
      requires runner.db == this
      modifies this, runner
      ensures Scope(State(), runner.Tx()) == AfterSaveDexProtocols(old(Scope(State(), runner.Tx())), rows, o)
    {
      calls := calls + [SaveDexProtocols(rows)];
      if o.Ok? {
        runner.pendingDexProtocols := runner.pendingDexProtocols + rows;
      }
    }
  }

  /** A TypeORM query runner bound to one database. */
  class QueryRunner {
    const db: Database
    var state: RunnerState
    var trace: seq<RunnerCall>
    var pendingDexInfos: seq<DexInfo>
    var pendingDexProtocols: seq<DexProtocol>

    function Tx(): TxState
      reads this
    {
      TxState(state, trace, pendingDexInfos, pendingDexProtocols)
    }

    /** `dataSource.createQueryRunner()`. */
    constructor (db: Database)
      ensures this.db == db && Tx() == FreshRunner()
    {
      this.db := db;
      state, trace := Created, [];
      pendingDexInfos, pendingDexProtocols := [], [];
    }

    method Connect(o: Outcome)
      requires state == Created
      modifies this
      ensures Tx() == AfterConnect(old(Tx()), o)
    {
      if o.Ok? {
        state := Connected;
      }
      trace := trace + [RunnerCall.Connect];
    }

    method StartTransaction(o: Outcome)
      requires state == Connected
      modifies this
      ensures Tx() == AfterStart(old(Tx()), o)
    {
      if o.Ok? {
        state := InTransaction;
      }
      trace := trace + [RunnerCall.StartTransaction];
    }

    method CommitTransaction(o: Outcome)
      requires state == InTransaction
      modifies this, db
      ensures Scope(db.State(), Tx()) == AfterCommit(old(Scope(db.State(), Tx())), o)
    {
      trace := trace + [RunnerCall.CommitTransaction];
      if o.Ok? {
        db.dexInfos := Upsert(db.dexInfos, pendingDexInfos, DexInfoKey);
        db.dexProtocols := Upsert(db.dexProtocols, pendingDexProtocols, DexProtocolKey);
        state, pendingDexInfos, pendingDexProtocols := Committed, [], [];
      }
    }

    method RollbackTransaction(o: Outcome)
      requires state == InTransaction
      modifies this
      ensures Tx() == AfterRollback(old(Tx()), o)
    {
      trace := trace + [RunnerCall.RollbackTransaction];
      if o.Ok? {
        state, pendingDexInfos, pendingDexProtocols := RolledBack, [], [];
      }
    }

    method Release(o: Outcome)
      requires state != Released
      modifies this
      ensures Tx() == AfterRelease(old(Tx()), o)
    {
      if o.Ok? {
        state := Released;
      }
      trace := trace + [RunnerCall.Release];
    }
  }
}

/** `ApiDefiLlamaService` as an object over the database: each method follows
    the source's statements and is proved to have exactly the effect the
    `Ingestion` functions describe. The HTTP half of each `get*` method is an
    input of the method (a `Fetch`). */
module DefiLlamaService {
  import opened Common
  import opened Entities
  import opened Mappers
  import opened TargetChain
  import opened Persistence
  import opened Ingestion

  class ApiDefiLlamaService {
    /** The repositories and the data source, all over one database. */
    const db: Database

    constructor (db: Database)
      ensures this.db == db
    {
      this.db := db;
    }

    /** `saveAllChains(chains)`. */
    method SaveAllChains(chains: seq<Option<ChainResponse>>, o: Outcome) returns (outcome: Outcome)
      modifies db
      ensures StepResult(db.State(), outcome) == SaveAllChainsStep(old(db.State()), chains, o)
    {
      var chainEntities := ToChainEntities(chains);
      if chainEntities.None? {
        return Fail;
      }
      db.SaveManyChains(chainEntities.value, o);
      outcome := o;
    }

    /** `saveAllProtocols(protocols)`. */
    method SaveAllProtocols(protocols: seq<ProtocolResponse>, o: Outcome) returns (outcome: Outcome)
      modifies db
      ensures StepResult(db.State(), outcome) == SaveAllProtocolsStep(old(db.State()), protocols, o)
    {
      db.SaveManyProtocols(ToProtocols(protocols), o);
      outcome := o;
    }

    /** `saveStableCoins(stableCoins)`. */
    method SaveStableCoins(stableCoins: seq<StableCoinResponse>, o: Outcome) returns (outcome: Outcome)
      modifies db
      ensures StepResult(db.State(), outcome) == SaveStableCoinsStep(old(db.State()), stableCoins, o)
    {
      db.SaveManyStableCoins(ToStableCoins(stableCoins), o);
      outcome := o;
    }

    /** `saveYieldPools(yieldPools)`. */
    method SaveYieldPools(yieldPools: seq<YieldPoolResponse>, o: Outcome) returns (outcome: Outcome)
      modifies db
      ensures StepResult(db.State(), outcome) == SaveYieldPoolsStep(old(db.State()), yieldPools, o)
    {
      db.SaveManyYieldPools(ToYieldPools(yieldPools), o);
      outcome := o;
    }

    /** `saveDexInfo(dexInfo, chain, runner.manager)`: the entity is built and
        upserted through the transaction; the entity is returned. */
    method SaveDexInfo(dexInfo: DexInfoResponse, chain: Option<Chain>, runner: QueryRunner, o: Outcome)
      returns (entity: DexInfo)
      requires runner.db == db
      modifies db, runner
      ensures entity == ToDexInfo(dexInfo, chain)
      ensures Scope(db.State(), runner.Tx()) == AfterSaveDexInfo(old(Scope(db.State(), runner.Tx())), entity, o)
    {
      entity := ToDexInfo(dexInfo, chain);
      db.SaveOrUpdateDexInfo(entity, runner, o);
    }

    /** `saveDexProtocols(dexProtocols, dexInfo, runner.manager)`. */
    method SaveDexProtocols(dexProtocols: seq<DexProtocolResponse>, dexInfo: DexInfo, runner: QueryRunner, o: Outcome)
      returns (entities: seq<DexProtocol>)
      requires runner.db == db
      modifies db, runner
      ensures entities == ToDexProtocols(dexProtocols, dexInfo)
      ensures Scope(db.State(), runner.Tx()) == AfterSaveDexProtocols(old(Scope(db.State(), runner.Tx())), entities, o)
    {
      entities := ToDexProtocols(dexProtocols, dexInfo);
      db.SaveManyDexProtocols(entities, runner, o);
    }

    /** `getDexInfo(chainName)` after its fetch: the transaction around
        `saveDexInfo` and `saveDexProtocols`, with try / catch / finally.
        Also returns the query runner's final state. */
    method GetDexInfo(fetched: Fetch<DexInfoResponse>, f: DexFaults) returns (result: DexResult, runner: TxState)
      modifies db
      ensures DexRun(db.State(), runner, result) == GetDexInfoSpec(old(db.State()), fetched, f)
    {
      if fetched.FetchFailed? {
        return Rejected, FreshRunner();
      }
      var dexInfoResponse := fetched.payload;
      var queryRunner := new QueryRunner(db);
      queryRunner.Connect(f.connect);
      if f.connect.Fail? {
        return Rejected, queryRunner.Tx();
      }
      queryRunner.StartTransaction(f.start);
      if f.start.Fail? {
        return Rejected, queryRunner.Tx();
      }
      ghost var s0 := db.State();
      ghost var t0 := queryRunner.Tx();
      // try
      var saved: Option<DexSaved> := None;
      var chain := db.FindByName(dexInfoResponse.chain, f.findByName);
      if f.findByName.Ok? {
        var dexInfo := SaveDexInfo(dexInfoResponse, chain, queryRunner, f.saveDexInfo);
        if f.saveDexInfo.Ok? {
          var dexProtocolInfo := SaveDexProtocols(dexInfoResponse.protocols, dexInfo, queryRunner, f.saveDexProtocols);
          if f.saveDexProtocols.Ok? {
            queryRunner.CommitTransaction(f.commit);
            if f.commit.Ok? {
              saved := Some(DexSaved(dexInfo, dexProtocolInfo));
            }
          }
        }
      }
      assert Scope(db.State(), queryRunner.Tx()) == DexTry(Scope(s0, t0), dexInfoResponse, f).scope;
      assert saved == DexTry(Scope(s0, t0), dexInfoResponse, f).saved;
      // catch
      var rethrown := false;
      if saved.None? {
        queryRunner.RollbackTransaction(f.rollback);
        rethrown := f.rollback.Fail?;
      }
      // finally
      queryRunner.Release(f.release);
      result := if rethrown || f.release.Fail? then Rejected else Resolved(saved);
      runner := queryRunner.Tx();
    }

    /** `queryDefiLlamaApiForBaseMainnet()`. */
    method QueryDefiLlamaApiForBaseMainnet(inputs: RunInputs, f: RunFaults) returns (result: RunResult)
      modifies db
      ensures RunOutcome(db.State(), result) == Run(old(db.State()), inputs, f)
    {
      if inputs.chains.FetchFailed? {
        return Aborted(ChainsStep);
      }
      var baseMainnet := SelectBaseChain(inputs.chains.payload);
      var outcome := SaveAllChains([baseMainnet], f.saveChains);
      if outcome.Fail? {
        return Aborted(ChainsStep);
      }

      if inputs.protocols.FetchFailed? {
        return Aborted(ProtocolsStep);
      }
      var baseProtocols := BaseProtocols(inputs.protocols.payload);
      outcome := SaveAllProtocols(baseProtocols, f.saveProtocols);
      if outcome.Fail? {
        return Aborted(ProtocolsStep);
      }

      if inputs.stableCoins.FetchFailed? {
        return Aborted(StableCoinsStep);
      }
      var baseStableCoins := BaseStableCoins(inputs.stableCoins.payload);
      outcome := SaveStableCoins(baseStableCoins, f.saveStableCoins);
      if outcome.Fail? {
        return Aborted(StableCoinsStep);
      }

      if inputs.yieldPools.FetchFailed? {
        return Aborted(YieldPoolsStep);
      }
      var baseYieldPools := BaseYieldPools(inputs.yieldPools.payload);
      outcome := SaveYieldPools(baseYieldPools, f.saveYieldPools);
      if outcome.Fail? {
        return Aborted(YieldPoolsStep);
      }

      var dex, _ := GetDexInfo(inputs.dex, f.dex);
      result := if dex.Rejected? then Aborted(DexStep) else Completed;
    }
  }
}

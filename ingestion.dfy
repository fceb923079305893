/** The behaviour of `ApiDefiLlamaService` as functions of the database state:
    the four `save*` steps, `getDexInfo` after its fetch, and the scheduled
    run `queryDefiLlamaApiForBaseMainnet`. HTTP responses are inputs
    (`Fetch`), and every collaborator call has an explicit `Outcome`. A thrown
    or rejected error is an `Outcome` of `Fail`. */
module Ingestion {
  import opened Common
  import opened Entities
  import opened Mappers
  import opened TargetChain
  import opened Persistence

  /** What one `save*` step leaves behind and whether it resolved (Ok) or
      rethrew (Fail). */
  datatype StepResult = StepResult(db: DbState, outcome: Outcome)

  /** `saveAllChains(chains)`: map (which throws on an undefined element,
      before any repository call), then `saveMany`; a failure is rethrown. */
  function SaveAllChainsStep(s: DbState, chains: seq<Option<ChainResponse>>, o: Outcome): (r: StepResult)
    ensures r.outcome.Ok? <==> o.Ok? && forall i :: 0 <= i < |chains| ==> chains[i].Some?
    ensures (exists i :: 0 <= i < |chains| && chains[i].None?) ==> r.db == s
    ensures r.db.protocols == s.protocols && r.db.stableCoins == s.stableCoins && r.db.yieldPools == s.yieldPools
    ensures r.db.dexInfos == s.dexInfos && r.db.dexProtocols == s.dexProtocols
    ensures r.outcome.Fail? ==> r.db.chains == s.chains
    ensures r.outcome.Ok? ==> r.db.chains == Upsert(s.chains, ToChainEntities(chains).value, ChainKey)
  {
    match ToChainEntities(chains)
    case None => StepResult(s, Fail)
    case Some(rows) => StepResult(AfterSaveChains(s, rows, o), o)
  }

  /** `saveAllProtocols(protocols)`. */
  function SaveAllProtocolsStep(s: DbState, ps: seq<ProtocolResponse>, o: Outcome): (r: StepResult)
    ensures r.outcome == o
    ensures r.db.chains == s.chains && r.db.stableCoins == s.stableCoins && r.db.yieldPools == s.yieldPools
    ensures r.db.dexInfos == s.dexInfos && r.db.dexProtocols == s.dexProtocols
    ensures o.Fail? ==> r.db.protocols == s.protocols
    ensures o.Ok? ==> r.db.protocols == Upsert(s.protocols, ToProtocols(ps), ProtocolKey)
  {
    StepResult(AfterSaveProtocols(s, ToProtocols(ps), o), o)
  }

  /** `saveStableCoins(stableCoins)`. */
  function SaveStableCoinsStep(s: DbState, ss: seq<StableCoinResponse>, o: Outcome): (r: StepResult)
    ensures r.outcome == o
    ensures r.db.chains == s.chains && r.db.protocols == s.protocols && r.db.yieldPools == s.yieldPools
    ensures r.db.dexInfos == s.dexInfos && r.db.dexProtocols == s.dexProtocols
    ensures o.Fail? ==> r.db.stableCoins == s.stableCoins
    ensures o.Ok? ==> r.db.stableCoins == Upsert(s.stableCoins, ToStableCoins(ss), StableCoinKey)
  {
    StepResult(AfterSaveStableCoins(s, ToStableCoins(ss), o), o)
  }

  /** `saveYieldPools(yieldPools)`. */
  function SaveYieldPoolsStep(s: DbState, ys: seq<YieldPoolResponse>, o: Outcome): (r: StepResult)
    ensures r.outcome == o
    ensures r.db.chains == s.chains && r.db.protocols == s.protocols && r.db.stableCoins == s.stableCoins
    ensures r.db.dexInfos == s.dexInfos && r.db.dexProtocols == s.dexProtocols
    ensures o.Fail? ==> r.db.yieldPools == s.yieldPools
    ensures o.Ok? ==> r.db.yieldPools == Upsert(s.yieldPools, ToYieldPools(ys), YieldPoolKey)
  {
    StepResult(AfterSaveYieldPools(s, ToYieldPools(ys), o), o)
  }

  // ---- getDexInfo -------------------------------------------------------

  /** The outcome of every collaborator call `getDexInfo` can make. */
  datatype DexFaults = DexFaults(
    connect: Outcome,
    start: Outcome,
    findByName: Outcome,
    saveDexInfo: Outcome,
    saveDexProtocols: Outcome,
    commit: Outcome,
    rollback: Outcome,
    release: Outcome)

  /** The `{ dexInfo, dexProtocolInfo }` that `getDexInfo` returns. */
  datatype DexSaved = DexSaved(dexInfo: DexInfo, dexProtocols: seq<DexProtocol>)

  /** `getDexInfo` resolves to the saved pair, resolves to undefined (None)
      after a rollback, or rejects. */
  datatype DexResult = Resolved(value: Option<DexSaved>) | Rejected

  /** The database and query runner after `getDexInfo`, and its result. */
  datatype DexRun = DexRun(db: DbState, runner: TxState, result: DexResult)

  /** Where the try block leaves the scope, and the pair it would return if
      no call in it threw. */
  datatype TryResult = TryResult(scope: Scope, saved: Option<DexSaved>)

  /** The try block: `findByName`, `saveDexInfo`, `saveDexProtocols`, commit.
      The first call that fails ends it. */
  function DexTry(sc: Scope, r: DexInfoResponse, f: DexFaults): TryResult
  {
    var found := if f.findByName.Ok? then LookupChain(sc.db, r.chain) else None;
    var sc1 := Scope(AfterFindByName(sc.db, r.chain), sc.tx);
    if f.findByName.Fail? then TryResult(sc1, None)
    else
      var d := ToDexInfo(r, found);
      var sc2 := AfterSaveDexInfo(sc1, d, f.saveDexInfo);
      if f.saveDexInfo.Fail? then TryResult(sc2, None)
      else
        var ps := ToDexProtocols(r.protocols, d);
        var sc3 := AfterSaveDexProtocols(sc2, ps, f.saveDexProtocols);
        if f.saveDexProtocols.Fail? then TryResult(sc3, None)
        else
          var sc4 := AfterCommit(sc3, f.commit);
          if f.commit.Fail? then TryResult(sc4, None)
          else TryResult(sc4, Some(DexSaved(d, ps)))
  }

  /** `getDexInfo(chainName)` after its HTTP fetch. `connect` and
      `startTransaction` run before the try, so their failure rejects with no
      rollback and no release. Inside, a failure is caught: rollback, and the
      promise resolves to undefined unless the rollback itself throws. The
      finally block always releases; a failing release rejects. */
  function GetDexInfoSpec(s: DbState, fetched: Fetch<DexInfoResponse>, f: DexFaults): DexRun
  {
    match fetched
    // The fetch rejects before `createQueryRunner()` runs, so no runner is
    // ever created; `FreshRunner()` stands for that absent runner.
    case FetchFailed => DexRun(s, FreshRunner(), Rejected)
    case Fetched(r) =>
      var t1 := AfterConnect(FreshRunner(), f.connect);
      if f.connect.Fail? then DexRun(s, t1, Rejected)
      else
        var t2 := AfterStart(t1, f.start);
        if f.start.Fail? then DexRun(s, t2, Rejected)
        else
          var tried := DexTry(Scope(s, t2), r, f);
          var caught := if tried.saved.None? then AfterRollback(tried.scope.tx, f.rollback)
                        else tried.scope.tx;
          var rethrown := tried.saved.None? && f.rollback.Fail?;
          var released := AfterRelease(caught, f.release);
          DexRun(tried.scope.db, released,
                 if rethrown || f.release.Fail? then Rejected else Resolved(tried.saved))
  }

  // ---- The scheduled run ------------------------------------------------

  /** The five steps of a run, in the order they happen. */
  datatype Step = ChainsStep | ProtocolsStep | StableCoinsStep | YieldPoolsStep | DexStep

  function StepIndex(st: Step): nat
  {
    match st
    case ChainsStep => 0
    case ProtocolsStep => 1
    case StableCoinsStep => 2
    case YieldPoolsStep => 3
    case DexStep => 4
  }

  /** The position a repository call has in the run's fixed order:
      saveMany of chains, protocols, stablecoins and pools, then findByName,
      saveOrUpdate of the DexInfo and saveMany of its DexProtocols. */
  function CallRank(c: RepoCall): nat
  {
    match c
    case SaveChains(_) => 0
    case SaveProtocols(_) => 1
    case SaveStableCoins(_) => 2
    case SaveYieldPools(_) => 3
    case FindChainByName(_) => 4
    case SaveDexInfo(_) => 5
    case SaveDexProtocols(_) => 6
  }

  /** `calls` extends `base`, and the calls added after it take consecutive
      positions of the fixed order, starting at `start`. */
  predicate RankedFrom(base: seq<RepoCall>, calls: seq<RepoCall>, start: nat)
  {
    base <= calls &&
    forall i :: |base| <= i < |calls| ==> CallRank(calls[i]) == start + i - |base|
  }

  /** What the five HTTP calls of a run returned. */
  datatype RunInputs = RunInputs(
    chains: Fetch<seq<ChainResponse>>,
    protocols: Fetch<seq<ProtocolResponse>>,
    stableCoins: Fetch<seq<StableCoinResponse>>,
    yieldPools: Fetch<seq<YieldPoolResponse>>,
    dex: Fetch<DexInfoResponse>)

  /** The outcome of every repository and query-runner call of a run. */
  datatype RunFaults = RunFaults(
    saveChains: Outcome,
    saveProtocols: Outcome,
    saveStableCoins: Outcome,
    saveYieldPools: Outcome,
    dex: DexFaults)

  /** A run resolves, or rejects with the error of the step named. */
  datatype RunResult = Completed | Aborted(at: Step)

  datatype RunOutcome = RunOutcome(db: DbState, result: RunResult)

  /** Step 1: fetch the chains, pick the first named "Base", save it alone. */
  function ChainsPhase(s: DbState, inputs: RunInputs, f: RunFaults): StepResult
  {
    match inputs.chains
    case FetchFailed => StepResult(s, Fail)
    case Fetched(cs) => SaveAllChainsStep(s, [SelectBaseChain(cs)], f.saveChains)
  }

  /** Step 2: fetch the protocols, keep those listing "Base", save them. */
  function ProtocolsPhase(s: DbState, inputs: RunInputs, f: RunFaults): StepResult
  {
    match inputs.protocols
    case FetchFailed => StepResult(s, Fail)
    case Fetched(ps) => SaveAllProtocolsStep(s, BaseProtocols(ps), f.saveProtocols)
  }

  /** Step 3: fetch the stablecoins, keep those listing "Base", save them. */
  function StableCoinsPhase(s: DbState, inputs: RunInputs, f: RunFaults): StepResult
  {
    match inputs.stableCoins
    case FetchFailed => StepResult(s, Fail)
    case Fetched(ss) => SaveStableCoinsStep(s, BaseStableCoins(ss), f.saveStableCoins)
  }

  /** Step 4: fetch the pools, keep those whose chain is "Base", save them. */
  function YieldPoolsPhase(s: DbState, inputs: RunInputs, f: RunFaults): StepResult
  {
    match inputs.yieldPools
    case FetchFailed => StepResult(s, Fail)
    case Fetched(ys) => SaveYieldPoolsStep(s, BaseYieldPools(ys), f.saveYieldPools)
  }

  /** `queryDefiLlamaApiForBaseMainnet()`: the five steps in order; a step
      that rethrows ends the run. Step 5 is `getDexInfo`, whose own errors
      inside its try are swallowed. */
  function Run(s: DbState, inputs: RunInputs, f: RunFaults): RunOutcome
  {
    var c := ChainsPhase(s, inputs, f);
    if c.outcome.Fail? then RunOutcome(c.db, Aborted(ChainsStep))
    else RunFromProtocols(c.db, inputs, f)
  }

  /** The rest of a run once step 1 has resolved. */
  function RunFromProtocols(s: DbState, inputs: RunInputs, f: RunFaults): RunOutcome
  {
    var p := ProtocolsPhase(s, inputs, f);
    if p.outcome.Fail? then RunOutcome(p.db, Aborted(ProtocolsStep))
    else RunFromStableCoins(p.db, inputs, f)
  }

  /** The rest of a run once steps 1 and 2 have resolved. */
  function RunFromStableCoins(s: DbState, inputs: RunInputs, f: RunFaults): RunOutcome
  {
    var sc := StableCoinsPhase(s, inputs, f);
    if sc.outcome.Fail? then RunOutcome(sc.db, Aborted(StableCoinsStep))
    else RunFromYieldPools(sc.db, inputs, f)
  }

  /** The rest of a run once steps 1 to 3 have resolved. */
  function RunFromYieldPools(s: DbState, inputs: RunInputs, f: RunFaults): RunOutcome
  {
    var y := YieldPoolsPhase(s, inputs, f);
    if y.outcome.Fail? then RunOutcome(y.db, Aborted(YieldPoolsStep))
    else RunFromDex(y.db, inputs, f)
  }

  /** Step 5: `getDexInfo` resolves unless its own rethrow or its release
      fails; its swallowed errors do not end the run. */
  function RunFromDex(s: DbState, inputs: RunInputs, f: RunFaults): RunOutcome
  {
    var d := GetDexInfoSpec(s, inputs.dex, f.dex);
    RunOutcome(d.db, if d.result.Rejected? then Aborted(DexStep) else Completed)
  }
}

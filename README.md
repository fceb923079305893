# DefiLlama ingestion for the Base chain, in Dafny

This project models the scheduler's `ApiDefiLlamaService`. On every run it
reads DefiLlama's public data about blockchains and decentralised-finance
projects and keeps only what concerns the "Base" chain. It then upserts that
data into six tables: Chain, Protocol, StableCoin, YieldPool, DexInfo and
DexProtocol.

A run (`queryDefiLlamaApiForBaseMainnet`) has five steps, in this order:

1. Pick the first chain named "Base" and save it alone.
2. Save the protocols whose `chains` include "Base".
3. Save the stablecoins whose `chains` include "Base".
4. Save the yield pools whose `chain` is "Base".
5. Fetch the DEX overview and open a transaction. Look up the chain named
   by the overview's own `chain` field, through the chain repository and so
   outside the transaction. Then, through the transaction's manager, save
   the DexInfo row and every DexProtocol row pointing at it.

An error inside the `save*` method of steps 1 to 4 is logged and
rethrown. Such an error is a failed `saveMany`, or in step 1 the missing
Base chain that the mapping reads. A failed fetch in those steps rejects
without being logged. Either way the run ends there.
Writes made by earlier steps stay in place. Step 5 rolls back and swallows
any error raised inside its `try`, and always releases the query runner in
`finally`.

The model has these parts:

- `Entities`: the upstream response records and the database entities.
- `Mappers`: response-to-entity mappers, each paired with its inverse.
- `ArrayOps`: `map`, `filter` and `find` on sequences.
- `TargetChain`: the "Base" selection and the three filters.
- `Persistence`: the tables as maps and upsert by natural key. It also holds
  the `Database` and `QueryRunner` classes, whose methods change the stored
  state. Their meaning is given by the pure functions `AfterSave…`,
  `AfterCommit`, `AfterRollback` and so on.
- `Ingestion`: one pure function per step, `GetDexInfoSpec` for step 5, and
  `Run` for a whole run.
- `DefiLlamaService`: the service class. Its methods are proved equal to
  those functions.
- `DexProperties` and `RunProperties`: the properties proved about the model.

Inputs:

- Each HTTP response is an input, either the payload or `FetchFailed`.
- Each repository or query-runner call takes an outcome, `Ok` or `Fail`.

A run can therefore be stated for every combination of responses and
failures.

Some behaviour of the code that is easy to miss:

- `connect()` and `startTransaction()` (lines 107-108) sit outside the
  `try`, so if either fails, `release()` is never called.
- If no chain is named "Base", `find` yields `undefined`. `saveAllChains`
  then fails inside its `map` (line 149), before `saveMany` is reached.
  Step 1 rejects, and nothing is written or logged as a repository call.
- A failing `commitTransaction()` is inside the `try`, so the `catch` then
  calls `rollbackTransaction()`.
- An error from `rollbackTransaction()` in the `catch` propagates. So does
  an error from `release()` in the `finally`, which overrides the return
  value. Either one makes `getDexInfo` reject, and the run with it.

## Model

| member | source | states |
|---|---|---|
| ArrayOps.MapSeq | apps/scheduler/src/services/defiLlama/api.defillama.service.ts:147-156 | `Array.map`: the result has the input's length and holds `f` of each element at the same index |
| ArrayOps.Filter | apps/scheduler/src/services/defiLlama/api.defillama.service.ts:367-369 | `Array.filter`: never longer than the input; every element kept satisfies the predicate and comes from the input; every input element satisfying it is kept |
| ArrayOps.FilterIsSubsequence | apps/scheduler/src/services/defiLlama/api.defillama.service.ts:367-369 | the kept elements appear in their original order |
| ArrayOps.FilterMultiplicity | apps/scheduler/src/services/defiLlama/api.defillama.service.ts:367-369 | each value occurs in the result exactly as often as in the input if it satisfies the predicate, and not at all otherwise |
| ArrayOps.FindIndex | apps/scheduler/src/services/defiLlama/api.defillama.service.ts:362 | gives the index of the first element satisfying the predicate, and none exactly when no element does |
| ArrayOps.Find | apps/scheduler/src/services/defiLlama/api.defillama.service.ts:362 | `Array.find`: `undefined` exactly when no element matches; otherwise the first element that matches |
| Mappers.ToChain | apps/scheduler/src/services/defiLlama/api.defillama.service.ts:148-155 | `geckoId` is `gecko_id` and `name` is kept; the inverse gives back the response, so no field is lost |
| Mappers.ToProtocol | apps/scheduler/src/services/defiLlama/api.defillama.service.ts:175-185 | `protocolId` is `id` and `chains` is kept; the inverse gives back the response |
| Mappers.ToStableCoin | apps/scheduler/src/services/defiLlama/api.defillama.service.ts:205-219 | the four `circulating*PeggedUSD` fields are the nested `peggedUSD` values; the inverse gives back the response |
| Mappers.ToYieldPool | apps/scheduler/src/services/defiLlama/api.defillama.service.ts:239-268 | `chain` and `pool` are kept; the inverse gives back the response |
| Mappers.ToDexProtocol | apps/scheduler/src/services/defiLlama/api.defillama.service.ts:319-352 | the entity holds the `dexInfo` given and the response's `defillamaId`; the inverse gives back the response |
| Mappers.ToChainEntities | apps/scheduler/src/services/defiLlama/api.defillama.service.ts:147-156 | the chain mapping fails exactly when an element is `undefined`; otherwise it is pointwise, `geckoId` is `gecko_id`, and the inverse gives back every response |
| Mappers.ToProtocols | apps/scheduler/src/services/defiLlama/api.defillama.service.ts:174-186 | pointwise; `protocolId` is the response's `id`; no other field is lost (the inverse gives back each response) |
| Mappers.ToStableCoins | apps/scheduler/src/services/defiLlama/api.defillama.service.ts:204-220 | the four `circulating*PeggedUSD` fields equal the `peggedUSD` of `circulating`, `circulatingPrevDay`, `circulatingPrevWeek` and `circulatingPrevMonth`; the inverse gives back each response |
| Mappers.ToYieldPools | apps/scheduler/src/services/defiLlama/api.defillama.service.ts:238-269 | pointwise copy keeping `chain` and `pool`; the inverse gives back each response |
| Mappers.ToDexInfo | apps/scheduler/src/services/defiLlama/api.defillama.service.ts:284-305 | the entity's `chain` is the chain passed in; its other fields give back the response |
| Mappers.ToDexProtocols | apps/scheduler/src/services/defiLlama/api.defillama.service.ts:318-353 | every DexProtocol holds the same given DexInfo, keeps its `defillamaId`, and maps back to its response |
| TargetChain.SelectBaseChain | apps/scheduler/src/services/defiLlama/api.defillama.service.ts:362 | `undefined` exactly when no chain is named "Base"; otherwise the first chain named "Base" |
| TargetChain.ListsBase | apps/scheduler/src/services/defiLlama/api.defillama.service.ts:368 | defines the truthiness test on `chains.find(chain => chain === 'Base')` used by the protocol and stablecoin filters; its property is `TargetChain.ListsBaseIsMembership` |
| TargetChain.BaseProtocols | apps/scheduler/src/services/defiLlama/api.defillama.service.ts:367-369 | defines the protocol filter of step 2; its properties are `TargetChain.BaseProtocolsExact` |
| TargetChain.BaseStableCoins | apps/scheduler/src/services/defiLlama/api.defillama.service.ts:375-377 | defines the stablecoin filter of step 3; its properties are `TargetChain.BaseStableCoinsExact` |
| TargetChain.BaseYieldPools | apps/scheduler/src/services/defiLlama/api.defillama.service.ts:384 | defines the pool filter of step 4; its properties are `TargetChain.BaseYieldPoolsExact` |
| TargetChain.ListsBaseIsMembership | apps/scheduler/src/services/defiLlama/api.defillama.service.ts:367-369 | the truthiness test on `chains.find(chain => chain === 'Base')` holds exactly when "Base" is in the list |
| TargetChain.BaseProtocolsExact | apps/scheduler/src/services/defiLlama/api.defillama.service.ts:367-369 | the protocols kept are, in order and with multiplicity, exactly those listing "Base" |
| TargetChain.BaseStableCoinsExact | apps/scheduler/src/services/defiLlama/api.defillama.service.ts:375-377 | the stablecoins kept are, in order and with multiplicity, exactly those listing "Base" |
| TargetChain.BaseYieldPoolsExact | apps/scheduler/src/services/defiLlama/api.defillama.service.ts:384 | the pools kept are, in order and with multiplicity, exactly those whose chain is "Base" |
| Persistence.KeysOf | apps/scheduler/src/services/defiLlama/api.defillama.service.ts:159 | every row's key is among the keys of its batch |
| Persistence.KeysOfOnlyRowKeys | apps/scheduler/src/services/defiLlama/api.defillama.service.ts:159 | every key of a batch is the key of one of its rows, so with `KeysOf` the keys are exactly the rows' keys |
| Persistence.Upsert | apps/scheduler/src/services/defiLlama/api.defillama.service.ts:159 | `saveMany` as an upsert: the table's keys become the old keys plus the rows' keys; rows under other keys are untouched |
| Persistence.UpsertLastWins | apps/scheduler/src/services/defiLlama/api.defillama.service.ts:159 | of the upsert assumed behind every `saveMany` (lines 159, 189, 223, 272, 356) and `saveOrUpdate` (line 306): a row whose key does not recur later in the batch is what the table holds under that key |
| Persistence.UpsertOwnKeys | apps/scheduler/src/services/defiLlama/api.defillama.service.ts:159 | of the upsert assumed behind every `saveMany` (lines 159, 189, 223, 272, 356) and `saveOrUpdate` (line 306): what a batch stores under its own keys does not depend on what the table held before |
| Persistence.UpsertIdempotent | apps/scheduler/src/services/defiLlama/api.defillama.service.ts:159 | of the upsert assumed behind every `saveMany` (lines 159, 189, 223, 272, 356) and `saveOrUpdate` (line 306): saving the same batch twice leaves the table as saving it once; rows are overwritten, never duplicated |
| Persistence.UpsertOwnKeyFromRows | apps/scheduler/src/services/defiLlama/api.defillama.service.ts:159 | of the upsert assumed behind every `saveMany` (lines 159, 189, 223, 272, 356) and `saveOrUpdate` (line 306): what a batch stores under one of its keys is one of its rows |
| Persistence.UpsertOne | apps/scheduler/src/services/defiLlama/api.defillama.service.ts:159 | of the upsert assumed behind every `saveMany` (lines 159, 189, 223, 272, 356) and `saveOrUpdate` (line 306): upserting a single row sets the table at that row's key |
| Persistence.AfterSaveChains | apps/scheduler/src/services/defiLlama/api.defillama.service.ts:159 | assumed meaning of `chainRepository.saveMany`: the call is logged; on success the rows are upserted by name; a failure writes nothing |
| Persistence.AfterSaveProtocols | apps/scheduler/src/services/defiLlama/api.defillama.service.ts:189 | the same for `protocolRepository.saveMany`, keyed by `protocolId` |
| Persistence.AfterSaveStableCoins | apps/scheduler/src/services/defiLlama/api.defillama.service.ts:223 | the same for `stableCoinRepository.saveMany`, keyed by `geckoId` |
| Persistence.AfterSaveYieldPools | apps/scheduler/src/services/defiLlama/api.defillama.service.ts:272 | the same for `yieldPoolRepository.saveMany`, keyed by `pool` |
| Persistence.LookupChain | apps/scheduler/src/services/defiLlama/api.defillama.service.ts:112 | assumed meaning of `findByName`: the stored chain of that name, or none |
| Persistence.AfterFindByName | apps/scheduler/src/services/defiLlama/api.defillama.service.ts:112 | defines the `findByName` call: logged, with no table changed; its properties are `Persistence.Database.FindByName` and `DexProperties.DexTryCalls` |
| Persistence.FreshRunner | apps/scheduler/src/services/defiLlama/api.defillama.service.ts:106 | defines the runner `createQueryRunner()` returns: not connected, no calls made, nothing buffered; its properties are `Persistence.QueryRunner.constructor` and `DexProperties.DexRunnerTrace` |
| Persistence.AfterConnect | apps/scheduler/src/services/defiLlama/api.defillama.service.ts:107 | defines `connect`: logged, and on success the runner is connected; its properties are `Persistence.QueryRunner.Connect` and `DexProperties.DexRunnerTrace` |
| Persistence.AfterStart | apps/scheduler/src/services/defiLlama/api.defillama.service.ts:108 | defines `startTransaction`: logged, and on success a transaction is open; its properties are `Persistence.QueryRunner.StartTransaction` and `DexProperties.DexRunnerTrace` |
| Persistence.AfterRelease | apps/scheduler/src/services/defiLlama/api.defillama.service.ts:136 | defines `release`: logged, and on success the runner is released; its properties are `Persistence.QueryRunner.Release`, `DexProperties.DexRunnerEndsReleased` and `DexProperties.DexReleasedExactlyOnce` |
| Persistence.AfterSaveDexInfo | apps/scheduler/src/services/defiLlama/api.defillama.service.ts:306 | assumed meaning of `saveOrUpdate` through the runner's manager: the call is logged and, on success, the row is buffered in the transaction |
| Persistence.AfterSaveDexProtocols | apps/scheduler/src/services/defiLlama/api.defillama.service.ts:356 | the same for `dexProtocolRepository.saveMany` through the manager |
| Persistence.AfterCommit | apps/scheduler/src/services/defiLlama/api.defillama.service.ts:124 | assumed meaning of `commitTransaction`: on success the buffered rows are upserted into the DexInfo and DexProtocol tables and the buffer is emptied; on failure only the trace changes |
| Persistence.AfterRollback | apps/scheduler/src/services/defiLlama/api.defillama.service.ts:130 | assumed meaning of `rollbackTransaction`: on success the buffer is discarded and no table is written |
| Persistence.Database.SaveManyChains | apps/scheduler/src/services/defiLlama/api.defillama.service.ts:159 | the call is logged and, if it succeeds, the Chain table is upserted; nothing else changes |
| Persistence.Database.SaveManyProtocols | apps/scheduler/src/services/defiLlama/api.defillama.service.ts:189 | as above, for the Protocol table |
| Persistence.Database.SaveManyStableCoins | apps/scheduler/src/services/defiLlama/api.defillama.service.ts:223 | as above, for the StableCoin table |
| Persistence.Database.SaveManyYieldPools | apps/scheduler/src/services/defiLlama/api.defillama.service.ts:272 | as above, for the YieldPool table |
| Persistence.Database.FindByName | apps/scheduler/src/services/defiLlama/api.defillama.service.ts:112 | `findByName` returns the stored chain of that name, if any; only the call log changes |
| Persistence.Database.SaveOrUpdateDexInfo | apps/scheduler/src/services/defiLlama/api.defillama.service.ts:306 | through the transaction's manager the row is buffered in the transaction; the tables change only at commit |
| Persistence.Database.SaveManyDexProtocols | apps/scheduler/src/services/defiLlama/api.defillama.service.ts:356 | the rows are buffered in the transaction the same way |
| Persistence.QueryRunner.constructor | apps/scheduler/src/services/defiLlama/api.defillama.service.ts:106 | a new runner is created, not connected, with nothing buffered |
| Persistence.QueryRunner.Connect | apps/scheduler/src/services/defiLlama/api.defillama.service.ts:107 | `connect` is logged, and on success the runner is connected |
| Persistence.QueryRunner.StartTransaction | apps/scheduler/src/services/defiLlama/api.defillama.service.ts:108 | `startTransaction` is logged, and on success a transaction is open |
| Persistence.QueryRunner.CommitTransaction | apps/scheduler/src/services/defiLlama/api.defillama.service.ts:124 | on success the buffered DexInfo and DexProtocol rows are upserted into their tables and the buffer is emptied; on failure only the log changes |
| Persistence.QueryRunner.RollbackTransaction | apps/scheduler/src/services/defiLlama/api.defillama.service.ts:130 | on success the buffer is discarded with no table written |
| Persistence.QueryRunner.Release | apps/scheduler/src/services/defiLlama/api.defillama.service.ts:136 | `release` is logged, and on success the runner is released |
| Ingestion.SaveAllChainsStep | apps/scheduler/src/services/defiLlama/api.defillama.service.ts:144-166 | `saveAllChains` resolves exactly when no element is `undefined` and `saveMany` succeeds; an `undefined` element rejects with nothing changed; only the Chain table can change, and on success it holds the upsert of the mapped chains |
| Ingestion.SaveAllProtocolsStep | apps/scheduler/src/services/defiLlama/api.defillama.service.ts:171-196 | `saveAllProtocols` rethrows exactly the outcome of `saveMany`; only the Protocol table can change, a failure changes none, and on success it holds the upsert of the mapped protocols |
| Ingestion.SaveStableCoinsStep | apps/scheduler/src/services/defiLlama/api.defillama.service.ts:201-230 | the same for `saveStableCoins` and the StableCoin table, upserted with the flattened stablecoins |
| Ingestion.SaveYieldPoolsStep | apps/scheduler/src/services/defiLlama/api.defillama.service.ts:235-279 | the same for `saveYieldPools` and the YieldPool table, upserted with the mapped pools |
| Ingestion.DexTry | apps/scheduler/src/services/defiLlama/api.defillama.service.ts:110-128 | defines the `try` block: findByName, saveDexInfo, saveDexProtocols, commit, ended by the first failure; its properties are `DexProperties.DexTryFacts` and `DexProperties.DexTryCalls` |
| Ingestion.GetDexInfoSpec | apps/scheduler/src/services/defiLlama/api.defillama.service.ts:92-138 | defines `getDexInfo`: fetch, connect and start outside the `try`, then try, catch with rollback, and release in `finally`; its properties are the `DexProperties` lemmas |
| Ingestion.ChainsPhase | apps/scheduler/src/services/defiLlama/api.defillama.service.ts:361-363 | defines step 1: fetch the chains, pick the Base chain, save it alone; its properties are `RunProperties.ChainsPhaseFacts` |
| Ingestion.ProtocolsPhase | apps/scheduler/src/services/defiLlama/api.defillama.service.ts:365-371 | defines step 2; its properties are `RunProperties.ProtocolsPhaseFacts` |
| Ingestion.StableCoinsPhase | apps/scheduler/src/services/defiLlama/api.defillama.service.ts:373-378 | defines step 3; its properties are `RunProperties.StableCoinsPhaseFacts` |
| Ingestion.YieldPoolsPhase | apps/scheduler/src/services/defiLlama/api.defillama.service.ts:380-386 | defines step 4; its properties are `RunProperties.YieldPoolsPhaseFacts` |
| Ingestion.Run | apps/scheduler/src/services/defiLlama/api.defillama.service.ts:360-389 | defines a whole run: the five steps in order, stopping at the first that rejects; its properties are `RunProperties.RunTables`, `RunCallOrder`, `RunResultCases` and `RunIdempotent` |
| Ingestion.RunFromProtocols | apps/scheduler/src/services/defiLlama/api.defillama.service.ts:365-389 | defines the rest of a run after step 1; proved about it stage by stage in `RunProperties` |
| Ingestion.RunFromStableCoins | apps/scheduler/src/services/defiLlama/api.defillama.service.ts:373-389 | defines the rest of a run after step 2 |
| Ingestion.RunFromYieldPools | apps/scheduler/src/services/defiLlama/api.defillama.service.ts:380-389 | defines the rest of a run after step 3 |
| Ingestion.RunFromDex | apps/scheduler/src/services/defiLlama/api.defillama.service.ts:388 | defines step 5: `getDexInfo`, whose rejection rejects the run and whose swallowed errors do not |
| DexProperties.DexTryFacts | apps/scheduler/src/services/defiLlama/api.defillama.service.ts:110-128 | the `try` block commits exactly when all four of its calls succeed, and then both entities were built from the looked-up chain; otherwise no table changed |
| DexProperties.DexAllOrNothing | apps/scheduler/src/services/defiLlama/api.defillama.service.ts:106-137 | the DexInfo row and all its DexProtocol rows are written together if the transaction commits, and neither is written otherwise; no other table changes |
| DexProperties.DexCommittedRowsConsistent | apps/scheduler/src/services/defiLlama/api.defillama.service.ts:114-124 | after a commit the DexInfo row is stored, and every DexProtocol row written references exactly that row |
| DexProperties.DexResultCases | apps/scheduler/src/services/defiLlama/api.defillama.service.ts:110-137 | resolves with `{ dexInfo, dexProtocolInfo }` exactly when every call succeeds; resolves `undefined` (error swallowed) exactly when a `try` call fails but rollback and release succeed; rejects otherwise |
| DexProperties.DexOpenedTrace | apps/scheduler/src/services/defiLlama/api.defillama.service.ts:106-137 | once the transaction is open, the runner's calls are connect, start, the commit when every save succeeded, the rollback unless the commit succeeded, and the release |
| DexProperties.DexRunnerTrace | apps/scheduler/src/services/defiLlama/api.defillama.service.ts:106-137 | the exact sequence of query-runner calls in each case, including commit-then-rollback when the commit fails, and no release when connect or start fails |
| DexProperties.DexRunnerEndsReleased | apps/scheduler/src/services/defiLlama/api.defillama.service.ts:135-137 | the runner ends released exactly when the transaction was opened and `release` succeeded |
| DexProperties.DexReleasedExactlyOnce | apps/scheduler/src/services/defiLlama/api.defillama.service.ts:106-137 | once the transaction is opened, `release` is called exactly once and last; otherwise it is never called |
| DexProperties.DexTryCalls | apps/scheduler/src/services/defiLlama/api.defillama.service.ts:112-120 | the repository calls of the `try`: findByName, then the DexInfo save, then the DexProtocol save, stopping at the first failure, with the rows the mappers build |
| DexProperties.DexAddedCalls | apps/scheduler/src/services/defiLlama/api.defillama.service.ts:106-137 | `getDexInfo` logs exactly the repository calls of its `try` block when the transaction was opened, and none otherwise |
| DexProperties.DexRepositoryCalls | apps/scheduler/src/services/defiLlama/api.defillama.service.ts:106-137 | `getDexInfo` makes at most three repository calls, in that fixed order, and makes some exactly when the transaction was opened |
| RunProperties.ChainsPhaseFacts | apps/scheduler/src/services/defiLlama/api.defillama.service.ts:361-363 | step 1 succeeds exactly when a chain named "Base" was returned and the save succeeded; it changes only the Chain table and the call log; the one row saved is the mapped Base chain |
| RunProperties.ProtocolsPhaseFacts | apps/scheduler/src/services/defiLlama/api.defillama.service.ts:365-371 | step 2 succeeds exactly when the fetch and the save do; it upserts only the Protocol table, with the mapped Base protocols |
| RunProperties.StableCoinsPhaseFacts | apps/scheduler/src/services/defiLlama/api.defillama.service.ts:373-378 | the same for step 3 and the StableCoin table |
| RunProperties.YieldPoolsPhaseFacts | apps/scheduler/src/services/defiLlama/api.defillama.service.ts:380-386 | the same for step 4 and the YieldPool table |
| RunProperties.ChainRowsAreBase | apps/scheduler/src/services/defiLlama/api.defillama.service.ts:362-363 | the chain handed to `saveMany` is named "Base" |
| RunProperties.ProtocolRowsAreBase | apps/scheduler/src/services/defiLlama/api.defillama.service.ts:367-371 | every protocol handed to `saveMany` lists "Base" |
| RunProperties.StableCoinRowsAreBase | apps/scheduler/src/services/defiLlama/api.defillama.service.ts:375-378 | every stablecoin handed to `saveMany` lists "Base" |
| RunProperties.YieldPoolRowsAreBase | apps/scheduler/src/services/defiLlama/api.defillama.service.ts:384-386 | every pool handed to `saveMany` has chain "Base" |
| RunProperties.RunCallOrder | apps/scheduler/src/services/defiLlama/api.defillama.service.ts:360-389 | a run's repository calls follow the fixed step order, cut short at the failing step; a step rejecting leaves later steps uncalled; no call carries a row of another chain |
| RunProperties.RunTables | apps/scheduler/src/services/defiLlama/api.defillama.service.ts:360-389 | each table is upserted with its step's rows exactly when that step finished; earlier writes survive a later rejection; the DEX tables are upserted together exactly when steps 1-4 finished and the transaction committed |
| RunProperties.RunResultCases | apps/scheduler/src/services/defiLlama/api.defillama.service.ts:360-389 | a run finishes the steps that succeed, in order, up to the first that fails; it resolves exactly when all five succeed, where a swallowed DEX error still counts as success |
| RunProperties.RunResultIndependent | apps/scheduler/src/services/defiLlama/api.defillama.service.ts:360-389 | for the same responses and call outcomes, the run's result does not depend on the database contents it starts from |
| RunProperties.NoBaseChainAbortsRun | apps/scheduler/src/services/defiLlama/api.defillama.service.ts:361-363 | when no chain is named "Base", the run rejects in step 1 and the state is unchanged |
| RunProperties.RunSavesOneBaseChain | apps/scheduler/src/services/defiLlama/api.defillama.service.ts:361-363 | step 1 writes exactly one Chain row, under "Base", holding the first Base element; every other row stays |
| RunProperties.BaseChainScenario | apps/scheduler/src/services/defiLlama/api.defillama.service.ts:361-363 | over an empty Chain table, the response `[Ethereum, Base (tvl 123, chainId 8453)]` leaves exactly one row, the Base chain |
| RunProperties.RunIdempotent | apps/scheduler/src/services/defiLlama/api.defillama.service.ts:360-389 | running twice with the same responses and outcomes leaves every table as one run did |
| DefiLlamaService.ApiDefiLlamaService.SaveAllChains | apps/scheduler/src/services/defiLlama/api.defillama.service.ts:144-166 | the new state and outcome are those of step 1's save: map, then `saveMany`, with a mapping failure or a save failure rethrown |
| DefiLlamaService.ApiDefiLlamaService.SaveAllProtocols | apps/scheduler/src/services/defiLlama/api.defillama.service.ts:171-196 | the same for protocols |
| DefiLlamaService.ApiDefiLlamaService.SaveStableCoins | apps/scheduler/src/services/defiLlama/api.defillama.service.ts:201-230 | the same for stablecoins |
| DefiLlamaService.ApiDefiLlamaService.SaveYieldPools | apps/scheduler/src/services/defiLlama/api.defillama.service.ts:235-279 | the same for yield pools |
| DefiLlamaService.ApiDefiLlamaService.SaveDexInfo | apps/scheduler/src/services/defiLlama/api.defillama.service.ts:284-307 | builds the DexInfo literal with the chain given and saves it through the transaction; the result is that built entity, which the model takes to be what `saveOrUpdate` resolves to |
| DefiLlamaService.ApiDefiLlamaService.SaveDexProtocols | apps/scheduler/src/services/defiLlama/api.defillama.service.ts:313-357 | builds the DexProtocol entities, each pointing at the DexInfo given, and saves them through the transaction; the result is those built entities, which the model takes to be what `saveMany` resolves to |
| DefiLlamaService.ApiDefiLlamaService.GetDexInfo | apps/scheduler/src/services/defiLlama/api.defillama.service.ts:92-138 | the imperative try / catch / finally over the query runner ends in the state, runner and result of `GetDexInfoSpec`, whose properties are the `DexProperties` lemmas |
| DefiLlamaService.ApiDefiLlamaService.QueryDefiLlamaApiForBaseMainnet | apps/scheduler/src/services/defiLlama/api.defillama.service.ts:360-389 | the five awaited steps end in the state and result of `Run`, whose properties are the `RunProperties` lemmas |

## Left out

- The HTTP calls (`getAllChains`, `getAllProtocols`, `getStableCoins`, `getYieldPools` and the fetch in `getDexInfo`, lines 48-103) are not modelled. Their responses are inputs, either a payload or a failure. URLs and query parameters are not modelled. The `chainName` argument of `getDexInfo` only builds the URL, so it is not modelled either.
- A response body missing `peggedAssets` or `data` (the optional chaining at lines 74 and 87) is not modelled. The run then fails at the next `filter`, and the model counts that as a failed fetch of the same step.
- The Nest `Logger` calls are not modelled. They have no effect on state or results.
- The repository classes (`packages/database/src/repositories/*.repository.ts`) are not part of this model. `saveMany`, `saveOrUpdate` and `findByName` are given an assumed meaning: upsert keyed by each entity's natural key (Chain by name, Protocol by `protocolId`, StableCoin by `geckoId`, YieldPool by `pool`, DexProtocol by `defillamaId`, DexInfo by its chain's name), and lookup by name.
- TypeORM internals are not modelled: the entity manager, isolation and locking. Writes through the transaction are buffered until commit. `createQueryRunner` (line 106) is assumed not to fail.
- DefiLlamaService.ApiDefiLlamaService.SaveDexInfo: the model assumes `dexInfoRepository.saveOrUpdate` (line 306) resolves to the entity it was given. The source uses the resolved value as `dexInfo` (line 114) and attaches it to every DexProtocol (line 320). The repository code is not part of this model. `DexProperties.DexCommittedRowsConsistent` and the third clause of `DexProperties.DexResultCases` rest on this assumption.
- DefiLlamaService.ApiDefiLlamaService.SaveDexProtocols: the model assumes `dexProtocolRepository.saveMany` (line 356) resolves to the rows it was given, which `getDexInfo` returns as `dexProtocolInfo` (line 128).
- A failing repository or query-runner call is assumed to write nothing: the `After…` functions change a table only on `Ok`.
- The upsert lemmas (`Persistence.Upsert`, `UpsertLastWins`, `UpsertOwnKeys`, `UpsertIdempotent`, `UpsertOwnKeyFromRows`, `UpsertOne`) are about the assumed meaning of every `saveMany` (lines 159, 189, 223, 272, 356) and of `saveOrUpdate` (line 306). Each row cites the first of those sites.
- Error values, messages and error kinds are not modelled. A failing call is `Fail`.
- Floating-point values are not modelled. Numeric fields are opaque integers, copied and never computed with.
- Nullable and optional upstream fields are not modelled, because the response interfaces file is not part of this model. So a missing `circulating` object inside a stablecoin, which would make the mapper throw, is not modelled.
- The cron trigger and overlapping runs are not modelled: the model has no concurrency.
- The web application, the CMC service and the Nest module wiring are outside the ingestion core.
- RunProperties.RunCallOrder: states the order and number of a run's calls, and that each carries only Base rows. It does not state the full argument of every call. Those arguments are stated by the phase lemmas and by `DexTryCalls`.

/** What one scheduled run `queryDefiLlamaApiForBaseMainnet` guarantees. */
module RunProperties {
  import opened Common
  import opened Entities
  import opened ArrayOps
  import opened Mappers
  import opened TargetChain
  import opened Persistence
  import opened Ingestion
  import opened DexProperties

  /** How many of the five steps finished: all five, or those before the step
      that rejected. */
  function StepsDone(r: RunResult): nat
  {
    if r.Completed? then 5 else StepIndex(r.at)
  }

  /** The chain list was fetched and has an element named "Base". */
  predicate HasBaseChain(inputs: RunInputs)
  {
    inputs.chains.Fetched? && SelectBaseChain(inputs.chains.payload).Some?
  }

  /** The rows each step hands to `saveMany`. */
  function ChainRows(inputs: RunInputs): seq<Chain>
    requires HasBaseChain(inputs)
  {
    [ToChain(SelectBaseChain(inputs.chains.payload).value)]
  }

  function ProtocolRows(inputs: RunInputs): seq<Protocol>
    requires inputs.protocols.Fetched?
  {
    ToProtocols(BaseProtocols(inputs.protocols.payload))
  }

  function StableCoinRows(inputs: RunInputs): seq<StableCoin>
    requires inputs.stableCoins.Fetched?
  {
    ToStableCoins(BaseStableCoins(inputs.stableCoins.payload))
  }

  function YieldPoolRows(inputs: RunInputs): seq<YieldPool>
    requires inputs.yieldPools.Fetched?
  {
    ToYieldPools(BaseYieldPools(inputs.yieldPools.payload))
  }

  /** Steps 1 to 4 all resolve. */
  predicate FirstFourSucceed(inputs: RunInputs, f: RunFaults)
  {
    && HasBaseChain(inputs) && f.saveChains.Ok?
    && inputs.protocols.Fetched? && f.saveProtocols.Ok?
    && inputs.stableCoins.Fetched? && f.saveStableCoins.Ok?
    && inputs.yieldPools.Fetched? && f.saveYieldPools.Ok?
  }

  /** The chains table once step 1 has succeeded. */
  function ChainsAfterStep1(s: DbState, inputs: RunInputs): map<string, Chain>
    requires HasBaseChain(inputs)
  {
    Upsert(s.chains, ChainRows(inputs), ChainKey)
  }

  /** The DexInfo entity step 5 builds, from the chains table left by step 1. */
  function RunDexInfo(s: DbState, inputs: RunInputs): DexInfo
    requires HasBaseChain(inputs) && inputs.dex.Fetched?
  {
    SavedDexInfo(s.(chains := ChainsAfterStep1(s, inputs)), inputs.dex.payload)
  }

  /** Names a call that writes only rows of the target chain. */
  predicate BaseOnly(c: RepoCall)
  {
    match c
    case SaveChains(rows) => forall i :: 0 <= i < |rows| ==> rows[i].name == Base
    case SaveProtocols(rows) => forall i :: 0 <= i < |rows| ==> Base in rows[i].chains
    case SaveStableCoins(rows) => forall i :: 0 <= i < |rows| ==> Base in rows[i].chains
    case SaveYieldPools(rows) => forall i :: 0 <= i < |rows| ==> rows[i].chain == Base
    case _ => true
  }

  // ---- One step at a time ----------------------------------------------

  lemma ChainsPhaseFacts(s: DbState, inputs: RunInputs, f: RunFaults)
    ensures var c := ChainsPhase(s, inputs, f);
      && c.db.protocols == s.protocols && c.db.stableCoins == s.stableCoins
      && c.db.yieldPools == s.yieldPools
      && c.db.dexInfos == s.dexInfos && c.db.dexProtocols == s.dexProtocols
      && (c.outcome.Ok? <==> HasBaseChain(inputs) && f.saveChains.Ok?)
      && c.db.calls == (if HasBaseChain(inputs) then s.calls + [SaveChains(ChainRows(inputs))] else s.calls)
      && c.db.chains == (if c.outcome.Ok? then ChainsAfterStep1(s, inputs) else s.chains)
  {
    if inputs.chains.Fetched? {
      var b := SelectBaseChain(inputs.chains.payload);
      assert [b][1..] == [];
      assert ToChainEntities([]) == Some([]);
      if b.Some? {
        assert [ToChain(b.value)] + [] == [ToChain(b.value)];
        assert ToChainEntities([b]) == Some([ToChain(b.value)]);
      } else {
        assert ToChainEntities([b]) == None;
      }
    }
  }

  lemma ChainsPhaseOutcome(s: DbState, inputs: RunInputs, f: RunFaults)
    ensures ChainsPhase(s, inputs, f).outcome.Ok? <==> HasBaseChain(inputs) && f.saveChains.Ok?
  {
    ChainsPhaseFacts(s, inputs, f);
  }

  lemma ProtocolsPhaseFacts(s: DbState, inputs: RunInputs, f: RunFaults)
    ensures var p := ProtocolsPhase(s, inputs, f);
      && p.db.chains == s.chains && p.db.stableCoins == s.stableCoins
      && p.db.yieldPools == s.yieldPools
      && p.db.dexInfos == s.dexInfos && p.db.dexProtocols == s.dexProtocols
      && (p.outcome.Ok? <==> inputs.protocols.Fetched? && f.saveProtocols.Ok?)
      && p.db.calls == (if inputs.protocols.Fetched? then s.calls + [SaveProtocols(ProtocolRows(inputs))] else s.calls)
      && p.db.protocols == (if p.outcome.Ok? then Upsert(s.protocols, ProtocolRows(inputs), ProtocolKey) else s.protocols)
  {
    if inputs.protocols.Fetched? {
      var rows := ProtocolRows(inputs);
      assert ProtocolsPhase(s, inputs, f) == StepResult(AfterSaveProtocols(s, rows, f.saveProtocols), f.saveProtocols);
    }
  }

  lemma StableCoinsPhaseFacts(s: DbState, inputs: RunInputs, f: RunFaults)
    ensures var p := StableCoinsPhase(s, inputs, f);
      && p.db.chains == s.chains && p.db.protocols == s.protocols
      && p.db.yieldPools == s.yieldPools
      && p.db.dexInfos == s.dexInfos && p.db.dexProtocols == s.dexProtocols
      && (p.outcome.Ok? <==> inputs.stableCoins.Fetched? && f.saveStableCoins.Ok?)
      && p.db.calls == (if inputs.stableCoins.Fetched? then s.calls + [SaveStableCoins(StableCoinRows(inputs))] else s.calls)
      && p.db.stableCoins == (if p.outcome.Ok? then Upsert(s.stableCoins, StableCoinRows(inputs), StableCoinKey) else s.stableCoins)
  {
    if inputs.stableCoins.Fetched? {
      var rows := StableCoinRows(inputs);
      assert StableCoinsPhase(s, inputs, f) == StepResult(AfterSaveStableCoins(s, rows, f.saveStableCoins), f.saveStableCoins);
    }
  }

  lemma YieldPoolsPhaseFacts(s: DbState, inputs: RunInputs, f: RunFaults)
    ensures var p := YieldPoolsPhase(s, inputs, f);
      && p.db.chains == s.chains && p.db.protocols == s.protocols
      && p.db.stableCoins == s.stableCoins
      && p.db.dexInfos == s.dexInfos && p.db.dexProtocols == s.dexProtocols
      && (p.outcome.Ok? <==> inputs.yieldPools.Fetched? && f.saveYieldPools.Ok?)
      && p.db.calls == (if inputs.yieldPools.Fetched? then s.calls + [SaveYieldPools(YieldPoolRows(inputs))] else s.calls)
      && p.db.yieldPools == (if p.outcome.Ok? then Upsert(s.yieldPools, YieldPoolRows(inputs), YieldPoolKey) else s.yieldPools)
  {
    if inputs.yieldPools.Fetched? {
      var rows := YieldPoolRows(inputs);
      assert YieldPoolsPhase(s, inputs, f) == StepResult(AfterSaveYieldPools(s, rows, f.saveYieldPools), f.saveYieldPools);
    }
  }

  /** The rows each step saves belong to the target chain. */
  lemma ChainRowsAreBase(inputs: RunInputs)
    requires HasBaseChain(inputs)
    ensures BaseOnly(SaveChains(ChainRows(inputs)))
  {
  }

  lemma ProtocolRowsAreBase(inputs: RunInputs)
    requires inputs.protocols.Fetched?
    ensures BaseOnly(SaveProtocols(ProtocolRows(inputs)))
  {
    var kept := BaseProtocols(inputs.protocols.payload);
    var rows := ProtocolRows(inputs);
    BaseProtocolsExact(inputs.protocols.payload);
    forall i | 0 <= i < |rows| ensures Base in rows[i].chains {
      assert ProtocolResponseOf(rows[i]) == kept[i];
    }
  }

  lemma StableCoinRowsAreBase(inputs: RunInputs)
    requires inputs.stableCoins.Fetched?
    ensures BaseOnly(SaveStableCoins(StableCoinRows(inputs)))
  {
    var kept := BaseStableCoins(inputs.stableCoins.payload);
    var rows := StableCoinRows(inputs);
    BaseStableCoinsExact(inputs.stableCoins.payload);
    forall i | 0 <= i < |rows| ensures Base in rows[i].chains {
      assert StableCoinResponseOf(rows[i]) == kept[i];
    }
  }

  lemma YieldPoolRowsAreBase(inputs: RunInputs)
    requires inputs.yieldPools.Fetched?
    ensures BaseOnly(SaveYieldPools(YieldPoolRows(inputs)))
  {
    BaseYieldPoolsExact(inputs.yieldPools.payload);
  }

  // ---- Calls, stage by stage -----------------------------------------

  /** The calls a run added to `s` when it started at step `j + 1`: they take
      the ranks `j, j + 1, ...` of the fixed order one after the other, each
      step from `j + 1` to the one that rejected made at most one call of
      its own (steps 1 to 4) or up to three (step 5), and every call writes
      rows of the target chain only. */
  predicate CallsFrom(s: DbState, out: RunOutcome, j: nat)
  {
    var k := StepsDone(out.result);
    var n := |out.db.calls| - |s.calls|;
    && RankedFrom(s.calls, out.db.calls, j)
    && (forall i :: |s.calls| <= i < |out.db.calls| ==> BaseOnly(out.db.calls[i]))
    && j <= k
    && (k < 4 ==> k - j <= n <= k - j + 1)
    && (k >= 4 ==> 4 - j <= n <= 7 - j)
  }

  lemma CallsStep(s: DbState, mid: DbState, out: RunOutcome, c: RepoCall, j: nat)
    requires mid.calls == s.calls + [c] && CallRank(c) == j && BaseOnly(c)
    requires CallsFrom(mid, out, j + 1)
    ensures CallsFrom(s, out, j)
  {
    forall i | |s.calls| <= i < |out.db.calls|
      ensures CallRank(out.db.calls[i]) == j + i - |s.calls| && BaseOnly(out.db.calls[i])
    {
      if i == |s.calls| {
        assert out.db.calls[i] == mid.calls[i] == c;
      }
    }
  }

  lemma CallsStop(s: DbState, mid: DbState, step: Step, added: seq<RepoCall>)
    requires StepIndex(step) < 4
    requires mid.calls == s.calls + added && |added| <= 1
    requires forall i :: 0 <= i < |added| ==> CallRank(added[i]) == StepIndex(step) && BaseOnly(added[i])
    ensures CallsFrom(s, RunOutcome(mid, Aborted(step)), StepIndex(step))
  {
  }

  lemma DexStageCalls(s: DbState, inputs: RunInputs, f: RunFaults)
    ensures CallsFrom(s, RunFromDex(s, inputs, f), 4)
  {
    var out := RunFromDex(s, inputs, f);
    DexRepositoryCalls(s, inputs.dex, f.dex);
    forall i | |s.calls| <= i < |out.db.calls| ensures BaseOnly(out.db.calls[i]) {
      assert CallRank(out.db.calls[i]) >= 4;
    }
  }

  lemma YieldPoolsStageCalls(s: DbState, inputs: RunInputs, f: RunFaults)
    ensures CallsFrom(s, RunFromYieldPools(s, inputs, f), 3)
  {
    var y := YieldPoolsPhase(s, inputs, f);
    YieldPoolsPhaseFacts(s, inputs, f);
    if inputs.yieldPools.Fetched? {
      YieldPoolRowsAreBase(inputs);
      var c := SaveYieldPools(YieldPoolRows(inputs));
      if y.outcome.Fail? {
        CallsStop(s, y.db, YieldPoolsStep, [c]);
      } else {
        DexStageCalls(y.db, inputs, f);
        CallsStep(s, y.db, RunFromDex(y.db, inputs, f), c, 3);
      }
    } else {
      CallsStop(s, y.db, YieldPoolsStep, []);
    }
  }

  lemma StableCoinsStageCalls(s: DbState, inputs: RunInputs, f: RunFaults)
    ensures CallsFrom(s, RunFromStableCoins(s, inputs, f), 2)
  {
    var sc := StableCoinsPhase(s, inputs, f);
    StableCoinsPhaseFacts(s, inputs, f);
    if inputs.stableCoins.Fetched? {
      StableCoinRowsAreBase(inputs);
      var c := SaveStableCoins(StableCoinRows(inputs));
      if sc.outcome.Fail? {
        CallsStop(s, sc.db, StableCoinsStep, [c]);
      } else {
        YieldPoolsStageCalls(sc.db, inputs, f);
        CallsStep(s, sc.db, RunFromYieldPools(sc.db, inputs, f), c, 2);
      }
    } else {
      CallsStop(s, sc.db, StableCoinsStep, []);
    }
  }

  lemma ProtocolsStageCalls(s: DbState, inputs: RunInputs, f: RunFaults)
    ensures CallsFrom(s, RunFromProtocols(s, inputs, f), 1)
  {
    var p := ProtocolsPhase(s, inputs, f);
    ProtocolsPhaseFacts(s, inputs, f);
    if inputs.protocols.Fetched? {
      ProtocolRowsAreBase(inputs);
      var c := SaveProtocols(ProtocolRows(inputs));
      if p.outcome.Fail? {
        CallsStop(s, p.db, ProtocolsStep, [c]);
      } else {
        StableCoinsStageCalls(p.db, inputs, f);
        CallsStep(s, p.db, RunFromStableCoins(p.db, inputs, f), c, 1);
      }
    } else {
      CallsStop(s, p.db, ProtocolsStep, []);
    }
  }

  // ---- The run as a whole --------------------------------------------

  /** The repository calls of a run follow the order chains, protocols,
      stablecoins, pools, findByName, DexInfo, DexProtocols, cut short where
      the run stops; a run that rejects in step k < 5 made calls of steps
      1 to k only, so no later step wrote anything; and no call hands a
      repository a row of a chain other than "Base". */
  lemma RunCallOrder(s: DbState, inputs: RunInputs, f: RunFaults)
    ensures CallsFrom(s, Run(s, inputs, f), 0)
  {
    var c := ChainsPhase(s, inputs, f);
    ChainsPhaseCalls(s, inputs, f);
    var added := if HasBaseChain(inputs) then [SaveChains(ChainRows(inputs))] else [];
    if HasBaseChain(inputs) {
      ChainRowsAreBase(inputs);
    }
    if c.outcome.Ok? {
      ProtocolsStageCalls(c.db, inputs, f);
    }
    ChainsCallsPrepend(s, c.db, RunFromProtocols(c.db, inputs, f), Run(s, inputs, f), added, c.outcome.Ok?);
  }

  /** The calls of step 1 alone: the chains save when a Base chain was
      found, which step 1 needs to resolve. */
  lemma ChainsPhaseCalls(s: DbState, inputs: RunInputs, f: RunFaults)
    ensures var c := ChainsPhase(s, inputs, f);
      && (c.outcome.Ok? ==> HasBaseChain(inputs))
      && c.db.calls == (if HasBaseChain(inputs) then s.calls + [SaveChains(ChainRows(inputs))] else s.calls)
  {
    ChainsPhaseFacts(s, inputs, f);
  }

  /** Prepending step 1, which added the calls `added` and resolved when
      `ok`, to the calls of steps 2 to 5. */
  lemma ChainsCallsPrepend(s: DbState, mid: DbState, rest: RunOutcome, out: RunOutcome,
                           added: seq<RepoCall>, ok: bool)
    requires mid.calls == s.calls + added && |added| <= 1 && (ok ==> |added| == 1)
    requires forall i :: 0 <= i < |added| ==> CallRank(added[i]) == 0 && BaseOnly(added[i])
    requires out == if ok then rest else RunOutcome(mid, Aborted(ChainsStep))
    requires ok ==> CallsFrom(mid, rest, 1)
    ensures CallsFrom(s, out, 0)
  {
    if ok {
      CallsStep(s, mid, rest, added[0], 0);
    } else {
      CallsStop(s, mid, ChainsStep, added);
    }
  }

  // ---- Tables, stage by stage ----------------------------------------

  /** The two dex tables once step 5 ran over a state whose chains table is
      `chains`: both upserted if the transaction committed, else as in `s`. */
  predicate DexTablesAfter(s: DbState, chains: map<string, Chain>, out: DbState, inputs: RunInputs, f: RunFaults)
  {
    if TransactionOpened(inputs.dex, f.dex) && TryAllOk(f.dex) then
      var d := SavedDexInfo(s.(chains := chains), inputs.dex.payload);
      && out.dexInfos == Upsert(s.dexInfos, [d], DexInfoKey)
      && out.dexProtocols == Upsert(s.dexProtocols, ToDexProtocols(inputs.dex.payload.protocols, d), DexProtocolKey)
    else
      out.dexInfos == s.dexInfos && out.dexProtocols == s.dexProtocols
  }

  /** The tables a run leaves when it started at step `j + 1` over `s`:
      step m's table is upserted with step m's rows exactly when the run
      started before step m and finished it; step 5's tables follow
      `DexTablesAfter` once the first four steps are done. */
  predicate TablesFrom(s: DbState, out: RunOutcome, inputs: RunInputs, f: RunFaults, j: nat)
  {
    var k := StepsDone(out.result);
    && j <= k
    && (j < 1 <= k ==> HasBaseChain(inputs) && f.saveChains.Ok?)
    && (j < 2 <= k ==> inputs.protocols.Fetched? && f.saveProtocols.Ok?)
    && (j < 3 <= k ==> inputs.stableCoins.Fetched? && f.saveStableCoins.Ok?)
    && (j < 4 <= k ==> inputs.yieldPools.Fetched? && f.saveYieldPools.Ok?)
    && out.db.chains == (if j < 1 <= k then ChainsAfterStep1(s, inputs) else s.chains)
    && out.db.protocols == (if j < 2 <= k then Upsert(s.protocols, ProtocolRows(inputs), ProtocolKey) else s.protocols)
    && out.db.stableCoins == (if j < 3 <= k then Upsert(s.stableCoins, StableCoinRows(inputs), StableCoinKey) else s.stableCoins)
    && out.db.yieldPools == (if j < 4 <= k then Upsert(s.yieldPools, YieldPoolRows(inputs), YieldPoolKey) else s.yieldPools)
    && (k < 4 ==> out.db.dexInfos == s.dexInfos && out.db.dexProtocols == s.dexProtocols)
    && (4 <= k ==> DexTablesAfter(s, if j < 1 then ChainsAfterStep1(s, inputs) else s.chains, out.db, inputs, f))
  }

  lemma DexStageTables(s: DbState, inputs: RunInputs, f: RunFaults)
    ensures TablesFrom(s, RunFromDex(s, inputs, f), inputs, f, 4)
  {
    DexAllOrNothing(s, inputs.dex, f.dex);
    assert s.(chains := s.chains) == s;
  }

  /** Prepending step 4 to step 5: `mid` is the state step 4 leaves over
      `s`, `rest` what step 5 leaves over `mid`. */
  lemma YieldPoolsTablesPrepend(s: DbState, mid: DbState, rest: RunOutcome, out: RunOutcome,
                                inputs: RunInputs, f: RunFaults)
    requires mid.chains == s.chains && mid.protocols == s.protocols && mid.stableCoins == s.stableCoins
    requires mid.dexInfos == s.dexInfos && mid.dexProtocols == s.dexProtocols
    requires mid.yieldPools ==
      if StepSucceeds(inputs, f, YieldPoolsStep) then Upsert(s.yieldPools, YieldPoolRows(inputs), YieldPoolKey)
      else s.yieldPools
    requires out == if StepSucceeds(inputs, f, YieldPoolsStep) then rest else RunOutcome(mid, Aborted(YieldPoolsStep))
    requires StepSucceeds(inputs, f, YieldPoolsStep) ==> TablesFrom(mid, rest, inputs, f, 4)
    ensures TablesFrom(s, out, inputs, f, 3)
  {
    if StepSucceeds(inputs, f, YieldPoolsStep) && inputs.dex.Fetched? {
      SavedDexInfoReadsChains(mid, s, inputs.dex.payload);
      assert mid.(chains := mid.chains) == mid && s.(chains := s.chains) == s;
    }
  }

  lemma YieldPoolsStageTables(s: DbState, inputs: RunInputs, f: RunFaults)
    ensures TablesFrom(s, RunFromYieldPools(s, inputs, f), inputs, f, 3)
  {
    var y := YieldPoolsPhase(s, inputs, f);
    YieldPoolsPhaseFacts(s, inputs, f);
    if y.outcome.Ok? {
      DexStageTables(y.db, inputs, f);
    }
    YieldPoolsTablesPrepend(s, y.db, RunFromDex(y.db, inputs, f), RunFromYieldPools(s, inputs, f), inputs, f);
  }

  /** Prepending step 3 to steps 4 and 5. */
  lemma StableCoinsTablesPrepend(s: DbState, mid: DbState, rest: RunOutcome, out: RunOutcome,
                                 inputs: RunInputs, f: RunFaults)
    requires mid.chains == s.chains && mid.protocols == s.protocols && mid.yieldPools == s.yieldPools
    requires mid.dexInfos == s.dexInfos && mid.dexProtocols == s.dexProtocols
    requires mid.stableCoins ==
      if StepSucceeds(inputs, f, StableCoinsStep) then Upsert(s.stableCoins, StableCoinRows(inputs), StableCoinKey)
      else s.stableCoins
    requires out == if StepSucceeds(inputs, f, StableCoinsStep) then rest else RunOutcome(mid, Aborted(StableCoinsStep))
    requires StepSucceeds(inputs, f, StableCoinsStep) ==> TablesFrom(mid, rest, inputs, f, 3)
    ensures TablesFrom(s, out, inputs, f, 2)
  {
    if StepSucceeds(inputs, f, StableCoinsStep) && inputs.dex.Fetched? {
      SavedDexInfoReadsChains(mid, s, inputs.dex.payload);
      assert mid.(chains := mid.chains) == mid && s.(chains := s.chains) == s;
    }
  }

  lemma StableCoinsStageTables(s: DbState, inputs: RunInputs, f: RunFaults)
    ensures TablesFrom(s, RunFromStableCoins(s, inputs, f), inputs, f, 2)
  {
    var sc := StableCoinsPhase(s, inputs, f);
    StableCoinsPhaseFacts(s, inputs, f);
    if sc.outcome.Ok? {
      YieldPoolsStageTables(sc.db, inputs, f);
    }
    StableCoinsTablesPrepend(s, sc.db, RunFromYieldPools(sc.db, inputs, f), RunFromStableCoins(s, inputs, f), inputs, f);
  }

  /** Prepending step 2 to steps 3 to 5. */
  lemma ProtocolsTablesPrepend(s: DbState, mid: DbState, rest: RunOutcome, out: RunOutcome,
                               inputs: RunInputs, f: RunFaults)
    requires mid.chains == s.chains && mid.stableCoins == s.stableCoins && mid.yieldPools == s.yieldPools
    requires mid.dexInfos == s.dexInfos && mid.dexProtocols == s.dexProtocols
    requires mid.protocols ==
      if StepSucceeds(inputs, f, ProtocolsStep) then Upsert(s.protocols, ProtocolRows(inputs), ProtocolKey)
      else s.protocols
    requires out == if StepSucceeds(inputs, f, ProtocolsStep) then rest else RunOutcome(mid, Aborted(ProtocolsStep))
    requires StepSucceeds(inputs, f, ProtocolsStep) ==> TablesFrom(mid, rest, inputs, f, 2)
    ensures TablesFrom(s, out, inputs, f, 1)
  {
    if StepSucceeds(inputs, f, ProtocolsStep) && inputs.dex.Fetched? {
      SavedDexInfoReadsChains(mid, s, inputs.dex.payload);
      assert mid.(chains := mid.chains) == mid && s.(chains := s.chains) == s;
    }
  }

  lemma ProtocolsStageTables(s: DbState, inputs: RunInputs, f: RunFaults)
    ensures TablesFrom(s, RunFromProtocols(s, inputs, f), inputs, f, 1)
  {
    var p := ProtocolsPhase(s, inputs, f);
    ProtocolsPhaseFacts(s, inputs, f);
    if p.outcome.Ok? {
      StableCoinsStageTables(p.db, inputs, f);
    }
    ProtocolsTablesPrepend(s, p.db, RunFromStableCoins(p.db, inputs, f), RunFromProtocols(s, inputs, f), inputs, f);
  }

  /** Prepending step 1 to steps 2 to 5. */
  lemma ChainsTablesPrepend(s: DbState, mid: DbState, rest: RunOutcome, out: RunOutcome,
                            inputs: RunInputs, f: RunFaults)
    requires mid.protocols == s.protocols && mid.stableCoins == s.stableCoins && mid.yieldPools == s.yieldPools
    requires mid.dexInfos == s.dexInfos && mid.dexProtocols == s.dexProtocols
    requires mid.chains == if StepSucceeds(inputs, f, ChainsStep) then ChainsAfterStep1(s, inputs) else s.chains
    requires out == if StepSucceeds(inputs, f, ChainsStep) then rest else RunOutcome(mid, Aborted(ChainsStep))
    requires StepSucceeds(inputs, f, ChainsStep) ==> TablesFrom(mid, rest, inputs, f, 1)
    ensures TablesFrom(s, out, inputs, f, 0)
  {
    if StepSucceeds(inputs, f, ChainsStep) && inputs.dex.Fetched? {
      SavedDexInfoReadsChains(mid, s.(chains := ChainsAfterStep1(s, inputs)), inputs.dex.payload);
      assert mid.(chains := mid.chains) == mid;
    }
  }

  lemma ChainsStageTables(s: DbState, inputs: RunInputs, f: RunFaults)
    ensures TablesFrom(s, Run(s, inputs, f), inputs, f, 0)
  {
    var c := ChainsPhase(s, inputs, f);
    ChainsPhaseFacts(s, inputs, f);
    if c.outcome.Ok? {
      ProtocolsStageTables(c.db, inputs, f);
    }
    ChainsTablesPrepend(s, c.db, RunFromProtocols(c.db, inputs, f), Run(s, inputs, f), inputs, f);
  }

  /** What each table holds after a run: the chains, protocols, stablecoins
      and pools tables are upserted with their step's rows exactly for the
      steps the run finished, and the DexInfo and DexProtocol tables are
      upserted, together, exactly when the first four steps finished and
      the transaction committed. Everything the run did before a rejection
      stays written. */
  lemma RunTables(s: DbState, inputs: RunInputs, f: RunFaults)
    ensures var out := Run(s, inputs, f);
      var k := StepsDone(out.result);
      && (k >= 1 ==> HasBaseChain(inputs) && f.saveChains.Ok?)
      && (k >= 2 ==> inputs.protocols.Fetched? && f.saveProtocols.Ok?)
      && (k >= 3 ==> inputs.stableCoins.Fetched? && f.saveStableCoins.Ok?)
      && (k >= 4 ==> inputs.yieldPools.Fetched? && f.saveYieldPools.Ok?)
      && out.db.chains == (if k >= 1 then ChainsAfterStep1(s, inputs) else s.chains)
      && out.db.protocols == (if k >= 2 then Upsert(s.protocols, ProtocolRows(inputs), ProtocolKey) else s.protocols)
      && out.db.stableCoins == (if k >= 3 then Upsert(s.stableCoins, StableCoinRows(inputs), StableCoinKey) else s.stableCoins)
      && out.db.yieldPools == (if k >= 4 then Upsert(s.yieldPools, YieldPoolRows(inputs), YieldPoolKey) else s.yieldPools)
      && if k >= 4 && TransactionOpened(inputs.dex, f.dex) && TryAllOk(f.dex) then
           var d := RunDexInfo(s, inputs);
           && out.db.dexInfos == Upsert(s.dexInfos, [d], DexInfoKey)
           && out.db.dexProtocols == Upsert(s.dexProtocols, ToDexProtocols(inputs.dex.payload.protocols, d), DexProtocolKey)
         else
           out.db.dexInfos == s.dexInfos && out.db.dexProtocols == s.dexProtocols
  {
    ChainsStageTables(s, inputs, f);
  }

  lemma SavedDexInfoReadsChains(a: DbState, b: DbState, r: DexInfoResponse)
    requires a.chains == b.chains
    ensures SavedDexInfo(a, r) == SavedDexInfo(b, r)
  {
  }

  // ---- Outcome of a run ----------------------------------------------

  /** Step `st` resolves, given its HTTP response and its repository and
      query-runner outcomes. Step 5 resolves as soon as the transaction was
      opened and the release succeeded, unless a failure in the try was
      followed by a failing rollback: `getDexInfo` swallows the rest. */
  predicate StepSucceeds(inputs: RunInputs, f: RunFaults, st: Step)
  {
    match st
    case ChainsStep => HasBaseChain(inputs) && f.saveChains.Ok?
    case ProtocolsStep => inputs.protocols.Fetched? && f.saveProtocols.Ok?
    case StableCoinsStep => inputs.stableCoins.Fetched? && f.saveStableCoins.Ok?
    case YieldPoolsStep => inputs.yieldPools.Fetched? && f.saveYieldPools.Ok?
    case DexStep =>
      TransactionOpened(inputs.dex, f.dex) && (TryAllOk(f.dex) || f.dex.rollback.Ok?) && f.dex.release.Ok?
  }

  lemma DexStageResult(s: DbState, inputs: RunInputs, f: RunFaults)
    ensures var r := RunFromDex(s, inputs, f).result;
      (r == Completed <==> StepSucceeds(inputs, f, DexStep)) && (r != Completed ==> r == Aborted(DexStep))
  {
    DexResultCases(s, inputs.dex, f.dex);
  }

  lemma YieldPoolsStageResult(s: DbState, inputs: RunInputs, f: RunFaults)
    ensures var r := RunFromYieldPools(s, inputs, f).result;
      && StepsDone(r) >= 3
      && (StepsDone(r) >= 4 <==> StepSucceeds(inputs, f, YieldPoolsStep))
      && (r == Completed <==> StepSucceeds(inputs, f, YieldPoolsStep) && StepSucceeds(inputs, f, DexStep))
  {
    var y := YieldPoolsPhase(s, inputs, f);
    YieldPoolsPhaseFacts(s, inputs, f);
    if y.outcome.Ok? {
      DexStageResult(y.db, inputs, f);
    }
  }

  lemma StableCoinsStageResult(s: DbState, inputs: RunInputs, f: RunFaults)
    ensures var r := RunFromStableCoins(s, inputs, f).result;
      && StepsDone(r) >= 2
      && (StepsDone(r) >= 3 <==> StepSucceeds(inputs, f, StableCoinsStep))
      && (StepsDone(r) >= 4 <==> StepSucceeds(inputs, f, StableCoinsStep) && StepSucceeds(inputs, f, YieldPoolsStep))
      && (r == Completed <==>
            StepSucceeds(inputs, f, StableCoinsStep) && StepSucceeds(inputs, f, YieldPoolsStep)
            && StepSucceeds(inputs, f, DexStep))
  {
    var sc := StableCoinsPhase(s, inputs, f);
    StableCoinsPhaseFacts(s, inputs, f);
    if sc.outcome.Ok? {
      YieldPoolsStageResult(sc.db, inputs, f);
    }
  }

  lemma ProtocolsStageResult(s: DbState, inputs: RunInputs, f: RunFaults)
    ensures var r := RunFromProtocols(s, inputs, f).result;
      && StepsDone(r) >= 1
      && (StepsDone(r) >= 2 <==> StepSucceeds(inputs, f, ProtocolsStep))
      && (StepsDone(r) >= 3 <==> StepSucceeds(inputs, f, ProtocolsStep) && StepSucceeds(inputs, f, StableCoinsStep))
      && (StepsDone(r) >= 4 <==> StepSucceeds(inputs, f, ProtocolsStep) && StepSucceeds(inputs, f, StableCoinsStep)
                                 && StepSucceeds(inputs, f, YieldPoolsStep))
      && (r == Completed <==>
            StepSucceeds(inputs, f, ProtocolsStep) && StepSucceeds(inputs, f, StableCoinsStep)
            && StepSucceeds(inputs, f, YieldPoolsStep) && StepSucceeds(inputs, f, DexStep))
  {
    var p := ProtocolsPhase(s, inputs, f);
    ProtocolsPhaseFacts(s, inputs, f);
    if p.outcome.Ok? {
      StableCoinsStageResult(p.db, inputs, f);
    }
  }

  /** Step 1 either rejects the run or hands over to the remaining steps. */
  lemma RunFirstStep(s: DbState, inputs: RunInputs, f: RunFaults)
    ensures Run(s, inputs, f).result ==
      if StepSucceeds(inputs, f, ChainsStep)
      then RunFromProtocols(ChainsPhase(s, inputs, f).db, inputs, f).result
      else Aborted(ChainsStep)
  {
    ChainsPhaseOutcome(s, inputs, f);
  }

  /** Putting step 1, which succeeds exactly when `a` holds, in front of the
      remaining steps, whose successes are `b` to `e`. */
  lemma PrependChainsStep(r: RunResult, rest: RunResult, a: bool, b: bool, c: bool, d: bool, e: bool)
    requires r == if a then rest else Aborted(ChainsStep)
    requires StepsDone(rest) >= 1
    requires StepsDone(rest) >= 2 <==> b
    requires StepsDone(rest) >= 3 <==> b && c
    requires StepsDone(rest) >= 4 <==> b && c && d
    requires rest == Completed <==> b && c && d && e
    ensures StepsDone(r) >= 1 <==> a
    ensures StepsDone(r) >= 2 <==> a && b
    ensures StepsDone(r) >= 3 <==> a && b && c
    ensures StepsDone(r) >= 4 <==> a && b && c && d
    ensures r == Completed <==> a && b && c && d && e
  {
  }

  lemma FirstFourSteps(inputs: RunInputs, f: RunFaults)
    ensures FirstFourSucceed(inputs, f) <==>
      && StepSucceeds(inputs, f, ChainsStep) && StepSucceeds(inputs, f, ProtocolsStep)
      && StepSucceeds(inputs, f, StableCoinsStep) && StepSucceeds(inputs, f, YieldPoolsStep)
  {
  }

  /** A run finishes exactly the steps that succeed in order up to the first
      that does not, and it resolves exactly when all five succeed, so its
      result depends on the responses and the outcomes alone, never on what
      the database held before. */
  lemma RunResultCases(s: DbState, inputs: RunInputs, f: RunFaults)
    ensures var r := Run(s, inputs, f).result;
      var k := StepsDone(r);
      && (k >= 1 <==> StepSucceeds(inputs, f, ChainsStep))
      && (k >= 2 <==> StepSucceeds(inputs, f, ChainsStep) && StepSucceeds(inputs, f, ProtocolsStep))
      && (k >= 3 <==> StepSucceeds(inputs, f, ChainsStep) && StepSucceeds(inputs, f, ProtocolsStep)
                      && StepSucceeds(inputs, f, StableCoinsStep))
      && (k >= 4 <==> FirstFourSucceed(inputs, f))
      && (r == Completed <==> FirstFourSucceed(inputs, f) && StepSucceeds(inputs, f, DexStep))
  {
    var db1 := ChainsPhase(s, inputs, f).db;
    RunFirstStep(s, inputs, f);
    ProtocolsStageResult(db1, inputs, f);
    PrependChainsStep(Run(s, inputs, f).result, RunFromProtocols(db1, inputs, f).result,
                      StepSucceeds(inputs, f, ChainsStep), StepSucceeds(inputs, f, ProtocolsStep),
                      StepSucceeds(inputs, f, StableCoinsStep), StepSucceeds(inputs, f, YieldPoolsStep),
                      StepSucceeds(inputs, f, DexStep));
    FirstFourSteps(inputs, f);
  }

  // ---- Step 1 and re-runs --------------------------------------------

  /** With no chain named "Base" in the response the run rejects in step 1
      and changes nothing, not even the call log: the mapper fails on the
      missing chain before `saveMany` is reached. */
  lemma NoBaseChainAbortsRun(s: DbState, inputs: RunInputs, f: RunFaults)
    requires inputs.chains.Fetched?
    requires forall i :: 0 <= i < |inputs.chains.payload| ==> inputs.chains.payload[i].name != Base
    ensures Run(s, inputs, f) == RunOutcome(s, Aborted(ChainsStep))
  {
    ChainsPhaseFacts(s, inputs, f);
  }

  /** Step 1 writes exactly one Chain row, under the name "Base", holding the
      first element of the response named "Base"; every other row stays. */
  lemma RunSavesOneBaseChain(s: DbState, inputs: RunInputs, f: RunFaults)
    requires HasBaseChain(inputs) && f.saveChains.Ok?
    ensures var b := SelectBaseChain(inputs.chains.payload).value;
      Run(s, inputs, f).db.chains == s.chains[Base := ToChain(b)]
  {
    RunTables(s, inputs, f);
    RunResultCases(s, inputs, f);
    UpsertOne(s.chains, ToChain(SelectBaseChain(inputs.chains.payload).value), ChainKey);
  }

  const Ethereum := ChainResponse("ethereum", 50, "ETH", "1027", "Ethereum", 1)
  const BaseMainnet := ChainResponse("base", 123, "ETH", "1", "Base", 8453)

  /** Over an empty chains table, the response `[Ethereum, Base]` leaves
      exactly one Chain row: Base, with tvl 123 and chain id 8453. */
  lemma BaseChainScenario(s: DbState, inputs: RunInputs, f: RunFaults)
    requires s.chains == map[]
    requires inputs.chains == Fetched([Ethereum, BaseMainnet]) && f.saveChains.Ok?
    ensures Run(s, inputs, f).db.chains == map[Base := Chain("base", 123, "ETH", "1", "Base", 8453)]
  {
    var cs := inputs.chains.payload;
    assert cs[1].name == Base;
    assert Ethereum.name != Base by {
      assert Ethereum.name[0] != Base[0];
    }
    assert SelectBaseChain(cs).value == BaseMainnet;
    RunSavesOneBaseChain(s, inputs, f);
  }

  /** For the same responses and call outcomes, the result of a run does not
      depend on the state it starts from. */
  lemma RunResultIndependent(s: DbState, t: DbState, inputs: RunInputs, f: RunFaults)
    ensures Run(s, inputs, f).result == Run(t, inputs, f).result
  {
    RunResultCases(s, inputs, f);
    RunResultCases(t, inputs, f);
    SameStepsSameResult(Run(s, inputs, f).result, Run(t, inputs, f).result);
  }

  /** A result is determined by how many steps finished. */
  lemma SameStepsSameResult(a: RunResult, b: RunResult)
    requires StepsDone(a) == StepsDone(b)
    ensures a == b
  {
  }

  /** The tables of a state, without the log of calls. */
  function TablesOf(s: DbState): DbState
  {
    s.(calls := [])
  }

  /** Re-running with the same responses and outcomes leaves every table as
      the first run left it: upserts overwrite, they never duplicate. */
  lemma RunIdempotent(s: DbState, inputs: RunInputs, f: RunFaults)
    ensures var once := Run(s, inputs, f).db;
      TablesOf(Run(once, inputs, f).db) == TablesOf(once)
  {
    var first := Run(s, inputs, f);
    ChainsStageTables(s, inputs, f);
    ChainsStageTables(first.db, inputs, f);
    RunResultIndependent(s, first.db, inputs, f);
    TablesIdempotent(s, first, Run(first.db, inputs, f), inputs, f);
  }

  /** Two runs with the same result, the second over the tables the first
      left, leave the same tables. */
  lemma TablesIdempotent(s: DbState, first: RunOutcome, second: RunOutcome, inputs: RunInputs, f: RunFaults)
    requires TablesFrom(s, first, inputs, f, 0)
    requires TablesFrom(first.db, second, inputs, f, 0)
    requires second.result == first.result
    ensures TablesOf(second.db) == TablesOf(first.db)
  {
    var k := StepsDone(first.result);
    if k >= 1 {
      UpsertIdempotent(s.chains, ChainRows(inputs), ChainKey);
    }
    if k >= 2 {
      UpsertIdempotent(s.protocols, ProtocolRows(inputs), ProtocolKey);
    }
    if k >= 3 {
      UpsertIdempotent(s.stableCoins, StableCoinRows(inputs), StableCoinKey);
    }
    if k >= 4 {
      UpsertIdempotent(s.yieldPools, YieldPoolRows(inputs), YieldPoolKey);
      if TransactionOpened(inputs.dex, f.dex) && TryAllOk(f.dex) {
        var d := SavedDexInfo(s.(chains := ChainsAfterStep1(s, inputs)), inputs.dex.payload);
        SavedDexInfoReadsChains(first.db.(chains := ChainsAfterStep1(first.db, inputs)),
                                s.(chains := ChainsAfterStep1(s, inputs)), inputs.dex.payload);
        UpsertIdempotent(s.dexInfos, [d], DexInfoKey);
        UpsertIdempotent(s.dexProtocols, ToDexProtocols(inputs.dex.payload.protocols, d), DexProtocolKey);
      }
    }
  }
}

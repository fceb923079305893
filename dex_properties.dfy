/** What `getDexInfo` guarantees: the DexInfo row and its DexProtocol rows are
    written together or not at all, the promise resolves to the saved pair
    exactly when every call succeeded, an error inside the try is swallowed,
    and the query runner is released exactly once whenever the transaction
    was started. */
module DexProperties {
  import opened Common
  import opened Entities
  import opened Mappers
  import opened Persistence
  import opened Ingestion

  /** The HTTP fetch, `connect` and `startTransaction` all succeeded, so the
      try block ran. */
  predicate TransactionOpened(fetched: Fetch<DexInfoResponse>, f: DexFaults)
  {
    fetched.Fetched? && f.connect.Ok? && f.start.Ok?
  }

  /** Every call of the try block succeeded, the commit included. */
  predicate TryAllOk(f: DexFaults)
  {
    f.findByName.Ok? && f.saveDexInfo.Ok? && f.saveDexProtocols.Ok? && f.commit.Ok?
  }

  /** The DexInfo entity a transaction over state `s` builds. */
  function SavedDexInfo(s: DbState, r: DexInfoResponse): DexInfo
  {
    ToDexInfo(r, LookupChain(s, r.chain))
  }

  /** The try block run from a freshly started transaction over `sc`. */
  lemma {:induction false} DexTryFacts(sc: Scope, r: DexInfoResponse, f: DexFaults)
    requires sc.tx.state == InTransaction
    requires sc.tx.pendingDexInfos == [] && sc.tx.pendingDexProtocols == []
    ensures var tr := DexTry(sc, r, f);
      var d := SavedDexInfo(sc.db, r);
      var ps := ToDexProtocols(r.protocols, d);
      && tr.scope.db.chains == sc.db.chains && tr.scope.db.protocols == sc.db.protocols
      && tr.scope.db.stableCoins == sc.db.stableCoins && tr.scope.db.yieldPools == sc.db.yieldPools
      && (tr.saved.Some? <==> TryAllOk(f))
      && (if TryAllOk(f) then
            && tr.saved == Some(DexSaved(d, ps))
            && tr.scope.db.dexInfos == Upsert(sc.db.dexInfos, [d], DexInfoKey)
            && tr.scope.db.dexProtocols == Upsert(sc.db.dexProtocols, ps, DexProtocolKey)
            && tr.scope.tx.state == Committed
            && tr.scope.tx.trace == sc.tx.trace + [CommitTransaction]
          else
            && tr.scope.db.dexInfos == sc.db.dexInfos
            && tr.scope.db.dexProtocols == sc.db.dexProtocols
            && tr.scope.tx.state == InTransaction
            && tr.scope.tx.trace == sc.tx.trace +
                 (if f.findByName.Ok? && f.saveDexInfo.Ok? && f.saveDexProtocols.Ok?
                  then [CommitTransaction] else []))
  {
    var d := SavedDexInfo(sc.db, r);
    if f.findByName.Ok? && f.saveDexInfo.Ok? && f.saveDexProtocols.Ok? {
      var ps := ToDexProtocols(r.protocols, d);
      var sc1 := Scope(AfterFindByName(sc.db, r.chain), sc.tx);
      var sc3 := AfterSaveDexProtocols(AfterSaveDexInfo(sc1, d, Ok), ps, Ok);
      assert sc3.tx.pendingDexInfos == [d];
      assert sc3.tx.pendingDexProtocols == ps;
      assert DexTry(sc, r, f).scope == AfterCommit(sc3, f.commit);
    }
  }

  /** All or nothing: if the transaction committed, the DexInfo row and all
      its DexProtocol rows were upserted; otherwise neither table changed.
      No other table changes either way. */
  lemma DexAllOrNothing(s: DbState, fetched: Fetch<DexInfoResponse>, f: DexFaults)
    ensures var out := GetDexInfoSpec(s, fetched, f);
      && out.db.chains == s.chains && out.db.protocols == s.protocols
      && out.db.stableCoins == s.stableCoins && out.db.yieldPools == s.yieldPools
      && if TransactionOpened(fetched, f) && TryAllOk(f) then
           var d := SavedDexInfo(s, fetched.payload);
           && out.db.dexInfos == Upsert(s.dexInfos, [d], DexInfoKey)
           && out.db.dexProtocols == Upsert(s.dexProtocols, ToDexProtocols(fetched.payload.protocols, d), DexProtocolKey)
         else
           out.db.dexInfos == s.dexInfos && out.db.dexProtocols == s.dexProtocols
  {
    if TransactionOpened(fetched, f) {
      var t2 := AfterStart(AfterConnect(FreshRunner(), f.connect), f.start);
      DexTryFacts(Scope(s, t2), fetched.payload, f);
    }
  }

  /** After a commit, the DexInfo row is stored under its chain and every
      DexProtocol row the transaction wrote references that stored row. */
  lemma DexCommittedRowsConsistent(s: DbState, fetched: Fetch<DexInfoResponse>, f: DexFaults)
    requires TransactionOpened(fetched, f) && TryAllOk(f)
    ensures var out := GetDexInfoSpec(s, fetched, f);
      var d := SavedDexInfo(s, fetched.payload);
      var ps := ToDexProtocols(fetched.payload.protocols, d);
      && DexInfoKey(d) in out.db.dexInfos && out.db.dexInfos[DexInfoKey(d)] == d
      && (forall k :: k in KeysOf(ps, DexProtocolKey) ==>
            k in out.db.dexProtocols && out.db.dexProtocols[k].dexInfo == d)
  {
    var out := GetDexInfoSpec(s, fetched, f);
    var d := SavedDexInfo(s, fetched.payload);
    var ps := ToDexProtocols(fetched.payload.protocols, d);
    DexAllOrNothing(s, fetched, f);
    UpsertOne(s.dexInfos, d, DexInfoKey);
    forall k | k in KeysOf(ps, DexProtocolKey)
      ensures k in out.db.dexProtocols && out.db.dexProtocols[k].dexInfo == d
    {
      UpsertOwnKeyFromRows(s.dexProtocols, ps, DexProtocolKey, k);
    }
  }

  /** The promise resolves to `{ dexInfo, dexProtocolInfo }` exactly when
      every call succeeded, and then holds the saved entities. It resolves to
      undefined, the error swallowed, exactly when a call in the try failed
      but the rollback and release succeeded. Otherwise it rejects. */
  lemma DexResultCases(s: DbState, fetched: Fetch<DexInfoResponse>, f: DexFaults)
    ensures var out := GetDexInfoSpec(s, fetched, f);
      && ((out.result.Resolved? && out.result.value.Some?) <==>
            TransactionOpened(fetched, f) && TryAllOk(f) && f.release.Ok?)
      && (out.result == Resolved(None) <==>
            TransactionOpened(fetched, f) && !TryAllOk(f) && f.rollback.Ok? && f.release.Ok?)
      && (out.result.Resolved? && out.result.value.Some? ==>
            var d := SavedDexInfo(s, fetched.payload);
            out.result.value.value == DexSaved(d, ToDexProtocols(fetched.payload.protocols, d)))
  {
    if TransactionOpened(fetched, f) {
      var t2 := AfterStart(AfterConnect(FreshRunner(), f.connect), f.start);
      DexTryFacts(Scope(s, t2), fetched.payload, f);
    }
  }

  /** The part of `DexTryFacts` about the runner alone. */
  lemma DexTryRunner(sc: Scope, r: DexInfoResponse, f: DexFaults)
    requires sc.tx.state == InTransaction
    requires sc.tx.pendingDexInfos == [] && sc.tx.pendingDexProtocols == []
    ensures var tx := DexTry(sc, r, f).scope.tx;
      && (DexTry(sc, r, f).saved.Some? <==> TryAllOk(f))
      && tx.state == (if TryAllOk(f) then Committed else InTransaction)
      && tx.trace == sc.tx.trace +
           (if f.findByName.Ok? && f.saveDexInfo.Ok? && f.saveDexProtocols.Ok? then [CommitTransaction] else [])
  {
    DexTryFacts(sc, r, f);
  }

  /** The calls made on the query runner, exactly: connect and start outside
      the try, then commit, or rollback, or commit followed by rollback when
      the commit itself fails, and release last. */
  lemma DexRunnerTrace(s: DbState, fetched: Fetch<DexInfoResponse>, f: DexFaults)
    ensures var t := GetDexInfoSpec(s, fetched, f).runner.trace;
      && (fetched.FetchFailed? ==> t == [])
      && (fetched.Fetched? && f.connect.Fail? ==> t == [Connect])
      && (fetched.Fetched? && f.connect.Ok? && f.start.Fail? ==> t == [Connect, StartTransaction])
      && (TransactionOpened(fetched, f) && TryAllOk(f) ==>
            t == [Connect, StartTransaction, CommitTransaction, Release])
      && (TransactionOpened(fetched, f) && !TryAllOk(f) && f.saveDexProtocols.Ok? && f.saveDexInfo.Ok? && f.findByName.Ok? ==>
            t == [Connect, StartTransaction, CommitTransaction, RollbackTransaction, Release])
      && (TransactionOpened(fetched, f) && !(f.findByName.Ok? && f.saveDexInfo.Ok? && f.saveDexProtocols.Ok?) ==>
            t == [Connect, StartTransaction, RollbackTransaction, Release])
  {
    if TransactionOpened(fetched, f) {
      DexOpenedTrace(s, fetched, f);
      var commit: seq<RunnerCall> := [CommitTransaction];
      var rollback: seq<RunnerCall> := [RollbackTransaction];
      if TryAllOk(f) {
        assert [Connect, StartTransaction] + commit + [] + [Release] == [Connect, StartTransaction, CommitTransaction, Release];
      } else if f.findByName.Ok? && f.saveDexInfo.Ok? && f.saveDexProtocols.Ok? {
        assert [Connect, StartTransaction] + commit + rollback + [Release] ==
               [Connect, StartTransaction, CommitTransaction, RollbackTransaction, Release];
      } else {
        assert [Connect, StartTransaction] + [] + rollback + [Release] == [Connect, StartTransaction, RollbackTransaction, Release];
      }
    } else if fetched.Fetched? && f.connect.Fail? {
      assert GetDexInfoSpec(s, fetched, f).runner == AfterConnect(FreshRunner(), f.connect);
    } else if fetched.Fetched? {
      assert GetDexInfoSpec(s, fetched, f).runner == AfterStart(AfterConnect(FreshRunner(), f.connect), f.start);
    }
  }

  /** The runner's calls once the transaction was opened: connect and start,
      the commit if every save succeeded, the rollback unless the commit
      succeeded, and the release. */
  lemma DexOpenedTrace(s: DbState, fetched: Fetch<DexInfoResponse>, f: DexFaults)
    requires TransactionOpened(fetched, f)
    ensures GetDexInfoSpec(s, fetched, f).runner.trace ==
      [Connect, StartTransaction]
      + (if f.findByName.Ok? && f.saveDexInfo.Ok? && f.saveDexProtocols.Ok? then [CommitTransaction] else [])
      + (if TryAllOk(f) then [] else [RollbackTransaction])
      + [Release]
  {
    var t2 := AfterStart(AfterConnect(FreshRunner(), f.connect), f.start);
    assert t2.trace == [Connect, StartTransaction];
    DexTryRunner(Scope(s, t2), fetched.payload, f);
  }

  /** The runner ends in state Released exactly when the transaction was
      started and the release in the finally block succeeded. */
  lemma DexRunnerEndsReleased(s: DbState, fetched: Fetch<DexInfoResponse>, f: DexFaults)
    ensures GetDexInfoSpec(s, fetched, f).runner.state == Released <==>
            TransactionOpened(fetched, f) && f.release.Ok?
  {
    if TransactionOpened(fetched, f) {
      var t2 := AfterStart(AfterConnect(FreshRunner(), f.connect), f.start);
      DexTryFacts(Scope(s, t2), fetched.payload, f);
      var tried := DexTry(Scope(s, t2), fetched.payload, f);
      var caught := if tried.saved.None? then AfterRollback(tried.scope.tx, f.rollback) else tried.scope.tx;
      assert caught.state != Released;
    }
  }

  /** Once the transaction was started the runner is released exactly once,
      as its last call, and it ends Released exactly when release succeeds.
      If `connect` or `startTransaction` fails it is never released. */
  lemma {:induction false} DexReleasedExactlyOnce(s: DbState, fetched: Fetch<DexInfoResponse>, f: DexFaults)
    ensures var runner := GetDexInfoSpec(s, fetched, f).runner;
      && multiset(runner.trace)[Release] == (if TransactionOpened(fetched, f) then 1 else 0)
      && (TransactionOpened(fetched, f) ==> runner.trace[|runner.trace| - 1] == Release)
      && (runner.state == Released <==> TransactionOpened(fetched, f) && f.release.Ok?)
  {
    DexRunnerEndsReleased(s, fetched, f);
    DexRunnerTrace(s, fetched, f);
    var t := GetDexInfoSpec(s, fetched, f).runner.trace;
    if TransactionOpened(fetched, f) {
      var t2 := AfterStart(AfterConnect(FreshRunner(), f.connect), f.start);
      DexTryFacts(Scope(s, t2), fetched.payload, f);
      if TryAllOk(f) {
        assert t == [Connect, StartTransaction, CommitTransaction, Release];
      } else if f.findByName.Ok? && f.saveDexInfo.Ok? && f.saveDexProtocols.Ok? {
        assert t == [Connect, StartTransaction, CommitTransaction, RollbackTransaction, Release];
      } else {
        assert t == [Connect, StartTransaction, RollbackTransaction, Release];
      }
    } else if fetched.FetchFailed? {
      assert t == [];
    } else if f.connect.Fail? {
      assert t == [Connect];
    } else {
      assert t == [Connect, StartTransaction];
    }
  }

  /** The repository calls the `try` block makes for response `r`, against
      the database `s` it starts from. */
  function DexTryAddedCalls(s: DbState, r: DexInfoResponse, f: DexFaults): seq<RepoCall>
  {
    var d := SavedDexInfo(s, r);
    [FindChainByName(r.chain)] +
    (if f.findByName.Fail? then []
     else [SaveDexInfo(d)] +
          (if f.saveDexInfo.Fail? then [] else [SaveDexProtocols(ToDexProtocols(r.protocols, d))]))
  }

  /** The repository calls of the try block: findByName, then the two saves,
      up to the first failure. The query-runner calls add none. */
  lemma DexTryCalls(sc: Scope, r: DexInfoResponse, f: DexFaults)
    ensures var d := SavedDexInfo(sc.db, r);
      DexTry(sc, r, f).scope.db.calls ==
        sc.db.calls + [FindChainByName(r.chain)] +
        (if f.findByName.Fail? then []
         else [SaveDexInfo(d)] +
              (if f.saveDexInfo.Fail? then [] else [SaveDexProtocols(ToDexProtocols(r.protocols, d))]))
    ensures DexTry(sc, r, f).scope.db.calls == sc.db.calls + DexTryAddedCalls(sc.db, r, f)
  {
    var d := SavedDexInfo(sc.db, r);
    var sc1 := Scope(AfterFindByName(sc.db, r.chain), sc.tx);
    if f.findByName.Ok? {
      var sc2 := AfterSaveDexInfo(sc1, d, f.saveDexInfo);
      assert sc2.db.calls == sc.db.calls + [FindChainByName(r.chain)] + [SaveDexInfo(d)];
      if f.saveDexInfo.Ok? {
        var ps := ToDexProtocols(r.protocols, d);
        var sc3 := AfterSaveDexProtocols(sc2, ps, f.saveDexProtocols);
        assert sc3.db.calls == sc.db.calls + [FindChainByName(r.chain)] + ([SaveDexInfo(d)] + [SaveDexProtocols(ps)]);
        assert AfterCommit(sc3, f.commit).db.calls == sc3.db.calls;
      }
    }
  }

  /** `getDexInfo` adds the calls of its `try` block when the transaction
      was opened and no call otherwise. */
  lemma DexAddedCalls(s: DbState, fetched: Fetch<DexInfoResponse>, f: DexFaults)
    ensures GetDexInfoSpec(s, fetched, f).db.calls ==
      if TransactionOpened(fetched, f) then s.calls + DexTryAddedCalls(s, fetched.payload, f)
      else s.calls
  {
    if TransactionOpened(fetched, f) {
      var t2 := AfterStart(AfterConnect(FreshRunner(), f.connect), f.start);
      DexTryCalls(Scope(s, t2), fetched.payload, f);
      assert GetDexInfoSpec(s, fetched, f).db == DexTry(Scope(s, t2), fetched.payload, f).scope.db;
    } else {
      assert GetDexInfoSpec(s, fetched, f).db == s;
    }
  }

  /** The `try` block's calls are one to three, at ranks 4, 5 and 6. */
  lemma DexTryAddedCallsRanked(s: DbState, r: DexInfoResponse, f: DexFaults)
    ensures var added := DexTryAddedCalls(s, r, f);
      && 1 <= |added| <= 3
      && forall i :: 0 <= i < |added| ==> CallRank(added[i]) == 4 + i
  {
  }

  /** The repository calls `getDexInfo` makes: findByName, then the two
      saves, cut short by the first failure, in the positions the run's
      order gives them; none unless the transaction was started. */
  lemma DexRepositoryCalls(s: DbState, fetched: Fetch<DexInfoResponse>, f: DexFaults)
    ensures var calls := GetDexInfoSpec(s, fetched, f).db.calls;
      && RankedFrom(s.calls, calls, 4)
      && |calls| <= |s.calls| + 3
      && (TransactionOpened(fetched, f) <==> |calls| > |s.calls|)
  {
    DexAddedCalls(s, fetched, f);
    if TransactionOpened(fetched, f) {
      var added := DexTryAddedCalls(s, fetched.payload, f);
      DexTryAddedCallsRanked(s, fetched.payload, f);
      var calls := s.calls + added;
      assert forall i :: |s.calls| <= i < |calls| ==> calls[i] == added[i - |s.calls|];
    }
  }
}

/** How `queryDefiLlamaApiForBaseMainnet` narrows every multi-chain list down
    to the target chain "Base" before anything is written. */
module TargetChain {
  import opened Common
  import opened Entities
  import opened ArrayOps

  /** The target chain's name, matched exactly and case-sensitively. */
  const Base: string := "Base"

  /** `chains.find((chain) => chain.name === 'Base')`. */
  function SelectBaseChain(chains: seq<ChainResponse>): (r: Option<ChainResponse>)
    ensures r.None? <==> forall i :: 0 <= i < |chains| ==> chains[i].name != Base
    ensures r.Some? ==> r.value.name == Base
    ensures r.Some? ==> exists i :: 0 <= i < |chains| && chains[i] == r.value &&
                                    forall j :: 0 <= j < i ==> chains[j].name != Base
  {
    Find((c: ChainResponse) => c.name == Base, chains)
  }

  /** `chains.find((chain) => chain === 'Base')` used as a condition: the
      string found, "Base", is truthy, so the test is whether one was found. */
  predicate ListsBase(chains: seq<string>)
  {
    Find((c: string) => c == Base, chains).Some?
  }

  /** The truthiness test is exactly list membership. */
  lemma ListsBaseIsMembership(chains: seq<string>)
    ensures ListsBase(chains) <==> Base in chains
  {
    if Base in chains {
      var i :| 0 <= i < |chains| && chains[i] == Base;
      assert !(forall j :: 0 <= j < |chains| ==> chains[j] != Base);
    }
  }

  /** The `protocols.filter(...)` of the run. */
  function BaseProtocols(ps: seq<ProtocolResponse>): seq<ProtocolResponse>
  {
    Filter((p: ProtocolResponse) => ListsBase(p.chains), ps)
  }

  /** The `stableCoins.filter(...)` of the run. */
  function BaseStableCoins(ss: seq<StableCoinResponse>): seq<StableCoinResponse>
  {
    Filter((s: StableCoinResponse) => ListsBase(s.chains), ss)
  }

  /** The `yieldPools.filter((yieldPool) => yieldPool.chain === 'Base')` of the run. */
  function BaseYieldPools(ys: seq<YieldPoolResponse>): seq<YieldPoolResponse>
  {
    Filter((y: YieldPoolResponse) => y.chain == Base, ys)
  }

  /** The protocols kept are a subsequence of the input, and each protocol is
      kept, as often as it occurs, exactly when its `chains` lists "Base". */
  lemma BaseProtocolsExact(ps: seq<ProtocolResponse>)
    ensures IsSubsequence(BaseProtocols(ps), ps)
    ensures forall i :: 0 <= i < |BaseProtocols(ps)| ==> Base in BaseProtocols(ps)[i].chains
    ensures forall p :: multiset(BaseProtocols(ps))[p] ==
                        if Base in p.chains then multiset(ps)[p] else 0
  {
    var keep := (p: ProtocolResponse) => ListsBase(p.chains);
    FilterIsSubsequence(keep, ps);
    forall i | 0 <= i < |BaseProtocols(ps)| ensures Base in BaseProtocols(ps)[i].chains {
      ListsBaseIsMembership(BaseProtocols(ps)[i].chains);
    }
    forall p ensures multiset(BaseProtocols(ps))[p] ==
                     if Base in p.chains then multiset(ps)[p] else 0 {
      FilterMultiplicity(keep, ps, p);
      ListsBaseIsMembership(p.chains);
    }
  }

  /** The stablecoins kept are a subsequence of the input, and each stablecoin
      is kept, as often as it occurs, exactly when its `chains` lists "Base". */
  lemma BaseStableCoinsExact(ss: seq<StableCoinResponse>)
    ensures IsSubsequence(BaseStableCoins(ss), ss)
    ensures forall i :: 0 <= i < |BaseStableCoins(ss)| ==> Base in BaseStableCoins(ss)[i].chains
    ensures forall s :: multiset(BaseStableCoins(ss))[s] ==
                        if Base in s.chains then multiset(ss)[s] else 0
  {
    var keep := (s: StableCoinResponse) => ListsBase(s.chains);
    FilterIsSubsequence(keep, ss);
    forall i | 0 <= i < |BaseStableCoins(ss)| ensures Base in BaseStableCoins(ss)[i].chains {
      ListsBaseIsMembership(BaseStableCoins(ss)[i].chains);
    }
    forall s ensures multiset(BaseStableCoins(ss))[s] ==
                     if Base in s.chains then multiset(ss)[s] else 0 {
      FilterMultiplicity(keep, ss, s);
      ListsBaseIsMembership(s.chains);
    }
  }

  /** The pools kept are a subsequence of the input, and each pool is kept,
      as often as it occurs, exactly when its `chain` equals "Base". */
  lemma BaseYieldPoolsExact(ys: seq<YieldPoolResponse>)
    ensures IsSubsequence(BaseYieldPools(ys), ys)
    ensures forall i :: 0 <= i < |BaseYieldPools(ys)| ==> BaseYieldPools(ys)[i].chain == Base
    ensures forall y :: multiset(BaseYieldPools(ys))[y] ==
                        if y.chain == Base then multiset(ys)[y] else 0
  {
    var keep := (y: YieldPoolResponse) => y.chain == Base;
    FilterIsSubsequence(keep, ys);
    forall y ensures multiset(BaseYieldPools(ys))[y] ==
                     if y.chain == Base then multiset(ys)[y] else 0 {
      FilterMultiplicity(keep, ys, y);
    }
  }
}

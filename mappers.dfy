/** The field-by-field transforms from upstream records to database entities
    done inside `saveAllChains`, `saveAllProtocols`, `saveStableCoins`,
    `saveYieldPools`, `saveDexInfo` and `saveDexProtocols`. Each record mapper
    has an inverse below it; the sequence mappers state that the inverse
    recovers every input, so no field the mapper reads is lost or altered. */
module Mappers {
  import opened Common
  import opened Entities
  import opened ArrayOps

  // ---- Chain --------------------------------------------------------------

  /** `gecko_id` is renamed to `geckoId`; the other fields are copied. */
  function ToChain(c: ChainResponse): (r: Chain)
    ensures r.geckoId == c.gecko_id && r.name == c.name
    ensures ChainResponseOf(r) == c
  {
    Chain(c.gecko_id, c.tvl, c.tokenSymbol, c.cmcId, c.name, c.chainId)
  }

  function ChainResponseOf(c: Chain): ChainResponse
  {
    ChainResponse(c.geckoId, c.tvl, c.tokenSymbol, c.cmcId, c.name, c.chainId)
  }

  /** `chains.map(...)` in `saveAllChains`, whose argument may hold
      `undefined`: reading `gecko_id` of an undefined element throws, so the
      mapping fails (None) exactly when some element is absent. */
  function ToChainEntities(cs: seq<Option<ChainResponse>>): (r: Option<seq<Chain>>)
    ensures r.None? <==> exists i :: 0 <= i < |cs| && cs[i].None?
    ensures r.Some? ==> |r.value| == |cs|
    ensures r.Some? ==> forall i :: 0 <= i < |cs| ==>
      cs[i].Some? && r.value[i].geckoId == cs[i].value.gecko_id &&
      ChainResponseOf(r.value[i]) == cs[i].value
  {
    if cs == [] then Some([])
    else match cs[0]
      case None => None
      case Some(c) =>
        match ToChainEntities(cs[1..])
        case None => None
        case Some(rest) => Some([ToChain(c)] + rest)
  }

  // ---- Protocol -----------------------------------------------------------

  /** `id` is renamed to `protocolId`; the other fields are copied. */
  function ToProtocol(p: ProtocolResponse): (r: Protocol)
    ensures r.protocolId == p.id && r.chains == p.chains
    ensures ProtocolResponseOf(r) == p
  {
    Protocol(p.id, p.name, p.symbol, p.category, p.chains, p.tvl, p.chainTvls,
             p.change_1d, p.change_7d)
  }

  function ProtocolResponseOf(p: Protocol): ProtocolResponse
  {
    ProtocolResponse(p.protocolId, p.name, p.symbol, p.category, p.chains, p.tvl,
                     p.chainTvls, p.change_1d, p.change_7d)
  }

  /** `protocols.map(...)` in `saveAllProtocols`. */
  function ToProtocols(ps: seq<ProtocolResponse>): (r: seq<Protocol>)
    ensures |r| == |ps|
    ensures forall i :: 0 <= i < |ps| ==>
      r[i].protocolId == ps[i].id && ProtocolResponseOf(r[i]) == ps[i]
  {
    MapSeq(ToProtocol, ps)
  }

  // ---- StableCoin ---------------------------------------------------------

  /** The four nested `circulating*` objects are flattened to their
      `peggedUSD` values; the other fields are copied. */
  function ToStableCoin(s: StableCoinResponse): (r: StableCoin)
    ensures r.circulatingPeggedUSD == s.circulating.peggedUSD
    ensures r.circulatingPrevDayPeggedUSD == s.circulatingPrevDay.peggedUSD
    ensures r.circulatingPrevWeekPeggedUSD == s.circulatingPrevWeek.peggedUSD
    ensures r.circulatingPrevMonthPeggedUSD == s.circulatingPrevMonth.peggedUSD
    ensures StableCoinResponseOf(r) == s
  {
    StableCoin(s.geckoId, s.name, s.symbol, s.pegType, s.priceSource, s.pegMechanism,
               s.circulating.peggedUSD, s.circulatingPrevDay.peggedUSD,
               s.circulatingPrevWeek.peggedUSD, s.circulatingPrevMonth.peggedUSD,
               s.chainCirculating, s.chains, s.price)
  }

  function StableCoinResponseOf(s: StableCoin): StableCoinResponse
  {
    StableCoinResponse(s.geckoId, s.name, s.symbol, s.pegType, s.priceSource, s.pegMechanism,
                       PeggedAmount(s.circulatingPeggedUSD),
                       PeggedAmount(s.circulatingPrevDayPeggedUSD),
                       PeggedAmount(s.circulatingPrevWeekPeggedUSD),
                       PeggedAmount(s.circulatingPrevMonthPeggedUSD),
                       s.chainCirculating, s.chains, s.price)
  }

  /** `stableCoins.map(...)` in `saveStableCoins`. */
  function ToStableCoins(ss: seq<StableCoinResponse>): (r: seq<StableCoin>)
    ensures |r| == |ss|
    ensures forall i :: 0 <= i < |ss| ==>
      && r[i].circulatingPeggedUSD == ss[i].circulating.peggedUSD
      && r[i].circulatingPrevDayPeggedUSD == ss[i].circulatingPrevDay.peggedUSD
      && r[i].circulatingPrevWeekPeggedUSD == ss[i].circulatingPrevWeek.peggedUSD
      && r[i].circulatingPrevMonthPeggedUSD == ss[i].circulatingPrevMonth.peggedUSD
      && StableCoinResponseOf(r[i]) == ss[i]
  {
    MapSeq(ToStableCoin, ss)
  }

  // ---- YieldPool ----------------------------------------------------------

  /** A straight field-by-field copy. */
  function ToYieldPool(y: YieldPoolResponse): (r: YieldPool)
    ensures r.chain == y.chain && r.pool == y.pool
    ensures YieldPoolResponseOf(r) == y
  {
    YieldPool(y.chain, y.project, y.symbol, y.tvlUsd, y.apyBase, y.apyReward, y.apy,
              y.rewardTokens, y.pool, y.apyPct1D, y.apyPct7D, y.apyPct30D, y.stablecoin,
              y.ilRisk, y.exposure, y.predictions, y.poolMeta, y.mu, y.sigma, y.count,
              y.outlier, y.underlyingTokens, y.il7d, y.apyBase7d, y.apyMean30d,
              y.volumeUsd1d, y.volumeUsd7d, y.apyBaseInception)
  }

  function YieldPoolResponseOf(y: YieldPool): YieldPoolResponse
  {
    YieldPoolResponse(y.chain, y.project, y.symbol, y.tvlUsd, y.apyBase, y.apyReward, y.apy,
                      y.rewardTokens, y.pool, y.apyPct1D, y.apyPct7D, y.apyPct30D, y.stablecoin,
                      y.ilRisk, y.exposure, y.predictions, y.poolMeta, y.mu, y.sigma, y.count,
                      y.outlier, y.underlyingTokens, y.il7d, y.apyBase7d, y.apyMean30d,
                      y.volumeUsd1d, y.volumeUsd7d, y.apyBaseInception)
  }

  /** `yieldPools.map(...)` in `saveYieldPools`. */
  function ToYieldPools(ys: seq<YieldPoolResponse>): (r: seq<YieldPool>)
    ensures |r| == |ys|
    ensures forall i :: 0 <= i < |ys| ==>
      r[i].chain == ys[i].chain && r[i].pool == ys[i].pool && YieldPoolResponseOf(r[i]) == ys[i]
  {
    MapSeq(ToYieldPool, ys)
  }

  // ---- DexInfo ------------------------------------------------------------

  /** The entity literal in `saveDexInfo`: the aggregate fields copied and
      the looked-up chain attached. */
  function ToDexInfo(d: DexInfoResponse, chain: Option<Chain>): (r: DexInfo)
    ensures r.chain == chain
    ensures DexInfoResponseOf(r, d.chain, d.protocols) == d
  {
    DexInfo(d.allChains, d.total24h, d.total48hto24h, d.total7d, d.total14dto7d,
            d.total60dto30d, d.total30d, d.total1y, d.totalAllTime, d.change_1d,
            d.change_7d, d.change_1m, d.change_7dover7d, d.change_30dover30d,
            d.total7DaysAgo, d.total30DaysAgo, d.breakdown24h, d.breakdown30d, chain)
  }

  /** Rebuilds the response from an entity, given the two response fields
      the entity does not keep (the reported chain name and the protocols). */
  function DexInfoResponseOf(d: DexInfo, chain: string, protocols: seq<DexProtocolResponse>): DexInfoResponse
  {
    DexInfoResponse(d.allChains, d.total24h, d.total48hto24h, d.total7d, d.total14dto7d,
                    d.total60dto30d, d.total30d, d.total1y, d.totalAllTime, d.change_1d,
                    d.change_7d, d.change_1m, d.change_7dover7d, d.change_30dover30d,
                    d.total7DaysAgo, d.total30DaysAgo, d.breakdown24h, d.breakdown30d,
                    chain, protocols)
  }

  // ---- DexProtocol --------------------------------------------------------

  /** The entity literal in `saveDexProtocols`: the owning `dexInfo` attached
      and every response field copied. */
  function ToDexProtocol(p: DexProtocolResponse, dexInfo: DexInfo): (r: DexProtocol)
    ensures r.dexInfo == dexInfo && r.defillamaId == p.defillamaId
    ensures DexProtocolResponseOf(r) == p
  {
    DexProtocol(dexInfo, p.defillamaId, p.name, p.displayName, p.module', p.category, p.logo,
                p.chains, p.protocolType, p.methodologyURL, p.methodology, p.parentProtocol,
                p.slug, p.linkedProtocols, p.id, p.total24h, p.total48hto24h, p.total7d,
                p.total14dto7d, p.total60dto30d, p.total30d, p.total1y, p.totalAllTime,
                p.average1y, p.monthlyAverage1y, p.change_1d, p.change_7d, p.change_1m,
                p.change_7dover7d, p.change_30dover30d, p.total7DaysAgo, p.total30DaysAgo)
  }

  function DexProtocolResponseOf(p: DexProtocol): DexProtocolResponse
  {
    DexProtocolResponse(p.defillamaId, p.name, p.displayName, p.module', p.category, p.logo,
                        p.chains, p.protocolType, p.methodologyURL, p.methodology, p.parentProtocol,
                        p.slug, p.linkedProtocols, p.id, p.total24h, p.total48hto24h, p.total7d,
                        p.total14dto7d, p.total60dto30d, p.total30d, p.total1y, p.totalAllTime,
                        p.average1y, p.monthlyAverage1y, p.change_1d, p.change_7d, p.change_1m,
                        p.change_7dover7d, p.change_30dover30d, p.total7DaysAgo, p.total30DaysAgo)
  }

  /** `dexProtocols.map(...)` in `saveDexProtocols`: one entity per response,
      in order, each owned by the same `dexInfo`. */
  function ToDexProtocols(ps: seq<DexProtocolResponse>, dexInfo: DexInfo): (r: seq<DexProtocol>)
    ensures |r| == |ps|
    ensures forall i :: 0 <= i < |ps| ==>
      r[i].dexInfo == dexInfo && r[i].defillamaId == ps[i].defillamaId &&
      DexProtocolResponseOf(r[i]) == ps[i]
  {
    MapSeq((p: DexProtocolResponse) => ToDexProtocol(p, dexInfo), ps)
  }
}

/** The records the service reads from the DefiLlama API and the entities it
    writes to the database. Field names are the wire and column names; only
    the fields the service's mappers read or write are modelled. */
module Entities {
  import opened Common

  // ---- Upstream response records ----------------------------------------

  /** One element of `GET /v2/chains`. */
  datatype ChainResponse = ChainResponse(
    gecko_id: string,
    tvl: Number,
    tokenSymbol: string,
    cmcId: string,
    name: string,
    chainId: Number)

  /** One element of `GET /protocols`. */
  datatype ProtocolResponse = ProtocolResponse(
    id: string,
    name: string,
    symbol: string,
    category: string,
    chains: seq<string>,
    tvl: Number,
    chainTvls: Json,
    change_1d: Number,
    change_7d: Number)

  /** A nested circulating-supply object of a stablecoin. */
  datatype PeggedAmount = PeggedAmount(peggedUSD: Number)

  /** One element of `peggedAssets` in `GET /stablecoins`. */
  datatype StableCoinResponse = StableCoinResponse(
    geckoId: string,
    name: string,
    symbol: string,
    pegType: string,
    priceSource: string,
    pegMechanism: string,
    circulating: PeggedAmount,
    circulatingPrevDay: PeggedAmount,
    circulatingPrevWeek: PeggedAmount,
    circulatingPrevMonth: PeggedAmount,
    chainCirculating: Json,
    chains: seq<string>,
    price: Number)

  /** One element of `data` in `GET /pools`. */
  datatype YieldPoolResponse = YieldPoolResponse(
    chain: string,
    project: string,
    symbol: string,
    tvlUsd: Number,
    apyBase: Number,
    apyReward: Number,
    apy: Number,
    rewardTokens: seq<string>,
    pool: string,
    apyPct1D: Number,
    apyPct7D: Number,
    apyPct30D: Number,
    stablecoin: bool,
    ilRisk: string,
    exposure: string,
    predictions: Json,
    poolMeta: string,
    mu: Number,
    sigma: Number,
    count: Number,
    outlier: bool,
    underlyingTokens: seq<string>,
    il7d: Number,
    apyBase7d: Number,
    apyMean30d: Number,
    volumeUsd1d: Number,
    volumeUsd7d: Number,
    apyBaseInception: Number)

  /** One element of `protocols` in `GET /overview/dexs/{chain}`.
      (`module'` is the upstream field `module`, a reserved word in Dafny.) */
  datatype DexProtocolResponse = DexProtocolResponse(
    defillamaId: string,
    name: string,
    displayName: string,
    module': string,
    category: string,
    logo: string,
    chains: seq<string>,
    protocolType: string,
    methodologyURL: string,
    methodology: Json,
    parentProtocol: string,
    slug: string,
    linkedProtocols: seq<string>,
    id: string,
    total24h: Number,
    total48hto24h: Number,
    total7d: Number,
    total14dto7d: Number,
    total60dto30d: Number,
    total30d: Number,
    total1y: Number,
    totalAllTime: Number,
    average1y: Number,
    monthlyAverage1y: Number,
    change_1d: Number,
    change_7d: Number,
    change_1m: Number,
    change_7dover7d: Number,
    change_30dover30d: Number,
    total7DaysAgo: Number,
    total30DaysAgo: Number)

  /** The body of `GET /overview/dexs/{chain}`. */
  datatype DexInfoResponse = DexInfoResponse(
    allChains: seq<string>,
    total24h: Number,
    total48hto24h: Number,
    total7d: Number,
    total14dto7d: Number,
    total60dto30d: Number,
    total30d: Number,
    total1y: Number,
    totalAllTime: Number,
    change_1d: Number,
    change_7d: Number,
    change_1m: Number,
    change_7dover7d: Number,
    change_30dover30d: Number,
    total7DaysAgo: Number,
    total30DaysAgo: Number,
    breakdown24h: Json,
    breakdown30d: Json,
    chain: string,
    protocols: seq<DexProtocolResponse>)

  // ---- Database entities ------------------------------------------------

  /** A Chain row; its natural key is `name`. */
  datatype Chain = Chain(
    geckoId: string,
    tvl: Number,
    tokenSymbol: string,
    cmcId: string,
    name: string,
    chainId: Number)

  /** A Protocol row; its key is `protocolId`. */
  datatype Protocol = Protocol(
    protocolId: string,
    name: string,
    symbol: string,
    category: string,
    chains: seq<string>,
    tvl: Number,
    chainTvls: Json,
    change_1d: Number,
    change_7d: Number)

  /** A StableCoin row; its key is `geckoId`. */
  datatype StableCoin = StableCoin(
    geckoId: string,
    name: string,
    symbol: string,
    pegType: string,
    priceSource: string,
    pegMechanism: string,
    circulatingPeggedUSD: Number,
    circulatingPrevDayPeggedUSD: Number,
    circulatingPrevWeekPeggedUSD: Number,
    circulatingPrevMonthPeggedUSD: Number,
    chainCirculating: Json,
    chains: seq<string>,
    price: Number)

  /** A YieldPool row; its key is `pool`. */
  datatype YieldPool = YieldPool(
    chain: string,
    project: string,
    symbol: string,
    tvlUsd: Number,
    apyBase: Number,
    apyReward: Number,
    apy: Number,
    rewardTokens: seq<string>,
    pool: string,
    apyPct1D: Number,
    apyPct7D: Number,
    apyPct30D: Number,
    stablecoin: bool,
    ilRisk: string,
    exposure: string,
    predictions: Json,
    poolMeta: string,
    mu: Number,
    sigma: Number,
    count: Number,
    outlier: bool,
    underlyingTokens: seq<string>,
    il7d: Number,
    apyBase7d: Number,
    apyMean30d: Number,
    volumeUsd1d: Number,
    volumeUsd7d: Number,
    apyBaseInception: Number)

  /** A DexInfo row: the DEX volume overview of one chain. `chain` is the
      Chain row it belongs to, or None when the lookup found none. */
  datatype DexInfo = DexInfo(
    allChains: seq<string>,
    total24h: Number,
    total48hto24h: Number,
    total7d: Number,
    total14dto7d: Number,
    total60dto30d: Number,
    total30d: Number,
    total1y: Number,
    totalAllTime: Number,
    change_1d: Number,
    change_7d: Number,
    change_1m: Number,
    change_7dover7d: Number,
    change_30dover30d: Number,
    total7DaysAgo: Number,
    total30DaysAgo: Number,
    breakdown24h: Json,
    breakdown30d: Json,
    chain: Option<Chain>)

  /** A DexProtocol row; its key is `defillamaId`; `dexInfo` is its owner. */
  datatype DexProtocol = DexProtocol(
    dexInfo: DexInfo,
    defillamaId: string,
    name: string,
    displayName: string,
    module': string,
    category: string,
    logo: string,
    chains: seq<string>,
    protocolType: string,
    methodologyURL: string,
    methodology: Json,
    parentProtocol: string,
    slug: string,
    linkedProtocols: seq<string>,
    id: string,
    total24h: Number,
    total48hto24h: Number,
    total7d: Number,
    total14dto7d: Number,
    total60dto30d: Number,
    total30d: Number,
    total1y: Number,
    totalAllTime: Number,
    average1y: Number,
    monthlyAverage1y: Number,
    change_1d: Number,
    change_7d: Number,
    change_1m: Number,
    change_7dover7d: Number,
    change_30dover30d: Number,
    total7DaysAgo: Number,
    total30DaysAgo: Number)
}

/** The values the swap hooks receive from the Uniswap SDKs (trades, routes,
    pools, amounts), from the application's other hooks (allowance and permit
    states) and from the static address tables, together with the list
    operations (`map`, `every`, `filter`) the hooks apply to them. */
module SwapTypes {
  import opened Wrappers

  type Address = string

  /** A chain id as the wallet reports it (a JavaScript number). */
  type ChainId = nat

  /** The SDK never builds an amount whose denominator is zero. */
  type Positive = n: nat | n > 0 witness 1

  datatype TradeType = ExactInput | ExactOutput

  /** The protocol a route of a router-sdk trade belongs to. */
  datatype Protocol = V2 | V3

  datatype Token = Token(address: Address)

  /** A currency is the chain's native coin or an ERC-20 token. */
  datatype Currency = Native | Erc20(token: Token) {
    /** `currency.isToken` */
    predicate IsToken() { Erc20? }
  }

  /** A `CurrencyAmount`: a non-negative fraction of units of a currency. */
  datatype CurrencyAmount = CurrencyAmount(currency: Currency, numerator: nat, denominator: Positive)

  /** A liquidity pool: a `Pair` of the V2 SDK or a `Pool` of the V3 SDK. */
  datatype LiquidityPool = Pair(pairAddress: Address) | Pool(poolAddress: Address)

  /** The protocol whose router can swap through the pool (the `instanceof` test). */
  function PoolProtocol(pool: LiquidityPool): (protocol: Protocol)
    ensures protocol == V2 <==> pool.Pair?
    ensures protocol == V3 <==> pool.Pool?
  {
    match pool
    case Pair(_) => V2
    case Pool(_) => V3
  }

  /** A route: the pools it passes through and the tokens it visits, in order. */
  datatype Route = Route(protocol: Protocol, pools: seq<LiquidityPool>, path: seq<Token>)

  /** One leg of a trade: a route and the amounts that go through it. */
  datatype Swap = Swap(route: Route, inputAmount: CurrencyAmount, outputAmount: CurrencyAmount)

  /** The three SDK trade classes the hooks accept; the source tells them apart
      with `instanceof`, here they are the constructors of one union. A V2 trade
      has exactly one route; a V3 trade and a router-sdk (mixed) trade hold a
      list of swaps. */
  datatype AnyTrade =
    | V2Trade(route: Route, tradeType: TradeType, inputAmount: CurrencyAmount, outputAmount: CurrencyAmount)
    | V3Trade(swaps: seq<Swap>, tradeType: TradeType, inputAmount: CurrencyAmount, outputAmount: CurrencyAmount)
    | MixedTrade(swaps: seq<Swap>, tradeType: TradeType, inputAmount: CurrencyAmount, outputAmount: CurrencyAmount)

  /** `trade.routes` of a router-sdk trade: the route of every swap, in order. */
  function Routes(swaps: seq<Swap>): (routes: seq<Route>)
    ensures |routes| == |swaps|
    ensures forall i :: 0 <= i < |swaps| ==> routes[i] == swaps[i].route
  {
    seq(|swaps|, i requires 0 <= i < |swaps| => swaps[i].route)
  }

  /** `tokens.map((p) => p.address)` */
  function Addresses(tokens: seq<Token>): (addresses: seq<Address>)
    ensures |addresses| == |tokens|
    ensures forall i :: 0 <= i < |tokens| ==> addresses[i] == tokens[i].address
  {
    if tokens == [] then [] else [tokens[0].address] + Addresses(tokens[1..])
  }

  /** `routes.every((route) => route.protocol === protocol)` */
  function EveryRouteIs(routes: seq<Route>, protocol: Protocol): (every: bool)
    ensures every <==> forall i :: 0 <= i < |routes| ==> routes[i].protocol == protocol
  {
    if routes == [] then true else routes[0].protocol == protocol && EveryRouteIs(routes[1..], protocol)
  }

  /** `pools.filter((pool) => pool instanceof Pair)` for V2 and
      `pools.filter((p) => p instanceof Pool)` for V3. */
  function PoolsOf(pools: seq<LiquidityPool>, protocol: Protocol): (kept: seq<LiquidityPool>)
    ensures |kept| <= |pools|
    ensures forall i :: 0 <= i < |kept| ==> PoolProtocol(kept[i]) == protocol
    ensures forall pool :: pool in kept <==> pool in pools && PoolProtocol(pool) == protocol
    ensures (forall i :: 0 <= i < |pools| ==> PoolProtocol(pools[i]) == protocol) ==> kept == pools
  {
    if pools == [] then []
    else if PoolProtocol(pools[0]) == protocol then [pools[0]] + PoolsOf(pools[1..], protocol)
    else PoolsOf(pools[1..], protocol)
  }

  /** Filtering keeps the order of the pools: it distributes over concatenation. */
  lemma {:induction false} PoolsOfAppend(front: seq<LiquidityPool>, back: seq<LiquidityPool>, protocol: Protocol)
    ensures PoolsOf(front + back, protocol) == PoolsOf(front, protocol) + PoolsOf(back, protocol)
  {
    if front == [] {
      assert front + back == back;
    } else {
      assert (front + back)[0] == front[0];
      assert (front + back)[1..] == front[1..] + back;
      PoolsOfAppend(front[1..], back, protocol);
    }
  }

  /** JavaScript truthiness of an optional string: absent and `""` are falsy. */
  predicate Truthy(s: Option<string>) {
    s.Some? && s.value != ""
  }

  /** JavaScript truthiness of an optional chain id: absent and `0` are falsy. */
  predicate ChainPresent(chainId: Option<ChainId>) {
    chainId.Some? && chainId.value != 0
  }

  /** The chain-id-keyed address tables of `constants/addresses`. */
  datatype AddressTables = AddressTables(
    v2Router: map<ChainId, Address>,       // V2_ROUTER_ADDRESS
    v3Router: map<ChainId, Address>,       // V3_ROUTER_ADDRESS
    swapRouter: map<ChainId, Address>,     // SWAP_ROUTER_ADDRESSES
    verifyingContract: map<ChainId, Address>) // VERIFYING_CONTRACT_EIP712

  /** `table[chainId]`: `undefined` for a chain the table does not list. */
  function Lookup(table: map<ChainId, Address>, chainId: ChainId): (address: Option<Address>)
    ensures address.Some? <==> chainId in table
    ensures address.Some? ==> address.value == table[chainId]
  {
    if chainId in table then Some(table[chainId]) else None
  }

  /** On-chain allowance status, as the allowance hook reports it. */
  datatype ApprovalState = Unknown | NotApproved | Pending | Approved

  /** Status of the ERC-20 permit signature, as the permit hook reports it. */
  datatype PermitState = NotApplicable | Loading | NotSigned | Signed
}

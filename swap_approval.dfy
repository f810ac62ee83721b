/** The swap approval hooks: which router a trade is sent to, what amount is
    approved for which spender, the route flags and the router-specific trade
    rebuilt for the optimized router, the five-valued approve-or-permit state,
    and the handler that asks for a permit signature or an approval. */
module SwapApproval {
  import opened Wrappers
  import opened SwapTypes

  // ---------------------------------------------------------------------------
  // useSwapRouterAddress

  /** The router address a trade is sent to on the connected chain. */
  function SwapRouterAddress(trade: Option<AnyTrade>, chainId: Option<ChainId>, tables: AddressTables): (address: Option<Address>)
    ensures !ChainPresent(chainId) ==> address == None
    ensures ChainPresent(chainId) && trade.Some? && trade.value.V2Trade? ==> address == Lookup(tables.v2Router, chainId.value)
    ensures ChainPresent(chainId) && trade.Some? && trade.value.V3Trade? ==> address == Lookup(tables.v3Router, chainId.value)
    ensures ChainPresent(chainId) && (trade.None? || trade.value.MixedTrade?) ==> address == Lookup(tables.swapRouter, chainId.value)
  {
    if !ChainPresent(chainId) then None
    else if trade.Some? && trade.value.V2Trade? then Lookup(tables.v2Router, chainId.value)
    else if trade.Some? && trade.value.V3Trade? then Lookup(tables.v3Router, chainId.value)
    else Lookup(tables.swapRouter, chainId.value)
  }

  /** An address is only ever the connected chain's entry of one of the three
      router tables: an unknown chain gives `undefined`, never another chain's
      address. */
  lemma RouterAddressIsFromConnectedChain(trade: Option<AnyTrade>, chainId: Option<ChainId>, tables: AddressTables)
    ensures var address := SwapRouterAddress(trade, chainId, tables);
            address.Some? ==>
              ChainPresent(chainId) &&
              ((chainId.value in tables.v2Router && address.value == tables.v2Router[chainId.value]) ||
               (chainId.value in tables.v3Router && address.value == tables.v3Router[chainId.value]) ||
               (chainId.value in tables.swapRouter && address.value == tables.swapRouter[chainId.value]))
    ensures (ChainPresent(chainId) && chainId.value !in tables.v2Router && chainId.value !in tables.v3Router &&
             chainId.value !in tables.swapRouter) ==> SwapRouterAddress(trade, chainId, tables) == None
  {
  }

  // ---------------------------------------------------------------------------
  // amountToApprove and the spender (useSwapApprovalStates, useSwapApproval)

  /** The amount both hooks approve by default: the trade's maximum input
      (under the slippage tolerance `maximumAmountIn` is computed with) when the
      input currency is a token, and nothing for the native currency. */
  function DefaultAmountToApprove(trade: Option<AnyTrade>, maximumAmountIn: AnyTrade -> CurrencyAmount): (amount: Option<CurrencyAmount>)
    ensures amount.Some? <==> trade.Some? && trade.value.inputAmount.currency.IsToken()
    ensures amount.Some? ==> amount.value == maximumAmountIn(trade.value)
  {
    if trade.Some? && trade.value.inputAmount.currency.IsToken() then Some(maximumAmountIn(trade.value)) else None
  }

  /** The amount `useSwapApproval` approves: an explicit `amount` wins over the default. */
  function AmountToApprove(amount: Option<CurrencyAmount>, trade: Option<AnyTrade>, maximumAmountIn: AnyTrade -> CurrencyAmount): (approved: Option<CurrencyAmount>)
    ensures amount.Some? ==> approved == amount
    ensures amount.None? && trade.Some? && trade.value.inputAmount.currency.IsToken() ==> approved == Some(maximumAmountIn(trade.value))
    ensures approved.None? <==> amount.None? && (trade.None? || !trade.value.inputAmount.currency.IsToken())
  {
    if amount.Some? then amount else DefaultAmountToApprove(trade, maximumAmountIn)
  }

  /** The spender of `useSwapApprovalStates`: the verifying contract of the
      connected chain, `undefined` without one. */
  function StatesSpender(chainId: Option<ChainId>, tables: AddressTables): (spender: Option<Address>)
    ensures !ChainPresent(chainId) ==> spender == None
    ensures ChainPresent(chainId) ==> spender == Lookup(tables.verifyingContract, chainId.value)
  {
    if ChainPresent(chainId) then Lookup(tables.verifyingContract, chainId.value) else None
  }

  /** The spender of `useSwapApproval`: `VERIFYING_CONTRACT_EIP712[chainId || 0]`. */
  function ApprovalSpender(chainId: Option<ChainId>, tables: AddressTables): (spender: Option<Address>)
    ensures ChainPresent(chainId) ==> spender == Lookup(tables.verifyingContract, chainId.value)
    ensures !ChainPresent(chainId) ==> spender == Lookup(tables.verifyingContract, 0)
  {
    Lookup(tables.verifyingContract, if ChainPresent(chainId) then chainId.value else 0)
  }

  /** The two hooks pick the same spender, except without a connected chain,
      where `useSwapApproval` still looks up key 0. */
  lemma SpendersAgree(chainId: Option<ChainId>, tables: AddressTables)
    ensures StatesSpender(chainId, tables) == ApprovalSpender(chainId, tables) <==>
            ChainPresent(chainId) || 0 !in tables.verifyingContract
  {
  }

  // ---------------------------------------------------------------------------
  // useSwapApprovalStates

  /** The approval state for every known swap router. */
  datatype ApprovalStates = ApprovalStates(v2: ApprovalState, v3: ApprovalState, v2V3: ApprovalState)

  /** The allowance of the default amount for the verifying contract, as
      `stateForSpender` (the allowance hook) reports it, fanned out to all
      three routers. */
  function SwapApprovalStates(
    trade: Option<AnyTrade>, chainId: Option<ChainId>, tables: AddressTables,
    maximumAmountIn: AnyTrade -> CurrencyAmount,
    stateForSpender: (Option<CurrencyAmount>, Option<Address>) -> ApprovalState): (states: ApprovalStates)
    requires trade.None? || trade.value.MixedTrade?
    ensures states.v2 == states.v3 == states.v2V3
    ensures states.v2 == stateForSpender(DefaultAmountToApprove(trade, maximumAmountIn), StatesSpender(chainId, tables))
  {
    var state := stateForSpender(DefaultAmountToApprove(trade, maximumAmountIn), StatesSpender(chainId, tables));
    ApprovalStates(state, state, state)
  }

  // ---------------------------------------------------------------------------
  // useSwapApprovalOptimizedTrade

  /** The route flags handed to the optimized-router choice; the two protocol
      flags are `undefined` when there is no trade. */
  datatype RouteFlags = RouteFlags(onlyV2Routes: Option<bool>, onlyV3Routes: Option<bool>, tradeHasSplits: bool)

  function RouteFlagsOf(trade: Option<AnyTrade>): (flags: RouteFlags)
    requires trade.None? || trade.value.MixedTrade?
    ensures trade.None? ==> flags == RouteFlags(None, None, false)
    ensures trade.Some? ==> flags.onlyV2Routes.Some? && flags.onlyV3Routes.Some?
    ensures trade.Some? ==>
              (flags.onlyV2Routes.value <==> forall i :: 0 <= i < |trade.value.swaps| ==> trade.value.swaps[i].route.protocol == V2)
    ensures trade.Some? ==>
              (flags.onlyV3Routes.value <==> forall i :: 0 <= i < |trade.value.swaps| ==> trade.value.swaps[i].route.protocol == V3)
    ensures flags.tradeHasSplits <==> trade.Some? && |trade.value.swaps| > 1
  {
    match trade
    case None => RouteFlags(None, None, false)
    case Some(t) =>
      var routes := Routes(t.swaps);
      RouteFlags(Some(EveryRouteIs(routes, V2)), Some(EveryRouteIs(routes, V3)), |routes| > 1)
  }

  /** Both protocol flags hold at once exactly for a trade without routes; a
      trade with routes is at most one of only-V2 and only-V3. */
  lemma RouteFlagsExclusive(trade: AnyTrade)
    requires trade.MixedTrade?
    ensures var flags := RouteFlagsOf(Some(trade));
            (flags.onlyV2Routes == Some(true) && flags.onlyV3Routes == Some(true)) <==> trade.swaps == []
  {
  }

  /** The router `getTxOptimizedSwapRouter` picked. */
  datatype SwapRouterVersion = SwapRouterV2 | SwapRouterV3 | SwapRouterV2V3

  /** What `new V2Route(pairs, input, output)` and `new V2Trade(route, amount, type)` are given. */
  datatype V2TradeArgs = V2TradeArgs(
    pairs: seq<LiquidityPool>, inputCurrency: Currency, outputCurrency: Currency,
    inputAmount: CurrencyAmount, tradeType: TradeType)

  /** What one `new V3Route(pools, input, output)` and its amounts are given. */
  datatype V3RouteArgs = V3RouteArgs(
    pools: seq<LiquidityPool>, inputCurrency: Currency, outputCurrency: Currency,
    inputAmount: CurrencyAmount, outputAmount: CurrencyAmount)

  /** What `V3Trade.createUncheckedTradeWithMultipleRoutes` is given. */
  datatype V3TradeArgs = V3TradeArgs(routes: seq<V3RouteArgs>, tradeType: TradeType)

  /** What `new V2Trade(...)` can give back: a V2 trade, or `None` when it throws. */
  type V2TradeResult = t: Option<AnyTrade> | t.None? || t.value.V2Trade? witness None

  /** What `V3Trade.createUncheckedTradeWithMultipleRoutes` can give back: a
      V3 trade, or `None` when it throws. */
  type V3TradeResult = t: Option<AnyTrade> | t.None? || t.value.V3Trade? witness None

  /** The SDK constructors, left abstract apart from the class of trade each builds. */
  datatype SdkConstructors = SdkConstructors(
    newV2Trade: V2TradeArgs -> V2TradeResult,
    newV3Trade: V3TradeArgs -> V3TradeResult)

  /** The V2 trade's arguments: the `Pair` pools of the first swap's route, in
      order; `None` when there is no first swap (reading it throws). */
  function V2ArgsOf(trade: AnyTrade): (args: Option<V2TradeArgs>)
    requires trade.MixedTrade?
    ensures args.Some? <==> trade.swaps != []
    ensures args.Some? ==> args.value.pairs == PoolsOf(trade.swaps[0].route.pools, V2)
    ensures args.Some? ==> forall i :: 0 <= i < |args.value.pairs| ==> args.value.pairs[i].Pair?
    ensures args.Some? ==> args.value.inputAmount == trade.inputAmount && args.value.tradeType == trade.tradeType
    ensures args.Some? ==> args.value.inputCurrency == trade.inputAmount.currency &&
                           args.value.outputCurrency == trade.outputAmount.currency
  {
    if trade.swaps == [] then None
    else
      var pairs := PoolsOf(trade.swaps[0].route.pools, V2);
      assert forall i :: 0 <= i < |pairs| ==> PoolProtocol(pairs[i]) == V2;
      Some(V2TradeArgs(pairs, trade.inputAmount.currency, trade.outputAmount.currency, trade.inputAmount, trade.tradeType))
  }

  /** The V3 trade's arguments: one route per swap, each keeping that swap's
      `Pool` pools in order together with the swap's own amounts. */
  function V3ArgsOf(trade: AnyTrade): (args: V3TradeArgs)
    requires trade.MixedTrade?
    ensures |args.routes| == |trade.swaps| && args.tradeType == trade.tradeType
    ensures forall i :: 0 <= i < |trade.swaps| ==>
              var swap := trade.swaps[i];
              args.routes[i] == V3RouteArgs(PoolsOf(swap.route.pools, V3), swap.inputAmount.currency,
                                            swap.outputAmount.currency, swap.inputAmount, swap.outputAmount)
  {
    var swaps := trade.swaps;
    V3TradeArgs(
      seq(|swaps|, i requires 0 <= i < |swaps| =>
        V3RouteArgs(PoolsOf(swaps[i].route.pools, V3), swaps[i].inputAmount.currency,
                    swaps[i].outputAmount.currency, swaps[i].inputAmount, swaps[i].outputAmount)),
      trade.tradeType)
  }

  /** The trade rebuilt for the router `getTxOptimizedSwapRouter` chose:
      unchanged for the V2/V3 router, a V2 trade of the first swap's pairs, a
      V3 trade of every swap's pools; `undefined` without a trade, for an
      unknown router, and whenever building the trade throws. */
  function OptimizedTrade(trade: Option<AnyTrade>, router: Option<SwapRouterVersion>, sdk: SdkConstructors): (optimized: Option<AnyTrade>)
    requires trade.None? || trade.value.MixedTrade?
    ensures trade.None? || router.None? ==> optimized == None
    ensures trade.Some? && router == Some(SwapRouterV2V3) ==> optimized == trade
    ensures trade.Some? && router == Some(SwapRouterV2) ==>
              optimized == (match V2ArgsOf(trade.value) case None => None case Some(args) => sdk.newV2Trade(args))
    ensures trade.Some? && router == Some(SwapRouterV3) ==> optimized == sdk.newV3Trade(V3ArgsOf(trade.value))
    ensures optimized.Some? ==> router.Some? && (optimized.value.MixedTrade? <==> router.value == SwapRouterV2V3)
    ensures optimized.Some? ==> (optimized.value.V2Trade? <==> router.value == SwapRouterV2)
    ensures optimized.Some? ==> (optimized.value.V3Trade? <==> router.value == SwapRouterV3)
  {
    match (trade, router)
    case (None, _) => None
    case (Some(t), Some(SwapRouterV2V3)) => trade
    case (Some(t), Some(SwapRouterV2)) =>
      (match V2ArgsOf(t) case None => None case Some(args) => sdk.newV2Trade(args))
    case (Some(t), Some(SwapRouterV3)) => sdk.newV3Trade(V3ArgsOf(t))
    case (Some(_), None) => None
  }

  /** The rebuilt trade is sent to the router that was chosen for it: the V2
      router's address for the V2 router, the V3 router's for the V3 router,
      and the combined swap router's for the V2/V3 router. */
  lemma OptimizedTradeTargetsChosenRouter(trade: AnyTrade, router: SwapRouterVersion, sdk: SdkConstructors,
                                          chainId: Option<ChainId>, tables: AddressTables)
    requires trade.MixedTrade?
    ensures var optimized := OptimizedTrade(Some(trade), Some(router), sdk);
            optimized.Some? && ChainPresent(chainId) ==>
              SwapRouterAddress(optimized, chainId, tables) ==
                Lookup(match router
                       case SwapRouterV2 => tables.v2Router
                       case SwapRouterV3 => tables.v3Router
                       case SwapRouterV2V3 => tables.swapRouter, chainId.value)
  {
  }

  /** For the V2 router, a trade whose first route is made only of pairs is
      rebuilt from exactly those pairs, and one made only of V3 pools from none. */
  lemma OptimizedV2TradeKeepsPairs(trade: AnyTrade)
    requires trade.MixedTrade? && trade.swaps != []
    ensures var pools := trade.swaps[0].route.pools;
            (forall i :: 0 <= i < |pools| ==> pools[i].Pair?) ==> V2ArgsOf(trade).value.pairs == pools
    ensures var pools := trade.swaps[0].route.pools;
            (forall i :: 0 <= i < |pools| ==> pools[i].Pool?) ==> V2ArgsOf(trade).value.pairs == []
  {
    var pools := trade.swaps[0].route.pools;
    if forall i :: 0 <= i < |pools| ==> pools[i].Pool? {
      var pairs := V2ArgsOf(trade).value.pairs;
      if pairs != [] {
        assert pairs[0] in pools;
      }
    }
  }

  // ---------------------------------------------------------------------------
  // useApproveOrPermit: the approval state

  /** `ApproveOrPermitState`, the state shown to the user. */
  datatype ApproveOrPermitState = RequiresApproval | PendingApproval | RequiresSignature | PendingSignature | Approved

  /** The approve-or-permit state, derived in priority order from the
      allowance, the permit signature and whether the token offers a permit. */
  function ApproveOrPermitStateOf(approval: ApprovalState, signatureState: PermitState, permitAvailable: bool): (state: ApproveOrPermitState)
    ensures state == PendingApproval <==> approval == Pending
    ensures state == PendingSignature <==> approval != Pending && signatureState == Loading
    ensures state == ApproveOrPermitState.Approved <==>
              approval != Pending && signatureState != Loading && (approval != NotApproved || signatureState == Signed)
    ensures state == RequiresSignature <==>
              approval == NotApproved && (signatureState.NotApplicable? || signatureState.NotSigned?) && permitAvailable
    ensures state == RequiresApproval <==>
              approval == NotApproved && (signatureState.NotApplicable? || signatureState.NotSigned?) && !permitAvailable
  {
    if approval == Pending then PendingApproval
    else if signatureState == Loading then PendingSignature
    else if approval != NotApproved || signatureState == Signed then ApproveOrPermitState.Approved
    else if permitAvailable then RequiresSignature
    else RequiresApproval
  }

  // ---------------------------------------------------------------------------
  // useApproveOrPermit: handleApproveOrPermit

  /** The two external actions the handler can invoke. */
  datatype PermitAction = SignatureRequested | ApprovalRequested

  /** How an awaited external call settled: it resolved, or it threw an error
      that may carry a numeric `code`. */
  datatype CallOutcome = Resolved | Threw(code: Option<int>)

  /** The error code a wallet uses when the user rejects the request (EIP-1193). */
  const USER_REJECTED_CODE: int := 4001

  /** `error?.code === 4001`: only a thrown error can be a rejection, and an
      error without a code, or with another code, is not one. */
  predicate IsUserRejection(outcome: CallOutcome): (rejected: bool)
    ensures rejected ==> outcome.Threw?
    ensures outcome.Threw? && outcome.code.None? ==> !rejected
    ensures outcome.Threw? && outcome.code.Some? ==> (rejected <==> outcome.code.value == 4001)
  {
    outcome.Threw? && outcome.code == Some(USER_REJECTED_CODE)
  }

  /** The actions the handler invokes, in order, when the signature request
      settles with `signatureOutcome`. */
  function ApproveOrPermitCalls(signatureState: PermitState, permitAvailable: bool, signatureOutcome: CallOutcome): (calls: seq<PermitAction>)
    ensures SignatureRequested in calls <==> signatureState == NotSigned && permitAvailable
    ensures ApprovalRequested in calls <==>
              !(signatureState == NotSigned && permitAvailable) ||
              (signatureOutcome.Threw? && !IsUserRejection(signatureOutcome))
    ensures 0 < |calls| <= 2
    ensures calls[0] == SignatureRequested <==> signatureState == NotSigned && permitAvailable
    ensures |calls| == 2 ==> calls == [SignatureRequested, ApprovalRequested]
  {
    if signatureState == NotSigned && permitAvailable then
      if signatureOutcome.Threw? && !IsUserRejection(signatureOutcome) then [SignatureRequested, ApprovalRequested]
      else [SignatureRequested]
    else [ApprovalRequested]
  }

  /** A user who rejects the signature is never asked for an approval; any
      other signing failure leads to exactly one approval request. */
  lemma SignatureFailureFallsBack(signatureOutcome: CallOutcome)
    requires signatureOutcome.Threw?
    ensures IsUserRejection(signatureOutcome) ==> ApproveOrPermitCalls(NotSigned, true, signatureOutcome) == [SignatureRequested]
    ensures !IsUserRejection(signatureOutcome) ==>
              ApproveOrPermitCalls(NotSigned, true, signatureOutcome) == [SignatureRequested, ApprovalRequested]
  {
  }

  /** What the state shows is what the handler does: a state that requires an
      approval leads to an approval request only; a state that requires a
      signature, while no signature was made, leads to a signature request first.
      The two disagree when the permit hook reports not-applicable while a
      permit is offered: the state shows requires-signature, yet the handler
      asks for an approval only. */
  lemma HandlerFollowsState(approval: ApprovalState, signatureState: PermitState, permitAvailable: bool, signatureOutcome: CallOutcome)
    ensures ApproveOrPermitStateOf(approval, signatureState, permitAvailable) == RequiresApproval ==>
              ApproveOrPermitCalls(signatureState, permitAvailable, signatureOutcome) == [ApprovalRequested]
    ensures ApproveOrPermitStateOf(approval, signatureState, permitAvailable) == RequiresSignature && signatureState == NotSigned ==>
              ApproveOrPermitCalls(signatureState, permitAvailable, signatureOutcome)[0] == SignatureRequested
    ensures ApproveOrPermitStateOf(approval, signatureState, permitAvailable) == RequiresSignature && signatureState == NotApplicable ==>
              ApproveOrPermitCalls(signatureState, permitAvailable, signatureOutcome) == [ApprovalRequested]
  {
  }

  /** The wallet seen by the handler: it answers each request with a fixed
      outcome and records the requests made, in order. */
  class PermitEnvironment {
    var log: seq<PermitAction>
    const signatureOutcome: CallOutcome
    const approvalOutcome: CallOutcome

    constructor (signatureOutcome: CallOutcome, approvalOutcome: CallOutcome)
      ensures log == []
      ensures this.signatureOutcome == signatureOutcome && this.approvalOutcome == approvalOutcome
    {
      log := [];
      this.signatureOutcome := signatureOutcome;
      this.approvalOutcome := approvalOutcome;
    }

    /** `gatherPermitSignature()` */
    method GatherPermitSignature() returns (outcome: CallOutcome)
      modifies this
      ensures log == old(log) + [SignatureRequested]
      ensures outcome == signatureOutcome
    {
      log := log + [SignatureRequested];
      outcome := signatureOutcome;
    }

    /** `getApproval()` */
    method GetApproval() returns (outcome: CallOutcome)
      modifies this
      ensures log == old(log) + [ApprovalRequested]
      ensures outcome == approvalOutcome
    {
      log := log + [ApprovalRequested];
      outcome := approvalOutcome;
    }
  }

  /** `handleApproveOrPermit`: asks for a permit signature when the token
      offers one and none is made yet, falling back to an approval unless the
      user rejected the signature, and asks for an approval otherwise. A
      signing error is caught by the inner handler; an approval error escapes
      it and is swallowed by the outer one (`swallowed`), so the handler
      itself always resolves. */
  method HandleApproveOrPermit(env: PermitEnvironment, signatureState: PermitState, permitAvailable: bool)
    returns (settled: CallOutcome, swallowed: bool)
    modifies env
    ensures env.log == old(env.log) + ApproveOrPermitCalls(signatureState, permitAvailable, env.signatureOutcome)
    ensures swallowed <==>
              ApprovalRequested in ApproveOrPermitCalls(signatureState, permitAvailable, env.signatureOutcome) &&
              env.approvalOutcome.Threw?
    ensures settled == Resolved
  {
    // What the awaited request settles with once the inner handler has run.
    var escaped := Resolved;
    if signatureState == NotSigned && permitAvailable {
      var signed := env.GatherPermitSignature();
      if signed.Threw? && !IsUserRejection(signed) {
        escaped := env.GetApproval();
      }
    } else {
      escaped := env.GetApproval();
    }
    // The outer handler turns an escaped error into a normal return.
    swallowed := escaped.Threw?;
    settled := if escaped.Threw? then Resolved else escaped;
  }
}

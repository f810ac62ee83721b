/** The swap message hook: the mapper from a trade to the router method name,
    token path and integer amounts, and the assembler that turns it into the
    single swap message sent for signing once every input is available. */
module SwapMessages {
  import opened Wrappers
  import opened SwapTypes
  import SwapApproval

  /** The router family a message is addressed to (`RouterVersion`). */
  datatype RouterVersion = Version2 | Version3

  /** Why building the message throws: reading the first swap of a trade
      without swaps, or converting a deadline that is not a safe integer. */
  datatype SwapError = NoFirstSwap | UnsafeDeadline

  const V3_EXACT_INPUT_SINGLE: string := "v3_exactInputSingle"
  const V3_EXACT_OUTPUT_SINGLE: string := "v3_exactOutputSingle"
  const V3_EXACT_INPUT: string := "v3_exactInput"
  const V3_EXACT_OUTPUT: string := "v3_exactOutput"
  const V2_EXACT_TOKENS_FOR_TOKENS: string := "v2_swapExactTokensForTokens"
  const V2_TOKENS_FOR_EXACT_TOKENS: string := "v2_swapTokensForExactTokens"

  /** The router method for a router family, hop count and trade direction. */
  function MethodName(version: RouterVersion, singleHop: bool, tradeType: TradeType): (name: string)
    ensures |name| > 6 && (name[..3] == "v2_" <==> version == Version2) && (name[..3] == "v3_" <==> version == Version3)
    ensures version == Version3 ==> (singleHop <==> name[|name| - 6..] == "Single")
  {
    assert V3_EXACT_INPUT_SINGLE[..3] == V3_EXACT_OUTPUT_SINGLE[..3] == V3_EXACT_INPUT[..3] == V3_EXACT_OUTPUT[..3] == "v3_";
    assert V2_EXACT_TOKENS_FOR_TOKENS[..3] == V2_TOKENS_FOR_EXACT_TOKENS[..3] == "v2_" != "v3_";
    assert V3_EXACT_INPUT_SINGLE[13..] == V3_EXACT_OUTPUT_SINGLE[14..] == "Single";
    assert V3_EXACT_INPUT[7] != 'S' && V3_EXACT_OUTPUT[8] != 'S';
    match (version, singleHop, tradeType)
    case (Version3, true, ExactInput) => V3_EXACT_INPUT_SINGLE
    case (Version3, true, ExactOutput) => V3_EXACT_OUTPUT_SINGLE
    case (Version3, false, ExactInput) => V3_EXACT_INPUT
    case (Version3, false, ExactOutput) => V3_EXACT_OUTPUT
    case (Version2, _, ExactInput) => V2_EXACT_TOKENS_FOR_TOKENS
    case (Version2, _, ExactOutput) => V2_TOKENS_FOR_EXACT_TOKENS
  }

  /** What a method name says about the swap: the router family, the hop
      count (V3 names only) and the direction. */
  datatype MethodKey = MethodKey(version: RouterVersion, singleHop: Option<bool>, tradeType: TradeType)

  /** The reading of a method name; `None` for a name outside the table. */
  function ParseMethodName(name: string): (key: Option<MethodKey>)
    ensures key.Some? ==> (key.value.version == Version3 <==> key.value.singleHop.Some?)
  {
    if name == V3_EXACT_INPUT_SINGLE then Some(MethodKey(Version3, Some(true), ExactInput))
    else if name == V3_EXACT_OUTPUT_SINGLE then Some(MethodKey(Version3, Some(true), ExactOutput))
    else if name == V3_EXACT_INPUT then Some(MethodKey(Version3, Some(false), ExactInput))
    else if name == V3_EXACT_OUTPUT then Some(MethodKey(Version3, Some(false), ExactOutput))
    else if name == V2_EXACT_TOKENS_FOR_TOKENS then Some(MethodKey(Version2, None, ExactInput))
    else if name == V2_TOKENS_FOR_EXACT_TOKENS then Some(MethodKey(Version2, None, ExactOutput))
    else None
  }

  /** The six names are distinct: a method name tells the router family and
      the direction, and for V3 the hop count; a V2 name never depends on the
      hop count. */
  lemma MethodNameRoundTrip(version: RouterVersion, singleHop: bool, tradeType: TradeType)
    ensures ParseMethodName(MethodName(version, singleHop, tradeType)) ==
            Some(MethodKey(version, if version == Version3 then Some(singleHop) else None, tradeType))
  {
  }

  /** Every name the reading accepts is the table's name for what it read. */
  lemma ParseMethodNameSound(name: string)
    ensures var key := ParseMethodName(name);
            key.Some? ==> MethodName(key.value.version, key.value.singleHop.GetOr(false), key.value.tradeType) == name
  {
  }

  /** The router family of a router-sdk trade: V3 when every route is V3, V2
      when every route is V2, V3 for a mix. */
  function MixedRouterVersion(routes: seq<Route>): (version: RouterVersion)
    ensures version == Version2 <==> routes != [] && forall i :: 0 <= i < |routes| ==> routes[i].protocol == V2
    ensures version == Version3 <==> routes == [] || exists i :: 0 <= i < |routes| && routes[i].protocol == V3
  {
    if EveryRouteIs(routes, V3) then Version3
    else if EveryRouteIs(routes, V2) then Version2
    else Version3
  }

  /** The router family a trade is classified as. */
  function RouterVersionOf(trade: AnyTrade): (version: RouterVersion)
    ensures version == Version2 <==>
              trade.V2Trade? ||
              (trade.MixedTrade? && trade.swaps != [] && forall i :: 0 <= i < |trade.swaps| ==> trade.swaps[i].route.protocol == V2)
  {
    match trade
    case V2Trade(_, _, _, _) => Version2
    case V3Trade(_, _, _, _) => Version3
    case MixedTrade(swaps, _, _, _) => MixedRouterVersion(Routes(swaps))
  }

  /** The route the message is built from: the V2 trade's route, or the route
      of the first swap; `None` when there is no first swap. */
  function FirstRoute(trade: AnyTrade): (route: Option<Route>)
    ensures route.None? <==> !trade.V2Trade? && trade.swaps == []
    ensures route.Some? ==> route.value == if trade.V2Trade? then trade.route else trade.swaps[0].route
  {
    match trade
    case V2Trade(route, _, _, _) => Some(route)
    case V3Trade(swaps, _, _, _) => if swaps == [] then None else Some(swaps[0].route)
    case MixedTrade(swaps, _, _, _) => if swaps == [] then None else Some(swaps[0].route)
  }

  /** Single-hop: the first route passes through exactly one pool; a V2 trade
      counts as single-hop without looking. */
  function IsSingleHop(trade: AnyTrade): (singleHop: bool)
    requires FirstRoute(trade).Some?
    ensures singleHop <==> trade.V2Trade? || |trade.swaps[0].route.pools| == 1
  {
    trade.V2Trade? || |FirstRoute(trade).value.pools| == 1
  }

  /** `BigNumber.div` of the numerator by the denominator: rounds towards zero,
      which is down for the SDK's non-negative amounts. */
  function IntegerAmount(amount: CurrencyAmount): (n: nat)
    ensures n * amount.denominator <= amount.numerator < (n + 1) * amount.denominator
  {
    var q := amount.numerator / amount.denominator;
    assert amount.numerator == q * amount.denominator + amount.numerator % amount.denominator;
    q
  }

  /** The integer amount of `100/3` of a unit is 33. */
  lemma IntegerAmountExample(currency: Currency)
    ensures IntegerAmount(CurrencyAmount(currency, 100, 3)) == 33
  {
  }

  /** `MessageParams`: the method name, the token path and the integer amounts. */
  datatype MessageParams = MessageParams(tradeType: string, path: seq<Address>, amountIn: nat, amountOut: nat)

  /** `swapMessageParameters`: the message parameters of a trade, built from
      its first route. */
  function SwapMessageParameters(trade: AnyTrade): (params: Result<MessageParams, SwapError>)
    ensures params.Failure? <==> !trade.V2Trade? && trade.swaps == []
    ensures params.Failure? ==> params.error == NoFirstSwap
    ensures params.Success? ==>
              var route := FirstRoute(trade).value;
              && params.value.tradeType == MethodName(RouterVersionOf(trade), IsSingleHop(trade), trade.tradeType)
              && |params.value.path| == |route.path|
              && (forall i :: 0 <= i < |route.path| ==> params.value.path[i] == route.path[i].address)
              && params.value.amountIn * trade.inputAmount.denominator <= trade.inputAmount.numerator
              && trade.inputAmount.numerator < (params.value.amountIn + 1) * trade.inputAmount.denominator
              && params.value.amountOut * trade.outputAmount.denominator <= trade.outputAmount.numerator
              && trade.outputAmount.numerator < (params.value.amountOut + 1) * trade.outputAmount.denominator
  {
    match FirstRoute(trade)
    case None => Failure(NoFirstSwap)
    case Some(route) =>
      Success(MessageParams(
        MethodName(RouterVersionOf(trade), IsSingleHop(trade), trade.tradeType),
        Addresses(route.path),
        IntegerAmount(trade.inputAmount),
        IntegerAmount(trade.outputAmount)))
  }

  /** The V3 method table: a V3 trade, or a router-sdk trade sent to the V3
      router (all routes V3, or a mix of both protocols), gets the single-hop
      name exactly when its first route has one pool, and the exact-input name
      exactly for an exact-input trade. */
  lemma V3MethodTable(trade: AnyTrade)
    requires !trade.V2Trade? && trade.swaps != [] && RouterVersionOf(trade) == Version3
    ensures var name := SwapMessageParameters(trade).value.tradeType;
            var singleHop := |trade.swaps[0].route.pools| == 1;
            && (singleHop && trade.tradeType == ExactInput ==> name == "v3_exactInputSingle")
            && (singleHop && trade.tradeType == ExactOutput ==> name == "v3_exactOutputSingle")
            && (!singleHop && trade.tradeType == ExactInput ==> name == "v3_exactInput")
            && (!singleHop && trade.tradeType == ExactOutput ==> name == "v3_exactOutput")
  {
  }

  /** A V2 trade's method name depends on its direction only, whatever its
      route and amounts. */
  lemma V2MethodIgnoresRoute(trade: AnyTrade, other: AnyTrade)
    requires trade.V2Trade? && other.V2Trade? && trade.tradeType == other.tradeType
    ensures SwapMessageParameters(trade).value.tradeType == SwapMessageParameters(other).value.tradeType
    ensures SwapMessageParameters(trade).value.tradeType ==
            if trade.tradeType == ExactInput then "v2_swapExactTokensForTokens" else "v2_swapTokensForExactTokens"
  {
  }

  /** Split trades collapse onto their first swap for the method name and the
      path, while the amounts stay the whole trade's: a V3 trade with other
      later swaps, and the totals that go with them, keeps its name and path
      and carries the new totals. */
  lemma SplitTradeUsesFirstPath(trade: AnyTrade, later: seq<Swap>, inputAmount: CurrencyAmount, outputAmount: CurrencyAmount)
    requires trade.V3Trade? && trade.swaps != []
    ensures var split := trade.(swaps := [trade.swaps[0]] + later, inputAmount := inputAmount, outputAmount := outputAmount);
            var params := SwapMessageParameters(trade).value;
            var splitParams := SwapMessageParameters(split).value;
            && splitParams.tradeType == params.tradeType
            && splitParams.path == params.path == Addresses(trade.swaps[0].route.path)
            && splitParams.amountIn == IntegerAmount(inputAmount)
            && splitParams.amountOut == IntegerAmount(outputAmount)
  {
  }

  // ---------------------------------------------------------------------------
  // useSwapMessageArguments

  /** The `recipientAddressOrName` argument: `null`, `undefined`, or a name or address. */
  datatype RecipientArgument = NullRecipient | UndefinedRecipient | AddressOrName(name: string)

  /** The wallet connection (`useActiveWeb3React`). */
  datatype Web3Context = Web3Context(account: Option<Address>, chainId: Option<ChainId>, libraryConnected: bool)

  /** The recipient: the connected account when the argument is `null`,
      otherwise what name resolution made of the argument. */
  function Recipient(argument: RecipientArgument, resolved: Option<Address>, account: Option<Address>): (recipient: Option<Address>)
    ensures argument.NullRecipient? ==> recipient == account
    ensures !argument.NullRecipient? ==> recipient == resolved
  {
    if argument.NullRecipient? then account else resolved
  }

  /** Every input the assembler needs is present (JavaScript-truthy). */
  predicate Ready(trade: Option<AnyTrade>, recipient: Option<Address>, context: Web3Context,
                  deadline: Option<int>, router: Option<Address>): (ready: bool)
    ensures ready ==> trade.Some? && deadline.Some? && context.libraryConnected
    ensures ready ==> recipient.Some? && recipient.value != "" && context.account.Some? && context.account.value != ""
    ensures ready ==> context.chainId.Some? && context.chainId.value != 0 && router.Some? && router.value != ""
    ensures (trade.Some? && deadline.Some? && context.libraryConnected && recipient.Some? && recipient.value != "" &&
             context.account.Some? && context.account.value != "" && context.chainId.Some? && context.chainId.value != 0 &&
             router.Some? && router.value != "") ==> ready
  {
    && trade.Some?
    && Truthy(recipient)
    && context.libraryConnected
    && Truthy(context.account)
    && ChainPresent(context.chainId)
    && deadline.Some?
    && Truthy(router)
  }

  /** The largest integer a JavaScript number holds exactly, 2^53 - 1. */
  const MAX_SAFE_INTEGER: int := 0x1F_FFFF_FFFF_FFFF

  /** `BigNumber.toNumber()`: throws outside the safe-integer range. */
  function DeadlineNumber(deadline: int): (n: Option<int>)
    ensures n.Some? <==> -MAX_SAFE_INTEGER <= deadline <= MAX_SAFE_INTEGER
    ensures n.Some? ==> n.value == deadline
  {
    if -MAX_SAFE_INTEGER <= deadline <= MAX_SAFE_INTEGER then Some(deadline) else None
  }

  /** `sqrtPriceLimitX96` and `fee` are fixed placeholders in every message. */
  const SQRT_PRICE_LIMIT_PLACEHOLDER: nat := 0
  const FEE_PLACEHOLDER: nat := 3000

  /** `SwapMessage`: what is sent to the router for the trade. */
  datatype SwapMessage = SwapMessage(
    router: Address, amountIn: nat, amountOut: nat, tradeType: string, recipient: Address,
    path: seq<Address>, deadline: int, sqrtPriceLimitX96: nat, fee: nat)

  /** `useSwapMessageArguments`: no message until every input is present, then
      exactly one message, addressed to the trade's router on the connected
      chain, unless building it throws; a failure is that exception, and it
      is raised whenever the first swap is missing or the deadline is unsafe. */
  function SwapMessageArguments(
    trade: Option<AnyTrade>, recipientArgument: RecipientArgument, resolvedRecipient: Option<Address>,
    deadline: Option<int>, context: Web3Context, tables: AddressTables): (messages: Result<seq<SwapMessage>, SwapError>)
    ensures var recipient := Recipient(recipientArgument, resolvedRecipient, context.account);
            var router := SwapApproval.SwapRouterAddress(trade, context.chainId, tables);
            && (!Ready(trade, recipient, context, deadline, router) ==> messages == Success([]))
            && (messages.Failure? ==>
                  Ready(trade, recipient, context, deadline, router) &&
                  (if SwapMessageParameters(trade.value).Failure? then messages.error == NoFirstSwap
                   else messages.error == UnsafeDeadline && DeadlineNumber(deadline.value).None?))
            && (messages.Success? && messages.value != [] ==>
                  Ready(trade, recipient, context, deadline, router) && |messages.value| == 1)
            && ((Ready(trade, recipient, context, deadline, router) && (trade.value.V2Trade? || trade.value.swaps != []) &&
                 DeadlineNumber(deadline.value).Some?) ==> messages.Success? && |messages.value| == 1)
            && ((Ready(trade, recipient, context, deadline, router) &&
                 (SwapMessageParameters(trade.value).Failure? || DeadlineNumber(deadline.value).None?)) ==> messages.Failure?)
    ensures messages.Success? && messages.value != [] ==>
              var message := messages.value[0];
              && trade.Some? && SwapMessageParameters(trade.value).Success?
              && var params := SwapMessageParameters(trade.value).value;
              && message.router == SwapApproval.SwapRouterAddress(trade, context.chainId, tables).value
              && message.recipient == Recipient(recipientArgument, resolvedRecipient, context.account).value
              && message.tradeType == params.tradeType && message.path == params.path
              && message.amountIn == params.amountIn && message.amountOut == params.amountOut
              && message.deadline == deadline.value
              && message.sqrtPriceLimitX96 == 0 && message.fee == 3000
  {
    var recipient := Recipient(recipientArgument, resolvedRecipient, context.account);
    var router := SwapApproval.SwapRouterAddress(trade, context.chainId, tables);
    if !Ready(trade, recipient, context, deadline, router) then Success([])
    else
      match SwapMessageParameters(trade.value)
      case Failure(error) => Failure(error)
      case Success(params) =>
        match DeadlineNumber(deadline.value)
        case None => Failure(UnsafeDeadline)
        case Some(deadlineNumber) =>
          Success([SwapMessage(
            router.value, params.amountIn, params.amountOut, params.tradeType, recipient.value,
            params.path, deadlineNumber, SQRT_PRICE_LIMIT_PLACEHOLDER, FEE_PLACEHOLDER)])
  }

  /** A `null` recipient argument sends the output to the connected account. */
  lemma NullRecipientIsAccount(
    trade: Option<AnyTrade>, resolvedRecipient: Option<Address>, deadline: Option<int>,
    context: Web3Context, tables: AddressTables)
    requires var messages := SwapMessageArguments(trade, NullRecipient, resolvedRecipient, deadline, context, tables);
             messages.Success? && messages.value != []
    ensures SwapMessageArguments(trade, NullRecipient, resolvedRecipient, deadline, context, tables).value[0].recipient ==
            context.account.value
  {
  }

  /** The message goes to the router of its own family: a V2 trade's `v2_`
      method to the V2 router, a V3 trade's `v3_` method to the V3 router, and a
      router-sdk trade to the swap router, which takes both families. */
  lemma MessageTargetsTradeRouter(
    trade: AnyTrade, recipientArgument: RecipientArgument, resolvedRecipient: Option<Address>,
    deadline: Option<int>, context: Web3Context, tables: AddressTables)
    requires var messages := SwapMessageArguments(Some(trade), recipientArgument, resolvedRecipient, deadline, context, tables);
             messages.Success? && messages.value != []
    ensures var message := SwapMessageArguments(Some(trade), recipientArgument, resolvedRecipient, deadline, context, tables).value[0];
            var chainId := context.chainId.value;
            && (trade.V2Trade? ==> chainId in tables.v2Router && message.router == tables.v2Router[chainId] &&
                                   message.tradeType[..3] == "v2_")
            && (trade.V3Trade? ==> chainId in tables.v3Router && message.router == tables.v3Router[chainId] &&
                                   message.tradeType[..3] == "v3_")
            && (trade.MixedTrade? ==> chainId in tables.swapRouter && message.router == tables.swapRouter[chainId])
  {
    var name := SwapMessageArguments(Some(trade), recipientArgument, resolvedRecipient, deadline, context, tables).value[0].tradeType;
    if trade.V2Trade? {
      assert name == V2_EXACT_TOKENS_FOR_TOKENS || name == V2_TOKENS_FOR_EXACT_TOKENS;
    } else if trade.V3Trade? {
      assert name == V3_EXACT_INPUT_SINGLE || name == V3_EXACT_OUTPUT_SINGLE || name == V3_EXACT_INPUT || name == V3_EXACT_OUTPUT;
    }
  }
}

# Swap message and swap approval logic of a Uniswap-style swap interface

This project models two hooks of a decentralized-exchange swap interface, and proves
properties about them:

- **`useSwapMessageArguments`** (module `SwapMessages`, `swap_messages.dfy`) builds a
  swap message from a trade. It uses a Uniswap V2 trade, a V3 trade or a router-sdk
  trade that may mix both protocols.
  - It classifies the trade as V2 or V3 and as single-hop or multi-hop.
  - It picks one of six router method names.
  - It takes the token path of the first route.
  - It turns the rational input and output amounts into integers.
  - It returns no message until every input is there (trade, recipient, provider,
    account, chain id, deadline and router address). After that it returns exactly one
    message, unless reading the first swap or converting the deadline throws.
- **`useSwapApproval`** (module `SwapApproval`, `swap_approval.dfy`) covers five things:
  - which router address a trade goes to, for each chain;
  - which amount is approved, and for which spender;
  - the route flags and the trade rebuilt for the optimized router;
  - the five-valued approve-or-permit state;
  - the handler that asks the wallet for a permit signature or an approval.

Module `SwapTypes` (`swap_types.dfy`) holds the values these hooks get from elsewhere:
- trades, routes, pools and amounts from the SDKs;
- the chain-keyed address tables;
- the allowance and permit states reported by the application's other hooks;
- the list operations the hooks apply (`map`, `every`, `filter`).

Module `Wrappers` holds `Option` and `Result`.

Modelling choices:
- The SDK's three trade classes become one datatype with three constructors. Matching
  on the constructor replaces `instanceof`.
- A route carries its protocol tag, its pools (`Pair` or `Pool`) and its token path.
- An amount has a `nat` numerator and a positive denominator.
- JavaScript truthiness is written out: an absent value or `""` is falsy, and so is
  the chain id `0`. `Truthy` and `ChainPresent` express this. Objects such as the trade
  or the deadline `BigNumber` are truthy when present.
- Two things in the assembler throw, and both are modelled as a `Failure` result rather
  than excluded by a precondition:
  - reading `swaps[0]` of a trade that has no swaps;
  - `BigNumber.toNumber()` on a deadline outside ±(2^53 − 1).
- External collaborators are parameters:
  - name resolution: the resolved address;
  - the wallet: `Web3Context`;
  - the address tables: `AddressTables`;
  - `maximumAmountIn` and the allowance hook: function parameters;
  - `getTxOptimizedSwapRouter`: its result is an input;
  - the SDK trade constructors: `SdkConstructors`, where `None` means the constructor
    threw.
- The handler runs against a `PermitEnvironment` object. It records every request in
  order and answers each request with a fixed outcome: resolved, or thrown with an
  optional error code.

Notes on the source's behaviour:
- `useSwapRouterAddress` with a chain but no trade returns `SWAP_ROUTER_ADDRESSES[chainId]`,
  because `instanceof` is false for `undefined`.
- The assembler's readiness check covers trade, recipient, provider, account, chain id,
  deadline and router address.
- In the approve-or-permit state, once the allowance is not pending and no signature
  is loading, any allowance other than not-approved counts as approved. That includes
  the allowance hook's `UNKNOWN`.

## Model

| member | source | states |
|---|---|---|
| `SwapTypes.PoolProtocol` | src/lib/hooks/swap/useSwapApproval.ts:111 | a pool is usable by the V2 router exactly when it is a `Pair`, and by the V3 router exactly when it is a `Pool` |
| `SwapTypes.Routes` | src/lib/hooks/swap/useSwapApproval.ts:91-93 | `trade.routes` has one route per swap, the swap's own route, in order |
| `SwapTypes.Addresses` | src/hooks/useSwapMessageArguments.tsx:44-52 | the path is the route's token addresses, same length, element by element in order |
| `SwapTypes.EveryRouteIs` | src/lib/hooks/swap/useSwapApproval.ts:91-92 | `every` over routes holds exactly when each route has the given protocol (vacuously true for none) |
| `SwapTypes.PoolsOf` | src/lib/hooks/swap/useSwapApproval.ts:111-118 | the `instanceof Pair` / `instanceof Pool` filter keeps exactly the pools of that protocol, never more pools than given, and every pool when all match |
| `SwapTypes.PoolsOfAppend` | src/lib/hooks/swap/useSwapApproval.ts:111 | the filter keeps the pools' order: filtering a concatenation is concatenating the filtered parts |
| `SwapTypes.Lookup` | src/lib/hooks/swap/useSwapApproval.ts:51-54 | a table lookup is defined exactly for the chains the table lists, and gives that chain's entry |
| `SwapApproval.SwapRouterAddress` | src/lib/hooks/swap/useSwapApproval.ts:47-57 | `undefined` without a (truthy) chain id; otherwise the V2 table for a V2 trade, the V3 table for a V3 trade, the swap-router table for a router-sdk trade or no trade |
| `SwapApproval.RouterAddressIsFromConnectedChain` | src/lib/hooks/swap/useSwapApproval.ts:47-57 | any address returned is the connected chain's entry of one of the three tables; a chain no table lists gives `undefined` |
| `SwapApproval.DefaultAmountToApprove` | src/lib/hooks/swap/useSwapApproval.ts:28-31 | the default amount exists exactly when there is a trade whose input currency is a token, and is its maximum input amount |
| `SwapApproval.AmountToApprove` | src/lib/hooks/swap/useSwapApproval.ts:72-75 | an explicit amount wins; else the maximum input of a token-input trade; undefined exactly when neither applies |
| `SwapApproval.StatesSpender` | src/lib/hooks/swap/useSwapApproval.ts:33 | the verifying contract of the connected chain, `undefined` without a chain id |
| `SwapApproval.ApprovalSpender` | src/lib/hooks/swap/useSwapApproval.ts:77 | the verifying contract at `chainId`, or at key 0 when the chain id is falsy |
| `SwapApproval.SpendersAgree` | src/lib/hooks/swap/useSwapApproval.ts:77 | the two spenders differ only without a connected chain and only when the table has an entry for 0 |
| `SwapApproval.SwapApprovalStates` | src/lib/hooks/swap/useSwapApproval.ts:21-37 | the v2, v3 and v2V3 approval states are always one and the same: the allowance of the default amount for the verifying contract |
| `SwapApproval.RouteFlagsOf` | src/lib/hooks/swap/useSwapApproval.ts:91-93 | only-V2 and only-V3 are every-route protocol checks (`undefined` without a trade); has-splits holds exactly for more than one route |
| `SwapApproval.RouteFlagsExclusive` | src/lib/hooks/swap/useSwapApproval.ts:91-92 | only-V2 and only-V3 hold together exactly for a trade with no routes |
| `SwapApproval.V2ArgsOf` | src/lib/hooks/swap/useSwapApproval.ts:110-113 | the V2 trade is built from the `Pair` pools of the first swap in order, with the trade's input amount, currencies and direction; no first swap means the read throws |
| `SwapApproval.V3ArgsOf` | src/lib/hooks/swap/useSwapApproval.ts:114-126 | one V3 route per swap, keeping that swap's `Pool` pools and amounts, with the trade's direction |
| `SwapApproval.OptimizedTrade` | src/lib/hooks/swap/useSwapApproval.ts:103-135 | `undefined` without a trade or for an unknown router; the trade itself for the V2/V3 router; the V2 or V3 rebuild otherwise, `undefined` when that throws; a trade returned is a V2 trade exactly for the V2 router, a V3 trade exactly for the V3 router, and the router-sdk trade exactly for the V2/V3 router |
| `SwapApproval.OptimizedTradeTargetsChosenRouter` | src/lib/hooks/swap/useSwapApproval.ts:47-57 | a rebuilt trade is sent to the address of the router it was rebuilt for: the V2 table for the V2 router, the V3 table for the V3 router, the swap-router table for the V2/V3 router |
| `SwapApproval.OptimizedV2TradeKeepsPairs` | src/lib/hooks/swap/useSwapApproval.ts:111 | a first route of pairs only is kept whole; one of V3 pools only leaves no pairs |
| `SwapApproval.ApproveOrPermitStateOf` | src/lib/hooks/swap/useSwapApproval.ts:192-204 | pending allowance always gives pending-approval; else a loading signature gives pending-signature; else approved exactly when allowance is not not-approved or the permit is signed; requires-signature / requires-approval exactly for a not-approved allowance with no signature, split by permit availability |
| `SwapApproval.IsUserRejection` | src/lib/hooks/swap/useSwapApproval.ts:178-180 | only a thrown error can be a user rejection; it is one exactly when its code is 4001, and an error without a code is not one |
| `SwapApproval.ApproveOrPermitCalls` | src/lib/hooks/swap/useSwapApproval.ts:173-190 | the signature is requested exactly when not signed and permit is available, and then first; approval is requested exactly otherwise or after a signing failure that is not code 4001; no action twice |
| `SwapApproval.SignatureFailureFallsBack` | src/lib/hooks/swap/useSwapApproval.ts:176-183 | a 4001 rejection of the signature ends the handler; any other signing error leads to exactly one approval request |
| `SwapApproval.HandlerFollowsState` | src/lib/hooks/swap/useSwapApproval.ts:173-204 | in state requires-approval the handler only requests an approval; in requires-signature with no signature yet it requests the signature first; in requires-signature with a not-applicable permit state it requests only an approval |
| `SwapApproval.PermitEnvironment.GatherPermitSignature` | src/lib/hooks/swap/useSwapApproval.ts:177 | a signature request is logged and settles with the wallet's answer |
| `SwapApproval.PermitEnvironment.GetApproval` | src/lib/hooks/swap/useSwapApproval.ts:181 | an approval request is logged and settles with the wallet's answer |
| `SwapApproval.HandleApproveOrPermit` | src/lib/hooks/swap/useSwapApproval.ts:173-190 | the requests made are exactly `ApproveOrPermitCalls` of the signature state, permit availability and the signature's outcome; an error reaches the outer handler exactly when an approval was requested and threw, and is swallowed there, so the handler always resolves |
| `SwapMessages.MethodName` | src/hooks/useSwapMessageArguments.tsx:68-89 | a name starts with `v2_` exactly for the V2 router family and with `v3_` exactly for V3; a V3 name ends in `Single` exactly for a single-hop trade |
| `SwapMessages.MethodNameRoundTrip` | src/hooks/useSwapMessageArguments.tsx:68-89 | the six method names are distinct: each names its router family and direction, and for V3 its hop count |
| `SwapMessages.ParseMethodNameSound` | src/hooks/useSwapMessageArguments.tsx:68-89 | every name the reading accepts is the table's entry for the family, hop count and direction it reads |
| `SwapMessages.MixedRouterVersion` | src/hooks/useSwapMessageArguments.tsx:53-57 | a router-sdk trade is V2 exactly when it has routes and all are V2; V3 when all are V3, for any mix, and for no routes |
| `SwapMessages.RouterVersionOf` | src/hooks/useSwapMessageArguments.tsx:43-57 | the router family is V2 exactly for a V2 trade or a router-sdk trade with routes that are all V2; V3 otherwise |
| `SwapMessages.FirstRoute` | src/hooks/useSwapMessageArguments.tsx:44-52 | the route used is missing exactly for a V3 or router-sdk trade without swaps; otherwise it is the V2 trade's route or the first swap's route |
| `SwapMessages.IsSingleHop` | src/hooks/useSwapMessageArguments.tsx:41-51 | a V2 trade keeps the initial single-hop value; a V3 or router-sdk trade is single-hop exactly when its first swap's route has one pool |
| `SwapMessages.IntegerAmount` | src/hooks/useSwapMessageArguments.tsx:61-66 | the integer amount is the floor of numerator / denominator |
| `SwapMessages.IntegerAmountExample` | src/hooks/useSwapMessageArguments.tsx:61-66 | 100/3 gives 33 |
| `SwapMessages.SwapMessageParameters` | src/hooks/useSwapMessageArguments.tsx:39-96 | fails exactly for a trade without a first swap; otherwise the table's method name for the trade's family, hop count and direction, the first route's token addresses, and the floored amounts |
| `SwapMessages.V3MethodTable` | src/hooks/useSwapMessageArguments.tsx:53-82 | a V3 trade, or a router-sdk trade sent to the V3 router (all routes V3 or a mix), is single-hop exactly when its first route has one pool, and gets the name for its hop count and direction |
| `SwapMessages.V2MethodIgnoresRoute` | src/hooks/useSwapMessageArguments.tsx:83-89 | a V2 trade's method name depends on its direction only, whatever its route |
| `SwapMessages.SplitTradeUsesFirstPath` | src/hooks/useSwapMessageArguments.tsx:44-66 | a split V3 trade is collapsed onto its first swap for the method name and path, while its amounts are the whole trade's totals, whatever the later swaps |
| `SwapMessages.Recipient` | src/hooks/useSwapMessageArguments.tsx:116 | a `null` recipient argument means the connected account; any other argument means its resolved address |
| `SwapMessages.Ready` | src/hooks/useSwapMessageArguments.tsx:122 | the assembler goes on only with a trade, a non-empty recipient, a connected provider, a non-empty account, a non-zero chain id, a deadline and a non-empty router address, and always goes on when all seven are there |
| `SwapMessages.DeadlineNumber` | src/hooks/useSwapMessageArguments.tsx:132 | converting the deadline succeeds exactly inside ±(2^53 − 1) and keeps its value |
| `SwapMessages.SwapMessageArguments` | src/hooks/useSwapMessageArguments.tsx:121-136 | no message unless all seven inputs are present; otherwise exactly one message, unless building it throws, which it does exactly for a trade without a first swap or an unsafe deadline; the message carries the selected router, the recipient, the mapper's name, path and amounts, the deadline, price limit 0 and fee 3000 |
| `SwapMessages.NullRecipientIsAccount` | src/hooks/useSwapMessageArguments.tsx:116 | a message built with a `null` recipient argument pays the connected account |
| `SwapMessages.MessageTargetsTradeRouter` | src/hooks/useSwapMessageArguments.tsx:119-126 | a V2 trade's `v2_` method goes to the chain's V2 router, a V3 trade's `v3_` method to its V3 router, a router-sdk trade to its swap router |

## Left out

- `src/lib/hooks/swap/useExecutorNonce.ts` is not part of this model. It builds a contract handle, reads `nonces` on chain and logs.
- `hooks/useApproval` and `hooks/useERC20Permit` are not part of this model.
  - Their enums are taken as `ApprovalState` (unknown, not approved, pending, approved) and `PermitState` (not applicable, loading, not signed, signed).
  - The allowance service is a function parameter of `SwapApprovalStates`.
  - `useSwapApproval`'s call to the allowance hook is out of scope; only the amount and spender it is given are modelled.
- `getTxOptimizedSwapRouter` is not part of this model. Its result is an input of `OptimizedTrade`.
- The SDK's internals are parameters: `maximumAmountIn`/`Percent` arithmetic, and the `V2Route`, `V2Trade`, `V3Route` and `createUncheckedTradeWithMultipleRoutes` constructors, including when they throw.
- Name resolution (`useENS`), the wallet (`useActiveWeb3React`) and the deadline hook are parameters.
- The `allowedSlippage`, `signatureData` and `feeOptions` arguments of `useSwapMessageArguments` are unused by the source and absent from the model.
- React memoization and `useCallback` dependency lists are absent: every value is a function of its inputs.
- `useApproveOrPermit`'s returned record (`signatureData` passthrough) is not modelled.
- Asynchrony: each awaited call is one outcome, resolved or thrown with an optional code. Re-entrant calls of the handler are not modelled.
- `console.error` and `console.debug` logging is left out.
- The commented-out Argent wallet branch is left out.
- A route's protocol tag stands for `instanceof RouteV2` / `RouteV3`. The router-sdk's later mixed-route protocol is not modelled.
- A trade's `inputAmount` and `outputAmount` are fields. In the SDK they total every swap. So a split trade's message pairs the first route's path with the whole trade's amounts; the model does not derive those totals from the swaps.
- BigNumber is modelled only as unbounded integers and truncating division. Amounts are non-negative, so that division is floor.

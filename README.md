# Vault incentive actions: extend and refund

A Dafny model of how the front end prepares two actions an incentive provider
can take on a vault market:

- **extend incentives** adds rewards to running intervals and moves their end
  times later;
- **refund incentives** takes back the rewards of intervals that have not
  started yet.

Each action has four parts, and the model follows them file by file:

1. a **validator** runs a fixed, short-circuiting sequence of checks. It
   returns `{status, message}`, and the message comes from the first check
   that fails;
2. a **token-data calculator** maps the requested token ids, in order, to
   per-token records (quote, raw amount, placeholder fields);
3. a **transaction-option builder** turns the request into an ordered list of
   contract-call descriptors (`extendRewardsInterval` or
   `refundRewardsInterval` on the `WrappedVault` contract);
4. a **hook** assembles the plan and the `isValid`, `isLoading`, `isReady` and
   `canBePerformed*` values from the cached reads.

Files:

- `checks.dfy` (module `Checks`): the verdict, the messages shared by both
  actions, and `FirstFailure`, which is what a loop that throws on its first
  failing check computes.
- `fixed_point.dfy` (module `FixedPoint`): `BigNumber` division, which
  truncates toward zero; the 18-decimal fee; the `uint256` range.
- `token_ids.dfy` (module `TokenIds`): `split("-")[1]`, `indexOf` and the
  order-preserving deduplication `Array.from(new Set(...))`.
- `market.dfy` (module `Market`): the market records, the call descriptors,
  the per-token records and the results of the cached reads.
- `extend_incentives.dfy` (module `ExtendIncentives`) and
  `refund_incentives.dfy` (module `RefundIncentives`): the two actions.

Each validator appears twice:

- as a function (`ExtendVerdict`, `RefundVerdict`) that lists the checks in
  source order;
- as a method with the source's `for` loops and early returns, proved equal
  to that function.

The lemmas then state what an accepted or a rejected request means. Each
builder is likewise a loop method proved equal to a function, with
lemmas that say which options the function emits.

Conventions:

- Amounts, fees, timestamps and rates are unbounded integers: they are the
  values the source has already parsed into `BigNumber`s.
- The current time `Math.floor(Date.now() / 1000)` is the parameter `now`.
- The address check `isSolidityAddressValid("address", ·)` is the parameter
  `isAddress`. An id without a second dash-separated segment has an
  `undefined` address and is treated as failing that check.
- The cached reads (market, token quotes, allowance) are values of the
  `Readers` datatype. The approval builder and the allowance-based refinement
  are the two functions of a `Sequencer`.

## Model

| member | source | states |
|---|---|---|
| Checks.FirstFailureNoneIff | sdk/hooks/use-prepare-market-action/use-vault-ip-extend-incentives.tsx:80-155 | a check loop reports no failure exactly when every check passes |
| Checks.FirstFailureIsFirst | sdk/hooks/use-prepare-market-action/use-vault-ip-extend-incentives.tsx:80-155 | a reported failure is the outcome of a check all of whose predecessors passed |
| Checks.FirstFailureAt | sdk/hooks/use-prepare-market-action/use-vault-ip-extend-incentives.tsx:80-155 | a failing check whose predecessors all pass is the one reported |
| Checks.FirstFailureFrom | sdk/hooks/use-prepare-market-action/use-vault-ip-refund-incentives.tsx:83-90 | the reported failure is always one of the messages the checks can throw |
| FixedPoint.TruncDiv | sdk/hooks/use-prepare-market-action/use-vault-ip-extend-incentives.tsx:145-147 | `BigNumber` division truncates toward zero: for a non-negative numerator the quotient is the floor, for a negative one the ceiling, within one divisor of the numerator |
| FixedPoint.TruncDivAtLeast | sdk/hooks/use-prepare-market-action/use-vault-ip-extend-incentives.tsx:145-150 | a truncated quotient is at least `r` exactly when the numerator is at least `r·b` (for `r ≥ 1`), or more than `r·b − b` (for `r ≤ 0`) |
| FixedPoint.AfterFeesBounds | sdk/hooks/use-prepare-market-action/use-vault-ip-extend-incentives.tsx:110-120 | with a non-negative amount and fee fractions that add up to at most one, both fees are non-negative and the rewards after fees lie between 0 and the amount |
| TokenIds.SecondSegmentShape | sdk/hooks/use-prepare-market-action/use-vault-ip-extend-incentives.tsx:51 | `split("-")[1]` is undefined exactly when the id holds no dash; otherwise it is the dash-free text between the first dash and the next dash or the end |
| TokenIds.SecondSegmentOf | sdk/hooks/use-prepare-market-action/use-vault-ip-refund-incentives.tsx:47 | conversely, an id of the form prefix-segment(-rest) yields that segment |
| TokenIds.IndexOfFirst | sdk/hooks/use-prepare-market-action/use-vault-ip-refund-incentives.tsx:130-131 | `indexOf` is -1 exactly for an absent token; otherwise it is the token's first position |
| TokenIds.UniqueIsSet | sdk/hooks/use-prepare-market-action/use-vault-ip-extend-incentives.tsx:377-379 | `Array.from(new Set(s))` holds exactly the elements of `s`, none twice, in the order of their first occurrence in `s` |
| TokenIds.UniqueFirst | sdk/hooks/use-prepare-market-action/use-vault-ip-extend-incentives.tsx:377-379 | the first element of the input heads the deduplicated list |
| Market.QuoteTokenIdsInputFirst | sdk/hooks/use-prepare-market-action/use-vault-ip-extend-incentives.tsx:376-382 | the quote read is asked for the input token first, then exactly the requested ids, none twice |
| ExtendIncentives.NewStart | sdk/hooks/use-prepare-market-action/use-vault-ip-extend-incentives.tsx:126-128 | the new start is the later of now and the existing start |
| ExtendIncentives.ExtendVerdictIff | sdk/hooks/use-prepare-market-action/use-vault-ip-extend-incentives.tsx:33-168 | the verdict is `{true, "Valid market action"}` exactly when the market is present, the ids are present and non-empty with valid addresses, every amount is a positive `uint256`, the lengths match, and every position passes its checks; otherwise the status is false |
| ExtendIncentives.ExtendRejectionMessage | sdk/hooks/use-prepare-market-action/use-vault-ip-extend-incentives.tsx:161-168 | for integer-valued inputs, a rejection always carries one of the validator's own thirteen messages, never the fallback |
| ExtendIncentives.ExtendAmountBeforeLength | sdk/hooks/use-prepare-market-action/use-vault-ip-extend-incentives.tsx:64-77 | once the ids and addresses pass, the first bad amount decides the message ("invalid" out of range, "must be greater than 0" otherwise), whatever the lengths |
| ExtendIncentives.ExtendFirstFailingIndex | sdk/hooks/use-prepare-market-action/use-vault-ip-extend-incentives.tsx:80-155 | when every earlier position passes, the message of the first failing position is the one returned |
| ExtendIncentives.ExtendMissingEnd | sdk/hooks/use-prepare-market-action/use-vault-ip-extend-incentives.tsx:89-108 | at a listed token with no new end timestamp of its own, the new end reads as zero: the position is rejected with "New incentive end timestamp must be greater" when the existing end is non-negative, and with "No interval in progress. Use add incentives option." when it is negative |
| ExtendIncentives.ExtendAcceptedWindow | sdk/hooks/use-prepare-market-action/use-vault-ip-extend-incentives.tsx:80-135 | on acceptance, each position has an amount that is a positive `uint256` and an end timestamp of its own, the token is in `base_incentive_ids`, and the new end lies after the existing end at the same position, after now, and at least 604800 s after the new start |
| ExtendIncentives.RateRule | sdk/hooks/use-prepare-market-action/use-vault-ip-extend-incentives.tsx:137-154 | with a positive existing rate, the truncated new rate `(rewards_after_fee + rate·(existing_end − new_start)) / (new_end − new_start)` is at least the existing rate exactly when the rewards after fees are at least `rate·(new_end − existing_end)` |
| ExtendIncentives.ExtendAcceptedRate | sdk/hooks/use-prepare-market-action/use-vault-ip-extend-incentives.tsx:110-154 | on acceptance, with a positive existing rate, the rewards after both truncated fees pay at least the existing rate for every second the end moves |
| ExtendIncentives.ExtendRateRejection | sdk/hooks/use-prepare-market-action/use-vault-ip-extend-incentives.tsx:141-154 | with a positive existing rate, at a position that passes the earlier checks, the rate check fails exactly when the rewards after fees fall short of the existing rate over the extension |
| ExtendIncentives.CheckPosition | sdk/hooks/use-prepare-market-action/use-vault-ip-extend-incentives.tsx:80-155 | one iteration of the last loop, computed step by step, yields the per-position failure of the specification |
| ExtendIncentives.IsVaultIPExtendIncentivesValid | sdk/hooks/use-prepare-market-action/use-vault-ip-extend-incentives.tsx:20-169 | the loop validator returns exactly the first-failure-in-source-order verdict |
| ExtendIncentives.CalculateVaultIPExtendIncentivesTokenData | sdk/hooks/use-prepare-market-action/use-vault-ip-extend-incentives.tsx:171-262 | no records without an enriched market; otherwise one per requested id, in order, with its quote, the amount at the same index (undefined past the end), `per_input_token` 0 and `annual_change_ratio` 10^18; the input token's raw amount is 0 |
| ExtendIncentives.ExtendTokenDataOfAccepted | sdk/hooks/use-prepare-market-action/use-vault-ip-extend-incentives.tsx:191-223 | for an accepted request every record carries the requested amount, which is positive |
| ExtendIncentives.ExtendTxOptionsFilter | sdk/hooks/use-prepare-market-action/use-vault-ip-extend-incentives.tsx:290-321 | the builder emits, in input order, exactly one option for each requested id found in `incentive_ids` and none for the others, so it emits at most as many options as ids |
| ExtendIncentives.ExtendTxOptionsAllPresent | sdk/hooks/use-prepare-market-action/use-vault-ip-extend-incentives.tsx:295-320 | when every requested id is in `incentive_ids`, option `k` is the option for id `k` |
| ExtendIncentives.GetVaultIPExtendIncentivesTransactionOptions | sdk/hooks/use-prepare-market-action/use-vault-ip-extend-incentives.tsx:264-326 | the push loop builds the filtered option list; every option calls `extendRewardsInterval`, is idle and has no hash |
| ExtendIncentives.UseVaultIPExtendIncentives | sdk/hooks/use-prepare-market-action/use-vault-ip-extend-incentives.tsx:328-474 | `isValid` is the validator's verdict; the token data come from quotes requested only when valid and enabled; the approval and action steps are empty unless valid; the fee recipient is the caller's, else the protocol's; the plan is empty while the allowance loads and is otherwise the refinement; `isLoading` is the OR of the three loading flags; `isReady` holds exactly when the plan is non-empty, and both `canBePerformed*` flags equal it |
| ExtendIncentives.ExtendScenarioAccepted | sdk/hooks/use-prepare-market-action/use-vault-ip-extend-incentives.tsx:80-160 | a concrete extension of a running interval by a little over three weeks, with no fees, is accepted |
| ExtendIncentives.ExtendScenarioOptions | sdk/hooks/use-prepare-market-action/use-vault-ip-extend-incentives.tsx:298-317 | its single option has id `extend_reward_0xAAA` and arguments address, amount, new end, protocol fee recipient |
| ExtendIncentives.ExtendScenarioTooShort | sdk/hooks/use-prepare-market-action/use-vault-ip-extend-incentives.tsx:130-135 | the same extension ending under a week after now is rejected as too short |
| ExtendIncentives.ExtendWeekBoundary | sdk/hooks/use-prepare-market-action/use-vault-ip-extend-incentives.tsx:130-135 | a window of 604799 s is rejected as too short and one of 604800 s is accepted |
| ExtendIncentives.ExtendScenarioRateTooLow | sdk/hooks/use-prepare-market-action/use-vault-ip-extend-incentives.tsx:137-154 | the same extension over a market paying a higher existing rate is rejected because the new rate would be lower |
| RefundIncentives.RefundVerdictIff | sdk/hooks/use-prepare-market-action/use-vault-ip-refund-incentives.tsx:29-91 | the verdict is `{true, "Valid market action"}` exactly when the market is present, the ids are present and non-empty with valid addresses, and every requested token is in `base_incentive_ids` with now strictly before the start at its position; otherwise the status is false |
| RefundIncentives.RefundRejectionMessage | sdk/hooks/use-prepare-market-action/use-vault-ip-refund-incentives.tsx:83-90 | a rejection always carries one of the validator's own six messages, never the fallback |
| RefundIncentives.RefundAcceptedStarts | sdk/hooks/use-prepare-market-action/use-vault-ip-refund-incentives.tsx:55-77 | on acceptance, each position has a start timestamp of its own that lies after now, and the token is in `base_incentive_ids`; a missing start, which reads as zero, never passes |
| RefundIncentives.RefundStartBoundary | sdk/hooks/use-prepare-market-action/use-vault-ip-refund-incentives.tsx:72-76 | at the first position whose interval starts now or earlier, the verdict is "Interval is already in progress. Incentives cannot be refunded." |
| RefundIncentives.RefundReadsPositionally | sdk/hooks/use-prepare-market-action/use-vault-ip-refund-incentives.tsx:60-76 | the start is read at the request's position, not the token's position in the market: the same refund is rejected or accepted depending on the order of the market's tokens |
| RefundIncentives.IsVaultIPRefundIncentivesValid | sdk/hooks/use-prepare-market-action/use-vault-ip-refund-incentives.tsx:20-91 | the loop validator returns exactly the first-failure-in-source-order verdict |
| RefundIncentives.CalculateVaultIPRefundIncentivesTokenData | sdk/hooks/use-prepare-market-action/use-vault-ip-refund-incentives.tsx:93-180 | no records without an enriched market; otherwise one per requested id, in order, with its quote, the market amount at the id's `indexOf` position (undefined when absent), `per_input_token` 0 and `annual_change_ratio` 10^18; the input token's raw amount is 0 |
| RefundIncentives.RefundTokenDataOfAccepted | sdk/hooks/use-prepare-market-action/use-vault-ip-refund-incentives.tsx:128-141 | for an accepted refund on a market whose amounts list is at least as long as its ids list, every record holds the amount at the first market position carrying that token |
| RefundIncentives.GetVaultIPRefundIncentivesTransactionOptions | sdk/hooks/use-prepare-market-action/use-vault-ip-refund-incentives.tsx:182-225 | the push loop has no filter: it yields one option per requested id, in order, option `k` being the `refundRewardsInterval` call for id `k` with id `refund_reward_<address>` and argument `[address]`, idle and without a hash |
| RefundIncentives.UseVaultIPRefundIncentives | sdk/hooks/use-prepare-market-action/use-vault-ip-refund-incentives.tsx:227-328 | `isValid` is the validator's verdict; the plan is the builder's output when valid and empty otherwise, with no approval steps; `isLoading` is the market flag OR the quote flag; `isReady` holds exactly when the plan is non-empty, which is exactly when the request is valid, and both `canBePerformed*` flags equal it |

## Left out

- `ExtendIncentives.UseVaultIPExtendIncentives`: the plan is "empty unless valid and the allowance has loaded" only for a sequencer whose refinement turns no steps into no plan. `getApprovalContractOptions` and `refineTransactionOptions` are not part of this model, so which approvals are kept is not claimed.
- `useDefaultMarketData`, `useTokenQuotes` and `useTokenAllowance` are cached asynchronous reads. They are their results (`Readers`); their query keys, `custom_token_data` and the `account` used by the allowance read are not modelled.
- `isSolidityAddressValid` is not part of this model. It is the parameter `isAddress`, and an undefined address (no second segment) is assumed invalid.
- `isSolidityIntValid("uint256", ·)` is not part of this model either. It is assumed to accept exactly the integers in [0, 2^256).
- Amounts, timestamps and fees arrive as decimal strings. They are taken as already-parsed integers, so `BigNumber.from` and its `toString` normalisation are the identity.
- `ExtendIncentives.ExtendRejectionMessage`: holds only for integer-valued inputs. `BigNumber.from` throws on a string that is not an integer, such as `"1.5"` or `"abc"`, in the amount, end-timestamp, fee and market-array reads of the validator (use-vault-ip-extend-incentives.tsx:89-147). The catch then returns that library message, which is not one of the thirteen; the model has no such input.
- `RefundIncentives.RefundRejectionMessage`: likewise holds only for integer-valued start timestamps. A non-integer `base_start_timestamps` entry makes `BigNumber.from` throw its own message (use-vault-ip-refund-incentives.tsx:68-70).
- `ExtendIncentives.UseVaultIPExtendIncentives`: always returns. In the source, `tokenAmounts.map(a => BigNumber.from(a).toString())` in the token-data step (use-vault-ip-extend-incentives.tsx:191-195) runs outside any `try`, so the hook itself throws for a non-integer amount such as `"1.5"`. That throw is not modelled.
- Display values are floating point and are left out: `token_amount`, `token_amount_usd`, `parseFloat(formatUnits(...))`, `parseRawAmountToTokenAmount` and `parseTokenAmountToTokenAmountUsd`. `Math.pow(10, 18)` is the exact integer 10^18.
- Quote records are an opaque type `Q`. The spread of the quote's fields into each record is the quote itself.
- The descriptor's `label` (from `getSupportedToken`), `abi` (from `ContractMap`) and `marketType` are foreign data and are not modelled.
- React rendering and re-rendering are not modelled. Each hook is one evaluation of its body.
- `Date.now()` is the parameter `now`, already in whole seconds. The source reads the clock afresh in every iteration of the position loop (use-vault-ip-extend-incentives.tsx:101-103, use-vault-ip-refund-incentives.tsx:64-66). The model uses one `now` for a whole validation, so a second boundary crossed during the loop is not modelled.
- An undefined `base_incentive_ids`, `base_*_timestamps` or `base_incentive_rates` array is an empty sequence. This reads the same as the source's `?.` and `?? "0"` defaults. The one exception is the refund calculator's `indexOf(...) ?? 0` on an undefined ids array: it reads position 0 where the model reads -1, on a market with no ids.
- The `!!incentiveData && !!inputTokenData` guards of both hooks always hold, so they are not modelled.
- Layout of the address: the second segment of the id is the text between the first and the second dash, as `split("-")[1]` gives. It is not everything after the first dash.

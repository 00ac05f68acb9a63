/**
 * Preparing "extend incentives" on a vault market: validating the request
 * against the market's current incentive intervals, deriving the per-token
 * incentive records, building the `extendRewardsInterval` calls and
 * assembling the plan the presentation layer receives.
 */
module ExtendIncentives {
  import opened Checks
  import opened FixedPoint
  import opened TokenIds
  import opened Market

  const MSG_AMOUNTS_MISSING: string := "Incentive amounts are missing"
  const MSG_AMOUNT_INVALID: string := "Incentive amount is invalid"
  const MSG_AMOUNT_NOT_POSITIVE: string := "Incentive amount must be greater than 0"
  const MSG_LENGTH_MISMATCH: string := "Incentive ids and amounts do not match"
  const MSG_END_NOT_GREATER: string := "New incentive end timestamp must be greater"
  const MSG_NO_INTERVAL: string := "No interval in progress. Use add incentives option."
  const MSG_TOO_SHORT: string := "Incentive duration must be at least 1 week"
  const MSG_RATE_DECREASES: string := "New incentive rate must be greater than the existing rate"

  /** 60 * 60 * 24 * 7 seconds. */
  const ONE_WEEK: int := 604800

  // ---------------------------------------------------------------------------
  // The validator, as a specification
  // ---------------------------------------------------------------------------

  /** The check of one requested amount: a `uint256`, and greater than zero. */
  function AmountFailure(x: int): Option<string>
  {
    if !IsUint256(x) then Some(MSG_AMOUNT_INVALID)
    else if x <= 0 then Some(MSG_AMOUNT_NOT_POSITIVE)
    else None
  }

  function AmountChecks(amounts: seq<int>): seq<Option<string>>
  {
    seq(|amounts|, i requires 0 <= i < |amounts| => AmountFailure(amounts[i]))
  }

  /** The start of the extended interval: now, or the existing start if that is later. */
  function NewStart(now: int, existingStart: int): (s: int)
    ensures s >= now && s >= existingStart && (s == now || s == existingStart)
  {
    if now > existingStart then now else existingStart
  }

  /**
   * The reward rate over the new interval: the rewards left after fees plus
   * the existing rate's rewards still due until the existing end, spread over
   * the new interval, truncated toward zero.
   */
  function NewRate(rewardsAfterFee: int, rate: int, existingEnd: int, newStart: int, newEnd: int): int
    requires newEnd > newStart
  {
    TruncDiv(rewardsAfterFee + rate * (existingEnd - newStart), newEnd - newStart)
  }

  /**
   * The checks at position `i` of the request, in source order. The existing
   * interval is read at the same position `i` of the market's arrays, and
   * every missing entry reads as zero.
   */
  function IndexFailure(base: BaseMarket, market: EnrichedMarket, ids: seq<string>, amounts: seq<int>,
                        ends: Option<seq<int>>, now: nat, i: nat): Option<string>
    requires i < |ids| && i < |amounts|
  {
    var newEnd := OptAt(ends, i);
    var existingEnd := At(market.base_end_timestamps, i);
    var newStart := NewStart(now, At(market.base_start_timestamps, i));
    var rate := At(market.base_incentive_rates, i);
    if ids[i] !in market.base_incentive_ids then Some(MSG_NOT_ADDED)
    else if newEnd <= existingEnd then Some(MSG_END_NOT_GREATER)
    else if newEnd <= now then Some(MSG_NO_INTERVAL)
    else if newEnd - newStart < ONE_WEEK then Some(MSG_TOO_SHORT)
    else if NewRate(AfterFees(amounts[i], base.frontend_fee, base.protocol_fee), rate, existingEnd, newStart, newEnd) < rate
    then Some(MSG_RATE_DECREASES)
    else None
  }

  function IndexChecks(base: BaseMarket, market: EnrichedMarket, ids: seq<string>, amounts: seq<int>,
                       ends: Option<seq<int>>, now: nat): seq<Option<string>>
    requires |ids| == |amounts|
  {
    seq(|ids|, i requires 0 <= i < |ids| => IndexFailure(base, market, ids, amounts, ends, now, i))
  }

  /**
   * The verdict: the first failing check in source order (market, ids,
   * addresses, amounts, lengths, then position by position), or acceptance.
   */
  function ExtendVerdict(baseMarket: Option<BaseMarket>, enrichedMarket: Option<EnrichedMarket>,
                         token_ids: Option<seq<string>>, token_amounts: Option<seq<int>>,
                         end_timestamps: Option<seq<int>>, now: nat, isAddress: string -> bool): Verdict
  {
    if enrichedMarket.None? || baseMarket.None? then Rejected(MSG_MARKET_MISSING)
    else if token_ids.None? then Rejected(MSG_IDS_MISSING)
    else if |token_ids.value| == 0 then Rejected(MSG_NO_INCENTIVES)
    else if !AllAddressesOk(token_ids.value, isAddress) then Rejected(MSG_ADDRESS_INVALID)
    else if token_amounts.None? then Rejected(MSG_AMOUNTS_MISSING)
    else if FirstFailure(AmountChecks(token_amounts.value)).Some? then
      Rejected(FirstFailure(AmountChecks(token_amounts.value)).value)
    else if |token_ids.value| != |token_amounts.value| then Rejected(MSG_LENGTH_MISMATCH)
    else
      var failure := FirstFailure(IndexChecks(baseMarket.value, enrichedMarket.value, token_ids.value,
                                              token_amounts.value, end_timestamps, now));
      if failure.Some? then Rejected(failure.value) else Accepted
  }

  // ---------------------------------------------------------------------------
  // What an accepted request satisfies
  // ---------------------------------------------------------------------------

  /**
   * Position `i` of an accepted request: a positive `uint256` amount, a token
   * the market already has, and a new end that lies after the existing end
   * and after now, at least a week after the new start, at a reward rate no
   * lower than the existing one.
   */
  predicate IndexAccepted(base: BaseMarket, market: EnrichedMarket, ids: seq<string>, amounts: seq<int>,
                          ends: Option<seq<int>>, now: nat, i: nat)
    requires i < |ids| && i < |amounts|
  {
    var newEnd := OptAt(ends, i);
    var existingEnd := At(market.base_end_timestamps, i);
    var newStart := NewStart(now, At(market.base_start_timestamps, i));
    var rate := At(market.base_incentive_rates, i);
    && 0 < amounts[i] < UINT256_LIMIT
    && ids[i] in market.base_incentive_ids
    && newEnd > existingEnd
    && newEnd > now
    && newEnd - newStart >= ONE_WEEK
    && NewRate(AfterFees(amounts[i], base.frontend_fee, base.protocol_fee), rate, existingEnd, newStart, newEnd) >= rate
  }

  predicate ExtendAccepts(baseMarket: Option<BaseMarket>, enrichedMarket: Option<EnrichedMarket>,
                          token_ids: Option<seq<string>>, token_amounts: Option<seq<int>>,
                          end_timestamps: Option<seq<int>>, now: nat, isAddress: string -> bool)
  {
    && baseMarket.Some? && enrichedMarket.Some?
    && token_ids.Some? && |token_ids.value| > 0
    && AllAddressesOk(token_ids.value, isAddress)
    && token_amounts.Some? && |token_amounts.value| == |token_ids.value|
    && forall i :: 0 <= i < |token_ids.value| ==>
         IndexAccepted(baseMarket.value, enrichedMarket.value, token_ids.value, token_amounts.value,
                       end_timestamps, now, i)
  }

  /**
   * The verdict is `{true, "Valid market action"}` exactly when every check
   * passes; otherwise its status is false.
   */
  lemma ExtendVerdictIff(baseMarket: Option<BaseMarket>, enrichedMarket: Option<EnrichedMarket>,
                         token_ids: Option<seq<string>>, token_amounts: Option<seq<int>>,
                         end_timestamps: Option<seq<int>>, now: nat, isAddress: string -> bool)
    ensures var v := ExtendVerdict(baseMarket, enrichedMarket, token_ids, token_amounts, end_timestamps, now, isAddress);
      (v.status <==> ExtendAccepts(baseMarket, enrichedMarket, token_ids, token_amounts, end_timestamps, now, isAddress))
      && (v.status ==> v == Accepted)
  {
    if baseMarket.Some? && enrichedMarket.Some? && token_ids.Some? && token_amounts.Some? {
      var ids, amounts := token_ids.value, token_amounts.value;
      var ac := AmountChecks(amounts);
      FirstFailureNoneIff(ac);
      if |ids| == |amounts| {
        var ic := IndexChecks(baseMarket.value, enrichedMarket.value, ids, amounts, end_timestamps, now);
        FirstFailureNoneIff(ic);
        forall i | 0 <= i < |ids|
          ensures (ac[i] == None && ic[i] == None) <==>
            IndexAccepted(baseMarket.value, enrichedMarket.value, ids, amounts, end_timestamps, now, i)
        {
        }
      }
    }
  }

  /**
   * The amount checks run before the length check: once the market, the ids
   * and their addresses pass, the first bad amount is reported whatever the
   * two lists' lengths.
   */
  lemma ExtendAmountBeforeLength(base: BaseMarket, market: EnrichedMarket, ids: seq<string>, amounts: seq<int>,
                                 ends: Option<seq<int>>, now: nat, isAddress: string -> bool, j: nat)
    requires 0 < |ids| && AllAddressesOk(ids, isAddress)
    requires j < |amounts| && AmountFailure(amounts[j]).Some?
    requires forall k :: 0 <= k < j ==> 0 < amounts[k] < UINT256_LIMIT
    ensures ExtendVerdict(Some(base), Some(market), Some(ids), Some(amounts), ends, now, isAddress)
      == Rejected(if amounts[j] < 0 || amounts[j] >= UINT256_LIMIT then MSG_AMOUNT_INVALID else MSG_AMOUNT_NOT_POSITIVE)
  {
    var ac := AmountChecks(amounts);
    forall k | 0 <= k < j
      ensures ac[k] == None
    {
    }
    FirstFailureAt(ac, j);
  }

  /** The messages a rejection can carry, in the order the checks run. */
  const EXTEND_FAILURES: set<string> := {
    MSG_MARKET_MISSING, MSG_IDS_MISSING, MSG_NO_INCENTIVES, MSG_ADDRESS_INVALID,
    MSG_AMOUNTS_MISSING, MSG_AMOUNT_INVALID, MSG_AMOUNT_NOT_POSITIVE, MSG_LENGTH_MISMATCH,
    MSG_NOT_ADDED, MSG_END_NOT_GREATER, MSG_NO_INTERVAL, MSG_TOO_SHORT, MSG_RATE_DECREASES }

  lemma FallbackNotExtendFailure()
    ensures FALLBACK_MESSAGE !in EXTEND_FAILURES && "" !in EXTEND_FAILURES
  {
  }

  /**
   * A rejection always names one of the validator's own checks: the generic
   * fallback "Invalid market action" is never reached, since every thrown
   * message is non-empty.
   */
  lemma ExtendRejectionMessage(baseMarket: Option<BaseMarket>, enrichedMarket: Option<EnrichedMarket>,
                               token_ids: Option<seq<string>>, token_amounts: Option<seq<int>>,
                               end_timestamps: Option<seq<int>>, now: nat, isAddress: string -> bool)
    ensures var v := ExtendVerdict(baseMarket, enrichedMarket, token_ids, token_amounts, end_timestamps, now, isAddress);
      !v.status ==> v.message in EXTEND_FAILURES && v.message != FALLBACK_MESSAGE
  {
    FallbackNotExtendFailure();
    if baseMarket.Some? && enrichedMarket.Some? && token_ids.Some? && token_amounts.Some? {
      var ids, amounts := token_ids.value, token_amounts.value;
      FirstFailureFrom(AmountChecks(amounts), EXTEND_FAILURES);
      if |ids| == |amounts| {
        FirstFailureFrom(IndexChecks(baseMarket.value, enrichedMarket.value, ids, amounts, end_timestamps, now), EXTEND_FAILURES);
      }
    }
  }

  /**
   * When every stage before the position checks passes and positions before
   * `i` are accepted, the verdict carries the first failure at position `i`.
   */
  lemma ExtendFirstFailingIndex(base: BaseMarket, market: EnrichedMarket, ids: seq<string>, amounts: seq<int>,
                                ends: Option<seq<int>>, now: nat, isAddress: string -> bool, i: nat)
    requires 0 < |ids| == |amounts| && i < |ids|
    requires AllAddressesOk(ids, isAddress)
    requires forall j :: 0 <= j < |amounts| ==> 0 < amounts[j] < UINT256_LIMIT
    requires forall j :: 0 <= j < i ==> IndexAccepted(base, market, ids, amounts, ends, now, j)
    requires IndexFailure(base, market, ids, amounts, ends, now, i).Some?
    ensures ExtendVerdict(Some(base), Some(market), Some(ids), Some(amounts), ends, now, isAddress)
            == Rejected(IndexFailure(base, market, ids, amounts, ends, now, i).value)
  {
    FirstFailureNoneIff(AmountChecks(amounts));
    var checks := IndexChecks(base, market, ids, amounts, ends, now);
    forall j | 0 <= j < i
      ensures checks[j] == None
    {
      assert IndexAccepted(base, market, ids, amounts, ends, now, j);
    }
    FirstFailureAt(checks, i);
  }

  /**
   * A position without a new end timestamp of its own reads the new end as
   * zero. For a listed token it fails the end comparison when the existing
   * end is non-negative, and otherwise gets past it only to fail the
   * "after now" check.
   */
  lemma ExtendMissingEnd(base: BaseMarket, market: EnrichedMarket, ids: seq<string>, amounts: seq<int>,
                         ends: Option<seq<int>>, now: nat, i: nat)
    requires i < |ids| && i < |amounts|
    requires ends.None? || i >= |ends.value|
    requires ids[i] in market.base_incentive_ids
    ensures At(market.base_end_timestamps, i) >= 0 ==>
      IndexFailure(base, market, ids, amounts, ends, now, i) == Some(MSG_END_NOT_GREATER)
    ensures At(market.base_end_timestamps, i) < 0 ==>
      IndexFailure(base, market, ids, amounts, ends, now, i) == Some(MSG_NO_INTERVAL)
  {
  }

  /**
   * In an accepted request every position has a new end timestamp of its own
   * (a missing one reads as zero, which is never after now), and the new
   * interval is at least a week long, so the rate division is by a positive
   * duration.
   */
  lemma ExtendAcceptedWindow(baseMarket: Option<BaseMarket>, enrichedMarket: Option<EnrichedMarket>,
                             token_ids: Option<seq<string>>, token_amounts: Option<seq<int>>,
                             end_timestamps: Option<seq<int>>, now: nat, isAddress: string -> bool, i: nat)
    requires ExtendVerdict(baseMarket, enrichedMarket, token_ids, token_amounts, end_timestamps, now, isAddress).status
    requires token_ids.Some? && i < |token_ids.value|
    ensures token_amounts.Some? && i < |token_amounts.value| && 0 < token_amounts.value[i] < UINT256_LIMIT
    ensures end_timestamps.Some? && i < |end_timestamps.value|
    ensures enrichedMarket.Some? && token_ids.value[i] in enrichedMarket.value.base_incentive_ids
    ensures var m := enrichedMarket.value;
      var newEnd := end_timestamps.value[i];
      var newStart := NewStart(now, At(m.base_start_timestamps, i));
      newEnd > At(m.base_end_timestamps, i) && newEnd > now && newEnd - newStart >= ONE_WEEK
  {
    ExtendVerdictIff(baseMarket, enrichedMarket, token_ids, token_amounts, end_timestamps, now, isAddress);
    assert IndexAccepted(baseMarket.value, enrichedMarket.value, token_ids.value, token_amounts.value, end_timestamps, now, i);
  }

  /**
   * The rate rule on its own: with a positive existing rate, the new rate is
   * no lower exactly when the rewards after fees pay the existing rate over
   * the stretch from the existing end to the new end.
   */
  lemma RateRule(raf: int, rate: int, existingEnd: int, newStart: int, newEnd: int)
    requires newEnd > newStart && rate >= 1
    ensures NewRate(raf, rate, existingEnd, newStart, newEnd) >= rate <==> raf >= rate * (newEnd - existingEnd)
  {
    TruncDivAtLeast(raf + rate * (existingEnd - newStart), newEnd - newStart, rate);
    assert rate * (newEnd - newStart) - rate * (existingEnd - newStart) == rate * (newEnd - existingEnd);
  }

  /**
   * What the rate rule means for an accepted request: when the existing rate
   * is positive, the rewards left after fees pay at least the existing rate
   * for every second the interval is extended by; the rewards still due under
   * the existing rate cover the rest.
   */
  lemma ExtendAcceptedRate(base: BaseMarket, market: EnrichedMarket, ids: seq<string>, amounts: seq<int>,
                           ends: Option<seq<int>>, now: nat, i: nat)
    requires i < |ids| && i < |amounts|
    requires IndexAccepted(base, market, ids, amounts, ends, now, i)
    requires At(market.base_incentive_rates, i) >= 1
    ensures var rate := At(market.base_incentive_rates, i);
      AfterFees(amounts[i], base.frontend_fee, base.protocol_fee)
        >= rate * (OptAt(ends, i) - At(market.base_end_timestamps, i))
  {
    RateRule(AfterFees(amounts[i], base.frontend_fee, base.protocol_fee), At(market.base_incentive_rates, i),
             At(market.base_end_timestamps, i), NewStart(now, At(market.base_start_timestamps, i)), OptAt(ends, i));
  }

  /**
   * Conversely, at a position that passes every earlier check, a rate rule
   * violation (with a positive existing rate) is exactly rewards after fees
   * that fall short of the existing rate over the extension.
   */
  lemma ExtendRateRejection(base: BaseMarket, market: EnrichedMarket, ids: seq<string>, amounts: seq<int>,
                            ends: Option<seq<int>>, now: nat, i: nat)
    requires i < |ids| && i < |amounts|
    requires ids[i] in market.base_incentive_ids
    requires OptAt(ends, i) > At(market.base_end_timestamps, i) && OptAt(ends, i) > now
    requires OptAt(ends, i) - NewStart(now, At(market.base_start_timestamps, i)) >= ONE_WEEK
    requires At(market.base_incentive_rates, i) >= 1
    ensures var rate := At(market.base_incentive_rates, i);
      IndexFailure(base, market, ids, amounts, ends, now, i) == Some(MSG_RATE_DECREASES) <==>
      AfterFees(amounts[i], base.frontend_fee, base.protocol_fee)
        < rate * (OptAt(ends, i) - At(market.base_end_timestamps, i))
  {
    RateRule(AfterFees(amounts[i], base.frontend_fee, base.protocol_fee), At(market.base_incentive_rates, i),
             At(market.base_end_timestamps, i), NewStart(now, At(market.base_start_timestamps, i)), OptAt(ends, i));
  }

  // ---------------------------------------------------------------------------
  // The validator, as the source runs it
  // ---------------------------------------------------------------------------

  /**
   * One iteration of the validator's last loop: the checks at position `i`,
   * computed step by step as the source does, giving the message of the
   * first that fails.
   */
  method CheckPosition(base: BaseMarket, market: EnrichedMarket, ids: seq<string>, amounts: seq<int>,
                       end_timestamps: Option<seq<int>>, now: nat, i: nat)
    returns (failure: Option<string>)
    requires i < |ids| && i < |amounts|
    ensures failure == IndexFailure(base, market, ids, amounts, end_timestamps, now, i)
  {
    if ids[i] !in market.base_incentive_ids {
      return Some(MSG_NOT_ADDED);
    }
    var newEnd := OptAt(end_timestamps, i);
    var existingEnd := At(market.base_end_timestamps, i);
    if newEnd <= existingEnd {
      return Some(MSG_END_NOT_GREATER);
    }
    if newEnd <= now {
      return Some(MSG_NO_INTERVAL);
    }
    var frontendFee := TruncDiv(amounts[i] * base.frontend_fee, WAD);
    var protocolFee := TruncDiv(amounts[i] * base.protocol_fee, WAD);
    var rewardsAfterFee := amounts[i] - frontendFee - protocolFee;
    var existingStart := At(market.base_start_timestamps, i);
    var newStart := if now > existingStart then now else existingStart;
    if newEnd - newStart < ONE_WEEK {
      return Some(MSG_TOO_SHORT);
    }
    var rate := At(market.base_incentive_rates, i);
    var remainingRewards := rate * (existingEnd - newStart);
    var newRate := TruncDiv(rewardsAfterFee + remainingRewards, newEnd - newStart);
    if newRate < rate {
      return Some(MSG_RATE_DECREASES);
    }
    return None;
  }

  /**
   * `isVaultIPExtendIncentivesValid`, with `Date.now()` in seconds given as
   * `now`: the checks run in order and the first that fails decides the
   * verdict (a `throw` caught at the end in the source, a `return` here).
   */
  method IsVaultIPExtendIncentivesValid(baseMarket: Option<BaseMarket>, enrichedMarket: Option<EnrichedMarket>,
                                        token_ids: Option<seq<string>>, token_amounts: Option<seq<int>>,
                                        end_timestamps: Option<seq<int>>, now: nat, isAddress: string -> bool)
    returns (v: Verdict)
    ensures v == ExtendVerdict(baseMarket, enrichedMarket, token_ids, token_amounts, end_timestamps, now, isAddress)
  {
    if enrichedMarket.None? || baseMarket.None? {
      return Rejected(MSG_MARKET_MISSING);
    }
    if token_ids.None? {
      return Rejected(MSG_IDS_MISSING);
    }
    var ids := token_ids.value;
    if |ids| == 0 {
      return Rejected(MSG_NO_INCENTIVES);
    }
    for i := 0 to |ids|
      invariant forall j :: 0 <= j < i ==> AddressOk(ids[j], isAddress)
    {
      var tokenAddress := SecondSegment(ids[i]);
      if tokenAddress.None? || !isAddress(tokenAddress.value) {
        return Rejected(MSG_ADDRESS_INVALID);
      }
    }
    if token_amounts.None? {
      return Rejected(MSG_AMOUNTS_MISSING);
    }
    var amounts := token_amounts.value;
    ghost var amountChecks := AmountChecks(amounts);
    for i := 0 to |amounts|
      invariant FirstFailure(amountChecks) == FirstFailure(amountChecks[i..])
    {
      if !IsUint256(amounts[i]) {
        FirstFailureHead(amountChecks, i);
        return Rejected(MSG_AMOUNT_INVALID);
      }
      if amounts[i] <= 0 {
        FirstFailureHead(amountChecks, i);
        return Rejected(MSG_AMOUNT_NOT_POSITIVE);
      }
      FirstFailureSkip(amountChecks, i);
    }
    if |ids| != |amounts| {
      return Rejected(MSG_LENGTH_MISMATCH);
    }
    var base, market := baseMarket.value, enrichedMarket.value;
    ghost var indexChecks := IndexChecks(base, market, ids, amounts, end_timestamps, now);
    for i := 0 to |ids|
      invariant FirstFailure(indexChecks) == FirstFailure(indexChecks[i..])
    {
      var failure := CheckPosition(base, market, ids, amounts, end_timestamps, now, i);
      if failure.Some? {
        FirstFailureHead(indexChecks, i);
        return Rejected(failure.value);
      }
      FirstFailureSkip(indexChecks, i);
    }
    return Accepted;
  }

  // ---------------------------------------------------------------------------
  // Incentive token data
  // ---------------------------------------------------------------------------

  /**
   * `calculateVaultIPExtendIncentivesTokenData` without its display amounts:
   * one record per requested token, in request order, holding the token's
   * quote, the requested amount at the same position and the placeholder
   * fields; no records without an enriched market.
   */
  function CalculateVaultIPExtendIncentivesTokenData<Q>(enrichedMarket: Option<EnrichedMarket>, quotes: QuoteRead<Q>,
                                                        tokenIds: seq<string>, tokenAmounts: seq<int>): (d: TokenData<Q>)
    ensures enrichedMarket.None? ==> d.incentiveData == []
    ensures enrichedMarket.Some? ==> |d.incentiveData| == |tokenIds|
    ensures forall i :: 0 <= i < |d.incentiveData| ==>
      && d.incentiveData[i].quote == quotes.quoteOf(tokenIds[i])
      && d.incentiveData[i].raw_amount == Lookup(tokenAmounts, i)
      && d.incentiveData[i].per_input_token == 0
      && d.incentiveData[i].annual_change_ratio == ANNUAL_CHANGE_PLACEHOLDER
    ensures d.inputTokenData.raw_amount == 0
  {
    var inputId := if enrichedMarket.Some? then enrichedMarket.value.input_token_id else "";
    var input := InputTokenData(quotes.quoteOf(inputId), 0);
    if enrichedMarket.None? then TokenData([], input)
    else TokenData(seq(|tokenIds|, i requires 0 <= i < |tokenIds| =>
                     IncentiveTokenData(quotes.quoteOf(tokenIds[i]), Lookup(tokenAmounts, i), 0, ANNUAL_CHANGE_PLACEHOLDER)),
                   input)
  }

  /**
   * For an accepted request the records carry exactly the requested amounts:
   * every token has a defined, positive raw amount.
   */
  lemma ExtendTokenDataOfAccepted<Q>(baseMarket: Option<BaseMarket>, enrichedMarket: Option<EnrichedMarket>,
                                     token_ids: Option<seq<string>>, token_amounts: Option<seq<int>>,
                                     end_timestamps: Option<seq<int>>, now: nat, isAddress: string -> bool,
                                     quotes: QuoteRead<Q>)
    requires ExtendVerdict(baseMarket, enrichedMarket, token_ids, token_amounts, end_timestamps, now, isAddress).status
    ensures token_ids.Some? && token_amounts.Some?
    ensures var d := CalculateVaultIPExtendIncentivesTokenData(enrichedMarket, quotes, token_ids.value, token_amounts.value);
      |d.incentiveData| == |token_ids.value| &&
      forall i :: 0 <= i < |d.incentiveData| ==>
        d.incentiveData[i].raw_amount == Some(token_amounts.value[i]) && token_amounts.value[i] > 0
  {
    ExtendVerdictIff(baseMarket, enrichedMarket, token_ids, token_amounts, end_timestamps, now, isAddress);
    var ids, amounts := token_ids.value, token_amounts.value;
    forall i | 0 <= i < |ids|
      ensures amounts[i] > 0
    {
      assert IndexAccepted(baseMarket.value, enrichedMarket.value, ids, amounts, end_timestamps, now, i);
    }
  }

  // ---------------------------------------------------------------------------
  // Transaction options
  // ---------------------------------------------------------------------------

  /**
   * `frontend_fee_recipient ? frontend_fee_recipient : baseMarket?.protocol_fee_recipient`:
   * the caller's recipient when it is a non-empty string, else the market's
   * protocol fee recipient, else undefined.
   */
  function FeeRecipient(recipient: Option<string>, baseMarket: Option<BaseMarket>): Arg
  {
    if recipient.Some? && recipient.value != "" then Text(recipient.value)
    else if baseMarket.Some? then Text(baseMarket.value.protocol_fee_recipient)
    else Undefined
  }

  function AddressArg(a: Option<string>): Arg
  {
    if a.Some? then Text(a.value) else Undefined
  }

  function AmountArg(x: Option<int>): Arg
  {
    if x.Some? then Amount(x.value) else Undefined
  }

  /** The contract address the calls go to: the market id, or "" without a market. */
  function VaultAddress(enrichedMarket: Option<EnrichedMarket>): string
  {
    if enrichedMarket.Some? then enrichedMarket.value.market_id else ""
  }

  /** The `extendRewardsInterval` call for position `i` of the request. */
  function ExtendOption(baseMarket: Option<BaseMarket>, enrichedMarket: Option<EnrichedMarket>, chain_id: int,
                        token_ids: seq<string>, token_amounts: seq<int>, end_timestamps: seq<int>,
                        recipient: Option<string>, i: nat): TxOption
    requires i < |token_ids|
  {
    var tokenAddress := SecondSegment(token_ids[i]);
    TxOption("WrappedVault", chain_id, "extend_reward_" + Show(tokenAddress), VaultAddress(enrichedMarket),
             "extendRewardsInterval",
             [AddressArg(tokenAddress), AmountArg(Lookup(token_amounts, i)), AmountArg(Lookup(end_timestamps, i)),
              FeeRecipient(recipient, baseMarket)],
             Idle, None)
  }

  /** The ids the builder treats as already present: `enrichedMarket?.incentive_ids ?? []`. */
  function ExistingIds(enrichedMarket: Option<EnrichedMarket>): seq<string>
  {
    if enrichedMarket.Some? then enrichedMarket.value.incentive_ids else []
  }

  /** The options the builder has pushed after looking at the first `n` requested ids. */
  function ExtendTxOptions(baseMarket: Option<BaseMarket>, enrichedMarket: Option<EnrichedMarket>, chain_id: int,
                           token_ids: seq<string>, token_amounts: seq<int>, end_timestamps: seq<int>,
                           recipient: Option<string>, n: nat): seq<TxOption>
    requires n <= |token_ids|
  {
    if n == 0 then []
    else ExtendTxOptions(baseMarket, enrichedMarket, chain_id, token_ids, token_amounts, end_timestamps, recipient, n - 1)
         + if token_ids[n - 1] in ExistingIds(enrichedMarket)
           then [ExtendOption(baseMarket, enrichedMarket, chain_id, token_ids, token_amounts, end_timestamps, recipient, n - 1)]
           else []
  }

  /** The positions among the first `n` whose id the market already has, in increasing order. */
  function PresentPositions(existing: seq<string>, token_ids: seq<string>, n: nat): (ps: seq<nat>)
    requires n <= |token_ids|
    ensures |ps| <= n && forall k :: 0 <= k < |ps| ==> ps[k] < n
  {
    if n == 0 then []
    else PresentPositions(existing, token_ids, n - 1) + if token_ids[n - 1] in existing then [n - 1] else []
  }

  /**
   * The builder is an order-preserving filter: its options are, in order,
   * the options of exactly those requested positions whose id is in the
   * market's `incentive_ids`; so there are at most as many options as ids.
   */
  lemma ExtendTxOptionsFilter(baseMarket: Option<BaseMarket>, enrichedMarket: Option<EnrichedMarket>,
                               chain_id: int, token_ids: seq<string>, token_amounts: seq<int>,
                               end_timestamps: seq<int>, recipient: Option<string>, n: nat)
    requires n <= |token_ids|
    ensures var r := ExtendTxOptions(baseMarket, enrichedMarket, chain_id, token_ids, token_amounts, end_timestamps, recipient, n);
      var ps := PresentPositions(ExistingIds(enrichedMarket), token_ids, n);
      && |r| == |ps| <= n
      && (forall k :: 0 <= k < |ps| ==> ps[k] < n)
      && (forall k, l :: 0 <= k < l < |ps| ==> ps[k] < ps[l])
      && (forall j :: 0 <= j < n ==> (j in ps <==> token_ids[j] in ExistingIds(enrichedMarket)))
      && (forall k :: 0 <= k < |r| ==>
            r[k] == ExtendOption(baseMarket, enrichedMarket, chain_id, token_ids, token_amounts, end_timestamps, recipient, ps[k]))
  {
    PresentPositionsSpec(ExistingIds(enrichedMarket), token_ids, n);
    ExtendTxOptionsAt(baseMarket, enrichedMarket, chain_id, token_ids, token_amounts, end_timestamps, recipient, n);
  }

  /** The present positions are increasing and are exactly the positions whose id is present. */
  lemma {:induction false} PresentPositionsSpec(existing: seq<string>, token_ids: seq<string>, n: nat)
    requires n <= |token_ids|
    ensures var ps := PresentPositions(existing, token_ids, n);
      && (forall k, l :: 0 <= k < l < |ps| ==> ps[k] < ps[l])
      && (forall j :: 0 <= j < n ==> (j in ps <==> token_ids[j] in existing))
  {
    if n > 0 {
      PresentPositionsSpec(existing, token_ids, n - 1);
    }
  }

  /** Option `k` of the builder is the option for the `k`-th present position. */
  lemma {:induction false} ExtendTxOptionsAt(baseMarket: Option<BaseMarket>, enrichedMarket: Option<EnrichedMarket>,
                                             chain_id: int, token_ids: seq<string>, token_amounts: seq<int>,
                                             end_timestamps: seq<int>, recipient: Option<string>, n: nat)
    requires n <= |token_ids|
    ensures var r := ExtendTxOptions(baseMarket, enrichedMarket, chain_id, token_ids, token_amounts, end_timestamps, recipient, n);
      var ps := PresentPositions(ExistingIds(enrichedMarket), token_ids, n);
      && |r| == |ps|
      && (forall k :: 0 <= k < |r| ==>
            r[k] == ExtendOption(baseMarket, enrichedMarket, chain_id, token_ids, token_amounts, end_timestamps, recipient, ps[k]))
  {
    if n > 0 {
      var existing := ExistingIds(enrichedMarket);
      var prev := ExtendTxOptions(baseMarket, enrichedMarket, chain_id, token_ids, token_amounts, end_timestamps, recipient, n - 1);
      var prevPs := PresentPositions(existing, token_ids, n - 1);
      ExtendTxOptionsAt(baseMarket, enrichedMarket, chain_id, token_ids, token_amounts, end_timestamps, recipient, n - 1);
      if token_ids[n - 1] in existing {
        var o := ExtendOption(baseMarket, enrichedMarket, chain_id, token_ids, token_amounts, end_timestamps, recipient, n - 1);
        assert ExtendTxOptions(baseMarket, enrichedMarket, chain_id, token_ids, token_amounts, end_timestamps, recipient, n)
               == prev + [o];
        assert PresentPositions(existing, token_ids, n) == prevPs + [n - 1];
      } else {
        assert ExtendTxOptions(baseMarket, enrichedMarket, chain_id, token_ids, token_amounts, end_timestamps, recipient, n)
               == prev;
        assert PresentPositions(existing, token_ids, n) == prevPs;
      }
    }
  }

  /** When the market already has every requested id, there is one option per id, position by position. */
  lemma ExtendTxOptionsAllPresent(baseMarket: Option<BaseMarket>, enrichedMarket: Option<EnrichedMarket>,
                                  chain_id: int, token_ids: seq<string>, token_amounts: seq<int>,
                                  end_timestamps: seq<int>, recipient: Option<string>)
    requires forall j :: 0 <= j < |token_ids| ==> token_ids[j] in ExistingIds(enrichedMarket)
    ensures var r := ExtendTxOptions(baseMarket, enrichedMarket, chain_id, token_ids, token_amounts, end_timestamps, recipient, |token_ids|);
      |r| == |token_ids| &&
      forall j :: 0 <= j < |r| ==>
        r[j] == ExtendOption(baseMarket, enrichedMarket, chain_id, token_ids, token_amounts, end_timestamps, recipient, j)
  {
    var n := |token_ids|;
    ExtendTxOptionsFilter(baseMarket, enrichedMarket, chain_id, token_ids, token_amounts, end_timestamps, recipient, n);
    PresentPositionsAll(ExistingIds(enrichedMarket), token_ids, n);
  }

  lemma {:induction false} PresentPositionsAll(existing: seq<string>, token_ids: seq<string>, n: nat)
    requires n <= |token_ids|
    requires forall j :: 0 <= j < n ==> token_ids[j] in existing
    ensures var ps := PresentPositions(existing, token_ids, n);
      |ps| == n && forall k :: 0 <= k < n ==> ps[k] == k
  {
    if n > 0 {
      PresentPositionsAll(existing, token_ids, n - 1);
    }
  }

  /**
   * `getVaultIPExtendIncentivesTransactionOptions`: walks the requested ids
   * in order and pushes an `extendRewardsInterval` call for each id the
   * market's `incentive_ids` already holds.
   */
  method GetVaultIPExtendIncentivesTransactionOptions(baseMarket: Option<BaseMarket>, enrichedMarket: Option<EnrichedMarket>,
                                                      chain_id: int, token_ids: seq<string>, token_amounts: seq<int>,
                                                      end_timestamps: seq<int>, frontend_fee_recipient: Option<string>)
    returns (txOptions: seq<TxOption>)
    ensures txOptions == ExtendTxOptions(baseMarket, enrichedMarket, chain_id, token_ids, token_amounts,
                                         end_timestamps, frontend_fee_recipient, |token_ids|)
    ensures |txOptions| <= |token_ids|
    ensures forall k :: 0 <= k < |txOptions| ==>
      txOptions[k].functionName == "extendRewardsInterval" && txOptions[k].txStatus == Idle && txOptions[k].txHash == None
  {
    var address := VaultAddress(enrichedMarket);
    var extendRewardTxOptions: seq<TxOption> := [];
    for i := 0 to |token_ids|
      invariant extendRewardTxOptions ==
        ExtendTxOptions(baseMarket, enrichedMarket, chain_id, token_ids, token_amounts, end_timestamps, frontend_fee_recipient, i)
    {
      var tokenId := token_ids[i];
      var tokenAddress := SecondSegment(tokenId);
      var existingTokenIds := ExistingIds(enrichedMarket);
      if tokenId in existingTokenIds {
        var newTxOptions := TxOption("WrappedVault", chain_id, "extend_reward_" + Show(tokenAddress), address,
                                     "extendRewardsInterval",
                                     [AddressArg(tokenAddress), AmountArg(Lookup(token_amounts, i)),
                                      AmountArg(Lookup(end_timestamps, i)), FeeRecipient(frontend_fee_recipient, baseMarket)],
                                     Idle, None);
        extendRewardTxOptions := extendRewardTxOptions + [newTxOptions];
      }
    }
    ExtendTxOptionsFilter(baseMarket, enrichedMarket, chain_id, token_ids, token_amounts, end_timestamps,
                          frontend_fee_recipient, |token_ids|);
    txOptions := extendRewardTxOptions;
  }

  // ---------------------------------------------------------------------------
  // The hook
  // ---------------------------------------------------------------------------

  /**
   * `useVaultIPExtendIncentives`: validates the request against the market
   * read, derives the token data, builds the action calls and (through the
   * sequencer) the approval calls when the request is valid, and exposes the
   * plan only once the allowance read has finished.
   */
  method UseVaultIPExtendIncentives<Q, A(!new)>(chain_id: int, market_id: string,
                                          token_ids: Option<seq<string>>, token_amounts: Option<seq<int>>,
                                          end_timestamps: Option<seq<int>>, frontend_fee_recipient: Option<string>,
                                          enabled: bool, now: nat, isAddress: string -> bool,
                                          readers: Readers<Q, A>, sequencer: Sequencer<A>)
    returns (r: PreparedAction<Q>)
    ensures r.isValid == ExtendVerdict(readers.market.baseMarket, readers.market.enrichedMarket,
                                       token_ids, token_amounts, end_timestamps, now, isAddress)
    ensures var quotes := readers.quotes(QuoteTokenIds(readers.market.enrichedMarket, token_ids), r.isValid.status && enabled);
      var ids := if token_ids.Some? then token_ids.value else [];
      var amounts := if token_amounts.Some? then token_amounts.value else [];
      var ends := if end_timestamps.Some? then end_timestamps.value else [];
      var base := readers.market.baseMarket;
      var recipient := if frontend_fee_recipient.Some? then frontend_fee_recipient
                       else if base.Some? then Some(base.value.protocol_fee_recipient) else None;
      var pre := if r.isValid.status then sequencer.approvals(ids, amounts, market_id) else [];
      var post := if r.isValid.status
                  then ExtendTxOptions(base, readers.market.enrichedMarket, chain_id, ids, amounts, ends, recipient, |ids|)
                  else [];
      var allowance := readers.allowance(OptionAddresses(pre));
      && r.incentiveData == CalculateVaultIPExtendIncentivesTokenData(readers.market.enrichedMarket, quotes, ids, amounts).incentiveData
      && r.writeContractOptions == (if allowance.isLoading then [] else sequencer.refine(allowance.data, pre, post))
      && r.isLoading == (readers.market.isLoading || allowance.isLoading || quotes.isLoading)
      && (KeepsEmptyPlanEmpty(sequencer) && r.writeContractOptions != [] ==> r.isValid.status && !allowance.isLoading)
    ensures r.isReady <==> |r.writeContractOptions| > 0
    ensures r.canBePerformedCompletely == r.isReady && r.canBePerformedPartially == r.isReady
  {
    var preContractOptions: seq<TxOption> := [];
    var postContractOptions: seq<TxOption> := [];
    var writeContractOptions: seq<TxOption> := [];
    var canBePerformedCompletely := false;
    var canBePerformedPartially := false;

    var baseMarket, enrichedMarket := readers.market.baseMarket, readers.market.enrichedMarket;
    var isValid := IsVaultIPExtendIncentivesValid(baseMarket, enrichedMarket, token_ids, token_amounts, end_timestamps,
                                                  now, isAddress);
    ExtendVerdictIff(baseMarket, enrichedMarket, token_ids, token_amounts, end_timestamps, now, isAddress);

    var quotes := readers.quotes(QuoteTokenIds(enrichedMarket, token_ids), isValid.status && enabled);
    var ids := if token_ids.Some? then token_ids.value else [];
    var amounts := if token_amounts.Some? then token_amounts.value else [];
    var ends := if end_timestamps.Some? then end_timestamps.value else [];
    var tokenData := CalculateVaultIPExtendIncentivesTokenData(enrichedMarket, quotes, ids, amounts);

    if isValid.status && baseMarket.Some? && enrichedMarket.Some? {
      var recipient := if frontend_fee_recipient.Some? then frontend_fee_recipient
                       else Some(baseMarket.value.protocol_fee_recipient);
      var offerTxOptions := GetVaultIPExtendIncentivesTransactionOptions(baseMarket, enrichedMarket, chain_id, ids,
                                                                         amounts, ends, recipient);
      postContractOptions := offerTxOptions;
      preContractOptions := sequencer.approvals(ids, amounts, market_id);
    }

    var allowance := readers.allowance(OptionAddresses(preContractOptions));
    if !allowance.isLoading {
      writeContractOptions := sequencer.refine(allowance.data, preContractOptions, postContractOptions);
    }

    var isLoading := readers.market.isLoading || allowance.isLoading || quotes.isLoading;
    var isReady := |writeContractOptions| > 0;
    if isReady {
      canBePerformedCompletely := true;
      canBePerformedPartially := true;
    }
    r := PreparedAction(isValid, isLoading, isReady, tokenData.incentiveData, writeContractOptions,
                        canBePerformedCompletely, canBePerformedPartially);
  }

  // ---------------------------------------------------------------------------
  // Scenarios
  // ---------------------------------------------------------------------------

  /** A market without fees whose protocol fee recipient is "0xFEE". */
  const SCENARIO_BASE: BaseMarket := BaseMarket(0, 0, "0xFEE")

  /** A market with one incentive token, its interval started 500 s ago and ending in 100 s, at rate `rate`. */
  function ScenarioMarket(now: nat, rate: int): EnrichedMarket
  {
    EnrichedMarket("0xVAULT", "input-0xIN", ["incentive-0xAAA"], ["incentive-0xAAA"], [0], [rate],
                   [now - 500], [now + 100])
  }

  const SCENARIO_IDS: seq<string> := ["incentive-0xAAA"]

  lemma ScenarioSegment()
    ensures SecondSegment(SCENARIO_IDS[0]) == Some("0xAAA")
  {
    SecondSegmentOf("incentive-0xAAA", "incentive", "0xAAA", "");
  }

  lemma ScenarioAddress(isAddress: string -> bool)
    requires isAddress("0xAAA")
    ensures AllAddressesOk(SCENARIO_IDS, isAddress)
  {
    ScenarioSegment();
  }

  /**
   * The verdict of a one-token scenario request whose address and amount are
   * well formed: the outcome of its only position check.
   */
  lemma ScenarioVerdict(now: nat, rate: int, newEnd: int, isAddress: string -> bool)
    requires isAddress("0xAAA")
    ensures var f := IndexFailure(SCENARIO_BASE, ScenarioMarket(now, rate), SCENARIO_IDS, [WAD], Some([newEnd]), now, 0);
      ExtendVerdict(Some(SCENARIO_BASE), Some(ScenarioMarket(now, rate)), Some(SCENARIO_IDS), Some([WAD]),
                    Some([newEnd]), now, isAddress) == if f.Some? then Rejected(f.value) else Accepted
  {
    ScenarioAddress(isAddress);
    var ac := AmountChecks([WAD]);
    assert ac[0] == AmountFailure(WAD) == None;
    FirstFailureSingle(ac);
    var c := IndexChecks(SCENARIO_BASE, ScenarioMarket(now, rate), SCENARIO_IDS, [WAD], Some([newEnd]), now);
    FirstFailureSingle(c);
  }

  /**
   * The position check of the rate-zero scenario for a new end after the
   * existing one: it fails as too short exactly when the window from now is
   * under a week.
   */
  lemma ScenarioWindow(now: nat, newEnd: int)
    requires newEnd > now + 100
    ensures IndexFailure(SCENARIO_BASE, ScenarioMarket(now, 0), SCENARIO_IDS, [WAD], Some([newEnd]), now, 0)
      == if newEnd - now < ONE_WEEK then Some(MSG_TOO_SHORT) else None
  {
    var m := ScenarioMarket(now, 0);
    assert At(m.base_start_timestamps, 0) == now - 500 && At(m.base_end_timestamps, 0) == now + 100;
    assert At(m.base_incentive_rates, 0) == 0;
    assert NewStart(now, now - 500) == now;
    NoFees(WAD);
    if newEnd - now >= ONE_WEEK {
      TruncDivAtLeast(WAD + 0 * (now + 100 - now), newEnd - now, 0);
    }
  }

  /**
   * One token (10^18 units) extended to 2,000,000 s from now on a market
   * without fees and with rate zero is accepted.
   */
  lemma ExtendScenarioAccepted(now: nat, isAddress: string -> bool)
    requires isAddress("0xAAA")
    ensures ExtendVerdict(Some(SCENARIO_BASE), Some(ScenarioMarket(now, 0)), Some(SCENARIO_IDS), Some([WAD]),
                          Some([now + 2_000_000]), now, isAddress) == Accepted
  {
    ScenarioWindow(now, now + 2_000_000);
    ScenarioVerdict(now, 0, now + 2_000_000, isAddress);
  }

  /** The option the builder makes for the scenario's only position. */
  lemma ScenarioOption(now: nat)
    ensures ExtendOption(Some(SCENARIO_BASE), Some(ScenarioMarket(now, 0)), 1, SCENARIO_IDS, [WAD], [now + 2_000_000], None, 0)
      == TxOption("WrappedVault", 1, "extend_reward_" + "0xAAA", "0xVAULT", "extendRewardsInterval",
                  [Text("0xAAA"), Amount(WAD), Amount(now + 2_000_000), Text("0xFEE")], Idle, None)
  {
    ScenarioSegment();
  }

  /**
   * For that request the builder makes a single `extendRewardsInterval` call
   * on address "0xAAA", paying fees to the market's protocol fee recipient.
   */
  lemma ExtendScenarioOptions(now: nat)
    ensures var opts := ExtendTxOptions(Some(SCENARIO_BASE), Some(ScenarioMarket(now, 0)), 1, SCENARIO_IDS, [WAD],
                                        [now + 2_000_000], None, 1);
      && |opts| == 1 && opts[0].functionName == "extendRewardsInterval" && opts[0].id == "extend_reward_" + "0xAAA"
      && opts[0].args == [Text("0xAAA"), Amount(WAD), Amount(now + 2_000_000), Text("0xFEE")]
  {
    var m := Some(ScenarioMarket(now, 0));
    assert SCENARIO_IDS[0] in ExistingIds(m);
    ScenarioOption(now);
  }

  /** The same request ending 500,000 s from now is shorter than a week and is rejected for that. */
  lemma ExtendScenarioTooShort(now: nat, isAddress: string -> bool)
    requires isAddress("0xAAA")
    ensures ExtendVerdict(Some(SCENARIO_BASE), Some(ScenarioMarket(now, 0)), Some(SCENARIO_IDS), Some([WAD]),
                          Some([now + 500_000]), now, isAddress) == Rejected(MSG_TOO_SHORT)
  {
    ScenarioWindow(now, now + 500_000);
    ScenarioVerdict(now, 0, now + 500_000, isAddress);
  }

  /** A window one second short of a week is rejected; exactly one week is accepted. */
  lemma ExtendWeekBoundary(now: nat, isAddress: string -> bool)
    requires isAddress("0xAAA")
    ensures ExtendVerdict(Some(SCENARIO_BASE), Some(ScenarioMarket(now, 0)), Some(SCENARIO_IDS), Some([WAD]),
                          Some([now + ONE_WEEK - 1]), now, isAddress) == Rejected(MSG_TOO_SHORT)
    ensures ExtendVerdict(Some(SCENARIO_BASE), Some(ScenarioMarket(now, 0)), Some(SCENARIO_IDS), Some([WAD]),
                          Some([now + ONE_WEEK]), now, isAddress) == Accepted
  {
    ScenarioWindow(now, now + ONE_WEEK - 1);
    ScenarioVerdict(now, 0, now + ONE_WEEK - 1, isAddress);
    ScenarioWindow(now, now + ONE_WEEK);
    ScenarioVerdict(now, 0, now + ONE_WEEK, isAddress);
  }

  /**
   * At an existing rate of 10^12 per second, 10^18 units do not pay for
   * 1,999,900 extra seconds: the new rate would be lower, and the request is
   * rejected for that.
   */
  lemma ExtendScenarioRateTooLow(now: nat, isAddress: string -> bool)
    requires isAddress("0xAAA")
    ensures ExtendVerdict(Some(SCENARIO_BASE), Some(ScenarioMarket(now, 1_000_000_000_000)), Some(SCENARIO_IDS), Some([WAD]),
                          Some([now + 2_000_000]), now, isAddress) == Rejected(MSG_RATE_DECREASES)
  {
    ScenarioRateFailure(now);
    ScenarioVerdict(now, 1_000_000_000_000, now + 2_000_000, isAddress);
  }

  /** The position check of that request fails on the rate rule. */
  lemma ScenarioRateFailure(now: nat)
    ensures IndexFailure(SCENARIO_BASE, ScenarioMarket(now, 1_000_000_000_000), SCENARIO_IDS, [WAD],
                         Some([now + 2_000_000]), now, 0) == Some(MSG_RATE_DECREASES)
  {
    var m := ScenarioMarket(now, 1_000_000_000_000);
    assert At(m.base_start_timestamps, 0) == now - 500 && At(m.base_end_timestamps, 0) == now + 100;
    assert At(m.base_incentive_rates, 0) == 1_000_000_000_000;
    assert NewStart(now, now - 500) == now;
    NoFees(WAD);
    ExtendRateRejection(SCENARIO_BASE, m, SCENARIO_IDS, [WAD], Some([now + 2_000_000]), now, 0);
  }

  /** Without fees the rewards after fees are the whole amount. */
  lemma NoFees(amount: int)
    ensures AfterFees(amount, 0, 0) == amount
  {
    assert amount * 0 == 0;
    assert TruncDiv(0, WAD) == 0;
  }
}

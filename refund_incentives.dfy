/**
 * Preparing "refund incentives" on a vault market: validating that every
 * requested incentive interval has not started yet, deriving the per-token
 * incentive records from the market's own amounts, building the
 * `refundRewardsInterval` calls and assembling the plan, which never has
 * approval steps.
 */
module RefundIncentives {
  import opened Checks
  import opened TokenIds
  import opened Market

  const MSG_IN_PROGRESS: string := "Interval is already in progress. Incentives cannot be refunded."

  // ---------------------------------------------------------------------------
  // The validator, as a specification
  // ---------------------------------------------------------------------------

  /**
   * The checks at position `i`: the token must be one the market has, and
   * now must lie strictly before the start read at the same position `i` of
   * the market's start timestamps (zero when there is none).
   */
  function RefundIndexFailure(market: EnrichedMarket, ids: seq<string>, now: nat, i: nat): Option<string>
    requires i < |ids|
  {
    if ids[i] !in market.base_incentive_ids then Some(MSG_NOT_ADDED)
    else if now >= At(market.base_start_timestamps, i) then Some(MSG_IN_PROGRESS)
    else None
  }

  function RefundIndexChecks(market: EnrichedMarket, ids: seq<string>, now: nat): seq<Option<string>>
  {
    seq(|ids|, i requires 0 <= i < |ids| => RefundIndexFailure(market, ids, now, i))
  }

  /**
   * The verdict: the first failing check in source order (market, ids,
   * addresses, then position by position), or acceptance.
   */
  function RefundVerdict(baseMarket: Option<BaseMarket>, enrichedMarket: Option<EnrichedMarket>,
                         token_ids: Option<seq<string>>, now: nat, isAddress: string -> bool): Verdict
  {
    if enrichedMarket.None? || baseMarket.None? then Rejected(MSG_MARKET_MISSING)
    else if token_ids.None? then Rejected(MSG_IDS_MISSING)
    else if |token_ids.value| == 0 then Rejected(MSG_NO_INCENTIVES)
    else if !AllAddressesOk(token_ids.value, isAddress) then Rejected(MSG_ADDRESS_INVALID)
    else
      var failure := FirstFailure(RefundIndexChecks(enrichedMarket.value, token_ids.value, now));
      if failure.Some? then Rejected(failure.value) else Accepted
  }

  /**
   * An accepted refund: both market snapshots, at least one id, every
   * address well formed, and every requested token one the market has whose
   * interval (read at the same position) starts strictly after now.
   */
  predicate RefundAccepts(baseMarket: Option<BaseMarket>, enrichedMarket: Option<EnrichedMarket>,
                          token_ids: Option<seq<string>>, now: nat, isAddress: string -> bool)
  {
    && baseMarket.Some? && enrichedMarket.Some?
    && token_ids.Some? && |token_ids.value| > 0
    && AllAddressesOk(token_ids.value, isAddress)
    && forall i :: 0 <= i < |token_ids.value| ==> RefundIndexAccepted(enrichedMarket.value, token_ids.value, now, i)
  }

  /** Position `i` of a refund passes: the token is one the market has, its interval (at `i`) not yet started. */
  predicate RefundIndexAccepted(market: EnrichedMarket, ids: seq<string>, now: nat, i: nat)
    requires i < |ids|
  {
    ids[i] in market.base_incentive_ids && now < At(market.base_start_timestamps, i)
  }

  /**
   * The verdict is `{true, "Valid market action"}` exactly when every check
   * passes; otherwise its status is false.
   */
  lemma RefundVerdictIff(baseMarket: Option<BaseMarket>, enrichedMarket: Option<EnrichedMarket>,
                         token_ids: Option<seq<string>>, now: nat, isAddress: string -> bool)
    ensures var v := RefundVerdict(baseMarket, enrichedMarket, token_ids, now, isAddress);
      (v.status <==> RefundAccepts(baseMarket, enrichedMarket, token_ids, now, isAddress))
      && (v.status ==> v == Accepted)
  {
    if baseMarket.Some? && enrichedMarket.Some? && token_ids.Some? {
      var ic := RefundIndexChecks(enrichedMarket.value, token_ids.value, now);
      FirstFailureNoneIff(ic);
      forall i | 0 <= i < |token_ids.value|
        ensures ic[i] == None <==> RefundIndexAccepted(enrichedMarket.value, token_ids.value, now, i)
      {
      }
    }
  }

  /** The messages a rejection can carry. */
  const REFUND_FAILURES: set<string> := {
    MSG_MARKET_MISSING, MSG_IDS_MISSING, MSG_NO_INCENTIVES, MSG_ADDRESS_INVALID, MSG_NOT_ADDED, MSG_IN_PROGRESS }

  lemma FallbackNotRefundFailure()
    ensures FALLBACK_MESSAGE !in REFUND_FAILURES && "" !in REFUND_FAILURES
  {
  }

  /** A rejection always names one of the validator's own checks, never the generic fallback. */
  lemma RefundRejectionMessage(baseMarket: Option<BaseMarket>, enrichedMarket: Option<EnrichedMarket>,
                               token_ids: Option<seq<string>>, now: nat, isAddress: string -> bool)
    ensures var v := RefundVerdict(baseMarket, enrichedMarket, token_ids, now, isAddress);
      !v.status ==> v.message in REFUND_FAILURES && v.message != FALLBACK_MESSAGE
  {
    FallbackNotRefundFailure();
    if baseMarket.Some? && enrichedMarket.Some? && token_ids.Some? {
      FirstFailureFrom(RefundIndexChecks(enrichedMarket.value, token_ids.value, now), REFUND_FAILURES);
    }
  }

  /**
   * In an accepted refund every requested position has a start timestamp of
   * its own (a missing one reads as zero, which now never lies before).
   */
  lemma RefundAcceptedStarts(baseMarket: Option<BaseMarket>, enrichedMarket: Option<EnrichedMarket>,
                             token_ids: Option<seq<string>>, now: nat, isAddress: string -> bool, i: nat)
    requires RefundVerdict(baseMarket, enrichedMarket, token_ids, now, isAddress).status
    requires token_ids.Some? && i < |token_ids.value|
    ensures enrichedMarket.Some? && i < |enrichedMarket.value.base_start_timestamps|
    ensures now < enrichedMarket.value.base_start_timestamps[i]
    ensures token_ids.value[i] in enrichedMarket.value.base_incentive_ids
  {
    RefundVerdictIff(baseMarket, enrichedMarket, token_ids, now, isAddress);
    assert RefundIndexAccepted(enrichedMarket.value, token_ids.value, now, i);
  }

  /**
   * The start boundary: at a position reached with all earlier positions
   * accepted, a token whose interval starts exactly now (or earlier) is
   * rejected as already in progress, since the check is `now >= start`.
   */
  lemma RefundStartBoundary(base: BaseMarket, market: EnrichedMarket, ids: seq<string>, now: nat,
                            isAddress: string -> bool, i: nat)
    requires 0 < |ids| && i < |ids|
    requires AllAddressesOk(ids, isAddress)
    requires forall j :: 0 <= j < i ==> RefundIndexAccepted(market, ids, now, j)
    requires ids[i] in market.base_incentive_ids
    requires now >= At(market.base_start_timestamps, i)
    ensures RefundVerdict(Some(base), Some(market), Some(ids), now, isAddress) == Rejected(MSG_IN_PROGRESS)
  {
    var checks := RefundIndexChecks(market, ids, now);
    forall j | 0 <= j < i
      ensures checks[j] == None
    {
      assert RefundIndexAccepted(market, ids, now, j);
    }
    FirstFailureAt(checks, i);
  }

  /**
   * The positional reading made concrete: the market holds token "a-0x1"
   * (interval already started) and then "a-0x2" (starting later). A refund
   * of "a-0x2" alone is checked against the start at position 0, which has
   * started, and is rejected; the same refund is accepted on a market that
   * lists the two tokens the other way round.
   */
  lemma RefundReadsPositionally(now: nat, isAddress: string -> bool)
    requires isAddress("0x2")
    ensures var base := BaseMarket(0, 0, "0xFEE");
      var started := EnrichedMarket("0xVAULT", "", [], ["a-0x1", "a-0x2"], [5, 7], [0, 0], [now, now + 1], [now + 9, now + 9]);
      var swapped := EnrichedMarket("0xVAULT", "", [], ["a-0x2", "a-0x1"], [7, 5], [0, 0], [now + 1, now], [now + 9, now + 9]);
      && RefundVerdict(Some(base), Some(started), Some(["a-0x2"]), now, isAddress) == Rejected(MSG_IN_PROGRESS)
      && RefundVerdict(Some(base), Some(swapped), Some(["a-0x2"]), now, isAddress) == Accepted
  {
    SecondSegmentOf("a-0x2", "a", "0x2", "");
    var base := BaseMarket(0, 0, "0xFEE");
    var started := EnrichedMarket("0xVAULT", "", [], ["a-0x1", "a-0x2"], [5, 7], [0, 0], [now, now + 1], [now + 9, now + 9]);
    var swapped := EnrichedMarket("0xVAULT", "", [], ["a-0x2", "a-0x1"], [7, 5], [0, 0], [now + 1, now], [now + 9, now + 9]);
    RefundStartBoundary(base, started, ["a-0x2"], now, isAddress, 0);
    RefundVerdictIff(Some(base), Some(swapped), Some(["a-0x2"]), now, isAddress);
  }

  // ---------------------------------------------------------------------------
  // The validator, as the source runs it
  // ---------------------------------------------------------------------------

  /**
   * `isVaultIPRefundIncentivesValid`, with `Date.now()` in seconds given as
   * `now`: the checks run in order and the first that fails decides the
   * verdict.
   */
  method IsVaultIPRefundIncentivesValid(baseMarket: Option<BaseMarket>, enrichedMarket: Option<EnrichedMarket>,
                                        token_ids: Option<seq<string>>, now: nat, isAddress: string -> bool)
    returns (v: Verdict)
    ensures v == RefundVerdict(baseMarket, enrichedMarket, token_ids, now, isAddress)
  {
    if enrichedMarket.None? || baseMarket.None? {
      return Rejected(MSG_MARKET_MISSING);
    }
    if token_ids.None? {
      return Rejected(MSG_IDS_MISSING);
    }
    var ids := token_ids.value;
    if |ids| == 0 {
      return Rejected(MSG_NO_INCENTIVES);
    }
    for i := 0 to |ids|
      invariant forall j :: 0 <= j < i ==> AddressOk(ids[j], isAddress)
    {
      var tokenAddress := SecondSegment(ids[i]);
      if tokenAddress.None? || !isAddress(tokenAddress.value) {
        return Rejected(MSG_ADDRESS_INVALID);
      }
    }
    var market := enrichedMarket.value;
    ghost var checks := RefundIndexChecks(market, ids, now);
    for i := 0 to |ids|
      invariant FirstFailure(checks) == FirstFailure(checks[i..])
    {
      assert checks[i] == RefundIndexFailure(market, ids, now, i);
      if ids[i] !in market.base_incentive_ids {
        FirstFailureHead(checks, i);
        return Rejected(MSG_NOT_ADDED);
      }
      var existingStart := At(market.base_start_timestamps, i);
      if now >= existingStart {
        FirstFailureHead(checks, i);
        return Rejected(MSG_IN_PROGRESS);
      }
      FirstFailureSkip(checks, i);
    }
    return Accepted;
  }

  // ---------------------------------------------------------------------------
  // Incentive token data
  // ---------------------------------------------------------------------------

  /**
   * The raw amount of a requested token: the market's amount at the token's
   * first position in `base_incentive_ids` (`indexOf`), undefined when the
   * token is absent or the amounts array is shorter.
   */
  function MarketAmountOf(market: EnrichedMarket, tokenId: string): Option<int>
  {
    Lookup(market.base_incentive_amounts, IndexOf(market.base_incentive_ids, tokenId))
  }

  /**
   * `calculateVaultIPRefundIncentivesTokenData` without its display amounts:
   * one record per requested token, in request order, holding the token's
   * quote, the market's amount for that token and the placeholder fields;
   * no records without an enriched market.
   */
  function CalculateVaultIPRefundIncentivesTokenData<Q>(enrichedMarket: Option<EnrichedMarket>, quotes: QuoteRead<Q>,
                                                        tokenIds: seq<string>): (d: TokenData<Q>)
    ensures enrichedMarket.None? ==> d.incentiveData == []
    ensures enrichedMarket.Some? ==> |d.incentiveData| == |tokenIds|
    ensures forall i :: 0 <= i < |d.incentiveData| ==>
      && enrichedMarket.Some?
      && d.incentiveData[i].quote == quotes.quoteOf(tokenIds[i])
      && d.incentiveData[i].raw_amount == MarketAmountOf(enrichedMarket.value, tokenIds[i])
      && d.incentiveData[i].per_input_token == 0
      && d.incentiveData[i].annual_change_ratio == ANNUAL_CHANGE_PLACEHOLDER
    ensures d.inputTokenData.raw_amount == 0
  {
    var inputId := if enrichedMarket.Some? then enrichedMarket.value.input_token_id else "";
    var input := InputTokenData(quotes.quoteOf(inputId), 0);
    if enrichedMarket.None? then TokenData([], input)
    else TokenData(seq(|tokenIds|, i requires 0 <= i < |tokenIds| =>
                     IncentiveTokenData(quotes.quoteOf(tokenIds[i]),
                                        MarketAmountOf(enrichedMarket.value, tokenIds[i]), 0, ANNUAL_CHANGE_PLACEHOLDER)),
                   input)
  }

  /**
   * For an accepted refund on a market whose amounts array covers its ids,
   * every record carries the market's amount at the first position holding
   * that token, and is defined.
   */
  lemma RefundTokenDataOfAccepted<Q>(baseMarket: Option<BaseMarket>, enrichedMarket: Option<EnrichedMarket>,
                                     token_ids: Option<seq<string>>, now: nat, isAddress: string -> bool,
                                     quotes: QuoteRead<Q>)
    requires RefundVerdict(baseMarket, enrichedMarket, token_ids, now, isAddress).status
    requires enrichedMarket.Some? ==>
      |enrichedMarket.value.base_incentive_amounts| >= |enrichedMarket.value.base_incentive_ids|
    ensures enrichedMarket.Some? && token_ids.Some?
    ensures var m := enrichedMarket.value;
      var d := CalculateVaultIPRefundIncentivesTokenData(enrichedMarket, quotes, token_ids.value);
      |d.incentiveData| == |token_ids.value| &&
      forall i :: 0 <= i < |d.incentiveData| ==>
        exists k :: (0 <= k < |m.base_incentive_ids| && m.base_incentive_ids[k] == token_ids.value[i] &&
          (forall j :: 0 <= j < k ==> m.base_incentive_ids[j] != token_ids.value[i]) &&
          d.incentiveData[i].raw_amount == Some(m.base_incentive_amounts[k]))
  {
    RefundVerdictIff(baseMarket, enrichedMarket, token_ids, now, isAddress);
    var m := enrichedMarket.value;
    var ids := token_ids.value;
    forall i | 0 <= i < |ids|
      ensures exists k :: (0 <= k < |m.base_incentive_ids| && m.base_incentive_ids[k] == ids[i] &&
          (forall j :: 0 <= j < k ==> m.base_incentive_ids[j] != ids[i]) &&
          MarketAmountOf(m, ids[i]) == Some(m.base_incentive_amounts[k]))
    {
      assert RefundIndexAccepted(m, ids, now, i);
      IndexOfFirst(m.base_incentive_ids, ids[i]);
      var k := IndexOf(m.base_incentive_ids, ids[i]);
      assert m.base_incentive_ids[k] == ids[i];
    }
  }

  // ---------------------------------------------------------------------------
  // Transaction options
  // ---------------------------------------------------------------------------

  /** The `refundRewardsInterval` call for one requested token. */
  function RefundOption(enrichedMarket: Option<EnrichedMarket>, chain_id: int, tokenId: string): TxOption
  {
    var tokenAddress := SecondSegment(tokenId);
    var address := if enrichedMarket.Some? then enrichedMarket.value.market_id else "";
    TxOption("WrappedVault", chain_id, "refund_reward_" + Show(tokenAddress), address, "refundRewardsInterval",
             [if tokenAddress.Some? then Text(tokenAddress.value) else Undefined], Idle, None)
  }

  /**
   * The options the builder has pushed after the first `n` requested ids:
   * it has no filter, so option `k` is the refund call for id `k`.
   */
  function RefundTxOptions(enrichedMarket: Option<EnrichedMarket>, chain_id: int, token_ids: seq<string>, n: nat): seq<TxOption>
    requires n <= |token_ids|
  {
    seq(n, k requires 0 <= k < n => RefundOption(enrichedMarket, chain_id, token_ids[k]))
  }

  /**
   * `getVaultIPRefundIncentivesTransactionOptions`: walks the requested ids
   * in order and pushes a `refundRewardsInterval` call for every one of them.
   */
  method GetVaultIPRefundIncentivesTransactionOptions(enrichedMarket: Option<EnrichedMarket>, chain_id: int,
                                                      token_ids: seq<string>)
    returns (txOptions: seq<TxOption>)
    ensures txOptions == RefundTxOptions(enrichedMarket, chain_id, token_ids, |token_ids|)
    ensures |txOptions| == |token_ids|
    ensures forall k :: 0 <= k < |txOptions| ==>
      && txOptions[k].functionName == "refundRewardsInterval"
      && txOptions[k].id == "refund_reward_" + Show(SecondSegment(token_ids[k]))
      && txOptions[k].txStatus == Idle && txOptions[k].txHash == None
  {
    var address := if enrichedMarket.Some? then enrichedMarket.value.market_id else "";
    var refundRewardTxOptions: seq<TxOption> := [];
    for i := 0 to |token_ids|
      invariant refundRewardTxOptions == RefundTxOptions(enrichedMarket, chain_id, token_ids, i)
    {
      var tokenAddress := SecondSegment(token_ids[i]);
      var newTxOptions := TxOption("WrappedVault", chain_id, "refund_reward_" + Show(tokenAddress), address,
                                   "refundRewardsInterval",
                                   [if tokenAddress.Some? then Text(tokenAddress.value) else Undefined], Idle, None);
      refundRewardTxOptions := refundRewardTxOptions + [newTxOptions];
    }
    txOptions := refundRewardTxOptions;
  }

  // ---------------------------------------------------------------------------
  // The hook
  // ---------------------------------------------------------------------------

  /**
   * `useVaultIPRefundIncentives`: validates the request against the market
   * read, derives the token data and, when the request is valid, plans one
   * refund call per requested token with no approval steps before them.
   */
  method UseVaultIPRefundIncentives<Q, A>(chain_id: int, market_id: string, token_ids: Option<seq<string>>,
                                          enabled: bool, now: nat, isAddress: string -> bool,
                                          readers: Readers<Q, A>)
    returns (r: PreparedAction<Q>)
    ensures r.isValid == RefundVerdict(readers.market.baseMarket, readers.market.enrichedMarket, token_ids, now, isAddress)
    ensures var quotes := readers.quotes(QuoteTokenIds(readers.market.enrichedMarket, token_ids), r.isValid.status && enabled);
      var ids := if token_ids.Some? then token_ids.value else [];
      && r.incentiveData == CalculateVaultIPRefundIncentivesTokenData(readers.market.enrichedMarket, quotes, ids).incentiveData
      && r.isLoading == (readers.market.isLoading || quotes.isLoading)
      && r.writeContractOptions ==
           (if r.isValid.status then RefundTxOptions(readers.market.enrichedMarket, chain_id, ids, |ids|) else [])
    ensures r.isValid.status ==> token_ids.Some? && |r.writeContractOptions| == |token_ids.value|
    ensures forall k :: 0 <= k < |r.writeContractOptions| ==> r.writeContractOptions[k].functionName == "refundRewardsInterval"
    ensures r.isReady <==> |r.writeContractOptions| > 0
    ensures r.isReady <==> r.isValid.status
    ensures r.canBePerformedCompletely == r.isReady && r.canBePerformedPartially == r.isReady
  {
    var preContractOptions: seq<TxOption> := [];
    var postContractOptions: seq<TxOption> := [];
    var writeContractOptions: seq<TxOption> := [];
    var canBePerformedCompletely := false;
    var canBePerformedPartially := false;

    var baseMarket, enrichedMarket := readers.market.baseMarket, readers.market.enrichedMarket;
    var isValid := IsVaultIPRefundIncentivesValid(baseMarket, enrichedMarket, token_ids, now, isAddress);
    RefundVerdictIff(baseMarket, enrichedMarket, token_ids, now, isAddress);

    var quotes := readers.quotes(QuoteTokenIds(enrichedMarket, token_ids), isValid.status && enabled);
    var ids := if token_ids.Some? then token_ids.value else [];
    var tokenData := CalculateVaultIPRefundIncentivesTokenData(enrichedMarket, quotes, ids);

    if isValid.status && baseMarket.Some? && enrichedMarket.Some? {
      var offerTxOptions := GetVaultIPRefundIncentivesTransactionOptions(enrichedMarket, chain_id, ids);
      postContractOptions := offerTxOptions;
      preContractOptions := [];
      writeContractOptions := preContractOptions + postContractOptions;
    }

    var isLoading := readers.market.isLoading || quotes.isLoading;
    var isReady := |writeContractOptions| > 0;
    if isReady {
      canBePerformedCompletely := true;
      canBePerformedPartially := true;
    }
    r := PreparedAction(isValid, isLoading, isReady, tokenData.incentiveData, writeContractOptions,
                        canBePerformedCompletely, canBePerformedPartially);
  }
}

/**
 * The entities the incentive-action hooks read and produce: the on-chain
 * market parameters, the enriched per-incentive arrays, the per-token
 * incentive records, the contract-call descriptors, and the results of the
 * asynchronous reads the hooks compose.
 */
module Market {
  import opened Checks
  import TokenIds

  /**
   * The market parameters read from chain. Fee fractions are 18-decimal
   * fixed-point integers (10^18 is one).
   */
  datatype BaseMarket = BaseMarket(
    frontend_fee: int,
    protocol_fee: int,
    protocol_fee_recipient: string)

  /**
   * The enriched market record. The `base_*` arrays are meant to be
   * index-aligned, one position per incentive token; nothing here forces
   * that, and the validators read them positionally. `incentive_ids` is a
   * separate list the transaction builder filters on.
   */
  datatype EnrichedMarket = EnrichedMarket(
    market_id: string,
    input_token_id: string,
    incentive_ids: seq<string>,
    base_incentive_ids: seq<string>,
    base_incentive_amounts: seq<int>,
    base_incentive_rates: seq<int>,
    base_start_timestamps: seq<int>,
    base_end_timestamps: seq<int>)

  /** `s?.[i] ?? "0"`: the entry at position `i`, or zero when there is none. */
  function At(s: seq<int>, i: nat): int
  {
    if i < |s| then s[i] else 0
  }

  /** `s?.[i] ?? "0"` on an array that may itself be undefined. */
  function OptAt(s: Option<seq<int>>, i: nat): int
  {
    match s
    case None => 0
    case Some(t) => At(t, i)
  }

  /** `s[i]` in JavaScript: undefined (None) past the end. */
  function Lookup<T>(s: seq<T>, i: int): Option<T>
  {
    if 0 <= i < |s| then Some(s[i]) else None
  }

  /** A contract-call argument: a text value, an integer amount, or `undefined`. */
  datatype Arg = Text(text: string) | Amount(amount: int) | Undefined

  /** The lifecycle of a transaction; the hooks only ever create `Idle` ones. */
  datatype TxStatus = Idle | Pending | Success | Failed

  /**
   * A contract-call descriptor (`TransactionOptionsType`). The display label,
   * the ABI and the market-type tag are foreign data and are not modelled.
   */
  datatype TxOption = TxOption(
    contractId: string,
    chainId: int,
    id: string,
    address: string,
    functionName: string,
    args: seq<Arg>,
    txStatus: TxStatus,
    txHash: Option<string>)

  /**
   * The per-token record a calculator derives: the token's quote (`Q` stands
   * for the quote the quote reader resolves), its raw amount (may be
   * undefined) and the two placeholder fields.
   */
  datatype IncentiveTokenData<Q> = IncentiveTokenData(
    quote: Q,
    raw_amount: Option<int>,
    per_input_token: int,
    annual_change_ratio: int)

  /** The input token's record: its quote with a raw amount of zero. */
  datatype InputTokenData<Q> = InputTokenData(quote: Q, raw_amount: int)

  /** What a token-data calculator returns. */
  datatype TokenData<Q> = TokenData(
    incentiveData: seq<IncentiveTokenData<Q>>,
    inputTokenData: InputTokenData<Q>)

  /** `annual_change_ratio` placeholder: 10^18, which stands for "not defined". */
  const ANNUAL_CHANGE_PLACEHOLDER: int := 1_000_000_000_000_000_000

  /** The result of the cached market read (`useDefaultMarketData`). */
  datatype MarketRead = MarketRead(
    baseMarket: Option<BaseMarket>,
    enrichedMarket: Option<EnrichedMarket>,
    isLoading: bool)

  /** The result of the token-quote read: loading flag and `getTokenQuote`. */
  datatype QuoteRead<Q> = QuoteRead(isLoading: bool, quoteOf: string -> Q)

  /** The result of the allowance read; `A` stands for the allowance data. */
  datatype AllowanceRead<A> = AllowanceRead(isLoading: bool, data: A)

  /** What a preparation hook hands to the presentation layer. */
  datatype PreparedAction<Q> = PreparedAction(
    isValid: Verdict,
    isLoading: bool,
    isReady: bool,
    incentiveData: seq<IncentiveTokenData<Q>>,
    writeContractOptions: seq<TxOption>,
    canBePerformedCompletely: bool,
    canBePerformedPartially: bool)

  /** `options.map((option) => option.address)`: the addresses the allowance read is asked about. */
  function OptionAddresses(options: seq<TxOption>): seq<string>
  {
    seq(|options|, i requires 0 <= i < |options| => options[i].address)
  }

  /** The cached reads a preparation hook composes. */
  datatype Readers<Q, A> = Readers(
    market: MarketRead,
    quotes: (seq<string>, bool) -> QuoteRead<Q>,
    allowance: seq<string> -> AllowanceRead<A>)

  /**
   * The allowance-aware sequencer of the extend hook: `approvals` builds the
   * approval steps from the token ids, the required amounts and the spender;
   * `refine` combines the allowance data, the approval steps and the action
   * steps into the final plan.
   */
  datatype Sequencer<!A> = Sequencer(
    approvals: (seq<string>, seq<int>, string) -> seq<TxOption>,
    refine: (A, seq<TxOption>, seq<TxOption>) -> seq<TxOption>)

  /** A sequencer that makes no plan out of no steps. */
  ghost predicate KeepsEmptyPlanEmpty<A(!new)>(s: Sequencer<A>)
  {
    forall a :: s.refine(a, [], []) == []
  }

  /** The token identifiers the quote read is asked for: the input token first, no repeats. */
  function QuoteTokenIds(enriched: Option<EnrichedMarket>, ids: Option<seq<string>>): seq<string>
  {
    var input := if enriched.Some? then enriched.value.input_token_id else "";
    TokenIds.Unique([input] + (if ids.Some? then ids.value else []))
  }

  /**
   * The quote read is asked for the input token first, then each requested
   * id not yet listed, in request order, none twice.
   */
  lemma QuoteTokenIdsInputFirst(enriched: Option<EnrichedMarket>, ids: Option<seq<string>>)
    ensures var q := QuoteTokenIds(enriched, ids);
      var input := if enriched.Some? then enriched.value.input_token_id else "";
      |q| > 0 && q[0] == input &&
      (forall x :: x in q <==> x == input || (ids.Some? && x in ids.value)) &&
      (forall i, j :: 0 <= i < j < |q| ==> q[i] != q[j])
  {
    var input := if enriched.Some? then enriched.value.input_token_id else "";
    var s := [input] + (if ids.Some? then ids.value else []);
    TokenIds.UniqueFirst(s);
    TokenIds.UniqueIsSet(s);
  }

}

/**
 * The configuration shapes of a trading deal: the enumerations, the filter
 * and condition records, and the field constraints and cross-field check
 * that construction of these records enforces.
 *
 * Each record is a datatype. A record's construction with its field defaults
 * and constraints is a function returning a `Result`: it fails exactly when
 * a constraint is violated and otherwise returns the record built from the
 * given fields, with omitted fields (`None`) set to their defaults.
 */
module Entities {
  import opened Wrappers

  datatype TradeAlgorithm = Long | Short

  datatype FilterType = BollingerBends | Rsi

  /** Candle intervals, 1 minute to 1 week. */
  datatype TimeFrame =
    | Tf1m | Tf3m | Tf5m | Tf15m | Tf30m
    | Tf1h | Tf2h | Tf4h | Tf6h | Tf12h
    | Tf1d | Tf1w

  datatype ConditionOperator = Gt | Lt

  /** The exit modes; the enumeration has the single member SIGNAL. */
  datatype ExitMode = Signal

  datatype MovingAverageType = Sma | Ema

  /** A threshold condition; `value` is carried and never computed with. */
  datatype FilterCondition = FilterCondition(operator: ConditionOperator, value: real)

  datatype FilterConfig = FilterConfig(
    filterType: FilterType,
    timeFrame: TimeFrame,
    periods: Option<int>,
    movingAverage: Option<MovingAverageType>,
    condition: Option<FilterCondition>)

  datatype DealEntryConfig = DealEntryConfig(filters: seq<FilterConfig>)

  datatype ExitSignal = ExitSignal(filters: seq<FilterConfig>, pnl: Option<real>)

  datatype DealExitConfig = DealExitConfig(mode: ExitMode, signal: Option<ExitSignal>)

  datatype DealConfig = DealConfig(
    tradeAlgorithm: TradeAlgorithm,
    entryCondition: DealEntryConfig,
    exitCondition: DealExitConfig)

  /** `periods`, when set, is strictly positive. */
  predicate ValidFilterConfig(config: FilterConfig) {
    config.periods.None? || config.periods.value > 0
  }

  /** `pnl`, when set, lies in [-100, 100]. */
  predicate ValidExitSignal(signal: ExitSignal) {
    signal.pnl.None? || -100.0 <= signal.pnl.value <= 100.0
  }

  /** The cross-field invariant of an exit configuration: mode SIGNAL needs a signal block. */
  predicate SignalPresent(config: DealExitConfig) {
    config.mode == Signal ==> config.signal.Some?
  }

  const PeriodsError: string := "periods: Input should be greater than 0"
  const PnlLowError: string := "pnl: Input should be greater than or equal to -100"
  const PnlHighError: string := "pnl: Input should be less than or equal to 100"

  /** Python's `str()` of an exit mode, as the validator's message prints it. */
  function ModeName(mode: ExitMode): string {
    match mode
    case Signal => "ExitMode.SIGNAL"
  }

  /** Construction of a FilterConfig; every field but the first two may be omitted (None). */
  function NewFilterConfig(
    filterType: FilterType,
    timeFrame: TimeFrame,
    periods: Option<int>,
    movingAverage: Option<MovingAverageType>,
    condition: Option<FilterCondition>): (r: Result<FilterConfig, string>)
    ensures r.Success? <==> (periods.None? || periods.value > 0)
    ensures r.Success? ==>
      && r.value == FilterConfig(filterType, timeFrame, periods, movingAverage, condition)
      && ValidFilterConfig(r.value)
    ensures r.Failure? ==> r.error == PeriodsError
  {
    if periods.Some? && periods.value <= 0 then Failure(PeriodsError)
    else Success(FilterConfig(filterType, timeFrame, periods, movingAverage, condition))
  }

  /** Construction of an ExitSignal: omitted filters default to the empty list, omitted pnl to None. */
  function NewExitSignal(filters: Option<seq<FilterConfig>>, pnl: Option<real>): (r: Result<ExitSignal, string>)
    ensures r.Success? <==> (pnl.None? || -100.0 <= pnl.value <= 100.0)
    ensures r.Success? ==> ValidExitSignal(r.value) && r.value.pnl == pnl
    ensures r.Success? && filters.None? ==> r.value.filters == []
    ensures r.Success? && filters.Some? ==> r.value.filters == filters.value
    ensures r.Failure? ==> r.error == (if pnl.value < -100.0 then PnlLowError else PnlHighError)
  {
    if pnl.Some? && pnl.value < -100.0 then Failure(PnlLowError)
    else if pnl.Some? && pnl.value > 100.0 then Failure(PnlHighError)
    else Success(ExitSignal(if filters.Some? then filters.value else [], pnl))
  }

  /**
   * The after-validator of DealExitConfig: mode SIGNAL with no signal block
   * is rejected; any other configuration is returned unchanged.
   */
  function SignalValidator(config: DealExitConfig): (r: Result<DealExitConfig, string>)
    ensures r.Failure? <==> config.mode == Signal && config.signal.None?
    ensures r.Success? ==> r.value == config && SignalPresent(r.value)
    ensures r.Failure? ==> r.error == "The field <signal> must be set for the mode " + ModeName(config.mode)
  {
    if config.mode == Signal && config.signal.None? then
      Failure("The field <signal> must be set for the mode " + ModeName(config.mode))
    else
      Success(config)
  }

  /** Construction of a DealConfig: an omitted trade algorithm defaults to LONG. */
  function NewDealConfig(
    tradeAlgorithm: Option<TradeAlgorithm>,
    entryCondition: DealEntryConfig,
    exitCondition: DealExitConfig): (r: DealConfig)
    ensures tradeAlgorithm.None? ==> r.tradeAlgorithm == Long
    ensures tradeAlgorithm.Some? ==> r.tradeAlgorithm == tradeAlgorithm.value
    ensures r.entryCondition == entryCondition && r.exitCondition == exitCondition
  {
    DealConfig(
      if tradeAlgorithm.Some? then tradeAlgorithm.value else Long,
      entryCondition,
      exitCondition)
  }
}

/** The Bollinger Bands filter: a value holding its configuration and its resolved number of periods. */
module BollingerBends {
  import opened Wrappers
  import opened Entities

  /** The number of periods used when the configuration sets none. */
  const DefPeriods: int := 20

  datatype BollingerBendsFilter = BollingerBendsFilter(
    config: FilterConfig,
    tradeAlgorithm: TradeAlgorithm,
    periods: int)
  {
    /** The filter's type tag. */
    function FilterType(): FilterType {
      BollingerBends
    }
  }

  /**
   * The filter built from a configuration. The periods are `config.periods or 20`
   * in Python's sense: unset, or the falsy 0, gives the default.
   */
  function NewBollingerBendsFilter(config: FilterConfig, tradeAlgorithm: TradeAlgorithm): (f: BollingerBendsFilter)
    ensures f.config == config && f.tradeAlgorithm == tradeAlgorithm
    ensures f.FilterType() == BollingerBends
    ensures config.periods.None? ==> f.periods == DefPeriods
    ensures config.periods.Some? && config.periods.value != 0 ==> f.periods == config.periods.value
    ensures ValidFilterConfig(config) ==> f.periods > 0
  {
    var periods := if config.periods.Some? && config.periods.value != 0 then config.periods.value else DefPeriods;
    BollingerBendsFilter(config, tradeAlgorithm, periods)
  }
}

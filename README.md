# Deal filter derivation

A model of the core of a trading bot's deal tracking. A deal holds a
configuration and a state. When it is constructed, the phase of the state
decides which filter configurations it builds filters from:

- while looking for an entry point, the entry-condition filters;
- in any other phase, the exit-signal filters, and only when the exit mode is
  SIGNAL.

The filters are kept in a table from timeframe to an ordered list. A lookup
of a timeframe with no filters gives the empty list.

Besides the deal, the model covers the configuration records with their
defaults and field constraints, the cross-field validator of the exit
configuration, and the resolution of the Bollinger Bands filter's number of
periods.

Files:

- `wrappers.dfy`: `Option` and `Result`.
- `entities.dfy` (module `Entities`): the enumerations and records as datatypes.
  - Validity predicates: `ValidFilterConfig`, `ValidExitSignal`, `SignalPresent`.
  - Construction functions that return a `Result`. They fail exactly when a
    field constraint is violated. Otherwise they return the record with
    omitted fields set to their defaults.
  - `SignalValidator`, the after-validator of the exit configuration.
- `deal.dfy` (module `Deal`):
  - `FiltersOf(configs, tf)`, the reference definition of one bucket, and
    lemmas about it.
  - The class `Deal`. Its `filters` field is a `map` that `CreateFilters`
    fills in a loop.
  - A model of the loop as written, for the finding below.
- `bollinger_bends_filter.dfy` (module `BollingerBends`): the Bollinger Bands
  filter as a value.

Two facts about the code shape the model:

- The deal builds a `DealFilter` from each configuration directly
  (deal/deal.py:32). Nothing dispatches on the filter type, and there is no
  unsupported-type error.
- The deal does not re-check the exit configuration and dereferences `signal`
  unchecked (deal/deal.py:40). The constructor therefore requires
  `SignalPresent`, which the validator guarantees of every exit configuration
  that can be built.

## Model

| member | source | states |
|---|---|---|
| `Entities.NewFilterConfig` | entities.py:82-87 | construction succeeds iff `periods` is unset or > 0; on success the record carries exactly the given fields and satisfies `ValidFilterConfig`; otherwise the error is the `periods` constraint message |
| `Entities.NewExitSignal` | entities.py:94-96 | construction succeeds iff `pnl` is unset or in [-100, 100]; omitted filters become the empty list, given ones are kept; the error names the violated bound |
| `Entities.SignalValidator` | entities.py:103-108 | rejects exactly mode SIGNAL with `signal` unset, with the source's message; anything else is returned unchanged and satisfies `SignalPresent` (mode SIGNAL implies a signal block) |
| `Entities.NewDealConfig` | entities.py:111-114 | an omitted trade algorithm defaults to LONG, a given one is kept; entry and exit conditions are kept |
| `Deal.DefaultDealState` | deal/deal.py:19 | the state used when none is given is in phase LookForEntryPoint |
| `Deal.AllTimeFrames` | entities.py:30-42 | lists each of the twelve timeframes, at its enumeration position, with no repetition |
| `Deal.FiltersOfConcat` | deal/deal.py:30-33 | building filters from `a + b` gives, per timeframe, the filters of `a` followed by those of `b`: insertion order is kept |
| `Deal.FiltersOfMembers` | deal/deal.py:31-33 | a filter is in the bucket of `tf` iff its configuration is in the list and has timeframe `tf` |
| `Deal.BucketsDisjoint` | deal/deal.py:31-33 | no filter is in the buckets of two different timeframes |
| `Deal.PartitionSizes` | deal/deal.py:30-33 | the bucket sizes summed over all timeframes equal the length of the configuration list |
| `Deal.AddFilterLookup` | deal/deal.py:33 | appending a filter to its timeframe's bucket extends that bucket by it and leaves every other bucket as it was |
| `Deal.TimeFrameAttribute` | deal/deal.py:33 | a read of a FilterConfig attribute that must give a TimeFrame succeeds iff the name is `time_frame`, and then gives its timeframe; a name FilterConfig does not declare, such as `timeframe`, raises |
| `Deal.CreateFiltersByField` | deal/deal.py:30-33 | the loop `CreateFiltersAsWritten`, keyed through the `time_frame` field, succeeds and appends to every bucket that timeframe's configurations in order |
| `Deal.CreateFiltersByMissingAttribute` | deal/deal.py:30-33 | keyed through a name FilterConfig does not declare, such as `timeframe`, the same loop raises iff the list is non-empty |
| `Deal.AsWrittenRaisesOnFirstFilter` | deal/deal.py:33 | for a non-empty list, the loop keyed by `timeframe` raises, while keyed by `time_frame` it succeeds and the first configuration's bucket is non-empty |
| `Deal.Deal.constructor` | deal/deal.py:10-22 | keeps the configuration and its trade algorithm; uses the given state, or the default when none is given; establishes `Valid()`; in LookForEntryPoint every bucket is built from the entry filters only; otherwise from the exit-signal filters when the mode is SIGNAL, and every bucket is empty for any other mode |
| `Deal.Deal.InitState` | deal/deal.py:24-28 | appends to every bucket the filters of the configuration list the phase selects |
| `Deal.Deal.CreateFilters` | deal/deal.py:30-33 | for every timeframe, the bucket becomes its old contents followed by the list's configurations of that timeframe, in order |
| `Deal.Deal.InitLookEntryState` | deal/deal.py:35-36 | appends the entry-condition filters to the buckets |
| `Deal.Deal.InitInDealState` | deal/deal.py:38-40 | mode SIGNAL: appends the exit-signal filters to the buckets; any other mode: the table is unchanged |
| `Deal.Deal.State` | deal/deal.py:42-44 | returns the stored state: the one whose phase the current buckets were derived from |
| `Deal.Deal.GetFilters` | deal/deal.py:46-47 | never fails; returns the bucket of the timeframe, which is the selected configurations of that timeframe in order (empty when there are none); enters a missing timeframe with an empty list and changes no bucket; keeps `Valid()` |
| `Deal.GetFiltersTwice` | deal/deal.py:46-47 | two lookups of the same timeframe return equal lists |
| `BollingerBends.NewBollingerBendsFilter` | filters/bollinger_bends_filter.py:5-15 | keeps the configuration and trade algorithm and has type tag BOLLINGER_BENDS; `periods` is 20 when the configuration leaves it unset, the configured value when it is set and non-zero, and strictly positive for every valid configuration |

## Findings

| source | as written | input that shows it | evidently intended | confidence | as-written member | corrected member |
|---|---|---|---|---|---|---|
| deal/deal.py:33 | the bucket key is read as `filter_config.timeframe`, but the FilterConfig field is `time_frame` (entities.py:84), so the attribute access raises AttributeError | any deal whose selected list is non-empty, e.g. phase LOOK_FOR_ENTRY_POINT with one entry filter | the key is `filter_config.time_frame` | high; not executed | `Deal.CreateFiltersAsWritten` (with `Deal.AsWrittenRaisesOnFirstFilter`, `Deal.CreateFiltersByMissingAttribute`) | `Deal.Deal.CreateFilters` |

The rest of the model keys the buckets by the `time_frame` field.

## Left out

- The indicators pool: it is only stored and passed to `DealFilter`. `DealFilter` and `BaseFilter` are not part of this model. A `DealFilter` is modelled as an opaque value that keeps the configuration it was built from.
- `DealState` and `DealPhase`: deal/entities.py is not part of this model. The phase has only the two cases that the branch at deal/deal.py:25 tells apart. The state holds only its phase. `current_state or DealState()` is modelled as an `Option`, assuming a given state is truthy.
- Exit modes other than SIGNAL: the exit-mode enumeration has SIGNAL as its only member, so the branch that builds no filters (deal/deal.py:39) cannot be reached. The constructor clause about such modes holds vacuously.
- Deal.DefaultDealState: the default phase of `DealState()` is assumed to be LOOK_FOR_ENTRY_POINT, because deal/entities.py is not part of this model. Every constructor promise for a deal built without a state rests on this assumption.
- Deal.Deal.State: the state is modelled as a value fixed at construction. In Python the deal stores the caller's `DealState` object by reference (deal/deal.py:19) and returns that same object (deal/deal.py:44). A caller that later changes that object's phase changes what `state` returns, while the buckets stay as they were. The model does not capture that sharing, so its promise that the returned state's phase is the one the buckets were derived from holds only while nobody changes the object.
- Entities.NewExitSignal: `pnl` is a Python float (entities.py:96), modelled as a `real`. NaN and the infinities are not represented, so the range check is proved over the reals only.
- Deal.Deal.GetFilters: Python returns the stored list itself, so a caller that mutates it mutates the deal. The model returns the list's value, so that aliasing is not captured.
- Exchange connectivity (`Exchange`, `ExchangeMarket`, `ExchangeId`, `MarketType`, `TradingMode`, API keys): configuration with no logic.
- `Trade`, `TradeSide`, `OhlcvData`, `DealMode`, `StorageConfig`: the core does not use them.
- Evaluating a `FilterCondition` against indicator values: no such logic is in the core. The threshold is kept as a `real` and never computed with.
- Pydantic's parsing and coercion: only the resulting field constraints, defaults and the validator are modelled. Pydantic wraps the validator's `ValueError` in its own error type; the model returns the message as a failure.
- The RSI filter and a filter factory: neither is in the core. There is no RSI default period.
- Phase transitions and persistence of deal state: the core does neither.

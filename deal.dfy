/**
 * A deal derives, once at construction and from the phase of its state, the
 * filters to evaluate, grouped by timeframe: the entry-condition filters
 * while looking for an entry point, the exit-signal filters otherwise (only
 * when the exit mode is SIGNAL).
 */
module Deal {
  import opened Wrappers
  import opened Entities

  /**
   * The deal phase. The enumeration lives in deal/entities.py, which is not
   * part of this model; only the two phases the branching tells apart are kept.
   */
  datatype DealPhase = LookForEntryPoint | InDeal

  /** The deal state; only its phase is visible here. */
  datatype DealState = DealState(phase: DealPhase)

  /** The state a deal starts with when none is given. */
  function DefaultDealState(): (s: DealState)
    ensures s.phase == LookForEntryPoint
  {
    DealState(LookForEntryPoint)
  }

  /** A filter of the deal; its internals are not modelled, it keeps the configuration it was built from. */
  datatype DealFilter = DealFilter(config: FilterConfig)

  /** The position of a timeframe in the enumeration, from 0. */
  function TimeFrameIndex(tf: TimeFrame): nat {
    match tf
    case Tf1m => 0 case Tf3m => 1 case Tf5m => 2 case Tf15m => 3 case Tf30m => 4 case Tf1h => 5
    case Tf2h => 6 case Tf4h => 7 case Tf6h => 8 case Tf12h => 9 case Tf1d => 10 case Tf1w => 11
  }

  /** Every timeframe, once each. */
  function AllTimeFrames(): (r: seq<TimeFrame>)
    ensures forall tf: TimeFrame :: TimeFrameIndex(tf) < |r| && r[TimeFrameIndex(tf)] == tf
    ensures forall i, j :: 0 <= i < j < |r| ==> r[i] != r[j]
  {
    [Tf1m, Tf3m, Tf5m, Tf15m, Tf30m, Tf1h, Tf2h, Tf4h, Tf6h, Tf12h, Tf1d, Tf1w]
  }

  /** The filters built from those configurations in `configs` whose timeframe is `tf`, in their order. */
  function FiltersOf(configs: seq<FilterConfig>, tf: TimeFrame): seq<DealFilter>
  {
    if configs == [] then []
    else (if configs[0].timeFrame == tf then [DealFilter(configs[0])] else []) + FiltersOf(configs[1..], tf)
  }

  /** The configuration list the phase selects. */
  function SelectedFilterConfigs(config: DealConfig, phase: DealPhase): seq<FilterConfig>
    requires SignalPresent(config.exitCondition)
  {
    if phase == LookForEntryPoint then config.entryCondition.filters
    else if config.exitCondition.mode == Signal then config.exitCondition.signal.value.filters
    else []
  }

  /** Building from a concatenation builds from each part, in order. */
  lemma {:induction false} FiltersOfConcat(a: seq<FilterConfig>, b: seq<FilterConfig>, tf: TimeFrame)
    ensures FiltersOf(a + b, tf) == FiltersOf(a, tf) + FiltersOf(b, tf)
  {
    if a == [] {
      assert a + b == b;
    } else {
      assert (a + b)[1..] == a[1..] + b;
      FiltersOfConcat(a[1..], b, tf);
    }
  }

  /** A bucket holds exactly the filters of the configurations with its timeframe. */
  lemma {:induction false} FiltersOfMembers(configs: seq<FilterConfig>, tf: TimeFrame, f: DealFilter)
    ensures f in FiltersOf(configs, tf) <==> f.config in configs && f.config.timeFrame == tf
  {
    if configs != [] {
      FiltersOfMembers(configs[1..], tf, f);
      assert configs == [configs[0]] + configs[1..];
    }
  }

  /** No filter lies in the buckets of two different timeframes. */
  lemma {:induction false} BucketsDisjoint(configs: seq<FilterConfig>, tf1: TimeFrame, tf2: TimeFrame)
    requires tf1 != tf2
    ensures forall f :: f in FiltersOf(configs, tf1) ==> f !in FiltersOf(configs, tf2)
  {
    forall f | f in FiltersOf(configs, tf1)
      ensures f !in FiltersOf(configs, tf2)
    {
      FiltersOfMembers(configs, tf1, f);
      FiltersOfMembers(configs, tf2, f);
    }
  }

  /** The summed sizes of the buckets of the timeframes in `tfs`. */
  function BucketSizes(configs: seq<FilterConfig>, tfs: seq<TimeFrame>): nat
  {
    if tfs == [] then 0 else |FiltersOf(configs, tfs[0])| + BucketSizes(configs, tfs[1..])
  }

  /** Prepending one configuration adds one to the summed sizes if its timeframe is listed once in `tfs`. */
  lemma {:induction false} BucketSizesCons(c: FilterConfig, rest: seq<FilterConfig>, tfs: seq<TimeFrame>)
    requires forall i, j :: 0 <= i < j < |tfs| ==> tfs[i] != tfs[j]
    ensures BucketSizes([c] + rest, tfs) == BucketSizes(rest, tfs) + (if c.timeFrame in tfs then 1 else 0)
  {
    if tfs != [] {
      assert ([c] + rest)[1..] == rest;
      BucketSizesCons(c, rest, tfs[1..]);
      assert c.timeFrame in tfs[1..] ==> c.timeFrame != tfs[0];
      assert c.timeFrame in tfs <==> c.timeFrame == tfs[0] || c.timeFrame in tfs[1..];
    }
  }

  /** The buckets partition the configuration list: their sizes over all timeframes sum to its length. */
  lemma {:induction false} PartitionSizes(configs: seq<FilterConfig>)
    ensures BucketSizes(configs, AllTimeFrames()) == |configs|
  {
    if configs == [] {
      ZeroSizes(AllTimeFrames());
    } else {
      PartitionSizes(configs[1..]);
      assert configs == [configs[0]] + configs[1..];
      BucketSizesCons(configs[0], configs[1..], AllTimeFrames());
      assert AllTimeFrames()[TimeFrameIndex(configs[0].timeFrame)] == configs[0].timeFrame;
    }
  }

  /** With no configurations every bucket is empty. */
  lemma {:induction false} ZeroSizes(tfs: seq<TimeFrame>)
    ensures BucketSizes([], tfs) == 0
  {
    if tfs != [] {
      ZeroSizes(tfs[1..]);
    }
  }

  /**
   * Python attribute access `config.<name>` where the result must be a
   * timeframe: `time_frame` gives it, and a name FilterConfig does not
   * declare, such as `timeframe`, raises AttributeError. Only reads that must
   * give a TimeFrame are modelled; the other declared fields (`type`,
   * `periods`, `moving_average`, `condition`) are outside its purpose.
   */
  function TimeFrameAttribute(config: FilterConfig, name: string): (r: Result<TimeFrame, string>)
    ensures r.Success? <==> name == "time_frame"
    ensures r.Success? ==> r.value == config.timeFrame
  {
    if name == "time_frame" then Success(config.timeFrame)
    else Failure("AttributeError: 'FilterConfig' object has no attribute '" + name + "'")
  }

  /** `defaultdict(list)` read of a pure map: a missing key reads as the empty list. */
  function Lookup(m: map<TimeFrame, seq<DealFilter>>, tf: TimeFrame): seq<DealFilter> {
    if tf in m then m[tf] else []
  }

  /** Appending one filter to the bucket of its timeframe extends that bucket only. */
  lemma AddFilterLookup(m: map<TimeFrame, seq<DealFilter>>, c: FilterConfig)
    ensures forall t :: Lookup(m[c.timeFrame := Lookup(m, c.timeFrame) + [DealFilter(c)]], t)
                        == Lookup(m, t) + FiltersOf([c], t)
  {
    assert [c][1..] == [];
  }

  /**
   * The filter-creation loop with the bucket key read through attribute
   * `key`; the source reads `timeframe`.
   */
  function CreateFiltersAsWritten(key: string, configs: seq<FilterConfig>, acc: map<TimeFrame, seq<DealFilter>>)
    : Result<map<TimeFrame, seq<DealFilter>>, string>
  {
    if configs == [] then Success(acc)
    else
      match TimeFrameAttribute(configs[0], key)
      case Failure(e) => Failure(e)
      case Success(tf) => CreateFiltersAsWritten(key, configs[1..], acc[tf := Lookup(acc, tf) + [DealFilter(configs[0])]])
  }

  /** Keyed by the `time_frame` field, the loop succeeds and appends to each bucket its configurations, in order. */
  lemma {:induction false} CreateFiltersByField(configs: seq<FilterConfig>, acc: map<TimeFrame, seq<DealFilter>>)
    ensures CreateFiltersAsWritten("time_frame", configs, acc).Success?
    ensures forall tf :: Lookup(CreateFiltersAsWritten("time_frame", configs, acc).value, tf)
                         == Lookup(acc, tf) + FiltersOf(configs, tf)
  {
    if configs != [] {
      var c := configs[0];
      var next := acc[c.timeFrame := Lookup(acc, c.timeFrame) + [DealFilter(c)]];
      CreateFiltersByField(configs[1..], next);
      AddFilterLookup(acc, c);
      forall tf ensures FiltersOf(configs, tf) == FiltersOf([c], tf) + FiltersOf(configs[1..], tf) {
        FiltersOfConcat([c], configs[1..], tf);
        assert [c] + configs[1..] == configs;
      }
    }
  }

  /**
   * Keyed by a name FilterConfig does not declare, such as the `timeframe`
   * the source reads, the loop raises iff the list is non-empty.
   */
  lemma {:induction false} CreateFiltersByMissingAttribute(key: string, configs: seq<FilterConfig>, acc: map<TimeFrame, seq<DealFilter>>)
    requires key !in {"type", "time_frame", "periods", "moving_average", "condition"}
    ensures CreateFiltersAsWritten(key, configs, acc).Failure? <==> configs != []
  {
  }

  /** As written, the loop raises on any non-empty list, where the intended loop fills the bucket of its first configuration. */
  lemma AsWrittenRaisesOnFirstFilter(configs: seq<FilterConfig>)
    requires configs != []
    ensures CreateFiltersAsWritten("timeframe", configs, map[]).Failure?
    ensures CreateFiltersAsWritten("time_frame", configs, map[]).Success?
    ensures FiltersOf(configs, configs[0].timeFrame) != []
  {
    assert "timeframe" != "time_frame" by {
      assert |"timeframe"| != |"time_frame"|;
    }
    CreateFiltersByField(configs, map[]);
  }

  /** The deal: its configuration, trade direction and state, and the filters keyed by timeframe. */
  class Deal {
    const config: DealConfig
    const algorithm: TradeAlgorithm
    const state: DealState
    var filters: map<TimeFrame, seq<DealFilter>>

    /** The bucket of `tf`; a timeframe with no entry has none. */
    function Bucket(tf: TimeFrame): seq<DealFilter>
      reads this
    {
      Lookup(filters, tf)
    }

    /** Every bucket holds the selected configurations of its timeframe, in order. */
    ghost predicate Valid()
      reads this
    {
      && SignalPresent(config.exitCondition)
      && forall tf :: Bucket(tf) == FiltersOf(SelectedFilterConfigs(config, state.phase), tf)
    }

    /**
     * A deal from a configuration and an optional state (a fresh default
     * state when none is given); the filters are derived here, once.
     */
    constructor (config: DealConfig, currentState: Option<DealState>)
      requires SignalPresent(config.exitCondition)
      ensures this.config == config && algorithm == config.tradeAlgorithm
      ensures currentState.Some? ==> state == currentState.value
      ensures currentState.None? ==> state == DefaultDealState()
      ensures Valid()
      ensures state.phase == LookForEntryPoint ==>
        forall tf :: Bucket(tf) == FiltersOf(config.entryCondition.filters, tf)
      ensures state.phase != LookForEntryPoint && config.exitCondition.mode == Signal ==>
        forall tf :: Bucket(tf) == FiltersOf(config.exitCondition.signal.value.filters, tf)
      ensures state.phase != LookForEntryPoint && config.exitCondition.mode != Signal ==>
        forall tf :: Bucket(tf) == []
    {
      this.config := config;
      algorithm := config.tradeAlgorithm;
      state := if currentState.Some? then currentState.value else DefaultDealState();
      filters := map[];
      new;
      InitState();
    }

    /** Appends the filters of the configurations the phase selects. */
    method InitState()
      requires SignalPresent(config.exitCondition)
      modifies this`filters
      ensures forall tf :: Bucket(tf) == old(Bucket(tf)) + FiltersOf(SelectedFilterConfigs(config, state.phase), tf)
    {
      if state.phase == LookForEntryPoint {
        InitLookEntryState();
      } else {
        InitInDealState();
      }
    }

    /** Appends the filters of every configuration, each to the bucket of its timeframe, in order. */
    method CreateFilters(filtersConfig: seq<FilterConfig>)
      modifies this`filters
      ensures forall tf :: Bucket(tf) == old(Bucket(tf)) + FiltersOf(filtersConfig, tf)
    {
      for i := 0 to |filtersConfig|
        invariant forall tf :: Bucket(tf) == old(Bucket(tf)) + FiltersOf(filtersConfig[..i], tf)
      {
        var filterConfig := filtersConfig[i];
        var dealFilter := DealFilter(filterConfig);
        AddFilterLookup(filters, filterConfig);
        filters := filters[filterConfig.timeFrame := Bucket(filterConfig.timeFrame) + [dealFilter]];
        assert filtersConfig[..i + 1] == filtersConfig[..i] + [filterConfig];
        forall tf
          ensures FiltersOf(filtersConfig[..i + 1], tf) == FiltersOf(filtersConfig[..i], tf) + FiltersOf([filterConfig], tf)
        {
          FiltersOfConcat(filtersConfig[..i], [filterConfig], tf);
        }
      }
      assert filtersConfig[..|filtersConfig|] == filtersConfig;
    }

    /** Looking for an entry point: the entry-condition filters. */
    method InitLookEntryState()
      modifies this`filters
      ensures forall tf :: Bucket(tf) == old(Bucket(tf)) + FiltersOf(config.entryCondition.filters, tf)
    {
      CreateFilters(config.entryCondition.filters);
    }

    /** In a deal: the exit-signal filters when the exit mode is SIGNAL, otherwise none. */
    method InitInDealState()
      requires SignalPresent(config.exitCondition)
      modifies this`filters
      ensures config.exitCondition.mode == Signal ==>
        forall tf :: Bucket(tf) == old(Bucket(tf)) + FiltersOf(config.exitCondition.signal.value.filters, tf)
      ensures config.exitCondition.mode != Signal ==> filters == old(filters)
    {
      if config.exitCondition.mode == Signal {
        CreateFilters(config.exitCondition.signal.value.filters);
      }
    }

    /** The stored state: the one whose phase the filters were derived from. */
    function State(): (s: DealState)
      reads this
      requires Valid()
      ensures forall tf :: Bucket(tf) == FiltersOf(SelectedFilterConfigs(config, s.phase), tf)
    {
      state
    }

    /**
     * The filters of `timeframe`; never fails. Like a `defaultdict` read, a
     * missing timeframe is entered with an empty list and no bucket changes.
     */
    method GetFilters(timeframe: TimeFrame) returns (r: seq<DealFilter>)
      requires Valid()
      modifies this`filters
      ensures Valid()
      ensures r == old(Bucket(timeframe))
      ensures r == FiltersOf(SelectedFilterConfigs(config, state.phase), timeframe)
      ensures filters == old(filters)[timeframe := r]
      ensures forall tf :: Bucket(tf) == old(Bucket(tf))
    {
      if timeframe !in filters {
        filters := filters[timeframe := []];
      }
      r := filters[timeframe];
    }
  }

  /** Two reads of the same timeframe give equal filters. */
  method GetFiltersTwice(deal: Deal, timeframe: TimeFrame) returns (first: seq<DealFilter>, second: seq<DealFilter>)
    requires deal.Valid()
    modifies deal`filters
    ensures first == second
    ensures deal.Valid()
  {
    first := deal.GetFilters(timeframe);
    second := deal.GetFilters(timeframe);
  }
}

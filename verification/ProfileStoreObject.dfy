/** The mutable store: one object whose series are pruned, extended and summarized
    in place. */
module ProfileStoreObject {
  import opened WideArithmetic
  import opened Placement
  import opened Series
  import opened Snapshots
  import opened ProfileStore
  import Distributions
  import Execution

  lemma FromSnoc(s: seq<Sample>, n: nat, cutoff: int)
    requires n < |s|
    ensures From(s[..n + 1], cutoff) == From(s[..n], cutoff) + (if s[n].at >= cutoff then [s[n]] else [])
  {
    assert Front(s[..n + 1]) == s[..n] && Last(s[..n + 1]) == s[n];
  }

  lemma UpToSnoc(s: seq<Sample>, x: Sample, at: int)
    ensures UpTo(s + [x], at) == UpTo(s, at) + (if x.at <= at then [x] else [])
  {
    assert Front(s + [x]) == s && Last(s + [x]) == x;
  }

  /** One pass that drops expired samples and picks those not after `at`. */
  method CurrentObservations(observations: seq<Sample>, cutoff: int, at: int) returns (retained: seq<Sample>, current: seq<Sample>)
    ensures retained == From(observations, cutoff) && current == UpTo(From(observations, cutoff), at)
  {
    hide From, UpTo;
    retained, current := [], [];
    EmptySeries(cutoff, at);
    assert observations[..0] == [];
    for index := 0 to |observations|
      invariant retained == From(observations[..index], cutoff) && current == UpTo(retained, at)
    {
      var observation := observations[index];
      FromSnoc(observations, index, cutoff);
      assert retained + [] == retained;
      if observation.at >= cutoff {
        UpToSnoc(retained, observation, at);
        retained := retained + [observation];
        if observation.at <= at { current := current + [observation]; }
        assert current + [] == current;
      }
    }
    assert observations[..|observations|] == observations;
  }

  lemma EmptySeries(cutoff: int, at: int)
    ensures From([], cutoff) == [] && UpTo([], at) == []
  {
  }

  /** The series after the keys in `done` were pruned. */
  ghost predicate PartlyPruned(before: SeriesMap, now: SeriesMap, done: set<SeriesKey>, cutoff: int) {
    && (forall key :: key in now <==> key in before && (key in done ==> From(before[key], cutoff) != []))
    && (forall key :: key in now ==> now[key] == if key in done then From(before[key], cutoff) else before[key])
  }

  lemma PruneStep(before: SeriesMap, now: SeriesMap, done: set<SeriesKey>, key: SeriesKey, cutoff: int)
    requires PartlyPruned(before, now, done, cutoff) && key in before && key !in done
    ensures key in now && now[key] == before[key]
    ensures var retained := From(before[key], cutoff);
            PartlyPruned(before, if retained == [] then now - {key} else now[key := retained], done + {key}, cutoff)
  {
    hide From;
  }

  lemma FullyPruned(before: SeriesMap, now: SeriesMap, cutoff: int)
    requires PartlyPruned(before, now, before.Keys, cutoff)
    ensures now == Prune(before, cutoff)
  {
  }

  /** Some entry of the batch is no observation of a valid series. */
  method ValidateBatch(batch: seq<Observation>) returns (valid: bool)
    ensures valid <==> BatchValid(batch)
  {
    hide SampleValid;
    for index := 0 to |batch|
      invariant forall i :: 0 <= i < index ==> SampleValid(batch[i].key, batch[i].sample)
    {
      if !SampleValid(batch[index].key, batch[index].sample) { return false; }
    }
    return true;
  }

  class RollingStore {
    const maxAge: int
    const maxSamples: nat
    const maxSeries: nat
    var revision: uint64
    var latestAcceptedAt: Option<int>
    var series: SeriesMap

    ghost function Value(): Store
      reads this
    {
      Store(maxAge, maxSamples, maxSeries, revision, latestAcceptedAt, series)
    }

    /** Zero limits mean the defaults. */
    constructor (maxAge: int, maxSamples: nat, maxSeries: nat)
      requires maxAge >= 0
      ensures Value() == Store(if maxAge == 0 then DEFAULT_MAX_AGE else maxAge,
                               if maxSamples == 0 then DEFAULT_MAX_SAMPLES else maxSamples,
                               if maxSeries == 0 then DEFAULT_MAX_SERIES else maxSeries, 0, None, map[])
    {
      this.maxAge := if maxAge == 0 then DEFAULT_MAX_AGE else maxAge;
      this.maxSamples := if maxSamples == 0 then DEFAULT_MAX_SAMPLES else maxSamples;
      this.maxSeries := if maxSeries == 0 then DEFAULT_MAX_SERIES else maxSeries;
      revision, latestAcceptedAt, series := 0, None, map[];
    }

    /** Drops expired samples of every key, and keys without samples. */
    method PruneExpired(at: int)
      modifies this`series
      ensures series == Prune(old(series), at - maxAge)
    {
      hide From, Prune;
      var cutoff := at - maxAge;
      ghost var before := series;
      var todo := series.Keys;
      ghost var done: set<SeriesKey> := {};
      while todo != {}
        invariant todo + done == before.Keys && todo !! done
        invariant PartlyPruned(before, series, done, cutoff)
        decreases todo
      {
        var key :| key in todo;
        PruneStep(before, series, done, key, cutoff);
        var retained, _ := CurrentObservations(series[key], cutoff, at);
        if retained == [] { series := series - {key}; } else { series := series[key := retained]; }
        todo, done := todo - {key}, done + {key};
      }
      assert done == before.Keys;
      FullyPruned(before, series, cutoff);
    }

    /** The first of the batch that is too late or too old. */
    method CheckTimes(at: int, batch: seq<Observation>) returns (error: Option<StoreError>)
      ensures error == FirstTimeError(Value(), at, batch)
    {
      for index := 0 to |batch|
        invariant FirstTimeError(Value(), at, batch) == FirstTimeError(Value(), at, batch[index..])
      {
        error := TimeError(Store(maxAge, maxSamples, maxSeries, revision, latestAcceptedAt, series), at, batch[index]);
        if error.Some? { return; }
        assert batch[index..][1..] == batch[index + 1..];
      }
      error := None;
    }

    /** Accepts the whole batch or refuses it; expired samples go either way once the
        batch is well formed and timely. */
    method ObserveBatch(at: int, batch: seq<Observation>) returns (error: Option<StoreError>)
      modifies this
      ensures (Value(), error) == Observe(old(Value()), at, batch)
    {
      hide BatchValid, FirstTimeError, Prune, From, Sort, Newest, NewKeys;
      if batch == [] { return Some(EmptyBatch); }
      var valid := ValidateBatch(batch);
      if !valid { return Some(InvalidObservation); }
      error := CheckTimes(at, batch);
      if error.Some? { return; }
      var referenceAt := Reference(Store(maxAge, maxSamples, maxSeries, revision, latestAcceptedAt, series), at);
      PruneExpired(referenceAt);
      if |series| + |NewKeys(series, batch)| > maxSeries { return Some(SeriesLimit); }
      if revision == MAX_UINT64 { return Some(RevisionExhausted); }
      ghost var pruned := series;
      for index := 0 to |batch|
        invariant series == AcceptAll(pruned, batch[..index], maxSamples)
        invariant revision == old(revision) && latestAcceptedAt == old(latestAcceptedAt)
      {
        assert batch[..index + 1][..index] == batch[..index];
        var o := batch[index];
        series := series[o.key := Newest(Sort(SeriesOf(series, o.key) + [o.sample]), maxSamples)];
      }
      assert batch[..|batch|] == batch;
      revision := revision + 1;
      if latestAcceptedAt.None? || at > latestAcceptedAt.value { latestAcceptedAt := Some(at); }
      return None;
    }

    /** Key by key: drops what has expired and summarizes what is fresh. */
    method CollectCurrent(at: int, ghost store: Store) returns (links: seq<LinkProfile>, compute: seq<ComputeProfile>)
      requires store.series == series && store.maxAge == maxAge
      modifies this`series
      ensures series == Prune(store.series, at - maxAge)
      ensures Listing(store, links, compute, store.series.Keys, at)
    {
      hide From, UpTo, Prune, SummarizeLink, SummarizeCompute, PartlyPruned, Listing, FreshOf, SeriesOf;
      var cutoff := at - maxAge;
      links, compute := [], [];
      var todo := series.Keys;
      ghost var done: set<SeriesKey> := {};
      NothingListed(store, at);
      while todo != {}
        invariant todo + done == store.series.Keys && todo !! done
        invariant PartlyPruned(store.series, series, done, cutoff) && Listing(store, links, compute, done, at)
        decreases todo
      {
        var key :| key in todo;
        PruneStep(store.series, series, done, key, cutoff);
        FreshIsCurrent(store, key, at);
        var retained, current := CurrentObservations(series[key], cutoff, at);
        if retained == [] { series := series - {key}; } else { series := series[key := retained]; }
        ListingGrows(store, links, compute, done, at, key);
        if current != [] {
          match key {
            case Link(k) => links := links + [SummarizeLink(k, current)];
            case Compute(k) => compute := compute + [SummarizeCompute(k, current)];
          }
        }
        todo, done := todo - {key}, done + {key};
      }
      assert done == store.series.Keys;
      FullyPruned(store.series, series, cutoff);
    }

    /** Refused when the clock went back; otherwise lists everything fresh. */
    method Snapshot(at: int) returns (r: Result<ProfileSnapshot, StoreError>)
      modifies this
      ensures r.Ok? <==> MayTakeSnapshot(old(Value()), at)
      ensures Value() == AfterSnapshot(old(Value()), at)
      ensures r.Ok? ==> Shows(r.value, old(Value()), at)
    {
      hide Prune, Listing, Shows;
      if latestAcceptedAt.Some? && at < latestAcceptedAt.value { return Err(Rewind); }
      ghost var before := Value();
      var links, compute := CollectCurrent(at, before);
      var snapshot := ProfileSnapshot(revision, at, maxAge, maxSamples, maxSeries, links, compute);
      ListingShows(before, snapshot, at);
      return Ok(snapshot);
    }
  }

  lemma FreshIsCurrent(store: Store, key: SeriesKey, at: int)
    requires key in store.series
    ensures FreshOf(store, key, at) == UpTo(From(store.series[key], at - store.maxAge), at)
  {
  }

  /** Each finished key with fresh samples is listed once, and nothing else is. */
  ghost predicate Listing(store: Store, links: seq<LinkProfile>, compute: seq<ComputeProfile>, done: set<SeriesKey>, at: int) {
    && (forall i :: 0 <= i < |links| ==> ListedLink(links[i], store, at) && Link(links[i].key) in done)
    && (forall i :: 0 <= i < |compute| ==> ListedCompute(compute[i], store, at) && Compute(compute[i].key) in done)
    && (forall i, j :: 0 <= i < j < |links| ==> links[i].key != links[j].key)
    && (forall i, j :: 0 <= i < j < |compute| ==> compute[i].key != compute[j].key)
    && (forall key :: key in done && FreshOf(store, key, at) != [] ==> HasKey(links, compute, key))
    && |links| + |compute| <= |done|
  }

  ghost predicate HasKey(links: seq<LinkProfile>, compute: seq<ComputeProfile>, key: SeriesKey) {
    match key
    case Link(k) => exists i :: 0 <= i < |links| && links[i].key == k
    case Compute(k) => exists i :: 0 <= i < |compute| && compute[i].key == k
  }

  lemma HasKeyGrows(links: seq<LinkProfile>, compute: seq<ComputeProfile>, link: LinkProfile, item: ComputeProfile)
    ensures forall key :: HasKey(links, compute, key) ==> HasKey(links + [link], compute, key) && HasKey(links, compute + [item], key)
    ensures HasKey(links + [link], compute, Link(link.key)) && HasKey(links, compute + [item], Compute(item.key))
  {
    assert (links + [link])[|links|] == link && (compute + [item])[|compute|] == item;
    forall key | HasKey(links, compute, key)
      ensures HasKey(links + [link], compute, key) && HasKey(links, compute + [item], key)
    {
      match key {
        case Link(k) =>
          var i :| 0 <= i < |links| && links[i].key == k;
          assert (links + [link])[i].key == k;
        case Compute(k) =>
          var i :| 0 <= i < |compute| && compute[i].key == k;
          assert (compute + [item])[i].key == k;
      }
    }
  }

  lemma NothingListed(store: Store, at: int)
    ensures PartlyPruned(store.series, store.series, {}, at - store.maxAge) && Listing(store, [], [], {}, at)
  {
  }

  lemma ListingGrows(store: Store, links: seq<LinkProfile>, compute: seq<ComputeProfile>, done: set<SeriesKey>, at: int, key: SeriesKey)
    requires Listing(store, links, compute, done, at) && key !in done
    ensures var s := FreshOf(store, key, at);
            if s == [] then Listing(store, links, compute, done + {key}, at)
            else match key
              case Link(k) => Listing(store, links + [SummarizeLink(k, s)], compute, done + {key}, at)
              case Compute(k) => Listing(store, links, compute + [SummarizeCompute(k, s)], done + {key}, at)
  {
    hide FreshOf, HasKey, Distributions.Summarize, LatestAt;
    var s := FreshOf(store, key, at);
    if s != [] {
      match key {
        case Link(k) =>
          AppendLink(store, links, compute, done, at, k);
        case Compute(k) =>
          AppendCompute(store, links, compute, done, at, k);
      }
    }
  }

  lemma AppendLink(store: Store, links: seq<LinkProfile>, compute: seq<ComputeProfile>, done: set<SeriesKey>, at: int, k: LinkKey)
    requires Listing(store, links, compute, done, at) && Link(k) !in done && FreshOf(store, Link(k), at) != []
    ensures Listing(store, links + [SummarizeLink(k, FreshOf(store, Link(k), at))], compute, done + {Link(k)}, at)
  {
    hide FreshOf, HasKey, Distributions.Summarize, LatestAt;
    var link := SummarizeLink(k, FreshOf(store, Link(k), at));
    var blank := ComputeProfile(ComputeKey("", "", "", Execution.Model("", "", 0), "", 0, 0), 0, EMPTY_DISTRIBUTION, EMPTY_DISTRIBUTION);
    HasKeyGrows(links, compute, link, blank);
  }

  lemma AppendCompute(store: Store, links: seq<LinkProfile>, compute: seq<ComputeProfile>, done: set<SeriesKey>, at: int, k: ComputeKey)
    requires Listing(store, links, compute, done, at) && Compute(k) !in done && FreshOf(store, Compute(k), at) != []
    ensures Listing(store, links, compute + [SummarizeCompute(k, FreshOf(store, Compute(k), at))], done + {Compute(k)}, at)
  {
    hide FreshOf, HasKey, Distributions.Summarize, LatestAt;
    var item := SummarizeCompute(k, FreshOf(store, Compute(k), at));
    var blank := LinkProfile(LinkKey("", "", "", "", "", ""), 0, EMPTY_DISTRIBUTION, EMPTY_DISTRIBUTION);
    HasKeyGrows(links, compute, blank, item);
  }

  lemma ListingShows(store: Store, snapshot: ProfileSnapshot, at: int)
    requires Listing(store, snapshot.links, snapshot.compute, store.series.Keys, at)
    requires snapshot.revision == store.revision && snapshot.generatedAt == at && snapshot.maxAge == store.maxAge
    requires snapshot.maxSamplesPerSeries == store.maxSamples && snapshot.maxSeries == store.maxSeries
    ensures Shows(snapshot, store, at)
  {
    hide ListedLink, ListedCompute;
    assert |store.series| == |store.series.Keys|;
    forall key | FreshOf(store, key, at) != [] ensures Listed(snapshot, key) {
      assert key in store.series.Keys;
      assert HasKey(snapshot.links, snapshot.compute, key);
    }
  }
}

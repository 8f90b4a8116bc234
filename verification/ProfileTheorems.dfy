/** The store against the full log of what it accepted, in every run; its caps; and
    exactly when its snapshots are acceptable for planning. */
module ProfileTheorems {
  import opened WideArithmetic
  import opened Placement
  import opened Series
  import opened Snapshots
  import opened Distributions
  import opened ProfileStore

  // ---------------------------------------------------------------------------
  // What every store keeps

  ghost predicate SeriesOK(store: Store, key: SeriesKey, s: seq<Sample>) {
    && |s| <= store.maxSamples && Sorted(s)
    && (forall x :: x in s ==> SampleValid(key, x) && store.latest.Some? && x.at <= store.latest.value)
  }

  ghost predicate StoreOK(store: Store) {
    && store.maxAge > 0 && store.maxSamples > 0 && store.maxSeries > 0 && |store.series| <= store.maxSeries
    && (forall key :: key in store.series ==> store.series[key] != [] && SeriesOK(store, key, store.series[key]))
  }

  lemma SeriesOfOK(store: Store, key: SeriesKey)
    requires StoreOK(store)
    ensures SeriesOK(store, key, SeriesOf(store.series, key))
  {
  }

  lemma PruneSize(series: SeriesMap, cutoff: int)
    ensures Prune(series, cutoff).Keys <= series.Keys && |Prune(series, cutoff)| <= |series|
  {
    KeysSize(Prune(series, cutoff), series);
  }

  lemma {:induction false} KeysSize(a: SeriesMap, b: SeriesMap)
    requires a.Keys <= b.Keys
    ensures |a| <= |b|
  {
    SetSize(a.Keys, b.Keys);
    assert |a| == |a.Keys| && |b| == |b.Keys|;
  }

  lemma {:induction false} SetSize(a: set<SeriesKey>, b: set<SeriesKey>)
    requires a <= b
    ensures |a| <= |b|
  {
    if a != {} {
      var k :| k in a;
      SetSize(a - {k}, b - {k});
    }
  }

  lemma PruneKeepsOK(store: Store, cutoff: int)
    requires StoreOK(store)
    ensures StoreOK(store.(series := Prune(store.series, cutoff)))
  {
    hide SampleValid, Sorted;
    PruneSize(store.series, cutoff);
    var pruned := store.(series := Prune(store.series, cutoff));
    forall key | key in pruned.series ensures SeriesOK(pruned, key, pruned.series[key]) {
      FromSorted(store.series[key], cutoff);
      forall x | x in pruned.series[key] ensures x in store.series[key] { FromElements(store.series[key], cutoff, x); }
    }
  }

  /** A series after one accepted sample, still sorted, capped and valid. */
  lemma InsertedOK(store: Store, key: SeriesKey, s: seq<Sample>, x: Sample)
    requires SeriesOK(store, key, s) && SampleValid(key, x) && store.latest.Some? && x.at <= store.latest.value
    requires store.maxSamples > 0
    ensures Newest(Sort(s + [x]), store.maxSamples) == Newest(Insert(s, x), store.maxSamples)
    ensures SeriesOK(store, key, Newest(Insert(s, x), store.maxSamples)) && Newest(Insert(s, x), store.maxSamples) != []
  {
    hide SampleValid, Compare, Sorted, Insert, Sort, Newest;
    SortAppended(s, x);
    InsertKeepsSorted(s, x);
    NewestSorted(Insert(s, x), store.maxSamples);
    var all, kept := Insert(s, x), Newest(Insert(s, x), store.maxSamples);
    forall y | y in kept ensures SampleValid(key, y) && y.at <= store.latest.value {
      assert y in all;
      InsertElements(s, x, y);
    }
  }

  ghost predicate BatchUpTo(batch: seq<Observation>, at: int) {
    forall i :: 0 <= i < |batch| ==> batch[i].sample.at <= at
  }

  lemma AnySeriesOK(store: Store, series: SeriesMap, key: SeriesKey)
    requires forall k :: k in series ==> SeriesOK(store, k, series[k])
    ensures SeriesOK(store, key, SeriesOf(series, key))
  {
  }

  lemma NoNewKeys(series: SeriesMap)
    ensures NewKeys(series, []) == {}
  {
  }

  lemma NewKeysGrow(series: SeriesMap, front: seq<Observation>, last: Observation)
    ensures series.Keys + NewKeys(series, front + [last]) == series.Keys + NewKeys(series, front) + {last.key}
  {
    assert forall o :: o in front + [last] <==> o in front || o == last;
  }

  lemma {:induction false} AcceptKeepsSeries(store: Store, batch: seq<Observation>)
    requires store.latest.Some? && store.maxSamples > 0 && BatchValid(batch) && BatchUpTo(batch, store.latest.value)
    requires forall key :: key in store.series ==> store.series[key] != [] && SeriesOK(store, key, store.series[key])
    ensures var after := AcceptAll(store.series, batch, store.maxSamples);
            && after.Keys == store.series.Keys + NewKeys(store.series, batch)
            && forall key :: key in after ==> after[key] != [] && SeriesOK(store, key, after[key])
    decreases |batch|
  {
    hide SampleValid, Sort, Sorted, Newest, Insert, NewKeys;
    if batch == [] {
      NoNewKeys(store.series);
    } else {
      var front, last := batch[..|batch| - 1], batch[|batch| - 1];
      AcceptKeepsSeries(store, front);
      var before := AcceptAll(store.series, front, store.maxSamples);
      AnySeriesOK(store, before, last.key);
      InsertedOK(store, last.key, SeriesOf(before, last.key), last.sample);
      hide SeriesOK, SeriesOf;
      NewKeysGrow(store.series, front, last);
      assert front + [last] == batch;
    }
  }

  lemma {:induction false} TimelyBatch(store: Store, at: int, batch: seq<Observation>)
    requires FirstTimeError(store, at, batch).None?
    ensures BatchUpTo(batch, at)
    ensures forall i :: 0 <= i < |batch| ==> batch[i].sample.at >= Reference(store, at) - store.maxAge
  {
    if batch != [] {
      TimelyBatch(store, at, batch[1..]);
      assert forall i :: 0 < i < |batch| ==> batch[i] == batch[1..][i - 1];
    }
  }

  lemma LatestRaised(store: Store, latest: int)
    requires StoreOK(store) && (store.latest.Some? ==> store.latest.value <= latest)
    ensures StoreOK(store.(latest := Some(latest)))
  {
    hide SampleValid, Sorted;
  }

  /** The series of a store once a timely batch was accepted. */
  lemma AcceptedOK(pruned: Store, batch: seq<Observation>, latest: int, revision: uint64)
    requires StoreOK(pruned) && (pruned.latest.Some? ==> pruned.latest.value <= latest)
    requires BatchValid(batch) && BatchUpTo(batch, latest)
    requires |pruned.series| + |NewKeys(pruned.series, batch)| <= pruned.maxSeries
    ensures StoreOK(pruned.(series := AcceptAll(pruned.series, batch, pruned.maxSamples), revision := revision, latest := Some(latest)))
  {
    hide SeriesOK, SampleValid, AcceptAll, NewKeys;
    LatestRaised(pruned, latest);
    var raised := pruned.(latest := Some(latest));
    AcceptKeepsSeries(raised, batch);
    var after := AcceptAll(pruned.series, batch, pruned.maxSamples);
    var accepted := pruned.(series := after, revision := revision, latest := Some(latest));
    forall key | key in after ensures SeriesOK(accepted, key, after[key]) { RevisionIrrelevant(raised, accepted, key, after[key]); }
    assert |after| == |after.Keys| && |pruned.series| == |pruned.series.Keys|;
    UnionSize(pruned.series.Keys, NewKeys(pruned.series, batch));
  }

  lemma UnionSize(a: set<SeriesKey>, b: set<SeriesKey>)
    ensures |a + b| <= |a| + |b|
  {
    assert a + b == a + (b - a);
    SetSize(b - a, b);
  }

  /** Caps, order and validity hold after every observation, accepted or not. */
  lemma ObserveKeepsOK(store: Store, at: int, batch: seq<Observation>)
    requires StoreOK(store)
    ensures StoreOK(Observe(store, at, batch).0)
  {
    hide StoreOK, AcceptAll, Prune, NewKeys;
    if Timely(store, at, batch) {
      var cutoff := Reference(store, at) - store.maxAge;
      PruneKeepsOK(store, cutoff);
      if Observe(store, at, batch).1.None? {
        TimelyBatch(store, at, batch);
        var pruned := store.(series := Prune(store.series, cutoff));
        AcceptedOK(pruned, batch, Reference(store, at), store.revision + 1);
      }
    }
  }

  lemma RevisionIrrelevant(a: Store, b: Store, key: SeriesKey, s: seq<Sample>)
    requires a.latest == b.latest && a.maxSamples == b.maxSamples && SeriesOK(a, key, s)
    ensures SeriesOK(b, key, s)
  {
  }

  // ---------------------------------------------------------------------------
  // Refinement of the full log

  datatype Event = Observed(at: int, batch: seq<Observation>) | Snapped(at: int)

  /** The store, every sample it ever accepted in order, and the latest cutoff at
      which it dropped expired samples. */
  datatype History = History(store: Store, log: SeriesMap, pruned: int)

  function LogOne(log: SeriesMap, o: Observation): SeriesMap {
    log[o.key := Insert(SeriesOf(log, o.key), o.sample)]
  }

  function LogAll(log: SeriesMap, batch: seq<Observation>): SeriesMap {
    if batch == [] then log else LogOne(LogAll(log, batch[..|batch| - 1]), batch[|batch| - 1])
  }

  function Later(a: int, b: int): int { if a > b then a else b }

  ghost function Step(h: History, e: Event): History {
    match e
    case Observed(at, batch) =>
      var (store, error) := Observe(h.store, at, batch);
      History(store, if error.None? then LogAll(h.log, batch) else h.log,
              if Timely(h.store, at, batch) then Later(h.pruned, Reference(h.store, at) - h.store.maxAge) else h.pruned)
    case Snapped(at) =>
      History(AfterSnapshot(h.store, at), h.log,
              if MayTakeSnapshot(h.store, at) then Later(h.pruned, at - h.store.maxAge) else h.pruned)
  }

  ghost function Run(h: History, events: seq<Event>): History {
    if events == [] then h else Step(Run(h, events[..|events| - 1]), events[|events| - 1])
  }

  ghost predicate KeyRefines(h: History, key: SeriesKey) {
    && Sorted(SeriesOf(h.log, key))
    && Agrees(SeriesOf(h.store.series, key), SeriesOf(h.log, key), h.store.maxSamples, h.pruned)
  }

  ghost predicate Refines(h: History) {
    StoreOK(h.store) && forall key :: KeyRefines(h, key)
  }

  lemma PruneRefines(h: History, cutoff: int)
    requires Refines(h)
    ensures Refines(h.(store := h.store.(series := Prune(h.store.series, cutoff)), pruned := Later(h.pruned, cutoff)))
  {
    hide StoreOK, Agrees, Sorted;
    PruneKeepsOK(h.store, cutoff);
    var h' := h.(store := h.store.(series := Prune(h.store.series, cutoff)), pruned := Later(h.pruned, cutoff));
    forall key ensures KeyRefines(h', key) {
      assert KeyRefines(h, key);
      assert SeriesOf(h'.store.series, key) == From(SeriesOf(h.store.series, key), cutoff);
      PruneAgrees(SeriesOf(h.store.series, key), SeriesOf(h.log, key), h.store.maxSamples, h.pruned, cutoff, h'.pruned);
    }
  }

  lemma {:induction false} AcceptRefines(store: Store, log: SeriesMap, batch: seq<Observation>, pruned: int, key: SeriesKey)
    requires store.latest.Some? && store.maxSamples > 0 && BatchValid(batch) && BatchUpTo(batch, store.latest.value)
    requires forall k :: k in store.series ==> store.series[k] != [] && SeriesOK(store, k, store.series[k])
    requires Sorted(SeriesOf(log, key)) && Agrees(SeriesOf(store.series, key), SeriesOf(log, key), store.maxSamples, pruned)
    ensures var after := AcceptAll(store.series, batch, store.maxSamples);
            && Sorted(SeriesOf(LogAll(log, batch), key))
            && Agrees(SeriesOf(after, key), SeriesOf(LogAll(log, batch), key), store.maxSamples, pruned)
    decreases |batch|
  {
    hide SampleValid, Sort, Sorted, Agrees;
    if batch != [] {
      var front, last := batch[..|batch| - 1], batch[|batch| - 1];
      AcceptRefines(store, log, front, pruned, key);
      AcceptKeepsSeries(store, front);
      if last.key == key {
        var before := SeriesOf(AcceptAll(store.series, front, store.maxSamples), key);
        var logged := SeriesOf(LogAll(log, front), key);
        EmptySorted();
        InsertedOK(store, key, before, last.sample);
        OKSorted(store, key, before);
        InsertAgrees(before, logged, store.maxSamples, pruned, last.sample);
        InsertKeepsSorted(logged, last.sample);
      }
    }
  }

  lemma EmptySorted()
    ensures Sorted([])
  {
  }

  lemma OKSorted(store: Store, key: SeriesKey, s: seq<Sample>)
    requires SeriesOK(store, key, s)
    ensures Sorted(s)
  {
  }

  lemma SnapRefines(h: History, at: int)
    requires Refines(h)
    ensures Refines(Step(h, Snapped(at)))
  {
    hide Refines;
    if MayTakeSnapshot(h.store, at) { PruneRefines(h, at - h.store.maxAge); }
  }

  lemma StepRefines(h: History, e: Event)
    requires Refines(h)
    ensures Refines(Step(h, e))
  {
    hide Refines, Step;
    match e {
      case Observed(at, batch) => ObserveRefines(h, at, batch);
      case Snapped(at) => SnapRefines(h, at);
    }
  }

  /** What an accepted batch does to every key. */
  lemma AcceptedRefines(mid: History, batch: seq<Observation>, latest: int, after: History)
    requires Refines(mid) && (mid.store.latest.Some? ==> mid.store.latest.value <= latest)
    requires BatchValid(batch) && BatchUpTo(batch, latest) && StoreOK(after.store)
    requires after.store.series == AcceptAll(mid.store.series, batch, mid.store.maxSamples)
    requires after.store.maxSamples == mid.store.maxSamples && after.log == LogAll(mid.log, batch) && after.pruned == mid.pruned
    ensures Refines(after)
  {
    hide Agrees, Sorted, SampleValid, AcceptAll, LogAll, SeriesOK;
    LatestRaised(mid.store, latest);
    var raised := mid.store.(latest := Some(latest));
    forall key ensures KeyRefines(after, key) {
      assert KeyRefines(mid, key);
      AcceptRefines(raised, mid.log, batch, mid.pruned, key);
    }
  }

  function Pruned(store: Store, at: int): Store {
    store.(series := Prune(store.series, Reference(store, at) - store.maxAge))
  }

  /** A call is refused untouched, refused after pruning, or accepted after pruning. */
  lemma ObserveCases(store: Store, at: int, batch: seq<Observation>)
    ensures var (after, error) := Observe(store, at, batch);
            && (!Timely(store, at, batch) ==> after == store && error.Some?)
            && (Timely(store, at, batch) && error.Some? ==> after == Pruned(store, at))
            && (Timely(store, at, batch) && error.None? ==>
                  && BatchValid(batch) && BatchUpTo(batch, Reference(store, at))
                  && after.series == AcceptAll(Pruned(store, at).series, batch, store.maxSamples)
                  && after.maxSamples == store.maxSamples && after.maxAge == store.maxAge)
  {
    hide AcceptAll, Prune, NewKeys, BatchValid;
    if Timely(store, at, batch) { TimelyBatch(store, at, batch); }
  }

  /** The history after a call, by what became of it. */
  lemma StepObserved(h: History, at: int, batch: seq<Observation>)
    ensures var after := Step(h, Observed(at, batch));
            var mid := h.(store := Pruned(h.store, at), pruned := Later(h.pruned, Reference(h.store, at) - h.store.maxAge));
            if !Timely(h.store, at, batch) then after == h
            else if Observe(h.store, at, batch).1.Some? then after == mid
            else
              && BatchValid(batch) && BatchUpTo(batch, Reference(h.store, at))
              && after.store == Observe(h.store, at, batch).0
              && after.store.series == AcceptAll(mid.store.series, batch, mid.store.maxSamples)
              && after.store.maxSamples == mid.store.maxSamples && after.log == LogAll(mid.log, batch) && after.pruned == mid.pruned
  {
    ObserveCases(h.store, at, batch);
    hide Observe, Timely, AcceptAll, LogAll, Prune, BatchValid, BatchUpTo;
  }

  lemma PrunedRefines(h: History, at: int)
    requires Refines(h)
    ensures Refines(h.(store := Pruned(h.store, at), pruned := Later(h.pruned, Reference(h.store, at) - h.store.maxAge)))
  {
    hide Refines, Prune, Later, Reference;
    PruneRefines(h, Reference(h.store, at) - h.store.maxAge);
  }

  lemma PrunedLatest(store: Store, at: int)
    ensures var mid := Pruned(store, at); mid.latest.Some? ==> mid.latest.value <= Reference(store, at)
  {
    hide Prune;
  }

  lemma ObserveRefines(h: History, at: int, batch: seq<Observation>)
    requires Refines(h)
    ensures Refines(Step(h, Observed(at, batch)))
  {
    RefinesOK(h);
    ObserveKeepsOK(h.store, at, batch);
    StepObserved(h, at, batch);
    PrunedRefines(h, at);
    PrunedLatest(h.store, at);
    hide *;
    if Timely(h.store, at, batch) && Observe(h.store, at, batch).1.None? {
      var mid := h.(store := Pruned(h.store, at), pruned := Later(h.pruned, Reference(h.store, at) - h.store.maxAge));
      AcceptedRefines(mid, batch, Reference(h.store, at), Step(h, Observed(at, batch)));
    }
  }

  lemma RefinesOK(h: History)
    requires Refines(h)
    ensures StoreOK(h.store)
  {
  }

  lemma {:induction false} RunRefines(h: History, events: seq<Event>)
    requires Refines(h)
    ensures Refines(Run(h, events))
  {
    hide Refines, Step;
    if events != [] {
      RunRefines(h, events[..|events| - 1]);
      StepRefines(Run(h, events[..|events| - 1]), events[|events| - 1]);
    }
  }

  ghost predicate NewStore(store: Store) {
    store.maxAge > 0 && store.maxSamples > 0 && store.maxSeries > 0 && store.latest.None? && store.series == map[]
  }

  lemma NewStoreRefines(store: Store, pruned: int)
    requires NewStore(store)
    ensures Refines(History(store, map[], pruned))
  {
  }

  /** In every run, for every cutoff at or after all earlier prune cutoffs, the stored
      samples from that cutoff on are the newest of all accepted ones from there. */
  lemma StoreShowsNewestOfLog(store: Store, events: seq<Event>, key: SeriesKey, cutoff: int)
    requires NewStore(store) && cutoff >= Run(History(store, map[], cutoff), events).pruned
    ensures var h := Run(History(store, map[], cutoff), events);
            From(SeriesOf(h.store.series, key), cutoff) == Newest(From(SeriesOf(h.log, key), cutoff), h.store.maxSamples)
  {
    NewStoreRefines(store, cutoff);
    RunRefines(History(store, map[], cutoff), events);
    assert KeyRefines(Run(History(store, map[], cutoff), events), key);
  }

  lemma {:induction false} UpToAll(s: seq<Sample>, at: int)
    requires forall x :: x in s ==> x.at <= at
    ensures UpTo(s, at) == s
  {
    if s != [] {
      UpToAll(Front(s), at);
      assert s == Front(s) + [Last(s)];
    }
  }

  /** No call came later than this time. */
  ghost predicate NoneLater(events: seq<Event>, at: int) {
    forall i :: 0 <= i < |events| ==> events[i].at <= at
  }

  lemma {:induction false} RunTimes(store: Store, events: seq<Event>, at: int)
    requires NewStore(store) && NoneLater(events, at)
    ensures var h := Run(History(store, map[], at - store.maxAge), events);
            && h.store.maxAge == store.maxAge && h.store.maxSamples == store.maxSamples
            && h.pruned <= at - store.maxAge && MayTakeSnapshot(h.store, at)
  {
    if events != [] {
      var h := Run(History(store, map[], at - store.maxAge), events[..|events| - 1]);
      RunTimes(store, events[..|events| - 1], at);
      StepTimes(h, events[|events| - 1], at);
    }
  }

  lemma StepTimes(h: History, e: Event, at: int)
    requires e.at <= at && MayTakeSnapshot(h.store, at) && h.pruned <= at - h.store.maxAge
    ensures var after := Step(h, e);
            && after.store.maxAge == h.store.maxAge && after.store.maxSamples == h.store.maxSamples
            && after.pruned <= at - h.store.maxAge && MayTakeSnapshot(after.store, at)
  {
    hide AcceptAll, Prune, LogAll, BatchValid, FirstTimeError;
  }

  /** So a snapshot at a time no earlier than any call before it is allowed, and
      summarizes for every key exactly what the full log would give. */
  lemma SnapshotMatchesLog(store: Store, events: seq<Event>, key: SeriesKey, at: int)
    requires NewStore(store) && NoneLater(events, at)
    ensures var h := Run(History(store, map[], at - store.maxAge), events);
            && MayTakeSnapshot(h.store, at)
            && FreshOf(h.store, key, at) == Newest(From(SeriesOf(h.log, key), at - store.maxAge), store.maxSamples)
  {
    hide Run, StoreOK, NewStore, FreshOf, From, Newest, MayTakeSnapshot, NoneLater, Refines, SeriesOf;
    RunTimes(store, events, at);
    var start := History(store, map[], at - store.maxAge);
    StoreShowsNewestOfLog(store, events, key, at - store.maxAge);
    NewStoreRefines(store, at - store.maxAge);
    RunRefines(start, events);
    RefinesOK(Run(start, events));
    FreshIsStored(Run(start, events).store, key, at);
  }

  /** Nothing stored lies after a permitted snapshot time. */
  lemma FreshIsStored(store: Store, key: SeriesKey, at: int)
    requires StoreOK(store) && MayTakeSnapshot(store, at)
    ensures FreshOf(store, key, at) == From(SeriesOf(store.series, key), at - store.maxAge)
    ensures forall x :: x in FreshOf(store, key, at) ==> SampleValid(key, x) && at - store.maxAge <= x.at <= at
    ensures |FreshOf(store, key, at)| <= store.maxSamples
  {
    hide SampleValid, Sorted, From, UpTo;
    var s := From(SeriesOf(store.series, key), at - store.maxAge);
    SeriesOfOK(store, key);
    hide StoreOK;
    forall x | x in s ensures x.at <= at && x.at >= at - store.maxAge && SampleValid(key, x) {
      FromElements(SeriesOf(store.series, key), at - store.maxAge, x);
    }
    UpToAll(s, at);
  }

  // ---------------------------------------------------------------------------
  // Acceptance of snapshots

  /** The sample moved less than one byte per second. */
  ghost predicate TooSlow(x: Sample) {
    x.second > 0 && x.second * MICROS_PER_SECOND < x.third
  }

  ghost predicate AllFastEnough(s: seq<Sample>) {
    forall x :: x in s ==> !TooSlow(x)
  }

  ghost predicate AllPositive(values: seq<uint64>) {
    forall i :: 0 <= i < |values| ==> values[i] > 0
  }

  lemma PositiveSnoc(values: seq<uint64>, v: uint64)
    ensures AllPositive(values + [v]) <==> AllPositive(values) && v > 0
  {
    assert (values + [v])[|values|] == v;
    assert forall i :: 0 <= i < |values| ==> (values + [v])[i] == values[i];
  }

  lemma FastSnoc(s: seq<Sample>)
    requires s != []
    ensures AllFastEnough(s) <==> AllFastEnough(Front(s)) && !TooSlow(Last(s))
  {
    hide TooSlow;
    assert s == Front(s) + [Last(s)];
  }

  lemma {:induction false} RatesPositive(key: LinkKey, s: seq<Sample>)
    requires forall x :: x in s ==> SampleValid(Link(key), x)
    ensures AllPositive(Rates(s)) <==> AllFastEnough(s)
  {
    if s != [] {
      RatesPositive(key, Front(s));
      FastSnoc(s);
      assert SampleValid(Link(key), Last(s));
      hide AllPositive, AllFastEnough, BytesPerSecond;
      if Last(s).second > 0 {
        ZeroThroughput(Last(s).second, Last(s).third);
        PositiveSnoc(Rates(Front(s)), BytesPerSecond(Last(s).second, Last(s).third));
      }
    }
  }

  lemma {:induction false} LatestBetween(s: seq<Sample>, low: int, high: int)
    requires s != [] && forall x :: x in s ==> low <= x.at <= high
    ensures low <= LatestAt(s) <= high
  {
    if |s| > 1 { LatestBetween(Front(s), low, high); }
  }

  lemma LinkAccepted(store: Store, at: int, snapshot: ProfileSnapshot, link: LinkProfile)
    requires StoreOK(store) && MayTakeSnapshot(store, at) && ListedLink(link, store, at)
    requires snapshot.generatedAt == at && snapshot.maxAge == store.maxAge && snapshot.maxSamplesPerSeries == store.maxSamples
    ensures LinkValid(link, snapshot) <==> AllFastEnough(FreshOf(store, Link(link.key), at))
  {
    hide StoreOK, MayTakeSnapshot, BytesPerSecond, FreshOf;
    var s := FreshOf(store, Link(link.key), at);
    FreshIsStored(store, Link(link.key), at);
    LatestBetween(s, at - store.maxAge, at);
    assert SampleValid(Link(link.key), s[0]);
    forall i | 0 <= i < |s| ensures Firsts(s)[i] > 0 { assert s[i] in s; }
    SummaryValid(Firsts(s), false, store.maxSamples);
    SummaryValid(Rates(s), true, store.maxSamples);
    RatesPositive(link.key, s);
    hide Summarize, DistributionValid, LinkKeyValid, AllFastEnough;
  }

  lemma ComputeAccepted(store: Store, at: int, snapshot: ProfileSnapshot, item: ComputeProfile)
    requires StoreOK(store) && MayTakeSnapshot(store, at) && ListedCompute(item, store, at)
    requires snapshot.generatedAt == at && snapshot.maxAge == store.maxAge && snapshot.maxSamplesPerSeries == store.maxSamples
    ensures ComputeValid(item, snapshot)
  {
    hide StoreOK, MayTakeSnapshot, FreshOf;
    var s := FreshOf(store, Compute(item.key), at);
    FreshIsStored(store, Compute(item.key), at);
    LatestBetween(s, at - store.maxAge, at);
    assert SampleValid(Compute(item.key), s[0]);
    forall i | 0 <= i < |s| ensures Firsts(s)[i] > 0 && Seconds(s)[i] > 0 { assert s[i] in s; }
    SummaryValid(Firsts(s), false, store.maxSamples);
    SummaryValid(Seconds(s), false, store.maxSamples);
    hide Summarize, DistributionValid, ComputeKeyValid;
  }

  /** A snapshot of the store is acceptable for planning exactly when no fresh
      transfer moved less than one byte per second. */
  lemma SnapshotAcceptedIffFast(store: Store, at: int, snapshot: ProfileSnapshot)
    requires StoreOK(store) && MayTakeSnapshot(store, at) && Shows(snapshot, store, at)
    ensures SnapshotValid(snapshot) <==> forall key :: AllFastEnough(FreshOf(store, Link(key), at))
  {
    hide MayTakeSnapshot, LinkValid, ComputeValid, AllFastEnough, ListedLink, ListedCompute, SeriesOK, FreshOf;
    forall i | 0 <= i < |snapshot.links|
      ensures LinkValid(snapshot.links[i], snapshot) <==> AllFastEnough(FreshOf(store, Link(snapshot.links[i].key), at))
    {
      LinkAccepted(store, at, snapshot, snapshot.links[i]);
    }
    forall i | 0 <= i < |snapshot.compute| ensures ComputeValid(snapshot.compute[i], snapshot) {
      ComputeAccepted(store, at, snapshot, snapshot.compute[i]);
    }
    if forall i :: 0 <= i < |snapshot.links| ==> LinkValid(snapshot.links[i], snapshot) {
      forall key ensures AllFastEnough(FreshOf(store, Link(key), at)) {
        if FreshOf(store, Link(key), at) == [] {
          NothingIsFast();
        } else {
          assert Listed(snapshot, Link(key));
          var i :| 0 <= i < |snapshot.links| && snapshot.links[i].key == key;
          assert LinkValid(snapshot.links[i], snapshot);
        }
      }
    }
  }

  lemma NothingIsFast()
    ensures AllFastEnough([])
  {
  }

  /** In every run, a snapshot at a time no earlier than any call before it is acceptable
      for planning exactly when none of the newest accepted transfers in the window
      moved less than one byte per second. */
  lemma RunSnapshotAcceptedIffFast(store: Store, events: seq<Event>, at: int, snapshot: ProfileSnapshot)
    requires NewStore(store) && NoneLater(events, at)
    requires Shows(snapshot, Run(History(store, map[], at - store.maxAge), events).store, at)
    ensures var log := Run(History(store, map[], at - store.maxAge), events).log;
            SnapshotValid(snapshot) <==>
            forall key :: AllFastEnough(Newest(From(SeriesOf(log, Link(key)), at - store.maxAge), store.maxSamples))
  {
    hide Run, StoreOK, NewStore, FreshOf, From, Newest, MayTakeSnapshot, NoneLater, SnapshotValid, Shows, AllFastEnough;
    var start := History(store, map[], at - store.maxAge);
    var h := Run(start, events);
    NewStoreRefines(store, at - store.maxAge);
    RunRefines(start, events);
    RefinesOK(h);
    forall key: LinkKey
      ensures MayTakeSnapshot(h.store, at)
              && FreshOf(h.store, Link(key), at) == Newest(From(SeriesOf(h.log, Link(key)), at - store.maxAge), store.maxSamples)
    {
      SnapshotMatchesLog(store, events, Link(key), at);
    }
    SnapshotMatchesLog(store, events, Link(LinkKey("", "", "", "", "", "")), at);
    SnapshotAcceptedIffFast(h.store, at, snapshot);
  }
}

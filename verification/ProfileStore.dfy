/** The rolling evidence store: per-key sample series that expire by time and are
    capped in number, and the snapshots taken of them. */
module ProfileStore {
  import opened WideArithmetic
  import opened Placement
  import opened Series
  import opened Snapshots
  import opened Distributions

  const DEFAULT_MAX_AGE := 300_000
  const DEFAULT_MAX_SAMPLES := 64
  const DEFAULT_MAX_SERIES := 4096

  datatype SeriesKey = Link(link: LinkKey) | Compute(compute: ComputeKey)

  /** A link sample carries round trip, payload bytes and elapsed time; a compute
      sample carries input tokens and compute time. */
  datatype Observation = Observation(key: SeriesKey, sample: Sample)

  predicate SampleValid(key: SeriesKey, sample: Sample) {
    match key
    case Link(k) => LinkKeyValid(k) && sample.first > 0 && (sample.second == 0 <==> sample.third == 0)
    case Compute(k) => ComputeKeyValid(k) && sample.first > 0 && sample.second > 0 && sample.third == 0
  }

  type SeriesMap = map<SeriesKey, seq<Sample>>

  datatype Store = Store(
    maxAge: int, maxSamples: nat, maxSeries: nat, revision: uint64, latest: Option<int>, series: SeriesMap)

  datatype StoreError =
    | EmptyBatch | InvalidObservation | ObservedAfterAcceptance | AlreadyStale | SeriesLimit | RevisionExhausted | Rewind

  function SeriesOf(series: SeriesMap, key: SeriesKey): seq<Sample> {
    if key in series then series[key] else []
  }

  // ---------------------------------------------------------------------------
  // Observing

  /** The later of the call's time and the newest accepted time. */
  function Reference(store: Store, at: int): int {
    if store.latest.Some? && store.latest.value > at then store.latest.value else at
  }

  function TimeError(store: Store, at: int, o: Observation): Option<StoreError> {
    if o.sample.at > at then Some(ObservedAfterAcceptance)
    else if o.sample.at < Reference(store, at) - store.maxAge then Some(AlreadyStale)
    else None
  }

  /** The error of the first observation that has one. */
  function FirstTimeError(store: Store, at: int, batch: seq<Observation>): Option<StoreError> {
    if batch == [] then None
    else if TimeError(store, at, batch[0]).Some? then TimeError(store, at, batch[0])
    else FirstTimeError(store, at, batch[1..])
  }

  function Prune(series: SeriesMap, cutoff: int): SeriesMap {
    map key | key in series && From(series[key], cutoff) != [] :: From(series[key], cutoff)
  }

  function NewKeys(series: SeriesMap, batch: seq<Observation>): set<SeriesKey> {
    set o | o in batch && o.key !in series :: o.key
  }

  /** Appends one sample to its series, sorts, and keeps the newest. */
  function AcceptOne(series: SeriesMap, o: Observation, limit: nat): SeriesMap {
    series[o.key := Newest(Sort(SeriesOf(series, o.key) + [o.sample]), limit)]
  }

  function AcceptAll(series: SeriesMap, batch: seq<Observation>, limit: nat): SeriesMap {
    if batch == [] then series
    else AcceptOne(AcceptAll(series, batch[..|batch| - 1], limit), batch[|batch| - 1], limit)
  }

  ghost predicate BatchValid(batch: seq<Observation>) {
    forall i :: 0 <= i < |batch| ==> SampleValid(batch[i].key, batch[i].sample)
  }

  ghost predicate Timely(store: Store, at: int, batch: seq<Observation>) {
    batch != [] && BatchValid(batch) && FirstTimeError(store, at, batch).None?
  }

  ghost function Observe(store: Store, at: int, batch: seq<Observation>): (Store, Option<StoreError>) {
    if batch == [] then (store, Some(EmptyBatch))
    else if !BatchValid(batch) then (store, Some(InvalidObservation))
    else if FirstTimeError(store, at, batch).Some? then (store, FirstTimeError(store, at, batch))
    else
      var pruned := store.(series := Prune(store.series, Reference(store, at) - store.maxAge));
      if |pruned.series| + |NewKeys(pruned.series, batch)| > store.maxSeries then (pruned, Some(SeriesLimit))
      else if store.revision == MAX_UINT64 then (pruned, Some(RevisionExhausted))
      else (pruned.(series := AcceptAll(pruned.series, batch, store.maxSamples), revision := store.revision + 1,
                    latest := Some(Reference(store, at))), None)
  }

  // ---------------------------------------------------------------------------
  // Snapshots

  function UpTo(s: seq<Sample>, at: int): (r: seq<Sample>)
    ensures |r| <= |s|
  {
    if s == [] then [] else UpTo(Front(s), at) + (if Last(s).at <= at then [Last(s)] else [])
  }

  function Firsts(s: seq<Sample>): (r: seq<uint64>)
    ensures |r| == |s| && forall i :: 0 <= i < |r| ==> r[i] == s[i].first
  {
    seq(|s|, i requires 0 <= i < |s| => s[i].first)
  }

  function Seconds(s: seq<Sample>): (r: seq<uint64>)
    ensures |r| == |s| && forall i :: 0 <= i < |r| ==> r[i] == s[i].second
  {
    seq(|s|, i requires 0 <= i < |s| => s[i].second)
  }

  /** The effective rates of the samples that moved a payload. */
  function Rates(s: seq<Sample>): (r: seq<uint64>)
    ensures |r| <= |s|
  {
    if s == [] then []
    else if Last(s).second > 0 && Last(s).third > 0 then Rates(Front(s)) + [BytesPerSecond(Last(s).second, Last(s).third)]
    else Rates(Front(s))
  }

  function LatestAt(s: seq<Sample>): int
    requires s != []
  {
    if |s| == 1 then s[0].at
    else if Last(s).at > LatestAt(Front(s)) then Last(s).at else LatestAt(Front(s))
  }

  function SummarizeLink(key: LinkKey, s: seq<Sample>): LinkProfile
    requires s != []
  {
    LinkProfile(key, LatestAt(s), Summarize(Firsts(s)), Summarize(Rates(s)))
  }

  function SummarizeCompute(key: ComputeKey, s: seq<Sample>): ComputeProfile
    requires s != []
  {
    ComputeProfile(key, LatestAt(s), Summarize(Firsts(s)), Summarize(Seconds(s)))
  }

  predicate MayTakeSnapshot(store: Store, at: int) {
    store.latest.None? || store.latest.value <= at
  }

  /** The samples a snapshot at this time summarizes for a key. */
  function FreshOf(store: Store, key: SeriesKey, at: int): seq<Sample> {
    UpTo(From(SeriesOf(store.series, key), at - store.maxAge), at)
  }

  /** The snapshot lists each key with fresh samples exactly once, with its summary. */
  ghost predicate Shows(snapshot: ProfileSnapshot, store: Store, at: int) {
    && snapshot.revision == store.revision && snapshot.generatedAt == at && snapshot.maxAge == store.maxAge
    && snapshot.maxSamplesPerSeries == store.maxSamples && snapshot.maxSeries == store.maxSeries
    && (forall i :: 0 <= i < |snapshot.links| ==> ListedLink(snapshot.links[i], store, at))
    && (forall i :: 0 <= i < |snapshot.compute| ==> ListedCompute(snapshot.compute[i], store, at))
    && (forall i, j :: 0 <= i < j < |snapshot.links| ==> snapshot.links[i].key != snapshot.links[j].key)
    && (forall i, j :: 0 <= i < j < |snapshot.compute| ==> snapshot.compute[i].key != snapshot.compute[j].key)
    && (forall key :: FreshOf(store, key, at) != [] ==> Listed(snapshot, key))
    && |snapshot.links| + |snapshot.compute| <= |store.series|
  }

  ghost predicate ListedLink(profile: LinkProfile, store: Store, at: int) {
    var s := FreshOf(store, Link(profile.key), at);
    s != [] && profile == SummarizeLink(profile.key, s)
  }

  ghost predicate ListedCompute(profile: ComputeProfile, store: Store, at: int) {
    var s := FreshOf(store, Compute(profile.key), at);
    s != [] && profile == SummarizeCompute(profile.key, s)
  }

  ghost predicate Listed(snapshot: ProfileSnapshot, key: SeriesKey) {
    match key
    case Link(k) => exists i :: 0 <= i < |snapshot.links| && snapshot.links[i].key == k
    case Compute(k) => exists i :: 0 <= i < |snapshot.compute| && snapshot.compute[i].key == k
  }

  ghost function AfterSnapshot(store: Store, at: int): Store {
    if MayTakeSnapshot(store, at) then store.(series := Prune(store.series, at - store.maxAge)) else store
  }
}

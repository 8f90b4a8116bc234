/** What a profile snapshot must satisfy before plans are scored with it. */
module Snapshots {
  import opened Placement

  const MAX_LABEL_BYTES := 1024

  predicate LabelValid(text: string) {
    text != "" && |text| <= MAX_LABEL_BYTES
  }

  const EMPTY_DISTRIBUTION := ValueDistribution(0, 0, 0, 0, 0)

  predicate DistributionValid(d: ValueDistribution, allowEmpty: bool, maxCount: int) {
    if d.count == 0 then allowEmpty && d == EMPTY_DISTRIBUTION
    else d.count <= maxCount && 0 < d.min <= d.p50 <= d.p95 <= d.max
  }

  predicate LinkKeyValid(key: LinkKey) {
    && LabelValid(key.sourceID) && LabelValid(key.sourceInstanceID)
    && LabelValid(key.targetID) && LabelValid(key.targetInstanceID)
    && LabelValid(key.protocol) && LabelValid(key.tensorEncoding)
    && key.sourceID != key.targetID
  }

  predicate ComputeKeyValid(key: ComputeKey) {
    && LabelValid(key.workerID) && LabelValid(key.workerInstanceID) && LabelValid(key.backend)
    && LabelValid(key.model.id) && LabelValid(key.model.checkpointFingerprint) && LabelValid(key.operation)
    && 0 <= key.layerStart < key.layerEnd <= key.model.layerCount
  }

  predicate Fresh(observedAt: int, profile: ProfileSnapshot) {
    profile.generatedAt - profile.maxAge <= observedAt <= profile.generatedAt
  }

  predicate LinkValid(link: LinkProfile, profile: ProfileSnapshot) {
    && LinkKeyValid(link.key) && Fresh(link.latestObservedAt, profile)
    && DistributionValid(link.rttMicros, false, profile.maxSamplesPerSeries)
    && DistributionValid(link.effectiveBytesPerSecond, true, profile.maxSamplesPerSeries)
  }

  predicate ComputeValid(item: ComputeProfile, profile: ProfileSnapshot) {
    && ComputeKeyValid(item.key) && Fresh(item.latestObservedAt, profile)
    && DistributionValid(item.inputTokenCount, false, profile.maxSamplesPerSeries)
    && DistributionValid(item.computeMicros, false, profile.maxSamplesPerSeries)
  }

  predicate SnapshotValid(profile: ProfileSnapshot) {
    && profile.maxAge > 0 && profile.maxSamplesPerSeries > 0 && profile.maxSeries > 0
    && |profile.links| + |profile.compute| <= profile.maxSeries
    && (forall i :: 0 <= i < |profile.links| ==> LinkValid(profile.links[i], profile))
    && (forall i, j :: 0 <= i < j < |profile.links| ==> profile.links[i].key != profile.links[j].key)
    && (forall i :: 0 <= i < |profile.compute| ==> ComputeValid(profile.compute[i], profile))
    && (forall i, j :: 0 <= i < j < |profile.compute| ==> profile.compute[i].key != profile.compute[j].key)
  }
}

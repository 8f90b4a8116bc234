/** The records that workers register and that a membership snapshot carries. */
module Membership {
  import opened WideArithmetic

  datatype Health = Healthy | Degraded | Draining

  datatype Transport = Transport(protocol: string, tensorEncodings: seq<string>, maxRequestBytes: int, tls: bool)

  datatype AdmissionLimits = AdmissionLimits(
    maxConcurrentRequests: int, maxOpenSequencesPerShard: int, retainedByteBudget: uint64)

  datatype Capabilities = Capabilities(
    backend: string, physicalMemoryBytes: uint64, adapters: seq<string>, operations: seq<string>,
    checkpointFingerprints: seq<string>, admission: AdmissionLimits, transports: seq<Transport>)

  datatype RetainedShard = RetainedShard(
    id: string, modelID: string, checkpointFingerprint: string, layerStart: int, layerEnd: int,
    ownsInput: bool, ownsOutput: bool, openSequenceCount: int)

  datatype Status = Status(
    health: Health, availableMemoryBytes: uint64, memoryPressureBytes: uint64, openSequenceCount: int,
    retainedBytes: uint64, restartCount: int, recentFailureCount: int,
    workerObservationSequence: uint64, retainedShards: seq<RetainedShard>)

  datatype Registration = Registration(
    id: string, instanceID: string, endpoint: string, capabilities: Capabilities, status: Status)

  /** Times are instants of one integer clock; `None` is the zero time. */
  datatype Worker = Worker(
    registration: Registration, registeredAt: int, lastSeen: int, expiresAt: int, statusObservedAt: Option<int>)
  {
    function ID(): string { registration.id }
    function InstanceID(): string { registration.instanceID }
    function Status(): Status { registration.status }
    function Admission(): AdmissionLimits { registration.capabilities.admission }

    /** The status was observed no later than `at` and at most `maxAge` before it. */
    predicate StatusFresh(at: int, maxAge: int) {
      maxAge > 0 && statusObservedAt.Some? && statusObservedAt.value <= at && at - statusObservedAt.value <= maxAge
    }
  }

  datatype Inventory = Inventory(revision: uint64, generatedAt: int, leaseTTL: int, workers: seq<Worker>)

  /** Index of a worker list by ID; a later duplicate would win. */
  function WorkersByID(workers: seq<Worker>): (index: map<string, Worker>)
    ensures forall id :: id in index ==> index[id].ID() == id && index[id] in workers
    ensures forall w :: w in workers ==> w.ID() in index
  {
    if workers == [] then map[]
    else WorkersByID(workers[..|workers| - 1])[workers[|workers| - 1].ID() := workers[|workers| - 1]]
  }

  /** The sequences a status reports open on one shard: those of its first entry. */
  function ReportedOpen(shards: seq<RetainedShard>, shardID: string): (open: int)
  {
    if shards == [] then 0
    else if shards[0].id == shardID then shards[0].openSequenceCount
    else ReportedOpen(shards[1..], shardID)
  }
}

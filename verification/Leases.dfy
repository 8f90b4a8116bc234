/** The leased worker registry as a value: what each call does at its clock time. */
module Leases {
  import opened WideArithmetic
  import opened Membership
  import opened WorkerKeys

  const DEFAULT_LEASE_TTL := 30_000

  datatype RegistryError =
    | InvalidInput | DuplicateWorker | DuplicateInstance | DuplicateEndpoint | WorkerNotFound | StaleInstance | LeaseExpired

  /** The revision counts inventory changes; it is not bounded here. */
  datatype State = State(workers: map<string, Worker>, revision: nat, ttl: int)

  // ---------------------------------------------------------------------------
  // Validation

  predicate IdentityChar(c: char) {
    'a' <= c <= 'z' || 'A' <= c <= 'Z' || '0' <= c <= '9' || c == '.' || c == '_' || c == ':' || c == '-'
  }

  predicate IdentityValid(text: string) {
    0 < |text| <= 128 && forall i :: 0 <= i < |text| ==> IdentityChar(text[i])
  }

  /** Accepted identities can be joined by NUL into keys. */
  lemma IdentityIsKeyPart(text: string)
    requires IdentityValid(text)
    ensures ValidID(text)
  {
  }

  function OpenTotal(shards: seq<RetainedShard>): int {
    if shards == [] then 0 else OpenTotal(shards[..|shards| - 1]) + shards[|shards| - 1].openSequenceCount
  }

  predicate ShardValid(shards: seq<RetainedShard>, i: nat)
    requires i < |shards|
  {
    var shard := shards[i];
    && shard.id != "" && shard.modelID != "" && shard.checkpointFingerprint != ""
    && 0 <= shard.layerStart < shard.layerEnd && shard.openSequenceCount >= 0
    && (i > 0 ==> shards[i - 1].id != shard.id)
  }

  predicate StatusValid(status: Status, capabilities: Capabilities) {
    && status.availableMemoryBytes <= capabilities.physicalMemoryBytes
    && status.openSequenceCount >= 0 && status.restartCount >= 0 && status.recentFailureCount >= 0
    && (forall i :: 0 <= i < |status.retainedShards| ==> ShardValid(status.retainedShards, i))
    && status.openSequenceCount == OpenTotal(status.retainedShards)
  }

  predicate TransportValid(transports: seq<Transport>, i: nat)
    requires i < |transports|
  {
    && transports[i].protocol != "" && transports[i].tensorEncodings != [] && transports[i].maxRequestBytes > 0
    && (i > 0 ==> transports[i - 1].protocol != transports[i].protocol)
  }

  predicate CapabilitiesValid(c: Capabilities) {
    && c.backend != "" && c.physicalMemoryBytes > 0 && c.adapters != [] && c.operations != []
    && c.admission.maxConcurrentRequests > 0 && c.admission.maxOpenSequencesPerShard > 0
    && c.admission.retainedByteBudget > 0 && c.transports != []
    && forall i :: 0 <= i < |c.transports| ==> TransportValid(c.transports, i)
  }

  predicate RegistrationValid(input: Registration) {
    && IdentityValid(input.id) && IdentityValid(input.instanceID) && input.endpoint != ""
    && CapabilitiesValid(input.capabilities) && StatusValid(input.status, input.capabilities)
  }

  // ---------------------------------------------------------------------------
  // Calls

  predicate Expired(worker: Worker, now: int) {
    worker.expiresAt <= now
  }

  /** Drops expired leases; one revision covers them all. */
  function Expire(s: State, now: int): State {
    var kept := map id | id in s.workers && !Expired(s.workers[id], now) :: s.workers[id];
    if kept == s.workers then s else s.(workers := kept, revision := s.revision + 1)
  }

  predicate InstanceTaken(s: State, input: Registration) {
    exists id | id in s.workers :: id != input.id && s.workers[id].InstanceID() == input.instanceID
  }

  predicate EndpointTaken(s: State, input: Registration) {
    exists id | id in s.workers :: id != input.id && s.workers[id].registration.endpoint == input.endpoint
  }

  predicate Taken(s: State, input: Registration) {
    InstanceTaken(s, input) || EndpointTaken(s, input)
  }

  /** A renewal by the owning instance. */
  function Renewed(s: State, input: Registration, fresh': bool, now: int): State
    requires input.id in s.workers
  {
    var existing := s.workers[input.id];
    var stored := if fresh' then input else input.(status := existing.Status());
    var worker := Worker(stored, existing.registeredAt, now, now + s.ttl, if fresh' then Some(now) else existing.statusObservedAt);
    s.(workers := s.workers[input.id := worker],
       revision := s.revision + (if existing.registration != stored || (fresh' && !existing.StatusFresh(now, s.ttl)) then 1 else 0))
  }

  function Added(s: State, input: Registration, fresh': bool, now: int): State {
    var worker := Worker(input, now, now, now + s.ttl, if fresh' then Some(now) else None);
    s.(workers := s.workers[input.id := worker], revision := s.revision + 1)
  }

  /** The new state, and whether the call was refused; which of two conflicts a refusal
      names first depends on iteration order. */
  function Register(s: State, input: Registration, fresh': bool, now: int): (State, bool) {
    if !RegistrationValid(input) then (s, false) else
    var live := Expire(s, now);
    if Taken(live, input) then (live, false)
    else if input.id in live.workers then
      if live.workers[input.id].InstanceID() != input.instanceID then (live, false)
      else (Renewed(live, input, fresh', now), true)
    else (Added(live, input, fresh', now), true)
  }

  /** Touching an expired lease removes it first; the other expired leases follow. */
  function ExpireOwn(s: State, id: string, now: int): State {
    Expire(s.(workers := s.workers - {id}, revision := s.revision + 1), now)
  }

  function Heartbeat(s: State, id: string, instanceID: string, status: Option<Status>, now: int)
    : (State, Option<RegistryError>)
  {
    if !IdentityValid(id) || !IdentityValid(instanceID) then (s, Some(InvalidInput))
    else if id in s.workers && Expired(s.workers[id], now) then (ExpireOwn(s, id, now), Some(LeaseExpired))
    else
      var live := Expire(s, now);
      if id !in s.workers then (live, Some(WorkerNotFound))
      else
        var existing := s.workers[id];
        if existing.InstanceID() != instanceID then (live, Some(StaleInstance))
        else if status.Some? && !StatusValid(status.value, existing.registration.capabilities) then (live, Some(InvalidInput))
        else
          var registration := if status.Some? then existing.registration.(status := status.value) else existing.registration;
          var changed := status.Some? && (existing.Status() != status.value || !existing.StatusFresh(now, s.ttl));
          var worker := Worker(registration, existing.registeredAt, now, now + s.ttl,
                               if status.Some? then Some(now) else existing.statusObservedAt);
          (live.(workers := live.workers[id := worker], revision := live.revision + (if changed then 1 else 0)), None)
  }

  function Remove(s: State, id: string, instanceID: string, now: int): (State, Option<RegistryError>) {
    if !IdentityValid(id) || !IdentityValid(instanceID) then (s, Some(InvalidInput))
    else if id in s.workers && Expired(s.workers[id], now) then (ExpireOwn(s, id, now), Some(LeaseExpired))
    else
      var live := Expire(s, now);
      if id !in s.workers then (live, Some(WorkerNotFound))
      else if s.workers[id].InstanceID() != instanceID then (live, Some(StaleInstance))
      else (live.(workers := live.workers - {id}, revision := live.revision + 1), None)
  }

  datatype Call =
    | RegisterCall(input: Registration, statusFresh: bool)
    | HeartbeatCall(id: string, instanceID: string, status: Option<Status>)
    | RemoveCall(id: string, instanceID: string)
    | SnapshotCall

  /** One call at one clock reading; clocks need not be monotonic. */
  function Step(s: State, call: Call, now: int): State {
    match call
    case RegisterCall(input, statusFresh) => Register(s, input, statusFresh, now).0
    case HeartbeatCall(id, instanceID, status) => Heartbeat(s, id, instanceID, status, now).0
    case RemoveCall(id, instanceID) => Remove(s, id, instanceID, now).0
    case SnapshotCall => Expire(s, now)
  }

  datatype Timed = Timed(call: Call, now: int)

  function Run(s: State, calls: seq<Timed>): State {
    if calls == [] then s else
    var before := Run(s, calls[..|calls| - 1]);
    Step(before, calls[|calls| - 1].call, calls[|calls| - 1].now)
  }

  // ---------------------------------------------------------------------------
  // Uniqueness

  /** Keys are the IDs; instances and endpoints are not shared; identities and counters
      are valid. */
  ghost predicate Unique(s: State) {
    && (forall id :: id in s.workers ==> s.workers[id].ID() == id && WorkerValid(s.workers[id]))
    && (forall a, b :: a in s.workers && b in s.workers && a != b ==>
          && s.workers[a].InstanceID() != s.workers[b].InstanceID()
          && s.workers[a].registration.endpoint != s.workers[b].registration.endpoint)
  }

  ghost predicate WorkerValid(worker: Worker) {
    && IdentityValid(worker.ID()) && IdentityValid(worker.InstanceID())
    && worker.Status().recentFailureCount >= 0 && worker.Status().restartCount >= 0 && worker.Status().openSequenceCount >= 0
    && worker.Admission().maxConcurrentRequests > 0 && worker.Admission().maxOpenSequencesPerShard > 0
  }

  /** A state with some workers missing stays unique. */
  lemma FewerStaysUnique(s: State, t: State)
    requires Unique(s) && forall id :: id in t.workers ==> id in s.workers && t.workers[id] == s.workers[id]
    ensures Unique(t)
  {
    hide WorkerValid;
  }

  lemma ReplacedStaysUnique(s: State, worker: Worker, revision: nat)
    requires Unique(s) && WorkerValid(worker)
    requires forall id :: id in s.workers && id != worker.ID() ==>
               s.workers[id].InstanceID() != worker.InstanceID()
               && s.workers[id].registration.endpoint != worker.registration.endpoint
    ensures Unique(s.(workers := s.workers[worker.ID() := worker], revision := revision))
  {
    hide WorkerValid;
  }

  lemma StepKeepsUnique(s: State, call: Call, now: int)
    requires Unique(s)
    ensures Unique(Step(s, call, now))
  {
    hide Register, Heartbeat, IdentityValid;
    FewerStaysUnique(s, Expire(s, now));
    match call {
      case RegisterCall(input, statusFresh) => RegisterKeepsUnique(s, input, statusFresh, now);
      case HeartbeatCall(id, instanceID, status) => HeartbeatKeepsUnique(s, id, instanceID, status, now);
      case RemoveCall(id, instanceID) => FewerStaysUnique(s, Remove(s, id, instanceID, now).0);
      case SnapshotCall =>
    }
  }

  lemma RegisterKeepsUnique(s: State, input: Registration, fresh': bool, now: int)
    requires Unique(s)
    ensures Unique(Register(s, input, fresh', now).0)
  {
    hide IdentityValid, CapabilitiesValid, StatusValid, Worker.StatusFresh;
    var live := Expire(s, now);
    FewerStaysUnique(s, live);
    if RegistrationValid(input) && Register(s, input, fresh', now).1 {
      ValidRegistration(input);
      var after := Register(s, input, fresh', now).0;
      ReplacedStaysUnique(live, after.workers[input.id], after.revision);
    }
  }

  lemma ValidRegistration(input: Registration)
    requires RegistrationValid(input)
    ensures IdentityValid(input.id) && IdentityValid(input.instanceID)
    ensures input.status.recentFailureCount >= 0 && input.status.restartCount >= 0 && input.status.openSequenceCount >= 0
    ensures input.capabilities.admission.maxConcurrentRequests > 0 && input.capabilities.admission.maxOpenSequencesPerShard > 0
  {
  }

  /** What a successful heartbeat stores. */
  lemma HeartbeatStores(s: State, id: string, instanceID: string, status: Option<Status>, now: int)
    requires Heartbeat(s, id, instanceID, status, now).1.None?
    ensures var after := Heartbeat(s, id, instanceID, status, now).0;
            && id in s.workers && id in after.workers && id in Expire(s, now).workers
            && after == Expire(s, now).(workers := Expire(s, now).workers[id := after.workers[id]], revision := after.revision)
            && after.workers[id].registration.(status := s.workers[id].Status()) == s.workers[id].registration
            && (status.Some? ==> after.workers[id].Status() == status.value
                                 && StatusValid(status.value, s.workers[id].registration.capabilities))
            && (status.None? ==> after.workers[id].Status() == s.workers[id].Status())
            && Expire(s, now).revision <= after.revision
            && (after.revision == Expire(s, now).revision ==> after.workers[id].registration == s.workers[id].registration)
  {
    hide IdentityValid, StatusValid, Worker.StatusFresh;
  }

  /** What a refused heartbeat leaves: fewer leases. */
  lemma HeartbeatRefused(s: State, id: string, instanceID: string, status: Option<Status>, now: int)
    requires Heartbeat(s, id, instanceID, status, now).1.Some?
    ensures var after := Heartbeat(s, id, instanceID, status, now).0;
            after == s || after == Expire(s, now) || (id in s.workers && after == ExpireOwn(s, id, now))
  {
    hide IdentityValid, StatusValid, Worker.StatusFresh, Expire;
  }

  lemma StatusCounters(status: Status, capabilities: Capabilities)
    requires StatusValid(status, capabilities)
    ensures status.recentFailureCount >= 0 && status.restartCount >= 0 && status.openSequenceCount >= 0
  {
  }

  lemma HeartbeatKeepsUnique(s: State, id: string, instanceID: string, status: Option<Status>, now: int)
    requires Unique(s)
    ensures Unique(Heartbeat(s, id, instanceID, status, now).0)
  {
    var live := Expire(s, now);
    FewerStaysUnique(s, live);
    var after := Heartbeat(s, id, instanceID, status, now).0;
    hide Heartbeat, IdentityValid, StatusValid;
    if Heartbeat(s, id, instanceID, status, now).1.None? {
      HeartbeatStores(s, id, instanceID, status, now);
      if status.Some? { StatusCounters(status.value, s.workers[id].registration.capabilities); }
      ReplacedStaysUnique(live, after.workers[id], after.revision);
    } else {
      HeartbeatRefused(s, id, instanceID, status, now);
      if id in s.workers { FewerStaysUnique(s, ExpireOwn(s, id, now)); }
    }
  }

  /** In every run with any clock readings, no two IDs share an instance or an endpoint. */
  lemma {:induction false} RunKeepsUnique(s: State, calls: seq<Timed>)
    requires Unique(s)
    ensures Unique(Run(s, calls))
  {
    hide Unique, Step;
    if calls != [] {
      RunKeepsUnique(s, calls[..|calls| - 1]);
      StepKeepsUnique(Run(s, calls[..|calls| - 1]), calls[|calls| - 1].call, calls[|calls| - 1].now);
    }
  }

  // ---------------------------------------------------------------------------
  // Lease ownership

  ghost predicate Owned(s: State, after: State, id: string, removes: bool, registers: bool, now: int)
    requires id in s.workers
  {
    && (id !in after.workers ==> Expired(s.workers[id], now) || removes)
    && (id in after.workers && after.workers[id].InstanceID() != s.workers[id].InstanceID() ==>
          Expired(s.workers[id], now) && registers)
  }

  lemma RegisterOwnership(s: State, input: Registration, fresh': bool, now: int, id: string)
    requires id in s.workers
    ensures Owned(s, Register(s, input, fresh', now).0, id, false, input.id == id, now)
  {
    hide RegistrationValid, Worker.StatusFresh, Taken;
  }

  lemma HeartbeatOwnership(s: State, own: string, instanceID: string, status: Option<Status>, now: int, id: string)
    requires id in s.workers
    ensures Owned(s, Heartbeat(s, own, instanceID, status, now).0, id, false, false, now)
  {
    hide IdentityValid, StatusValid, Worker.StatusFresh;
  }

  lemma RemoveOwnership(s: State, own: string, instanceID: string, now: int, id: string)
    requires id in s.workers
    ensures Owned(s, Remove(s, own, instanceID, now).0, id, own == id && instanceID == s.workers[id].InstanceID(), false, now)
  {
    hide IdentityValid;
  }

  /** An ID changes its instance in one call only by a registration that found the old
      lease expired; it disappears only when expired or removed by its own instance. */
  lemma LeaseOwnership(s: State, call: Call, now: int, id: string)
    requires id in s.workers
    ensures var after := Step(s, call, now);
            && (id !in after.workers ==>
                  Expired(s.workers[id], now) || (call.RemoveCall? && call.id == id && call.instanceID == s.workers[id].InstanceID()))
            && (id in after.workers && after.workers[id].InstanceID() != s.workers[id].InstanceID() ==>
                  Expired(s.workers[id], now) && call.RegisterCall? && call.input.id == id)
  {
    hide Register, Heartbeat, Remove;
    match call {
      case RegisterCall(input, statusFresh) => RegisterOwnership(s, input, statusFresh, now, id);
      case HeartbeatCall(own, instanceID, status) => HeartbeatOwnership(s, own, instanceID, status, now, id);
      case RemoveCall(own, instanceID) => RemoveOwnership(s, own, instanceID, now, id);
      case SnapshotCall =>
    }
  }

  /** The call ends the lease that the ID has: it finds it expired, or removes it in the
      name of its own instance. */
  ghost predicate Ends(s: State, timed: Timed, id: string)
    requires id in s.workers
  {
    || Expired(s.workers[id], timed.now)
    || (timed.call.RemoveCall? && timed.call.id == id && timed.call.instanceID == s.workers[id].InstanceID())
  }

  /** In every run, between two moments at which an ID has different instances, or has
      one and then none, some call ended the lease of the first instance. */
  lemma {:induction false} InstanceChangeEnclosesEnd(s: State, calls: seq<Timed>, m: nat, id: string) returns (k: nat)
    requires m <= |calls| && id in Run(s, calls[..m]).workers
    requires id in Run(s, calls).workers ==>
               Run(s, calls).workers[id].InstanceID() != Run(s, calls[..m]).workers[id].InstanceID()
    ensures m <= k < |calls|
    ensures var w := Run(s, calls[..k]);
            && id in w.workers && w.workers[id].InstanceID() == Run(s, calls[..m]).workers[id].InstanceID()
            && Ends(w, calls[k], id)
    decreases |calls| - m
  {
    hide Step;
    assert calls[..|calls|] == calls;
    var w, after := Run(s, calls[..m]), Run(s, calls[..m + 1]);
    assert calls[..m + 1][..m] == calls[..m];
    LeaseOwnership(w, calls[m].call, calls[m].now, id);
    if id in after.workers && after.workers[id].InstanceID() == w.workers[id].InstanceID() {
      k := InstanceChangeEnclosesEnd(s, calls, m + 1, id);
    } else {
      k := m;
    }
  }

  // ---------------------------------------------------------------------------
  // Revision

  ghost function Registrations(s: State): map<string, Registration> {
    map id | id in s.workers :: s.workers[id].registration
  }

  ghost predicate Advances(s: State, after: State) {
    s.revision <= after.revision && (after.revision == s.revision ==> Registrations(after) == Registrations(s))
  }

  lemma ExpireAdvances(s: State, now: int)
    ensures Advances(s, Expire(s, now))
  {
  }

  lemma AdvancesTransitive(a: State, b: State, c: State)
    requires Advances(a, b) && Advances(b, c)
    ensures Advances(a, c)
  {
    hide Registrations;
  }

  lemma RenewedAdvances(live: State, input: Registration, fresh': bool, now: int)
    requires input.id in live.workers
    ensures Advances(live, Renewed(live, input, fresh', now))
  {
    hide Worker.StatusFresh;
    var after := Renewed(live, input, fresh', now);
    if after.revision == live.revision {
      assert after.workers[input.id].registration == live.workers[input.id].registration;
    }
  }

  lemma RegisterAdvances(s: State, input: Registration, fresh': bool, now: int)
    ensures Advances(s, Register(s, input, fresh', now).0)
  {
    hide RegistrationValid, Taken, Renewed, Advances;
    var live := Expire(s, now);
    ExpireAdvances(s, now);
    AddedAdvances(live, input, fresh', now);
    if input.id in live.workers {
      RenewedAdvances(live, input, fresh', now);
      AdvancesTransitive(s, live, Renewed(live, input, fresh', now));
    }
    AdvancesTransitive(s, live, Added(live, input, fresh', now));
    NothingAdvances(s);
  }

  lemma AddedAdvances(live: State, input: Registration, fresh': bool, now: int)
    ensures Advances(live, Added(live, input, fresh', now))
  {
  }

  lemma NothingAdvances(s: State)
    ensures Advances(s, s)
  {
  }

  lemma HeartbeatAdvances(s: State, id: string, instanceID: string, status: Option<Status>, now: int)
    ensures Advances(s, Heartbeat(s, id, instanceID, status, now).0)
  {
    var live := Expire(s, now);
    ExpireAdvances(s, now);
    var after := Heartbeat(s, id, instanceID, status, now).0;
    hide Heartbeat;
    if Heartbeat(s, id, instanceID, status, now).1.None? {
      HeartbeatStores(s, id, instanceID, status, now);
      hide StatusValid;
      assert live.workers[id] == s.workers[id];
      assert Advances(live, after);
      AdvancesTransitive(s, live, after);
    } else {
      HeartbeatRefused(s, id, instanceID, status, now);
    }
  }

  lemma StepRevision(s: State, call: Call, now: int)
    ensures Advances(s, Step(s, call, now))
  {
    hide Register, Heartbeat, Unique;
    match call {
      case RegisterCall(input, statusFresh) => RegisterAdvances(s, input, statusFresh, now);
      case HeartbeatCall(id, instanceID, status) => HeartbeatAdvances(s, id, instanceID, status, now);
      case RemoveCall(id, instanceID) =>
      case SnapshotCall => ExpireAdvances(s, now);
    }
  }

  lemma StepRevisionBound(s: State, call: Call, now: int)
    ensures Step(s, call, now).revision <= s.revision + 2
  {
    hide IdentityValid, RegistrationValid, StatusValid, Taken, Worker.StatusFresh;
  }

  lemma SameModulo(a: nat, b: nat)
    requires a <= b < a + TWO_64 && a % TWO_64 == b % TWO_64
    ensures a == b
  {
    assert (b - a) % TWO_64 == 0;
  }

  /** In every run the revision never decreases, and two moments with the same revision
      hold the same registrations.  The published revision is taken modulo 2^64 and
      identifies them still, as long as fewer than 2^63 calls lie between. */
  lemma {:induction false} RevisionIdentifiesInventory(s: State, calls: seq<Timed>)
    ensures var after := Run(s, calls);
            && s.revision <= after.revision <= s.revision + 2 * |calls|
            && (after.revision == s.revision ==> Registrations(after) == Registrations(s))
            && (2 * |calls| < TWO_64 && after.revision % TWO_64 == s.revision % TWO_64 ==>
                  Registrations(after) == Registrations(s))
  {
    hide Step, Registrations;
    if calls != [] {
      var front, last := calls[..|calls| - 1], calls[|calls| - 1];
      RevisionIdentifiesInventory(s, front);
      StepRevision(Run(s, front), last.call, last.now);
      StepRevisionBound(Run(s, front), last.call, last.now);
    }
    var after := Run(s, calls);
    if 2 * |calls| < TWO_64 && after.revision % TWO_64 == s.revision % TWO_64 { SameModulo(s.revision, after.revision); }
  }

  // ---------------------------------------------------------------------------
  // Available within physical memory

  ghost predicate MemoryFits(s: State) {
    forall id :: id in s.workers ==>
      s.workers[id].Status().availableMemoryBytes <= s.workers[id].registration.capabilities.physicalMemoryBytes
  }

  /** The call renews a lease and keeps its old status. */
  ghost predicate KeepsStatus(s: State, timed: Timed) {
    timed.call.RegisterCall? && !timed.call.statusFresh && RegistrationValid(timed.call.input)
    && var live, input := Expire(s, timed.now), timed.call.input;
       !Taken(live, input) && input.id in live.workers && live.workers[input.id].InstanceID() == input.instanceID
  }

  /** The status that such a renewal keeps fits the capabilities that it brings. */
  ghost predicate RenewalFits(s: State, timed: Timed) {
    KeepsStatus(s, timed) ==>
      s.workers[timed.call.input.id].Status().availableMemoryBytes <= timed.call.input.capabilities.physicalMemoryBytes
  }

  lemma RegisterMemory(s: State, timed: Timed)
    requires MemoryFits(s) && timed.call.RegisterCall?
    ensures MemoryFits(Step(s, timed.call, timed.now)) <==> RenewalFits(s, timed)
  {
    hide IdentityValid, CapabilitiesValid, Worker.StatusFresh, ShardValid, OpenTotal, Taken;
    var live, input := Expire(s, timed.now), timed.call.input;
    var after := Step(s, timed.call, timed.now);
    if KeepsStatus(s, timed) {
      assert after.workers[input.id].registration == input.(status := live.workers[input.id].Status());
    }
  }

  lemma HeartbeatMemory(s: State, timed: Timed)
    requires MemoryFits(s) && timed.call.HeartbeatCall?
    ensures MemoryFits(Step(s, timed.call, timed.now))
  {
    var id, instanceID, status := timed.call.id, timed.call.instanceID, timed.call.status;
    if Heartbeat(s, id, instanceID, status, timed.now).1.None? {
      HeartbeatStores(s, id, instanceID, status, timed.now);
      hide Heartbeat, ShardValid, OpenTotal;
    } else {
      HeartbeatRefused(s, id, instanceID, status, timed.now);
      hide Heartbeat;
    }
  }

  lemma StepMemory(s: State, timed: Timed)
    requires MemoryFits(s)
    ensures MemoryFits(Step(s, timed.call, timed.now)) <==> RenewalFits(s, timed)
  {
    match timed.call {
      case RegisterCall(_, _) => RegisterMemory(s, timed);
      case HeartbeatCall(_, _, _) => HeartbeatMemory(s, timed);
      case RemoveCall(_, _) =>
      case SnapshotCall =>
    }
  }

  /** Every moment of the run so far fits. */
  ghost predicate AlwaysFits(s: State, calls: seq<Timed>) {
    MemoryFits(Run(s, calls)) && (calls != [] ==> AlwaysFits(s, calls[..|calls| - 1]))
  }

  ghost predicate RenewalsFit(s: State, calls: seq<Timed>) {
    calls != [] ==>
      RenewalsFit(s, calls[..|calls| - 1]) && RenewalFits(Run(s, calls[..|calls| - 1]), calls[|calls| - 1])
  }

  /** From an empty registry, with any clock readings, every listed worker always has
      its available memory within its physical memory exactly as long as each renewal
      that kept an old status found one that fits the new capabilities. */
  lemma {:induction false} RenewalMemory(ttl: int, calls: seq<Timed>)
    ensures AlwaysFits(State(map[], 0, ttl), calls) <==> RenewalsFit(State(map[], 0, ttl), calls)
  {
    hide Step, RenewalFits;
    var s := State(map[], 0, ttl);
    if calls != [] {
      var front, last := calls[..|calls| - 1], calls[|calls| - 1];
      RenewalMemory(ttl, front);
      if AlwaysFits(s, front) { StepMemory(Run(s, front), last); }
    }
  }

  function Machine(memory: uint64): Registration {
    Registration("w", "i", "http://w",
      Capabilities("mlx", memory, ["adapter"], ["prefill"], [], AdmissionLimits(1, 1, 1), [Transport("http", ["raw"], 1, false)]),
      Status(Healthy, memory, 0, 0, 0, 0, 0, 1, []))
  }

  lemma MachineIsValid(memory: uint64)
    requires memory > 0
    ensures RegistrationValid(Machine(memory))
  {
  }

  /** A worker registers with `large` bytes and renews, keeping its status, with `small`:
      it is then listed with more memory available than it has. */
  lemma ShrunkRenewalBreaksMemory(small: uint64, large: uint64, ttl: int) returns (calls: seq<Timed>)
    requires 0 < small < large && ttl > 1
    ensures var s := Run(State(map[], 0, ttl), calls);
            && "w" in s.workers && s.workers["w"].Status().availableMemoryBytes == large
            && s.workers["w"].registration.capabilities.physicalMemoryBytes == small
    ensures !RenewalsFit(State(map[], 0, ttl), calls)
  {
    MachineIsValid(small);
    MachineIsValid(large);
    hide RegistrationValid, Worker.StatusFresh;
    var empty := State(map[], 0, ttl);
    var first, second := Timed(RegisterCall(Machine(large), true), 0), Timed(RegisterCall(Machine(small), false), 1);
    calls := [first, second];
    assert calls[..1] == [first] && [first][..0] == [];
    assert Expire(empty, 0) == empty;
    var one := Run(empty, [first]);
    assert !Taken(empty, Machine(large));
    assert one == Step(Run(empty, []), first.call, 0) == Added(empty, Machine(large), true, 0);
    assert one.workers == map["w" := Worker(Machine(large), 0, 0, ttl, Some(0))];
    assert Expire(one, 1) == one;
    assert Run(empty, calls) == Step(one, second.call, 1);
    RenewalMemory(ttl, calls);
  }
}

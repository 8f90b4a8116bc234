/** The registry object: leases updated in place under one clock reading per call. */
module Registry {
  import opened WideArithmetic
  import opened Membership
  import opened Leases

  lemma ExpireStep(before: map<string, Worker>, now: map<string, Worker>, done: set<string>, id: string, at: int)
    requires id in before && id !in done && now == map k | k in before && (k in done ==> !Expired(before[k], at)) :: before[k]
    ensures id in now && now[id] == before[id]
    ensures (if Expired(before[id], at) then now - {id} else now)
            == map k | k in before && (k in done + {id} ==> !Expired(before[k], at)) :: before[k]
  {
  }

  class WorkerRegistry {
    var workers: map<string, Worker>
    var revision: nat
    const ttl: int

    ghost function Value(): State
      reads this
    {
      State(workers, revision, ttl)
    }

    constructor (ttl: int)
      ensures Value() == State(map[], 0, if ttl <= 0 then DEFAULT_LEASE_TTL else ttl)
    {
      workers, revision := map[], 0;
      this.ttl := if ttl <= 0 then DEFAULT_LEASE_TTL else ttl;
    }

    /** Removes every expired lease; the revision moves once if any was. */
    method ExpireLocked(now: int)
      modifies this
      ensures Value() == Expire(old(Value()), now)
    {
      ghost var before := workers;
      var removed := false;
      var todo := workers.Keys;
      ghost var done: set<string> := {};
      while todo != {}
        invariant todo + done == before.Keys && todo !! done && revision == old(revision)
        invariant workers == map k | k in before && (k in done ==> !Expired(before[k], now)) :: before[k]
        invariant removed <==> workers != before
        decreases todo
      {
        var id :| id in todo;
        ExpireStep(before, workers, done, id, now);
        if Expired(workers[id], now) {
          assert id in before && id !in workers - {id};
          workers := workers - {id};
          removed := true;
        }
        todo, done := todo - {id}, done + {id};
      }
      assert done == before.Keys;
      if removed { revision := revision + 1; }
    }

    /** The first conflicting lease in iteration order, if any. */
    method Conflict(input: Registration) returns (error: Option<RegistryError>)
      ensures error.Some? <==> Taken(Value(), input)
      ensures error == Some(DuplicateInstance) ==> InstanceTaken(Value(), input)
      ensures error == Some(DuplicateEndpoint) ==> EndpointTaken(Value(), input)
      ensures error.Some? ==> error.value == DuplicateInstance || error.value == DuplicateEndpoint
    {
      var todo := workers.Keys;
      while todo != {}
        invariant todo <= workers.Keys
        invariant forall id :: id in workers && id !in todo && id != input.id ==>
                    workers[id].InstanceID() != input.instanceID && workers[id].registration.endpoint != input.endpoint
        decreases todo
      {
        var id :| id in todo;
        todo := todo - {id};
        if id != input.id {
          if workers[id].InstanceID() == input.instanceID { return Some(DuplicateInstance); }
          if workers[id].registration.endpoint == input.endpoint { return Some(DuplicateEndpoint); }
        }
      }
      return None;
    }

    method Register(input: Registration, statusFresh: bool, now: int) returns (error: Option<RegistryError>)
      modifies this
      ensures (Value(), error.None?) == Leases.Register(old(Value()), input, statusFresh, now)
    {
      hide RegistrationValid, Taken, Worker.StatusFresh, Expire;
      if !RegistrationValid(input) { return Some(InvalidInput); }
      ExpireLocked(now);
      error := Conflict(input);
      if error.Some? { return; }
      if input.id in workers {
        var existing := workers[input.id];
        if existing.InstanceID() != input.instanceID { return Some(DuplicateWorker); }
        var stored, statusObservedAt := input, existing.statusObservedAt;
        if statusFresh { statusObservedAt := Some(now); } else { stored := input.(status := existing.Status()); }
        workers := workers[input.id := Worker(stored, existing.registeredAt, now, now + ttl, statusObservedAt)];
        if existing.registration != stored || (statusFresh && !existing.StatusFresh(now, ttl)) { revision := revision + 1; }
        return None;
      }
      var statusObservedAt: Option<int> := if statusFresh then Some(now) else None;
      workers := workers[input.id := Worker(input, now, now, now + ttl, statusObservedAt)];
      revision := revision + 1;
      return None;
    }

    method Heartbeat(id: string, instanceID: string, status: Option<Status>, now: int) returns (error: Option<RegistryError>)
      modifies this
      ensures (Value(), error) == Leases.Heartbeat(old(Value()), id, instanceID, status, now)
    {
      hide IdentityValid, StatusValid, Worker.StatusFresh;
      if !IdentityValid(id) || !IdentityValid(instanceID) { return Some(InvalidInput); }
      var found := id in workers;
      if found && Expired(workers[id], now) {
        workers := workers - {id};
        revision := revision + 1;
        ExpireLocked(now);
        return Some(LeaseExpired);
      }
      ExpireLocked(now);
      if !found { return Some(WorkerNotFound); }
      var existing := workers[id];
      if existing.InstanceID() != instanceID { return Some(StaleInstance); }
      var statusChanged := false;
      var updated := existing.(lastSeen := now, expiresAt := now + ttl);
      if status.Some? {
        if !StatusValid(status.value, existing.registration.capabilities) { return Some(InvalidInput); }
        statusChanged := existing.Status() != status.value || !existing.StatusFresh(now, ttl);
        updated := updated.(registration := existing.registration.(status := status.value), statusObservedAt := Some(now));
      }
      workers := workers[id := updated];
      if statusChanged { revision := revision + 1; }
      return None;
    }

    method Remove(id: string, instanceID: string, now: int) returns (error: Option<RegistryError>)
      modifies this
      ensures (Value(), error) == Leases.Remove(old(Value()), id, instanceID, now)
    {
      hide IdentityValid;
      if !IdentityValid(id) || !IdentityValid(instanceID) { return Some(InvalidInput); }
      var found := id in workers;
      if found && Expired(workers[id], now) {
        workers := workers - {id};
        revision := revision + 1;
        ExpireLocked(now);
        return Some(LeaseExpired);
      }
      ExpireLocked(now);
      if !found { return Some(WorkerNotFound); }
      if workers[id].InstanceID() != instanceID { return Some(StaleInstance); }
      workers := workers - {id};
      revision := revision + 1;
      return None;
    }

    /** The live leases, each listed once. */
    method Snapshot(now: int) returns (inventory: Inventory)
      modifies this
      ensures Value() == Expire(old(Value()), now)
      ensures inventory.revision == revision % TWO_64 && inventory.generatedAt == now && inventory.leaseTTL == ttl
      ensures forall w :: w in inventory.workers <==> exists id :: id in workers && workers[id] == w
      ensures |inventory.workers| == |workers|
    {
      ExpireLocked(now);
      var listed: seq<Worker> := [];
      var todo := workers.Keys;
      ghost var done: set<string> := {};
      while todo != {}
        invariant todo + done == workers.Keys && todo !! done && |listed| == |done|
        invariant Value() == Expire(old(Value()), now)
        invariant forall w :: w in listed <==> exists id :: id in done && workers[id] == w
        decreases todo
      {
        var id :| id in todo;
        ghost var before := listed;
        listed := listed + [workers[id]];
        forall w ensures w in listed <==> exists k :: k in done + {id} && workers[k] == w {
          if w in before { var k :| k in done && workers[k] == w; assert k in done + {id}; }
          if exists k :: k in done + {id} && workers[k] == w {
            var k :| k in done + {id} && workers[k] == w;
            assert k == id || k in done;
          }
        }
        todo, done := todo - {id}, done + {id};
      }
      assert done == workers.Keys && |workers| == |workers.Keys|;
      return Inventory(revision % TWO_64, now, ttl, listed);
    }
  }
}

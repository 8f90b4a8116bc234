/** What the registry guarantees of the inventories it hands to planning and
    admission. */
module MeshInputs {
  import opened Membership
  import opened PlanPaths
  import opened PlanOptions
  import Leases
  import WorkerKeys

  /** Every listed worker is a lease of the registry. */
  ghost predicate Listing(s: Leases.State, inventory: Inventory) {
    forall w :: w in inventory.workers ==> exists id :: id in s.workers && s.workers[id] == w
  }

  /** In every run of the registry, a listed inventory has usable worker IDs, counters
      that scoring accepts and positive limits: what planning and admission rely on. */
  lemma RegistryInventoryIsUsable(s: Leases.State, calls: seq<Leases.Timed>, inventory: Inventory)
    requires Leases.Unique(s) && Listing(Leases.Run(s, calls), inventory)
    ensures RegisteredIDs(inventory)
    ensures forall edge: Edge :: edge.charge.worker in inventory.workers ==> CountersValid(edge)
    ensures forall w :: w in inventory.workers ==>
              w.Admission().maxConcurrentRequests > 0 && w.Admission().maxOpenSequencesPerShard > 0
  {
    hide Leases.IdentityValid;
    var after := Leases.Run(s, calls);
    Leases.RunKeepsUnique(s, calls);
    forall w | w in inventory.workers
      ensures Leases.WorkerValid(w) && w.ID() != "" && WorkerKeys.NUL !in w.ID()
    {
      var id :| id in after.workers && after.workers[id] == w;
      Leases.IdentityIsKeyPart(w.ID());
    }
  }
}

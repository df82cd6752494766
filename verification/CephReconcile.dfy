// Reconcile of the ceph plugin and finalizeDataset, call by call, and why Datasets of
// the same name in different namespaces keep out of each other's way.
module CephReconcile {
  import opened GoText
  import K = Kube
  import opened CephPlugin

  // --------------------------------------------------------------- finalizeDataset

  function ErrOf<T>(r: K.Reply<T>): Err {
    match r case Ok(_) => Nil case NotFound => NotThere case Failed => Other
  }

  method FinalizeDataset(c: Cluster) returns (result: Err, ghost fails: Lookups)
    requires c.Valid() && Finalized(c.ns, c.w) && Marked(c.ns, c.w)
    modifies c
    ensures c.Valid() && old(c.run) <= c.run
    ensures Finalized(c.ns, c.w) && Marked(c.ns, c.w)
    ensures old(c.Settled()) ==> if c.finishes && result != Nil then c.Settled() else Tidy(c.run)
    ensures c.quiet && c.writable ==> (c.w, result) == Finalization(old(c.w), fails)
    ensures c.readable ==> fails == AllAnswer
  {
    fails := AllAnswer;
    var user := c.GetUser();
    var err := ErrOf(user);
    if user.Failed? {
      fails := fails.(user := true);
      return err, fails;
    } else if user.Ok? {
      var ok := c.DeleteUserObject();
      if !ok {
        return Other, fails;
      }
    }
    result, fails := FinalizeStoreAndRest(c, err);
  }

  // finalizeDataset from the store on; `err` is what the lookup of the user returned.
  method FinalizeStoreAndRest(c: Cluster, err: Err) returns (result: Err, ghost fails: Lookups)
    requires c.Valid() && Finalized(c.ns, c.w) && Marked(c.ns, c.w)
    modifies c
    ensures c.Valid() && old(c.run) <= c.run
    ensures Finalized(c.ns, c.w) && Marked(c.ns, c.w)
    ensures old(c.Settled()) ==> if c.finishes && result != Nil then c.Settled() else Tidy(c.run)
    ensures c.quiet && c.writable && old(c.w).user.None? ==>
              if fails.store then c.w == old(c.w) && result == err
              else (c.w, result) == Finalization(old(c.w), fails)
    ensures !fails.user && (c.readable ==> fails == AllAnswer)
  {
    fails := AllAnswer;
    var store := c.GetStore();
    if store.Failed? {
      fails := fails.(store := true);
      return err, fails;
    } else if store.Ok? {
      var ok := c.DeleteStoreObject();
      if !ok {
        return Other, fails;
      }
    }
    result, fails := FinalizeSecretAndLock(c);
  }

  // The second half of finalizeDataset.
  method FinalizeSecretAndLock(c: Cluster) returns (result: Err, ghost fails: Lookups)
    requires c.Valid() && Finalized(c.ns, c.w) && Marked(c.ns, c.w)
    modifies c
    ensures c.Valid() && old(c.run) <= c.run
    ensures Finalized(c.ns, c.w) && Marked(c.ns, c.w)
    ensures old(c.Settled()) ==> if c.finishes && result != Nil then c.Settled() else Tidy(c.run)
    ensures c.quiet && c.writable && old(c.w).user.None? && old(c.w).store.None? ==>
              (c.w, result) == Finalization(old(c.w), fails)
    ensures !fails.user && !fails.store && (c.readable ==> fails == AllAnswer)
  {
    fails := AllAnswer;
    var secret := c.GetUserSecret();
    var err := ErrOf(secret);
    if secret.Failed? {
      fails := fails.(secret := true);
      return err, fails;
    } else if secret.Ok? {
      var ok := c.DeleteSecretObject();
      if !ok {
        return Other, fails;
      }
    }
    var configMap := c.GetConfigMap();
    if configMap.Failed? {
      fails := fails.(configMap := true);
      return err, fails;
    } else if configMap.Ok? {
      var ok := c.DeleteConfigMapObject();
      if !ok {
        return Other, fails;
      }
    }
    return Nil, fails;
  }

  // The branch of Reconcile for a marked Dataset that carries the finalizer.
  method FinalizeAndRelease(c: Cluster, instance: Dataset) returns (ok: bool)
    requires c.Valid() && Finalized(c.ns, c.w) && Marked(c.ns, c.w)
    modifies c
    ensures c.Valid() && old(c.run) <= c.run
    ensures c.finishes && old(c.Settled()) ==> c.Settled()
    ensures c.quiet && c.readable && c.writable && old(c.w).datasets[c.ns] == instance ==>
              c.w == DropFinalizer(c.ns, Finalization(old(c.w), AllAnswer).0)
  {
    var err, _ := FinalizeDataset(c);
    if err != Nil {
      return false;
    }
    ok := c.RemoveFinalizerFrom(instance);
  }

  // ------------------------------------------------------- updateCachingPlacements

  method PlacementsFor(nodes: seq<string>, before: seq<Placement>) returns (placements: seq<Placement>)
    ensures placements == before + PlacementsOf(nodes)
  {
    placements := before;
    for n := 0 to |nodes|
      invariant placements == before + PlacementsOf(nodes[..n])
    {
      placements := placements + [Placement(HOSTNAME, nodes[n])];
      assert PlacementsOf(nodes[..n + 1]) == PlacementsOf(nodes[..n]) + [Placement(HOSTNAME, nodes[n])];
    }
    assert nodes[..|nodes|] == nodes;
  }

  // Fills in a copy of the DatasetInternal; the caller writes it only when `ok`.
  method UpdateCachingPlacements(c: Cluster, d: Dataset, di: Internal)
      returns (needed: bool, ok: bool, updated: Internal, ghost rgw: seq<string>, ghost osd: seq<string>)
    requires c.Valid()
    modifies c
    ensures c.Valid() && Calm(old(c.run), c.run)
    ensures c.quiet ==> c.w == old(c.w)
    ensures needed <==> NeedsPlacements(d, di)
    ensures needed && ok ==> rgw != [] && osd != [] && RgwListed(c.run, rgw) && OsdListed(c.run, osd)
    ensures needed && ok ==>
              updated == di.(gateways := di.gateways + PlacementsOf(rgw), dataLocations := di.dataLocations + PlacementsOf(osd))
    ensures c.quiet && c.readable && needed ==>
              (ok <==> c.w.rgwPods != [] && c.w.osdPods != []) && (ok ==> rgw == c.w.rgwPods && osd == c.w.osdPods)
  {
    needed, ok, updated, rgw, osd := NeedsPlacements(d, di), true, di, [], [];
    if needed {
      var listed, nodes := c.ListRgwPods();
      ghost var listing := c.run;
      rgw := nodes;
      if !listed || |nodes| == 0 {
        ok := false;
        return;
      }
      var gateways := PlacementsFor(nodes, updated.gateways);
      updated := updated.(gateways := gateways);
      listed, nodes := c.ListOsdPods();
      assert forall e <- listing :: e in c.run;
      osd := nodes;
      if !listed || |nodes| == 0 {
        ok := false;
        return;
      }
      var dataLocations := PlacementsFor(nodes, updated.dataLocations);
      updated := updated.(dataLocations := dataLocations);
    }
  }

  // The branch of Reconcile for an existing DatasetInternal.
  method UpdatePlacements(c: Cluster, d: Dataset, di: Internal) returns (ok: bool)
    requires c.Valid() && (di.gateways == [] <==> di.dataLocations == [])
    modifies c
    ensures c.Valid() && Calm(old(c.run), c.run)
    ensures c.quiet && c.readable && c.writable && c.ns in old(c.w).internals && old(c.w).internals[c.ns] == di ==>
              c.w == Place(c.ns, d, old(c.w))
  {
    var needed, done, updated, rgw, osd := UpdateCachingPlacements(c, d, di);
    ok := done;
    if done && needed {
      assert di.gateways + PlacementsOf(rgw) == PlacementsOf(rgw);
      assert di.dataLocations + PlacementsOf(osd) == PlacementsOf(osd);
      ok := c.WritePlacementsOf(di, updated, rgw, osd);
    }
  }

  // ------------------------------------------------------------ the provisioning chain

  // Each link stops the reconcile unless its object is there, owned and ready.
  method EnsureConfigMap(c: Cluster, id: Id) returns (stop: bool)
    requires c.Valid() && id.namespace == c.ns
    modifies c
    ensures c.Valid() && Calm(old(c.run), c.run)
    ensures !stop ==> Seen(c.name, id, c.run) >= LOCK
    ensures c.quiet && c.readable && c.writable ==>
              if old(c.w).configMap.None? then stop && c.w == old(c.w).(configMap := Some(LabelsOf(c.name, id)))
              else c.w == old(c.w) && (stop <==> !LockHeld(c.name, id, c.w))
  {
    var configMap := c.GetConfigMap();
    if configMap.NotFound? {
      var _ := c.CreateConfigMapObject(id);
      return true;
    }
    stop := configMap.Failed? || !IsSameCephObject(configMap.value, c.name, id);
  }

  predicate StoreReady(name: string, id: Id, w: World) {
    OwnStore(name, id, w) && w.store.value.phase == Some(CONNECTED) && w.rgwPods != []
  }

  method EnsureStore(c: Cluster, id: Id) returns (stop: bool)
    requires c.Valid() && id.namespace == c.ns && Seen(c.name, id, c.run) >= LOCK
    modifies c
    ensures c.Valid() && Calm(old(c.run), c.run)
    ensures !stop ==> Seen(c.name, id, c.run) >= STORE
    ensures c.quiet && c.readable && c.writable ==>
              if old(c.w).store.None? then stop && c.w == old(c.w).(store := Some(Store(LabelsOf(c.name, id), None)))
              else c.w == old(c.w) && (stop <==> !StoreReady(c.name, id, c.w))
  {
    var store := c.GetStore();
    CalmSeen(c.name, id, old(c.run), c.run);
    if store.NotFound? {
      var _ := c.CreateStoreObject(id);
      return true;
    }
    if store.Failed? || !IsSameCephObject(store.value.labels, c.name, id) {
      return true;
    }
    if store.value.phase.None? || store.value.phase.value != CONNECTED {
      return true;
    }
    ghost var before := c.run;
    var ok, rgwPods := c.ListRgwPods();
    CalmSeen(c.name, id, before, c.run);
    stop := !ok || |rgwPods| == 0;
  }

  method EnsureUser(c: Cluster, id: Id) returns (stop: bool)
    requires c.Valid() && id.namespace == c.ns && Seen(c.name, id, c.run) >= STORE
    modifies c
    ensures c.Valid() && Calm(old(c.run), c.run)
    ensures !stop ==> Seen(c.name, id, c.run) >= USER
    ensures c.quiet && c.readable && c.writable ==>
              if old(c.w).user.None? then stop && c.w == old(c.w).(user := Some(LabelsOf(c.name, id)))
              else c.w == old(c.w) && (stop <==> !OwnUser(c.name, id, c.w))
  {
    var user := c.GetUser();
    CalmSeen(c.name, id, old(c.run), c.run);
    if user.NotFound? {
      var _ := c.CreateUserObject(id);
      return true;
    }
    stop := user.Failed? || !IsSameCephObject(user.value, c.name, id);
  }

  // The end of the chain.  The finalizer comes last, after the DatasetInternal.
  method MakeInternal(c: Cluster, d: Dataset) returns (ok: bool)
    requires c.Valid() && Seen(c.name, IdOf(c.ns, d), c.run) >= USER
    modifies c
    ensures c.Valid() && Calm(old(c.run), c.run)
    ensures c.quiet && c.readable && c.writable && c.ns in old(c.w).datasets && old(c.w).datasets[c.ns] == d
            && c.ns !in old(c.w).internals && !d.deleting ==>
              var secret, service := old(c.w).userSecret, old(c.w).service;
              if secret.None? || service.None? || service.value.foreign then c.w == old(c.w)
              else c.w == old(c.w).(internals := old(c.w).internals[c.ns := NewInternal(d, secret.value, service.value)],
                                    datasets := old(c.w).datasets[c.ns := d.(finalizers := d.finalizers + {FINALIZER})])
  {
    var id := IdOf(c.ns, d);
    var secret := c.GetUserSecret();
    if !secret.Ok? {
      return secret.NotFound?;
    }
    var service := c.GetService();
    CalmSeen(c.name, id, old(c.run), c.run);
    if !service.Ok? {
      return service.NotFound?;
    }
    if service.value.foreign {
      return true;
    }
    ok := CreateGuarded(c, d, NewInternal(d, secret.value, service.value));
  }

  // The new DatasetInternal and then the finalizer.
  method CreateGuarded(c: Cluster, d: Dataset, di: Internal) returns (ok: bool)
    requires c.Valid() && Seen(c.name, IdOf(c.ns, d), c.run) >= USER
    requires di.gateways == [] && di.dataLocations == []
    modifies c
    ensures c.Valid() && Calm(old(c.run), c.run)
    ensures c.quiet && c.writable && c.ns in old(c.w).datasets && old(c.w).datasets[c.ns] == d
            && c.ns !in old(c.w).internals && !d.deleting ==>
              c.w == old(c.w).(internals := old(c.w).internals[c.ns := di],
                               datasets := old(c.w).datasets[c.ns := d.(finalizers := d.finalizers + {FINALIZER})])
  {
    ok := c.CreateInternalObject(IdOf(c.ns, d), di);
    if !ok {
      return;
    }
    if FINALIZER !in d.finalizers {
      ok := c.AddFinalizerTo(d);
    } else {
      assert d.finalizers + {FINALIZER} == d.finalizers;
    }
  }

  // The chain from the first lookup to the new DatasetInternal.
  method ProvisionChain(c: Cluster, d: Dataset) returns (ok: bool)
    requires c.Valid()
    modifies c
    ensures c.Valid() && Calm(old(c.run), c.run)
    ensures c.quiet && c.readable && c.writable && c.ns in old(c.w).datasets && old(c.w).datasets[c.ns] == d
            && c.ns !in old(c.w).internals && !d.deleting ==>
              c.w == Provision(c.name, c.ns, d, old(c.w))
  {
    var id := IdOf(c.ns, d);
    ok := true;
    var stop := EnsureConfigMap(c, id);
    if stop {
      return;
    }
    stop := EnsureStore(c, id);
    if stop {
      return;
    }
    stop := EnsureUser(c, id);
    if stop {
      return;
    }
    ok := MakeInternal(c, d);
  }

  // Whatever others do in between and whichever calls fail, every step of a reconcile is
  // one that `Does` describes and rests on what was read before.  If the last two writes
  // of finalisations do not fail, none is taken up again after its ConfigMap is deleted.
  method Reconcile(c: Cluster) returns (ok: bool)
    requires c.Valid()
    modifies c
    ensures c.Valid() && old(c.run) <= c.run
    ensures c.finishes && old(c.Settled()) ==> c.Settled()
    ensures c.quiet && c.readable && c.writable ==> c.w == ReconcileCeph(c.name, c.ns, old(c.w))
  {
    var reply := c.GetDataset();
    if !reply.Ok? {
      return reply.NotFound?;
    }
    var d := reply.value;
    if d.deleting {
      ok := true;
      if FINALIZER in d.finalizers {
        ok := FinalizeAndRelease(c, d);
      }
      return;
    }
    var internal := c.GetInternal();
    if internal.Ok? {
      ok := UpdatePlacements(c, d, internal.value);
      CalmKeeps(old(c.run), c.run);
      return;
    } else if internal.Failed? {
      return false;
    }
    var listed, clusters := c.CountClusters();
    if !listed {
      var _ := c.AddErrorToDataset("cannot lookup ceph clusters", d);
      return false;
    } else if clusters == 0 {
      var _ := c.AddErrorToDataset("no ceph clusters available", d);
      return false;
    }
    ok := ProvisionChain(c, d);
    CalmKeeps(old(c.run), c.run);
  }
}

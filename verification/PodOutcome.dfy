// What the webhook does to a pod, said of the patched pod itself.
module PodOutcome {
  import opened GoText
  import opened PodPatch
  import opened DatasetLabels
  import opened LabelTheorems
  import opened DatasetPatch
  import opened PatchTheorems
  import opened InjectionTheorems
  import opened EnvironmentTheorems
  import opened Webhook

  type Requests = map<Int64, Request>

  // The requests of a pod, looked up.
  ghost function RequestsOf(pod: Pod, order: seq<string>, store: Store): Requests
    requires (forall k <- order :: k in pod.labels) && ParseLabels(pod.labels, order).Some?
  {
    Resolved(ParseLabels(pod.labels, order).value.requests, store)
  }

  ghost predicate PatchedTo(pod: Pod, order: seq<string>, store: Store, unreachable: set<string>, o: Orders, pod': Pod) {
    && KubeNames(store) && Iterates(pod, order, store, o)
    && Admit(pod, order, store, unreachable, o).Patched?
    && ApplyAll(pod, Admit(pod, order, store, unreachable, o).ops) == Some(pod')
  }

  ghost predicate Claimed(pod: Pod, name: string) {
    exists v <- Items(pod.volumes) :: v.claim.Some? && v.claim.value.claimName == name
  }

  // Asked to be mounted, and no volume of the pod claims it yet.
  ghost predicate ToMount(pod: Pod, requests: Requests, i: Int64) {
    i in requests && "mount" in requests[i].uses && !Claimed(pod, requests[i].name)
  }

  ghost predicate Mounts(c: Container, name: string) {
    exists m <- Items(c.volumeMounts) :: m.name == name
  }

  // --------------------------------------------------------- picking requests in order

  // The members of `keys` that are in `wanted`, in the same order.
  function Pick(keys: seq<Int64>, wanted: set<Int64>): seq<Int64> {
    if keys == [] then []
    else
      var n := |keys| - 1;
      Pick(keys[..n], wanted) + if keys[n] in wanted then [keys[n]] else []
  }

  lemma {:induction false} PickExact(keys: seq<Int64>, wanted: set<Int64>)
    ensures forall i :: i in Pick(keys, wanted) <==> i in keys && i in wanted
    ensures Ascending(keys) ==> Ascending(Pick(keys, wanted))
  {
    if keys != [] {
      var n := |keys| - 1;
      PickExact(keys[..n], wanted);
      assert keys == keys[..n] + [keys[n]];
      var front := Pick(keys[..n], wanted);
      if Ascending(keys) {
        forall j | 0 <= j < |front| ensures front[j] < keys[n] {
          assert front[j] in front;
        }
      }
    }
  }

  function AtAll(requests: Requests, keys: seq<Int64>): seq<Request> {
    seq(|keys|, n requires 0 <= n < |keys| => At(requests, keys[n]))
  }

  lemma AtAllStep(requests: Requests, keys: seq<Int64>, i: Int64)
    ensures AtAll(requests, keys + [i]) == AtAll(requests, keys) + [At(requests, i)]
    ensures NamesOf(AtAll(requests, keys + [i])) == NamesOf(AtAll(requests, keys)) + [At(requests, i).name]
  {
  }

  lemma UnclaimedStep(rs: seq<Request>, r: Request, claimed: set<string>)
    ensures UnclaimedMounts(rs + [r], claimed) ==
            UnclaimedMounts(rs, claimed) + if "mount" in r.uses && r.name !in claimed then [r] else []
  {
    assert (rs + [r])[..|rs|] == rs;
  }

  lemma MissingNext(rs: seq<Request>, r: Request, names: seq<string>)
    ensures Missing(rs + [r], names) == Missing(rs, names) + if r.name in names then [] else [r.name]
  {
    assert (rs + [r])[..|rs|] == rs;
  }

  lemma {:induction false} PickMounts(requests: Requests, keys: seq<Int64>, claimed: set<string>, wanted: set<Int64>)
    requires forall i <- keys :: i in wanted <==> "mount" in At(requests, i).uses && At(requests, i).name !in claimed
    ensures UnclaimedMounts(AtAll(requests, keys), claimed) == AtAll(requests, Pick(keys, wanted))
  {
    if keys != [] {
      var front, i := keys[..|keys| - 1], keys[|keys| - 1];
      assert keys == front + [i];
      PickMounts(requests, front, claimed, wanted);
      AtAllStep(requests, front, i);
      AtAllStep(requests, Pick(front, wanted), i);
      UnclaimedStep(AtAll(requests, front), At(requests, i), claimed);
    }
  }

  lemma {:induction false} PickMissing(requests: Requests, keys: seq<Int64>, names: seq<string>, wanted: set<Int64>)
    requires forall i <- keys :: i in wanted <==> At(requests, i).name !in names
    ensures Missing(AtAll(requests, keys), names) == NamesOf(AtAll(requests, Pick(keys, wanted)))
  {
    if keys != [] {
      var front, i := keys[..|keys| - 1], keys[|keys| - 1];
      assert keys == front + [i];
      PickMissing(requests, front, names, wanted);
      AtAllStep(requests, front, i);
      AtAllStep(requests, Pick(front, wanted), i);
      MissingNext(AtAll(requests, front), At(requests, i), names);
    }
  }

  lemma {:induction false} ConfigsWantedExact(requests: seq<Request>, d: string)
    ensures d in ConfigsWanted(requests) <==> exists r <- requests :: "configmap" in r.uses && r.name == d
  {
    if requests != [] {
      var front, r := requests[..|requests| - 1], requests[|requests| - 1];
      ConfigsWantedExact(front, d);
      assert requests == front + [r];
    }
  }

  // ---------------------------------------------------------------------- the plan

  ghost function MountKeys(pod: Pod, requests: Requests): set<Int64> {
    set i | i in requests && ToMount(pod, requests, i)
  }

  ghost predicate Configured(requests: Requests, d: string) {
    exists i: Int64 :: i in requests && "configmap" in requests[i].uses && requests[i].name == d
  }

  lemma ConfiguredExact(requests: Requests, d: string)
    ensures d in ConfigsWanted(InIndexOrder(requests)) <==> Configured(requests, d)
  {
    var all, sorted := InIndexOrder(requests), SortedKeys(requests.Keys);
    ConfigsWantedExact(all, d);
    if Configured(requests, d) {
      var i: Int64 :| i in requests && "configmap" in requests[i].uses && requests[i].name == d;
      var n :| 0 <= n < |sorted| && sorted[n] == i;
      assert all[n] == requests[i];
    }
    if r :| r in all && "configmap" in r.uses && r.name == d {
      var n :| 0 <= n < |all| && all[n] == r;
      assert sorted[n] in sorted && requests[sorted[n]] == r;
    }
  }

  lemma MountKeysExact(pod: Pod, requests: Requests)
    ensures var keys := Pick(SortedKeys(requests.Keys), MountKeys(pod, requests));
            && Ascending(keys) && (forall i: Int64 :: i in keys <==> ToMount(pod, requests, i))
            && UnclaimedMounts(InIndexOrder(requests), ClaimedBy(Items(pod.volumes))) == AtAll(requests, keys)
  {
    var claimed := ClaimedBy(Items(pod.volumes));
    var sorted, wanted := SortedKeys(requests.Keys), MountKeys(pod, requests);
    PickExact(sorted, wanted);
    forall i | i in sorted ensures i in wanted <==> "mount" in At(requests, i).uses && At(requests, i).name !in claimed {
    }
    PickMounts(requests, sorted, claimed, wanted);
    assert InIndexOrder(requests) == AtAll(requests, sorted);
  }

  lemma PlanMeaning(pod: Pod, requests: Requests)
    requires Accepted(requests) && PlanAll(InIndexOrder(requests), ClaimedBy(Items(pod.volumes))).Some?
    ensures var plan := PlanAll(InIndexOrder(requests), ClaimedBy(Items(pod.volumes))).value;
            var keys := Pick(SortedKeys(requests.Keys), MountKeys(pod, requests));
            && Ascending(keys) && (forall i: Int64 :: i in keys <==> ToMount(pod, requests, i))
            && plan.mounts == AtAll(requests, keys)
            && forall d :: d in plan.configs <==> Configured(requests, d)
  {
    InIndexOrderAccepted(requests);
    PlanExact(InIndexOrder(requests), ClaimedBy(Items(pod.volumes)));
    MountKeysExact(pod, requests);
    forall d ensures d in ConfigsWanted(InIndexOrder(requests)) <==> Configured(requests, d) {
      ConfiguredExact(requests, d);
    }
  }

  // ------------------------------------------------------------------ the patched pod

  lemma PatchedIsInjected(pod: Pod, order: seq<string>, store: Store, unreachable: set<string>, o: Orders, pod': Pod)
    requires PatchedTo(pod, order, store, unreachable, o, pod')
    ensures Accepted(RequestsOf(pod, order, store))
    ensures PlanFor(pod, order, store).Some? && pod' == Inject(pod, PlanFor(pod, order, store).value, o)
    ensures PlanFor(pod, order, store) == PlanAll(InIndexOrder(RequestsOf(pod, order, store)), ClaimedBy(Items(pod.volumes)))
    ensures forall i :: i in RequestsOf(pod, order, store) ==>
              var r := RequestsOf(pod, order, store)[i]; r.name in store && r.local == store[r.name]
  {
    PatchCorrect(pod, PlanFor(pod, order, store).value, o);
    ParsedRequestsAccepted(pod.labels, order, store, unreachable);
    var parsed := ParseLabels(pod.labels, order).value.requests;
    assert forall i :: i in parsed ==> Found(parsed[i], store, unreachable);
  }

  // The patched pod has the old volumes, then one for each dataset to mount, in the order
  // of the indices: it claims the PVC of that name, read-only if the dataset says so.
  lemma VolumesAfter(pod: Pod, order: seq<string>, store: Store, unreachable: set<string>, o: Orders, pod': Pod)
    returns (keys: seq<Int64>)
    requires PatchedTo(pod, order, store, unreachable, o, pod')
    ensures Ascending(keys) && forall i: Int64 :: i in keys <==> ToMount(pod, RequestsOf(pod, order, store), i)
    ensures var was, now := Items(pod.volumes), Items(pod'.volumes);
            && |now| == |was| + |keys| && now[..|was|] == was
            && forall n :: 0 <= n < |keys| ==>
                 var name := At(RequestsOf(pod, order, store), keys[n]).name;
                 && name in store
                 && now[|was| + n] == Volume(name, Some(ClaimSource(name, Get(store[name], "readonly") == "true")))
  {
    var requests := RequestsOf(pod, order, store);
    PatchedIsInjected(pod, order, store, unreachable, o, pod');
    PlanMeaning(pod, requests);
    keys := Pick(SortedKeys(requests.Keys), MountKeys(pod, requests));
    VolumesInjected(pod, PlanFor(pod, order, store).value, o, requests, keys);
    forall n | 0 <= n < |keys| ensures At(requests, keys[n]).name in store && At(requests, keys[n]).local == store[At(requests, keys[n]).name] {
      assert keys[n] in keys && ToMount(pod, requests, keys[n]);
    }
  }

  lemma VolumesInjected(pod: Pod, plan: Plan, o: Orders, requests: Requests, keys: seq<Int64>)
    requires |o.init| == |pod.initContainers| && |o.main| == |pod.containers|
    requires plan.mounts == AtAll(requests, keys)
    ensures var was, now := Items(pod.volumes), Items(Inject(pod, plan, o).volumes);
            && |now| == |was| + |keys| && now[..|was|] == was
            && forall n :: 0 <= n < |keys| ==>
                 var r := At(requests, keys[n]);
                 now[|was| + n] == Volume(r.name, Some(ClaimSource(r.name, Get(r.local, "readonly") == "true")))
  {
    assert Items(Inject(pod, plan, o).volumes) == Items(pod.volumes) + VolumesFor(plan.mounts);
  }

  // Every init and main container has its old mounts, then one under /mnt/datasets for
  // each dataset to mount whose name it did not mount, in the order of the indices.
  lemma MountsAfter(pod: Pod, order: seq<string>, store: Store, unreachable: set<string>, o: Orders, pod': Pod,
                    kind: Kind, c: nat)
    returns (keys: seq<Int64>)
    requires PatchedTo(pod, order, store, unreachable, o, pod') && c < |pod.Containers(kind)|
    ensures |pod'.Containers(kind)| == |pod.Containers(kind)|
    ensures Ascending(keys)
    ensures forall i: Int64 :: i in keys <==> ToMount(pod, RequestsOf(pod, order, store), i)
                                              && !Mounts(pod.Containers(kind)[c], At(RequestsOf(pod, order, store), i).name)
    ensures var was, now := Items(pod.Containers(kind)[c].volumeMounts), Items(pod'.Containers(kind)[c].volumeMounts);
            && |now| == |was| + |keys| && now[..|was|] == was
            && forall n :: 0 <= n < |keys| ==>
                 var name := At(RequestsOf(pod, order, store), keys[n]).name;
                 now[|was| + n] == VolumeMount(name, "/mnt/datasets/" + name)
  {
    var requests := RequestsOf(pod, order, store);
    PatchedIsInjected(pod, order, store, unreachable, o, pod');
    PlanMeaning(pod, requests);
    var all := Pick(SortedKeys(requests.Keys), MountKeys(pod, requests));
    keys := MissingKeys(requests, all, pod.Containers(kind)[c]);
    MountsInjected(pod, PlanFor(pod, order, store).value, o, kind, c, requests, all, keys);
  }

  lemma MountsInjected(pod: Pod, plan: Plan, o: Orders, kind: Kind, c: nat, requests: Requests, all: seq<Int64>, keys: seq<Int64>)
    requires |o.init| == |pod.initContainers| && |o.main| == |pod.containers| && c < |pod.Containers(kind)|
    requires plan.mounts == AtAll(requests, all)
    requires Missing(AtAll(requests, all), MountNames(pod.Containers(kind)[c])) == NamesOf(AtAll(requests, keys))
    ensures |Inject(pod, plan, o).Containers(kind)| == |pod.Containers(kind)|
    ensures var was, now := Items(pod.Containers(kind)[c].volumeMounts), Items(Inject(pod, plan, o).Containers(kind)[c].volumeMounts);
            && |now| == |was| + |keys| && now[..|was|] == was
            && forall n :: 0 <= n < |keys| ==>
                 var name := At(requests, keys[n]).name;
                 now[|was| + n] == VolumeMount(name, "/mnt/datasets/" + name)
  {
    var x := pod.Containers(kind)[c];
    var names := NamesOf(AtAll(requests, keys));
    assert Inject(pod, plan, o).Containers(kind)[c].volumeMounts == MountTarget(x, plan.mounts);
    assert Items(MountTarget(x, plan.mounts)) == Items(x.volumeMounts) + MountsFor(names);
  }

  lemma MissingKeys(requests: Requests, all: seq<Int64>, x: Container) returns (keys: seq<Int64>)
    requires Ascending(all)
    ensures Ascending(keys)
    ensures forall i :: i in keys <==> i in all && !Mounts(x, At(requests, i).name)
    ensures Missing(AtAll(requests, all), MountNames(x)) == NamesOf(AtAll(requests, keys))
  {
    var wanted := set i | i in all && !Mounts(x, At(requests, i).name);
    forall name ensures name in MountNames(x) <==> Mounts(x, name) {
      if name in MountNames(x) {
        var n :| 0 <= n < |MountNames(x)| && MountNames(x)[n] == name;
        assert Items(x.volumeMounts)[n] in Items(x.volumeMounts);
      }
      if Mounts(x, name) {
        var m :| m in Items(x.volumeMounts) && m.name == name;
        var n :| 0 <= n < |Items(x.volumeMounts)| && Items(x.volumeMounts)[n] == m;
        assert MountNames(x)[n] == name;
      }
    }
    keys := Pick(all, wanted);
    PickExact(all, wanted);
    PickMissing(requests, all, MountNames(x), wanted);
  }

  // Containers that differ in their mounts and sources at most.
  predicate SameContainers(cs: seq<Container>, cs': seq<Container>) {
    && |cs| == |cs'|
    && forall c :: 0 <= c < |cs| ==> cs'[c] == cs[c].(volumeMounts := cs'[c].volumeMounts, envFrom := cs'[c].envFrom)
  }

  // Nothing but the volumes, the mounts and the sources of variables is changed.
  lemma RestUnchanged(pod: Pod, order: seq<string>, store: Store, unreachable: set<string>, o: Orders, pod': Pod)
    requires PatchedTo(pod, order, store, unreachable, o, pod')
    ensures pod' == pod.(volumes := pod'.volumes, initContainers := pod'.initContainers, containers := pod'.containers)
    ensures SameContainers(pod.initContainers, pod'.initContainers) && SameContainers(pod.containers, pod'.containers)
  {
    PatchedIsInjected(pod, order, store, unreachable, o, pod');
    InjectionKeeps(pod, PlanFor(pod, order, store).value, o);
  }

  lemma InjectionKeeps(pod: Pod, plan: Plan, o: Orders)
    requires |o.init| == |pod.initContainers| && |o.main| == |pod.containers|
    ensures var pod' := Inject(pod, plan, o);
            && pod' == pod.(volumes := pod'.volumes, initContainers := pod'.initContainers, containers := pod'.containers)
            && SameContainers(pod.initContainers, pod'.initContainers) && SameContainers(pod.containers, pod'.containers)
  {
  }

  // ------------------------------------------------------------------- the variables

  ghost predicate OwnSourceNames(c: Container, d: string) {
    exists e <- Items(c.envFrom) :: e.configMapRef == Some(d) || e.secretRef == Some(d)
  }

  predicate Holds(objects: map<string, Data>, d: string, key: string) {
    d in objects && key in objects[d]
  }

  // In every container, a dataset d asked for as configmap that the container's own
  // sources do not name gives the variable d_key the value that the Secret d has for the
  // key, else the value the ConfigMap d has for it, else the variable is as it was.
  lemma VariableAfter(pod: Pod, order: seq<string>, store: Store, unreachable: set<string>, o: Orders, pod': Pod,
                      kind: Kind, c: nat, objects: Objects, d: string, key: string)
    requires PatchedTo(pod, order, store, unreachable, o, pod') && c < |pod.Containers(kind)|
    requires Configured(RequestsOf(pod, order, store), d) && !OwnSourceNames(pod.Containers(kind)[c], d)
    ensures c < |pod'.Containers(kind)|
    ensures Lookup(objects, Items(pod'.Containers(kind)[c].envFrom), d + "_" + key) ==
            if Holds(objects.secrets, d, key) then Some(objects.secrets[d][key])
            else if Holds(objects.configMaps, d, key) then Some(objects.configMaps[d][key])
            else Lookup(objects, Items(pod.Containers(kind)[c].envFrom), d + "_" + key)
  {
    var variable := d + "_" + key;
    var x := pod.Containers(kind)[c];
    var configs := PlanFor(pod, order, store).value.configs;
    var added := Unreferred(configs, Items(x.envFrom));
    VariableIsOnce(pod, order, store, unreachable, o, pod', kind, c, objects, variable);
    PrefixedValue(objects, d, key);
    LookupAppend(objects, Items(x.envFrom), SourcesFor(added), variable);
    if FromDataset(objects, d, variable).Some? {
      LookupSources(objects, added, d, variable);
    } else {
      forall e | e in added ensures FromDataset(objects, e, variable).None? {
        if e + "_" <= variable {
          assert d + "_" <= variable by { assert variable[..|d| + 1] == d + "_"; }
          PrefixNamesOne(d, e, variable);
        }
      }
      LookupSources(objects, added, d, variable);
    }
  }

  // A variable that no such dataset prefixes is as it was.
  lemma OtherVariableAfter(pod: Pod, order: seq<string>, store: Store, unreachable: set<string>, o: Orders, pod': Pod,
                           kind: Kind, c: nat, objects: Objects, variable: string)
    requires PatchedTo(pod, order, store, unreachable, o, pod') && c < |pod.Containers(kind)|
    requires forall d :: Configured(RequestsOf(pod, order, store), d) && d + "_" <= variable ==>
                         OwnSourceNames(pod.Containers(kind)[c], d)
    ensures c < |pod'.Containers(kind)|
    ensures Lookup(objects, Items(pod'.Containers(kind)[c].envFrom), variable) ==
            Lookup(objects, Items(pod.Containers(kind)[c].envFrom), variable)
  {
    var x := pod.Containers(kind)[c];
    var configs := PlanFor(pod, order, store).value.configs;
    var added := Unreferred(configs, Items(x.envFrom));
    VariableIsOnce(pod, order, store, unreachable, o, pod', kind, c, objects, variable);
    LookupAppend(objects, Items(x.envFrom), SourcesFor(added), variable);
    LookupSources(objects, added, "", variable);
  }

  lemma PrefixedValue(objects: Objects, d: string, key: string)
    ensures FromDataset(objects, d, d + "_" + key) ==
            if Holds(objects.secrets, d, key) then Some(objects.secrets[d][key])
            else if Holds(objects.configMaps, d, key) then Some(objects.configMaps[d][key])
            else None
  {
    var variable := d + "_" + key;
    assert variable[..|d| + 1] == d + "_" && variable[|d| + 1..] == key;
  }

  lemma VariableIsOnce(pod: Pod, order: seq<string>, store: Store, unreachable: set<string>, o: Orders, pod': Pod,
                       kind: Kind, c: nat, objects: Objects, variable: string)
    requires PatchedTo(pod, order, store, unreachable, o, pod') && c < |pod.Containers(kind)|
    ensures c < |pod'.Containers(kind)| && PlanFor(pod, order, store).Some?
    ensures var configs := PlanFor(pod, order, store).value.configs;
            var x := pod.Containers(kind)[c];
            var added := Unreferred(configs, Items(x.envFrom));
            && AllPlain(added)
            && (forall d :: d in added <==> Configured(RequestsOf(pod, order, store), d) && !OwnSourceNames(x, d))
            && Lookup(objects, Items(pod'.Containers(kind)[c].envFrom), variable) ==
               Lookup(objects, Items(x.envFrom) + SourcesFor(added), variable)
  {
    var x := pod.Containers(kind)[c];
    PatchedIsInjected(pod, order, store, unreachable, o, pod');
    PlanMeaning(pod, RequestsOf(pod, order, store));
    PatchedEnvironment(pod, store, unreachable, order, o, pod', kind, c, objects, variable);
    PlanIsPlain(pod, order, store, unreachable);
    var configs := PlanFor(pod, order, store).value.configs;
    forall d ensures d in Unreferred(configs, Items(x.envFrom)) <==> d in configs && !OwnSourceNames(x, d) {
      UnreferredExact(configs, Items(x.envFrom), d);
    }
  }

  // ------------------------------------------------------------------------ errors

  // The webhook refuses a pod exactly when its labels do not parse, a dataset they name is
  // not to be had, or they ask for a use other than "mount" and "configmap".
  lemma ErrorMeaning(pod: Pod, order: seq<string>, store: Store, unreachable: set<string>, o: Orders)
    requires KubeNames(store) && Iterates(pod, order, store, o)
    ensures Admit(pod, order, store, unreachable, o).Errored? <==>
            match ParseLabels(pod.labels, order)
            case None => true
            case Some(p) => exists i: Int64 :: i in p.requests && Refused(p.requests[i], store, unreachable)
  {
    match ParseLabels(pod.labels, order)
    case None =>
    case Some(p) =>
      if AllFound(p.requests, store, unreachable) {
        UnknownUse(pod, order, store, unreachable);
      } else {
        var i: Int64 :| i in p.requests && !Found(p.requests[i], store, unreachable);
        assert Refused(p.requests[i], store, unreachable);
      }
  }

  ghost predicate Refused(r: Request, store: Store, unreachable: set<string>) {
    r.name !in store || r.name in unreachable || exists use <- r.uses :: use != "mount" && use != "configmap"
  }

  lemma UnknownUse(pod: Pod, order: seq<string>, store: Store, unreachable: set<string>)
    requires KubeNames(store) && (forall k <- order :: k in pod.labels) && ParseLabels(pod.labels, order).Some?
    requires AllFound(ParseLabels(pod.labels, order).value.requests, store, unreachable)
    ensures var requests := ParseLabels(pod.labels, order).value.requests;
            PlanFor(pod, order, store).None? <==> exists i: Int64 :: i in requests && Refused(requests[i], store, unreachable)
  {
    var requests := ParseLabels(pod.labels, order).value.requests;
    var resolved := Resolved(requests, store);
    ParsedRequestsAccepted(pod.labels, order, store, unreachable);
    InIndexOrderAccepted(resolved);
    PlanExact(InIndexOrder(resolved), ClaimedBy(Items(pod.volumes)));
    UsesKnownExact(resolved);
    forall i: Int64 | i in requests ensures Refused(requests[i], store, unreachable) <==> !UsesAreKnown(resolved[i]) {
      assert Found(requests[i], store, unreachable);
    }
  }

  predicate UsesAreKnown(r: Request) {
    forall use <- r.uses :: KnownUse(use)
  }

  lemma UsesKnownExact(requests: Requests)
    ensures UsesKnown(InIndexOrder(requests)) <==> forall i: Int64 :: i in requests ==> UsesAreKnown(requests[i])
  {
    var all, sorted := InIndexOrder(requests), SortedKeys(requests.Keys);
    if UsesKnown(all) {
      forall i: Int64 | i in requests ensures UsesAreKnown(requests[i]) {
        var n :| 0 <= n < |sorted| && sorted[n] == i;
        assert all[n] == requests[i] && all[n] in all;
      }
    } else {
      var r :| r in all && !UsesAreKnown(r);
      var n :| 0 <= n < |all| && all[n] == r;
      assert sorted[n] in sorted && requests[sorted[n]] == r;
    }
  }
}

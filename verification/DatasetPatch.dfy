// PatchPodWithDatasetLabels and its helpers: from dataset requests to a JSON patch.
module DatasetPatch {
  import opened GoText
  import opened PodPatch
  import opened DatasetLabels

  // ------------------------------------------------------------------ the plan

  datatype Plan = Plan(mounts: seq<Request>, configs: seq<string>)

  function ClaimedBy(volumes: seq<Volume>): set<string> {
    set v <- volumes | v.claim.Some? :: v.claim.value.claimName
  }

  function PlanUse(plan: Plan, r: Request, use: string, claimed: set<string>): Option<Plan> {
    match use
    case "mount" => Some(if r.name in claimed then plan else plan.(mounts := plan.mounts + [r]))
    case "configmap" => Some(plan.(configs := plan.configs + [r.name]))
    case _ => None
  }

  function PlanUses(plan: Plan, r: Request, uses: seq<string>, claimed: set<string>): Option<Plan> {
    if uses == [] then Some(plan)
    else
      match PlanUses(plan, r, uses[..|uses| - 1], claimed)
      case None => None
      case Some(p) => PlanUse(p, r, uses[|uses| - 1], claimed)
  }

  function PlanAll(requests: seq<Request>, claimed: set<string>): Option<Plan> {
    if requests == [] then Some(Plan([], []))
    else
      match PlanAll(requests[..|requests| - 1], claimed)
      case None => None
      case Some(p) =>
        var r := requests[|requests| - 1];
        PlanUses(p, r, r.uses, claimed)
  }

  function InIndexOrder(requests: map<Int64, Request>): seq<Request> {
    var keys := SortedKeys(requests.Keys);
    seq(|keys|, i requires 0 <= i < |keys| => assert keys[i] in keys; requests[keys[i]])
  }

  // ------------------------------------------------------- what is put into a pod

  function VolumeFor(r: Request): Volume {
    Volume(r.name, Some(ClaimSource(r.name, Get(r.local, "readonly") == "true")))
  }

  function VolumesFor(mounts: seq<Request>): seq<Volume> {
    seq(|mounts|, i requires 0 <= i < |mounts| => VolumeFor(mounts[i]))
  }

  function MountFor(name: string): VolumeMount {
    VolumeMount(name, "/mnt/datasets/" + name)
  }

  function MountNames(c: Container): seq<string> {
    seq(|Items(c.volumeMounts)|, i requires 0 <= i < |Items(c.volumeMounts)| => Items(c.volumeMounts)[i].name)
  }

  // The datasets that a container does not mount yet, in order.
  function Missing(mounts: seq<Request>, names: seq<string>): seq<string> {
    if mounts == [] then []
    else
      var front := Missing(mounts[..|mounts| - 1], names);
      var last := mounts[|mounts| - 1].name;
      if last in names then front else front + [last]
  }

  function MountsFor(names: seq<string>): seq<VolumeMount> {
    seq(|names|, i requires 0 <= i < |names| => MountFor(names[i]))
  }

  function ConfigMapSource(d: string): EnvSource { EnvSource(d + "_", Some(d), None) }
  function SecretSource(d: string): EnvSource { EnvSource(d + "_", None, Some(d)) }

  function SourcesFor(names: seq<string>): seq<EnvSource> {
    if names == [] then []
    else
      var d := names[|names| - 1];
      SourcesFor(names[..|names| - 1]) + [ConfigMapSource(d), SecretSource(d)]
  }

  predicate RefersTo(e: EnvSource, d: string) {
    e.configMapRef == Some(d) || e.secretRef == Some(d)
  }

  predicate Refers(sources: seq<EnvSource>, d: string) {
    exists e <- sources :: RefersTo(e, d)
  }

  function Unreferred(names: seq<string>, sources: seq<EnvSource>): seq<string> {
    if names == [] then []
    else
      var front := Unreferred(names[..|names| - 1], sources);
      var last := names[|names| - 1];
      if Refers(sources, last) then front else front + [last]
  }

  predicate HasEnv(c: Container) { Items(c.envFrom) != [] }

  // `values` is never reset: every container without envFrom adds one more copy of the
  // sources, so the k-th such container receives k copies.
  function Accumulated(cs: seq<Container>, orders: seq<seq<string>>): seq<EnvSource>
    requires |orders| == |cs|
  {
    if cs == [] then []
    else
      var n := |cs| - 1;
      Accumulated(cs[..n], orders[..n]) + if HasEnv(cs[n]) then [] else SourcesFor(orders[n])
  }

  // ----------------------------------------------------------------- the operations

  function VolumeOps(start: nat, mounts: seq<Request>): seq<Op> {
    seq(|mounts|, i requires 0 <= i < |mounts| => Add(VolumeAt(start + i), AVolume(VolumeFor(mounts[i]))))
  }

  function MountOps(kind: Kind, c: nat, start: nat, names: seq<string>): seq<Op> {
    seq(|names|, i requires 0 <= i < |names| => Add(MountAt(kind, c, start + i), AMount(MountFor(names[i]))))
  }

  function AllMountOps(kind: Kind, cs: seq<Container>, mounts: seq<Request>): seq<Op> {
    if cs == [] then []
    else
      var n := |cs| - 1;
      AllMountOps(kind, cs[..n], mounts)
      + MountOps(kind, n, |Items(cs[n].volumeMounts)|, Missing(mounts, MountNames(cs[n])))
  }

  function EnvEndOps(kind: Kind, c: nat, sources: seq<EnvSource>): seq<Op> {
    seq(|sources|, i requires 0 <= i < |sources| => Add(EnvEnd(kind, c), ASource(sources[i])))
  }

  function AllEnvOps(kind: Kind, cs: seq<Container>, orders: seq<seq<string>>): seq<Op>
    requires |orders| == |cs|
  {
    if cs == [] then []
    else
      var n := |cs| - 1;
      AllEnvOps(kind, cs[..n], orders[..n])
      + if HasEnv(cs[n])
        then EnvEndOps(kind, n, SourcesFor(Unreferred(orders[n], Items(cs[n].envFrom))))
        else [Add(EnvMember(kind, n), Sources(Accumulated(cs, orders)))]
  }

  function ContainerEnvOps(kind: Kind, cs: seq<Container>, orders: seq<seq<string>>, c: nat): seq<Op>
    requires c < |cs| == |orders|
  {
    if HasEnv(cs[c]) then EnvEndOps(kind, c, SourcesFor(Unreferred(orders[c], Items(cs[c].envFrom))))
    else [Add(EnvMember(kind, c), Sources(Accumulated(cs[..c + 1], orders[..c + 1])))]
  }

  lemma EnvStep(kind: Kind, cs: seq<Container>, orders: seq<seq<string>>, c: nat)
    requires c < |cs| == |orders|
    ensures AllEnvOps(kind, cs[..c + 1], orders[..c + 1]) ==
            AllEnvOps(kind, cs[..c], orders[..c]) + ContainerEnvOps(kind, cs, orders, c)
    ensures Accumulated(cs[..c + 1], orders[..c + 1]) ==
            Accumulated(cs[..c], orders[..c]) + if HasEnv(cs[c]) then [] else SourcesFor(orders[c])
  {
    assert cs[..c + 1][..c] == cs[..c] && orders[..c + 1][..c] == orders[..c];
  }

  lemma MountStep(kind: Kind, cs: seq<Container>, mounts: seq<Request>, c: nat)
    requires c < |cs|
    ensures AllMountOps(kind, cs[..c + 1], mounts) ==
            AllMountOps(kind, cs[..c], mounts)
            + MountOps(kind, c, |Items(cs[c].volumeMounts)|, Missing(mounts, MountNames(cs[c])))
  {
    assert cs[..c + 1][..c] == cs[..c];
  }

  lemma MissingStep(kind: Kind, c: nat, start: nat, mounts: seq<Request>, names: seq<string>, n: nat)
    requires n < |mounts|
    ensures var was, now := Missing(mounts[..n], names), Missing(mounts[..n + 1], names);
            && now == was + (if mounts[n].name in names then [] else [mounts[n].name])
            && (mounts[n].name !in names ==>
                  MountOps(kind, c, start, now) ==
                  MountOps(kind, c, start, was) + [Add(MountAt(kind, c, start + |was|), AMount(MountFor(mounts[n].name)))])
  {
    assert mounts[..n + 1][..n] == mounts[..n];
  }

  // One iteration order of the configs map for each container, as positions.
  datatype Orders = Orders(init: seq<seq<nat>>, main: seq<seq<nat>>)

  ghost predicate Visits(order: seq<nat>, n: nat) {
    && (forall k <- order :: k < n)
    && (forall k: nat :: k < n ==> k in order)
    && |order| == n
  }

  ghost predicate ValidOrders(pod: Pod, configs: seq<string>, o: Orders) {
    && |o.init| == |pod.initContainers| && |o.main| == |pod.containers|
    && (forall i :: 0 <= i < |o.init| ==> Visits(o.init[i], |configs|))
    && (forall i :: 0 <= i < |o.main| ==> Visits(o.main[i], |configs|))
  }

  function Named(configs: seq<string>, order: seq<nat>): seq<string> {
    seq(|order|, j requires 0 <= j < |order| => if order[j] < |configs| then configs[order[j]] else "")
  }

  function NamedAll(configs: seq<string>, orders: seq<seq<nat>>): (r: seq<seq<string>>)
    ensures |r| == |orders|
  {
    seq(|orders|, i requires 0 <= i < |orders| => Named(configs, orders[i]))
  }

  function MountPart(pod: Pod, mounts: seq<Request>): seq<Op> {
    if mounts == [] then []
    else
      VolumeOps(|Items(pod.volumes)|, mounts)
      + AllMountOps(Init, pod.initContainers, mounts)
      + AllMountOps(Main, pod.containers, mounts)
  }

  function EnvPart(pod: Pod, configs: seq<string>, o: Orders): seq<Op>
    requires |o.init| == |pod.initContainers| && |o.main| == |pod.containers|
  {
    if configs == [] then []
    else
      AllEnvOps(Init, pod.initContainers, NamedAll(configs, o.init))
      + AllEnvOps(Main, pod.containers, NamedAll(configs, o.main))
  }

  function PatchOps(pod: Pod, plan: Plan, o: Orders): seq<Op>
    requires |o.init| == |pod.initContainers| && |o.main| == |pod.containers|
  {
    MountPart(pod, plan.mounts) + EnvPart(pod, plan.configs, o)
  }

  function Compile(pod: Pod, requests: seq<Request>, o: Orders): Option<seq<Op>>
    requires |o.init| == |pod.initContainers| && |o.main| == |pod.containers|
  {
    match PlanAll(requests, ClaimedBy(Items(pod.volumes)))
    case None => None
    case Some(plan) => Some(PatchOps(pod, plan, o))
  }

  // ------------------------------------------------------------------- the methods

  // datasets_tomount and configs_toinject have the keys 0, 1, ..., n - 1.
  ghost predicate Dense<T>(m: map<nat, T>, n: nat) {
    forall d: nat :: d in m <==> d < n
  }

  ghost function MountRequests(m: map<nat, DatasetInput>, n: nat): seq<Request>
    requires Dense(m, n)
    reads m.Values
  {
    seq(n, d requires 0 <= d < n reads m.Values => m[d as nat].View())
  }

  function ConfigNames(m: map<nat, string>, n: nat): seq<string>
    requires forall d: nat :: d < n ==> d in m
  {
    seq(n, d requires 0 <= d < n => m[d as nat])
  }

  // `for d := range keys` uses positions as keys; that is right only for dense keys.
  method PatchPodSpecWithDatasetPVCs(pod: Pod, datasets: map<nat, DatasetInput>, n: nat, ghost mounts: seq<Request>)
    returns (patches: seq<Op>)
    requires Dense(datasets, n) && mounts == MountRequests(datasets, n)
    ensures patches == VolumeOps(|Items(pod.volumes)|, mounts)
                       + AllMountOps(Init, pod.initContainers, mounts)
                       + AllMountOps(Main, pod.containers, mounts)
  {
    patches := [];
    var volId := |Items(pod.volumes)|;
    for d: nat := 0 to n
      invariant volId == |Items(pod.volumes)| + d
      invariant patches == VolumeOps(|Items(pod.volumes)|, mounts[..d])
    {
      var readonly := "readonly" in datasets[d].local && datasets[d].local["readonly"] == "true";
      var claim := if readonly then ClaimSource(datasets[d].name, true) else ClaimSource(datasets[d].name, false);
      var patch := Add(VolumeAt(volId), AVolume(Volume(datasets[d].name, Some(claim))));
      assert mounts[d] == datasets[d].View() && patch.value.volume == VolumeFor(mounts[d]);
      patches := patches + [patch];
      volId := volId + 1;
    }
    assert mounts[..n] == mounts;
    if |pod.initContainers| != 0 {
      var volPatches := PatchContainersWithDatasetVolumes(datasets, n, pod.initContainers, Init, mounts);
      patches := patches + volPatches;
    }
    var volPatches := PatchContainersWithDatasetVolumes(datasets, n, pod.containers, Main, mounts);
    patches := patches + volPatches;
  }

  method PatchContainersWithDatasetVolumes(datasets: map<nat, DatasetInput>, n: nat, containers: seq<Container>,
                                           kind: Kind, ghost mounts: seq<Request>)
    returns (patchOps: seq<Op>)
    requires Dense(datasets, n) && mounts == MountRequests(datasets, n)
    ensures patchOps == AllMountOps(kind, containers, mounts)
  {
    patchOps := [];
    for c: nat := 0 to |containers|
      invariant patchOps == AllMountOps(kind, containers[..c], mounts)
    {
      MountStep(kind, containers, mounts, c);
      var ops := PatchContainerVolumes(datasets, n, containers[c], kind, c, mounts);
      patchOps := patchOps + ops;
    }
    assert containers[..|containers|] == containers;
  }

  method ListMountNames(container: Container) returns (mountNames: seq<string>)
    ensures mountNames == MountNames(container)
  {
    var existing := Items(container.volumeMounts);
    mountNames := [];
    for m := 0 to |existing|
      invariant mountNames == MountNames(container)[..m]
    {
      mountNames := mountNames + [existing[m].name];
    }
  }

  // The body of the loop over containers.
  method PatchContainerVolumes(datasets: map<nat, DatasetInput>, n: nat, container: Container,
                               kind: Kind, c: nat, ghost mounts: seq<Request>)
    returns (patchOps: seq<Op>)
    requires Dense(datasets, n) && mounts == MountRequests(datasets, n)
    ensures patchOps == MountOps(kind, c, |Items(container.volumeMounts)|, Missing(mounts, MountNames(container)))
  {
    var existing := Items(container.volumeMounts);
    var mountNames := ListMountNames(container);
    var mountIdx := |existing|;
    patchOps := [];
    for o: nat := 0 to n
      invariant mountIdx == |existing| + |Missing(mounts[..o], mountNames)|
      invariant patchOps == MountOps(kind, c, |existing|, Missing(mounts[..o], mountNames))
    {
      MissingStep(kind, c, |existing|, mounts, mountNames, o);
      assert mounts[o] == datasets[o].View();
      if datasets[o].name !in mountNames {
        patchOps := patchOps + [Add(MountAt(kind, c, mountIdx),
                                    AMount(VolumeMount(datasets[o].name, "/mnt/datasets/" + datasets[o].name)))];
        mountIdx := mountIdx + 1;
      }
    }
    assert mounts[..n] == mounts;
  }

  method FindReference(sources: seq<EnvSource>, d: string) returns (found: bool)
    ensures found <==> Refers(sources, d)
  {
    found := false;
    for n := 0 to |sources|
      invariant !found && !Refers(sources[..n], d)
    {
      if RefersTo(sources[n], d) {
        return true;
      }
    }
    assert sources[..|sources|] == sources;
  }

  method PatchContainersWithDatasetMaps(datasets: map<nat, string>, ghost configs: seq<string>,
                                        containers: seq<Container>, kind: Kind, orders: seq<seq<nat>>)
    returns (patchOps: seq<Op>)
    requires Dense(datasets, |configs|) && configs == ConfigNames(datasets, |configs|)
    requires |orders| == |containers|
    requires forall i :: 0 <= i < |orders| ==> Visits(orders[i], |configs|)
    ensures patchOps == AllEnvOps(kind, containers, NamedAll(configs, orders))
  {
    patchOps := [];
    var values: seq<EnvSource> := [];
    ghost var names := NamedAll(configs, orders);
    for c: nat := 0 to |containers|
      invariant patchOps == AllEnvOps(kind, containers[..c], names[..c])
      invariant values == Accumulated(containers[..c], names[..c])
    {
      EnvStep(kind, containers, names, c);
      var existing := Items(containers[c].envFrom);
      if |existing| != 0 {
        var ops := AppendReferences(datasets, configs, existing, kind, c, orders[c]);
        patchOps := patchOps + ops;
      } else {
        var sources := ReferencesFor(datasets, configs, orders[c]);
        values := values + sources;
        patchOps := patchOps + [Add(EnvMember(kind, c), Sources(values))];
      }
    }
    assert containers[..|containers|] == containers && names[..|containers|] == names;
  }

  // One round of the loop for a container that has envFrom already.
  method AppendReferences(datasets: map<nat, string>, ghost configs: seq<string>, existing: seq<EnvSource>,
                          kind: Kind, c: nat, order: seq<nat>)
    returns (ops: seq<Op>)
    requires Dense(datasets, |configs|) && configs == ConfigNames(datasets, |configs|)
    requires Visits(order, |configs|)
    ensures ops == EnvEndOps(kind, c, SourcesFor(Unreferred(Named(configs, order), existing)))
  {
    ops := [];
    ghost var names := Named(configs, order);
    for j := 0 to |order|
      invariant ops == EnvEndOps(kind, c, SourcesFor(Unreferred(names[..j], existing)))
    {
      assert order[j] in order;
      var d := datasets[order[j]];
      assert names[..j + 1][..j] == names[..j] && names[j] == d;
      var found := FindReference(existing, d);
      if !found {
        ExtendSources(Unreferred(names[..j], existing), d);
        ExtendEnvEnd(kind, c, SourcesFor(Unreferred(names[..j], existing)), ConfigMapSource(d), SecretSource(d));
        ops := ops + [Add(EnvEnd(kind, c), ASource(EnvSource(d + "_", Some(d), None)))];
        ops := ops + [Add(EnvEnd(kind, c), ASource(EnvSource(d + "_", None, Some(d))))];
      }
    }
    assert names[..|order|] == names;
  }

  // One round of the loop for a container without envFrom.
  method ReferencesFor(datasets: map<nat, string>, ghost configs: seq<string>, order: seq<nat>)
    returns (sources: seq<EnvSource>)
    requires Dense(datasets, |configs|) && configs == ConfigNames(datasets, |configs|)
    requires Visits(order, |configs|)
    ensures sources == SourcesFor(Named(configs, order))
  {
    sources := [];
    ghost var names := Named(configs, order);
    for j := 0 to |order|
      invariant sources == SourcesFor(names[..j])
    {
      assert order[j] in order;
      var d := datasets[order[j]];
      assert names[..j + 1][..j] == names[..j] && names[j] == d;
      sources := sources + [EnvSource(d + "_", Some(d), None)];
      sources := sources + [EnvSource(d + "_", None, Some(d))];
    }
    assert names[..|order|] == names;
  }

  lemma ExtendSources(names: seq<string>, d: string)
    ensures SourcesFor(names + [d]) == SourcesFor(names) + [ConfigMapSource(d), SecretSource(d)]
  {
    assert (names + [d])[..|names|] == names;
  }

  lemma ExtendEnvEnd(kind: Kind, c: nat, sources: seq<EnvSource>, a: EnvSource, b: EnvSource)
    ensures EnvEndOps(kind, c, sources + [a, b])
            == EnvEndOps(kind, c, sources) + [Add(EnvEnd(kind, c), ASource(a))] + [Add(EnvEnd(kind, c), ASource(b))]
  {
  }

  method MountedClaims(volumes: seq<Volume>) returns (mountedPVCs: set<string>)
    ensures mountedPVCs == ClaimedBy(volumes)
  {
    mountedPVCs := {};
    for n := 0 to |volumes|
      invariant mountedPVCs == ClaimedBy(volumes[..n])
    {
      assert volumes[..n + 1] == volumes[..n] + [volumes[n]];
      if volumes[n].claim.Some? {
        mountedPVCs := mountedPVCs + {volumes[n].claim.value.claimName};
      }
    }
    assert volumes[..|volumes|] == volumes;
  }

  ghost function PlanSoFar(toMount: map<nat, DatasetInput>, d: nat, toInject: map<nat, string>, c: nat): Plan
    requires Dense(toMount, d) && Dense(toInject, c)
    reads toMount.Values
  {
    Plan(MountRequests(toMount, d), ConfigNames(toInject, c))
  }

  // The loop over the uses of one dataset.
  method PlanDataset(ds: DatasetInput, mountedPVCs: set<string>, toMount: map<nat, DatasetInput>, d: nat,
                     toInject: map<nat, string>, c: nat)
    returns (ok: bool, toMount': map<nat, DatasetInput>, d': nat, toInject': map<nat, string>, c': nat)
    requires Dense(toMount, d) && Dense(toInject, c)
    ensures Dense(toMount', d') && Dense(toInject', c')
    ensures PlanUses(PlanSoFar(toMount, d, toInject, c), ds.View(), ds.useasLabels, mountedPVCs)
            == if ok then Some(PlanSoFar(toMount', d', toInject', c')) else None
  {
    ok, toMount', d', toInject', c' := true, toMount, d, toInject, c;
    ghost var before, r := PlanSoFar(toMount, d, toInject, c), ds.View();
    for m := 0 to |ds.useasLabels|
      invariant Dense(toMount', d') && Dense(toInject', c')
      invariant PlanUses(before, r, ds.useasLabels[..m], mountedPVCs) == Some(PlanSoFar(toMount', d', toInject', c'))
    {
      assert ds.useasLabels[..m + 1][..m] == ds.useasLabels[..m];
      ghost var plan := PlanSoFar(toMount', d', toInject', c');
      match ds.useasLabels[m] {
        case "mount" =>
          if ds.name !in mountedPVCs {
            toMount' := toMount'[d' := ds];
            d' := d' + 1;
            assert MountRequests(toMount', d') == plan.mounts + [r];
          }
        case "configmap" =>
          toInject' := toInject'[c' := ds.name];
          c' := c' + 1;
          assert ConfigNames(toInject', c') == plan.configs + [r.name];
        case _ =>
          PlanUsesNone(before, r, ds.useasLabels, m, mountedPVCs);
          ok := false;
          return;
      }
    }
    assert ds.useasLabels[..|ds.useasLabels|] == ds.useasLabels;
  }

  method PatchPodWithDatasetLabels(pod: Pod, datasets: map<Int64, DatasetInput>, orders: Orders,
                                   ghost requests: map<Int64, Request>)
    returns (patch: Option<seq<Op>>)
    requires requests == Views(datasets)
    requires |orders.init| == |pod.initContainers| && |orders.main| == |pod.containers|
    requires var plan := PlanAll(InIndexOrder(requests), ClaimedBy(Items(pod.volumes)));
             plan.Some? ==> ValidOrders(pod, plan.value.configs, orders)
    ensures patch == Compile(pod, InIndexOrder(requests), orders)
  {
    var patchops: seq<Op> := [];
    ghost var all := InIndexOrder(requests);
    if |datasets| == 0 {
      assert requests == map[];
      assert PlanAll(all, ClaimedBy(Items(pod.volumes))) == Some(Plan([], []));
      assert PatchOps(pod, Plan([], []), orders) == [];
      return Some(patchops);
    }
    var mountedPVCs := MountedClaims(Items(pod.volumes));
    assert datasets.Keys == requests.Keys;
    var sIdx := SortedKeys(datasets.Keys);
    forall n | 0 <= n < |sIdx| ensures sIdx[n] in datasets && all[n] == datasets[sIdx[n]].View() {
      assert sIdx[n] in sIdx;
    }
    var ok, toMount, d, toInject, c := PlanDatasets(datasets, sIdx, mountedPVCs, all);
    if !ok {
      return None;
    }
    patchops := EmitPatch(pod, toMount, d, toInject, c, orders);
    return Some(patchops);
  }

  method EmitPatch(pod: Pod, toMount: map<nat, DatasetInput>, d: nat, toInject: map<nat, string>, c: nat, orders: Orders)
    returns (patchops: seq<Op>)
    requires Dense(toMount, d) && Dense(toInject, c)
    requires ValidOrders(pod, ConfigNames(toInject, c), orders)
    ensures patchops == PatchOps(pod, PlanSoFar(toMount, d, toInject, c), orders)
  {
    patchops := [];
    DenseSize(toMount, d);
    DenseSize(toInject, c);
    if |toMount| > 0 {
      patchops := PatchPodSpecWithDatasetPVCs(pod, toMount, d, MountRequests(toMount, d));
    }
    assert patchops == MountPart(pod, MountRequests(toMount, d));
    if |toInject| > 0 {
      var envOps := EmitEnv(pod, toInject, ConfigNames(toInject, c), orders);
      patchops := patchops + envOps;
    }
  }

  method EmitEnv(pod: Pod, toInject: map<nat, string>, ghost configs: seq<string>, orders: Orders)
    returns (envOps: seq<Op>)
    requires configs != [] && Dense(toInject, |configs|) && configs == ConfigNames(toInject, |configs|)
    requires ValidOrders(pod, configs, orders)
    ensures envOps == EnvPart(pod, configs, orders)
  {
    envOps := PatchContainersWithDatasetMaps(toInject, configs, pod.initContainers, Init, orders.init);
    var configMain := PatchContainersWithDatasetMaps(toInject, configs, pod.containers, Main, orders.main);
    envOps := envOps + configMain;
  }

  // The loop over the sorted indices, which fills datasets_tomount and configs_toinject.
  method PlanDatasets(datasets: map<Int64, DatasetInput>, sIdx: seq<Int64>, mountedPVCs: set<string>,
                      ghost all: seq<Request>)
    returns (ok: bool, toMount: map<nat, DatasetInput>, d: nat, toInject: map<nat, string>, c: nat)
    requires |all| == |sIdx|
    requires forall n :: 0 <= n < |sIdx| ==> sIdx[n] in datasets && all[n] == datasets[sIdx[n]].View()
    ensures Dense(toMount, d) && Dense(toInject, c)
    ensures PlanAll(all, mountedPVCs) == if ok then Some(PlanSoFar(toMount, d, toInject, c)) else None
  {
    ok, toMount, d, toInject, c := true, map[], 0, map[], 0;
    assert PlanSoFar(toMount, d, toInject, c) == Plan([], []);
    for n := 0 to |sIdx|
      invariant Dense(toMount, d) && Dense(toInject, c)
      invariant PlanAll(all[..n], mountedPVCs) == Some(PlanSoFar(toMount, d, toInject, c))
    {
      assert all[..n + 1][..n] == all[..n];
      ok, toMount, d, toInject, c := PlanDataset(datasets[sIdx[n]], mountedPVCs, toMount, d, toInject, c);
      if !ok {
        PlanNoneStays(all, n + 1, mountedPVCs);
        return;
      }
    }
    assert all[..|sIdx|] == all;
  }

  lemma DenseSize<T>(m: map<nat, T>, n: nat)
    requires Dense(m, n)
    ensures |m| > 0 <==> n > 0
  {
    if n > 0 {
      assert 0 in m;
    } else {
      assert m == map[];
    }
  }

  predicate KnownUse(use: string) { use == "mount" || use == "configmap" }

  lemma {:induction false} PlanUsesNone(plan: Plan, r: Request, uses: seq<string>, m: nat, claimed: set<string>)
    requires m < |uses| && !KnownUse(uses[m])
    ensures PlanUses(plan, r, uses, claimed) == None
  {
    if m < |uses| - 1 {
      PlanUsesNone(plan, r, uses[..|uses| - 1], m, claimed);
    }
  }

  lemma {:induction false} PlanNoneStays(requests: seq<Request>, n: nat, claimed: set<string>)
    requires n <= |requests| && PlanAll(requests[..n], claimed) == None
    ensures PlanAll(requests, claimed) == None
    decreases |requests| - n
  {
    if n == |requests| {
      assert requests[..n] == requests;
    } else {
      assert requests[..n + 1][..n] == requests[..n];
      PlanNoneStays(requests, n + 1, claimed);
    }
  }
}

// Consequences of patch correctness: which datasets are mounted, that a second
// invocation of the webhook changes nothing, and that mounts keep naming volumes.
module InjectionTheorems {
  import opened GoText
  import opened PodPatch
  import opened DatasetLabels
  import opened LabelTheorems
  import opened DatasetPatch
  import opened PatchTheorems

  // ---------------------------------------------------- what the plan consists of

  function UnclaimedMounts(requests: seq<Request>, claimed: set<string>): seq<Request> {
    if requests == [] then []
    else
      var r := requests[|requests| - 1];
      UnclaimedMounts(requests[..|requests| - 1], claimed)
      + if "mount" in r.uses && r.name !in claimed then [r] else []
  }

  function ConfigsWanted(requests: seq<Request>): seq<string> {
    if requests == [] then []
    else
      var r := requests[|requests| - 1];
      ConfigsWanted(requests[..|requests| - 1]) + if "configmap" in r.uses then [r.name] else []
  }

  predicate UsesKnown(requests: seq<Request>) {
    forall r <- requests :: forall u <- r.uses :: KnownUse(u)
  }

  ghost predicate UsesOnce(requests: seq<Request>) {
    forall r <- requests :: NoDuplicates(r.uses)
  }

  lemma {:induction false} PlanUsesExact(plan: Plan, r: Request, uses: seq<string>, claimed: set<string>)
    requires NoDuplicates(uses)
    ensures PlanUses(plan, r, uses, claimed) ==
            if forall u <- uses :: KnownUse(u)
            then Some(Plan(plan.mounts + (if "mount" in uses && r.name !in claimed then [r] else []),
                           plan.configs + (if "configmap" in uses then [r.name] else [])))
            else None
  {
    if uses == [] {
      assert plan.mounts + [] == plan.mounts && plan.configs + [] == plan.configs;
    } else {
      var front, last := uses[..|uses| - 1], uses[|uses| - 1];
      PlanUsesExact(plan, r, front, claimed);
      assert uses == front + [last];
      assert last !in front;
      assert last in uses;
      if (forall u <- front :: KnownUse(u)) && KnownUse(last) {
        if last == "mount" {
          assert plan.mounts + [] == plan.mounts;
        } else {
          assert plan.configs + [] == plan.configs;
        }
      }
    }
  }

  // Planning fails exactly on a use other than "mount" and "configmap"; otherwise it
  // keeps index order, drops the mounts whose claim is in the pod and keeps all configs.
  lemma {:induction false} PlanExact(requests: seq<Request>, claimed: set<string>)
    requires UsesOnce(requests)
    ensures PlanAll(requests, claimed) ==
            if UsesKnown(requests) then Some(Plan(UnclaimedMounts(requests, claimed), ConfigsWanted(requests))) else None
  {
    if requests != [] {
      var front, r := requests[..|requests| - 1], requests[|requests| - 1];
      PlanExact(front, claimed);
      assert requests == front + [r];
      assert UsesKnown(requests) <==> UsesKnown(front) && forall u <- r.uses :: KnownUse(u);
      if UsesKnown(front) {
        PlanUsesExact(Plan(UnclaimedMounts(front, claimed), ConfigsWanted(front)), r, r.uses, claimed);
      }
    }
  }

  // ------------------------------------------------------------------- reinvocation

  predicate AllNamesIn(mounts: seq<Request>, names: set<string>) {
    forall r <- mounts :: r.name in names
  }

  lemma {:induction false} PlanUsesAgain(p: Plan, r: Request, uses: seq<string>, claimed: set<string>, more: set<string>)
    requires PlanUses(p, r, uses, claimed).Some? && claimed <= more
    requires AllNamesIn(PlanUses(p, r, uses, claimed).value.mounts, more)
    ensures AllNamesIn(p.mounts, more)
    ensures PlanUses(Plan([], p.configs), r, uses, more)
            == Some(Plan([], PlanUses(p, r, uses, claimed).value.configs))
  {
    if uses != [] {
      var front, last := uses[..|uses| - 1], uses[|uses| - 1];
      var q := PlanUses(p, r, front, claimed).value;
      assert PlanUse(q, r, last, claimed).Some?;
      var s := PlanUse(q, r, last, claimed).value;
      assert forall x <- q.mounts :: x in s.mounts;
      PlanUsesAgain(p, r, front, claimed, more);
      if last == "mount" && r.name !in claimed {
        assert r in s.mounts;
      }
    }
  }

  lemma {:induction false} PlanAgain(requests: seq<Request>, claimed: set<string>, more: set<string>)
    requires PlanAll(requests, claimed).Some? && claimed <= more
    requires AllNamesIn(PlanAll(requests, claimed).value.mounts, more)
    ensures PlanAll(requests, more) == Some(Plan([], PlanAll(requests, claimed).value.configs))
  {
    if requests != [] {
      var front, r := requests[..|requests| - 1], requests[|requests| - 1];
      PlanUsesAgain(PlanAll(front, claimed).value, r, r.uses, claimed, more);
      PlanAgain(front, claimed, more);
    }
  }

  lemma ClaimsAfter(pod: Pod, plan: Plan, o: Orders)
    requires |o.init| == |pod.initContainers| && |o.main| == |pod.containers|
    ensures var more := ClaimedBy(Items(Inject(pod, plan, o).volumes));
            ClaimedBy(Items(pod.volumes)) <= more && AllNamesIn(plan.mounts, more)
  {
    if plan.mounts != [] {
      var vs := Items(Inject(pod, plan, o).volumes);
      assert forall v <- Items(pod.volumes) :: v in vs;
      forall r | r in plan.mounts ensures r.name in ClaimedBy(vs) {
        var i :| 0 <= i < |plan.mounts| && plan.mounts[i] == r;
        assert VolumesFor(plan.mounts)[i] == VolumeFor(r);
        assert VolumeFor(r) in vs;
      }
    }
  }

  lemma {:induction false} SourcesRefer(names: seq<string>, d: string)
    ensures d in names ==> Refers(SourcesFor(names), d)
  {
    if names != [] {
      var front, last := names[..|names| - 1], names[|names| - 1];
      SourcesRefer(front, d);
      assert ConfigMapSource(last) in SourcesFor(names);
      assert RefersTo(ConfigMapSource(last), last);
      assert forall e <- SourcesFor(front) :: e in SourcesFor(names);
    }
  }

  lemma {:induction false} UnreferredExact(names: seq<string>, sources: seq<EnvSource>, d: string)
    ensures d in Unreferred(names, sources) <==> d in names && !Refers(sources, d)
  {
    if names != [] {
      UnreferredExact(names[..|names| - 1], sources, d);
      assert names == names[..|names| - 1] + [names[|names| - 1]];
    }
  }

  lemma NamedCovers(configs: seq<string>, order: seq<nat>, d: string)
    requires Visits(order, |configs|)
    ensures d in Named(configs, order) <==> d in configs
  {
    if d in configs {
      var k: nat :| k < |configs| && configs[k] == d;
      assert k in order;
      var j :| 0 <= j < |order| && order[j] == k;
      assert Named(configs, order)[j] == d;
    }
    if d in Named(configs, order) {
      var j :| 0 <= j < |order| && Named(configs, order)[j] == d;
      assert order[j] in order;
    }
  }

  // After the injection every container refers to every config.
  lemma EnvTargetRefers(cs: seq<Container>, orders: seq<seq<string>>, i: nat, d: string)
    requires i < |cs| == |orders| && d in orders[i]
    ensures Refers(EnvTarget(cs, orders, i).value, d)
  {
    var target := EnvTarget(cs, orders, i).value;
    if HasEnv(cs[i]) {
      var existing := cs[i].envFrom.value;
      UnreferredExact(orders[i], existing, d);
      SourcesRefer(Unreferred(orders[i], existing), d);
      assert forall e <- existing :: e in target;
      assert forall e <- SourcesFor(Unreferred(orders[i], existing)) :: e in target;
    } else {
      SourcesRefer(orders[i], d);
      assert cs[..i + 1][..i] == cs[..i] && orders[..i + 1][..i] == orders[..i];
      assert forall e <- SourcesFor(orders[i]) :: e in target;
    }
  }

  lemma {:induction false} UnreferredNone(names: seq<string>, sources: seq<EnvSource>)
    requires forall d <- names :: Refers(sources, d)
    ensures Unreferred(names, sources) == []
  {
    if names != [] {
      UnreferredNone(names[..|names| - 1], sources);
    }
  }

  ghost predicate AllReferred(cs: seq<Container>, configs: seq<string>) {
    forall i :: 0 <= i < |cs| ==> HasEnv(cs[i]) && forall d <- configs :: Refers(Items(cs[i].envFrom), d)
  }

  lemma {:induction false} NoEnvOps(kind: Kind, cs: seq<Container>, configs: seq<string>, orders: seq<seq<string>>)
    requires |orders| == |cs| && AllReferred(cs, configs)
    requires forall i :: 0 <= i < |orders| ==> forall d <- orders[i] :: d in configs
    ensures AllEnvOps(kind, cs, orders) == []
  {
    if cs != [] {
      var n := |cs| - 1;
      NoEnvOps(kind, cs[..n], configs, orders[..n]);
      UnreferredNone(orders[n], Items(cs[n].envFrom));
    }
  }

  lemma InjectedRefer(cs: seq<Container>, plan: Plan, orders: seq<seq<nat>>)
    requires |cs| == |orders| && plan.configs != []
    requires forall i :: 0 <= i < |orders| ==> Visits(orders[i], |plan.configs|)
    ensures AllReferred(InjectContainers(cs, plan, orders), plan.configs)
  {
    var names := NamedAll(plan.configs, orders);
    forall i, d | 0 <= i < |cs| && d in plan.configs ensures Refers(EnvTarget(cs, names, i).value, d) {
      NamedCovers(plan.configs, orders[i], d);
      EnvTargetRefers(cs, names, i, d);
    }
    forall i | 0 <= i < |cs| ensures EnvTarget(cs, names, i).value != [] {
      var d := plan.configs[0];
      assert d in plan.configs;
      assert Refers(EnvTarget(cs, names, i).value, d);
    }
  }

  lemma NoEnvOpsFor(kind: Kind, cs: seq<Container>, configs: seq<string>, orders: seq<seq<nat>>)
    requires |cs| == |orders| && AllReferred(cs, configs)
    requires forall i :: 0 <= i < |orders| ==> Visits(orders[i], |configs|)
    ensures AllEnvOps(kind, cs, NamedAll(configs, orders)) == []
  {
    var names := NamedAll(configs, orders);
    forall i, d | 0 <= i < |names| && d in names[i] ensures d in configs {
      NamedCovers(configs, orders[i], d);
    }
    NoEnvOps(kind, cs, configs, names);
  }

  lemma NoEnvPart(pod: Pod, plan: Plan, first: Orders, second: Orders)
    requires ValidOrders(pod, plan.configs, first) && ValidOrders(pod, plan.configs, second)
    ensures EnvPart(Inject(pod, plan, first), plan.configs, second) == []
  {
    if plan.configs != [] {
      var pod' := Inject(pod, plan, first);
      InjectedRefer(pod.initContainers, plan, first.init);
      InjectedRefer(pod.containers, plan, first.main);
      NoEnvOpsFor(Init, pod'.initContainers, plan.configs, second.init);
      NoEnvOpsFor(Main, pod'.containers, plan.configs, second.main);
    }
  }

  // Patching the patched pod for the same requests yields the empty patch, whatever the
  // iteration orders were and will be.
  lemma Reinvocation(pod: Pod, requests: seq<Request>, plan: Plan, first: Orders, pod': Pod, second: Orders)
    requires PlanAll(requests, ClaimedBy(Items(pod.volumes))) == Some(plan)
    requires ValidOrders(pod, plan.configs, first) && ValidOrders(pod, plan.configs, second)
    requires ApplyAll(pod, Compile(pod, requests, first).value) == Some(pod')
    ensures |pod'.initContainers| == |pod.initContainers| && |pod'.containers| == |pod.containers|
    ensures Compile(pod', requests, second) == Some([])
  {
    PatchCorrect(pod, plan, first);
    assert pod' == Inject(pod, plan, first);
    ClaimsAfter(pod, plan, first);
    PlanAgain(requests, ClaimedBy(Items(pod.volumes)), ClaimedBy(Items(pod'.volumes)));
    NoEnvPart(pod, plan, first, second);
    assert MountPart(pod', []) == [];
    assert PatchOps(pod', Plan([], plan.configs), second) == [];
  }

  // ------------------------------------------------------------ referential integrity

  function VolumeNames(pod: Pod): seq<string> {
    var vs := Items(pod.volumes);
    seq(|vs|, i requires 0 <= i < |vs| => vs[i].name)
  }

  ghost predicate MountsResolve(cs: seq<Container>, volumes: seq<string>, extra: seq<Request>) {
    forall i :: 0 <= i < |cs| ==> forall m <- Items(cs[i].volumeMounts) ::
                  m.name in volumes || exists r <- extra :: r.name == m.name
  }

  lemma {:induction false} MissingNamed(mounts: seq<Request>, names: seq<string>)
    ensures forall d <- Missing(mounts, names) :: exists r <- mounts :: r.name == d
  {
    if mounts != [] {
      var front, last := mounts[..|mounts| - 1], mounts[|mounts| - 1];
      MissingNamed(front, names);
      assert last in mounts;
      assert forall r <- front :: r in mounts;
    }
  }

  lemma InjectedVolumeNames(pod: Pod, plan: Plan, o: Orders)
    requires |o.init| == |pod.initContainers| && |o.main| == |pod.containers|
    ensures |VolumeNames(Inject(pod, plan, o))| == |VolumeNames(pod)| + |plan.mounts|
    ensures forall i :: 0 <= i < |VolumeNames(pod)| ==> VolumeNames(Inject(pod, plan, o))[i] == VolumeNames(pod)[i]
    ensures forall i :: 0 <= i < |plan.mounts| ==>
              VolumeNames(Inject(pod, plan, o))[|VolumeNames(pod)| + i] == plan.mounts[i].name
  {
  }

  lemma MountsResolveAfter(cs: seq<Container>, plan: Plan, orders: seq<seq<nat>>, before: seq<string>, after: seq<string>)
    requires |cs| == |orders| && MountsResolve(cs, before, plan.mounts)
    requires forall v <- before :: v in after
    requires forall r <- plan.mounts :: r.name in after
    ensures MountsResolve(InjectContainers(cs, plan, orders), after, [])
  {
    forall i, m | 0 <= i < |cs| && m in Items(InjectContainers(cs, plan, orders)[i].volumeMounts)
      ensures m.name in after
    {
      var missing := Missing(plan.mounts, MountNames(cs[i]));
      MissingNamed(plan.mounts, MountNames(cs[i]));
      if m !in Items(cs[i].volumeMounts) {
        assert m in MountsFor(missing);
        var j :| 0 <= j < |missing| && MountsFor(missing)[j] == m;
        assert missing[j] in missing;
      }
    }
  }

  // If every mount names a volume or a dataset about to be mounted, then every mount of
  // the patched pod names one of its volumes.
  lemma MountsNameVolumes(pod: Pod, plan: Plan, o: Orders)
    requires |o.init| == |pod.initContainers| && |o.main| == |pod.containers|
    requires MountsResolve(pod.initContainers, VolumeNames(pod), plan.mounts)
    requires MountsResolve(pod.containers, VolumeNames(pod), plan.mounts)
    ensures var p := Inject(pod, plan, o);
            MountsResolve(p.initContainers, VolumeNames(p), []) && MountsResolve(p.containers, VolumeNames(p), [])
  {
    var after := VolumeNames(Inject(pod, plan, o));
    InjectedVolumeNames(pod, plan, o);
    forall v | v in VolumeNames(pod) ensures v in after {
      var i :| 0 <= i < |VolumeNames(pod)| && VolumeNames(pod)[i] == v;
      assert after[i] == v;
    }
    forall r | r in plan.mounts ensures r.name in after {
      var i :| 0 <= i < |plan.mounts| && plan.mounts[i] == r;
      assert after[|VolumeNames(pod)| + i] == r.name;
    }
    MountsResolveAfter(pod.initContainers, plan, o.init, VolumeNames(pod), after);
    MountsResolveAfter(pod.containers, plan, o.main, VolumeNames(pod), after);
  }

  ghost predicate DistinctNames(requests: seq<Request>) {
    forall i, j :: 0 <= i < j < |requests| ==> requests[i].name != requests[j].name
  }

  lemma {:induction false} UnclaimedMountsDistinct(requests: seq<Request>, claimed: set<string>)
    requires DistinctNames(requests)
    ensures DistinctNames(UnclaimedMounts(requests, claimed))
    ensures forall r <- UnclaimedMounts(requests, claimed) :: r in requests && r.name !in claimed
  {
    if requests != [] {
      var front, last := requests[..|requests| - 1], requests[|requests| - 1];
      UnclaimedMountsDistinct(front, claimed);
      var mounts := UnclaimedMounts(front, claimed);
      forall i | 0 <= i < |mounts| ensures mounts[i].name != last.name {
        assert mounts[i] in mounts && mounts[i] in front;
      }
    }
  }

  lemma InIndexOrderAccepted(requests: map<Int64, Request>)
    requires Accepted(requests)
    ensures DistinctNames(InIndexOrder(requests)) && UsesOnce(InIndexOrder(requests))
  {
    var keys := SortedKeys(requests.Keys);
    forall i | 0 <= i < |keys| ensures keys[i] in requests {
      assert keys[i] in keys;
    }
  }

  lemma ConcatDistinct<T>(a: seq<T>, b: seq<T>)
    requires NoDuplicates(b)
    ensures NoDuplicates(a + b) <==> NoDuplicates(a) && forall x <- b :: x !in a
  {
    if NoDuplicates(a + b) {
      forall i, j | 0 <= i < j < |a| ensures a[i] != a[j] {
        assert (a + b)[i] != (a + b)[j];
      }
      forall i, j | 0 <= i < |a| && 0 <= j < |b| ensures a[i] != b[j] {
        assert (a + b)[i] != (a + b)[|a| + j];
      }
    } else {
      var i, j :| 0 <= i < j < |a + b| && (a + b)[i] == (a + b)[j];
      if |a| <= j {
        assert b[j - |a|] in b;
      }
    }
  }

  lemma InjectedNamesDistinct(pod: Pod, plan: Plan, o: Orders)
    requires |o.init| == |pod.initContainers| && |o.main| == |pod.containers|
    requires DistinctNames(plan.mounts)
    ensures NoDuplicates(VolumeNames(Inject(pod, plan, o))) <==>
            NoDuplicates(VolumeNames(pod)) && forall r <- plan.mounts :: r.name !in VolumeNames(pod)
  {
    var added := NamesOf(plan.mounts);
    InjectedVolumeNames(pod, plan, o);
    assert VolumeNames(Inject(pod, plan, o)) == VolumeNames(pod) + added;
    ConcatDistinct(VolumeNames(pod), added);
    NamesOfMembers(plan.mounts, VolumeNames(pod));
  }

  function NamesOf(requests: seq<Request>): seq<string> {
    seq(|requests|, i requires 0 <= i < |requests| => requests[i].name)
  }

  lemma NamesOfMembers(requests: seq<Request>, names: seq<string>)
    ensures (forall d <- NamesOf(requests) :: d !in names) <==> (forall r <- requests :: r.name !in names)
  {
    forall r | r in requests ensures r.name in NamesOf(requests) {
      var i :| 0 <= i < |requests| && requests[i] == r;
      assert NamesOf(requests)[i] == r.name;
    }
  }

  // For an accepted request set, volume names stay distinct exactly when they were
  // distinct and no dataset about to be mounted takes the name of a volume.
  lemma VolumeNamesDistinct(pod: Pod, requests: map<Int64, Request>, plan: Plan, o: Orders)
    requires |o.init| == |pod.initContainers| && |o.main| == |pod.containers|
    requires Accepted(requests)
    requires PlanAll(InIndexOrder(requests), ClaimedBy(Items(pod.volumes))) == Some(plan)
    ensures NoDuplicates(VolumeNames(Inject(pod, plan, o))) <==>
            NoDuplicates(VolumeNames(pod)) && forall r <- plan.mounts :: r.name !in VolumeNames(pod)
  {
    InIndexOrderAccepted(requests);
    PlanExact(InIndexOrder(requests), ClaimedBy(Items(pod.volumes)));
    UnclaimedMountsDistinct(InIndexOrder(requests), ClaimedBy(Items(pod.volumes)));
    InjectedNamesDistinct(pod, plan, o);
  }
}

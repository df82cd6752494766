// The emitted patch computes a declarative injection, and injecting twice is injecting
// once.
module PatchTheorems {
  import opened GoText
  import opened PodPatch
  import opened DatasetLabels
  import opened LabelTheorems
  import opened DatasetPatch

  // ------------------------------------------------------ the declarative injection

  function MountTarget(c: Container, mounts: seq<Request>): Option<seq<VolumeMount>> {
    var missing := Missing(mounts, MountNames(c));
    if missing == [] then c.volumeMounts
    else Some(Items(c.volumeMounts) + MountsFor(missing))
  }

  function EnvTarget(cs: seq<Container>, orders: seq<seq<string>>, i: nat): Option<seq<EnvSource>>
    requires i < |cs| == |orders|
  {
    if HasEnv(cs[i])
    then Some(cs[i].envFrom.value + SourcesFor(Unreferred(orders[i], cs[i].envFrom.value)))
    else Some(Accumulated(cs[..i + 1], orders[..i + 1]))
  }

  function InjectContainer(cs: seq<Container>, plan: Plan, orders: seq<seq<nat>>, i: nat): Container
    requires i < |cs| == |orders|
  {
    var c := cs[i];
    Container(c.name, MountTarget(c, plan.mounts),
              if plan.configs == [] then c.envFrom else EnvTarget(cs, NamedAll(plan.configs, orders), i))
  }

  function InjectContainers(cs: seq<Container>, plan: Plan, orders: seq<seq<nat>>): seq<Container>
    requires |cs| == |orders|
  {
    seq(|cs|, i requires 0 <= i < |cs| => InjectContainer(cs, plan, orders, i))
  }

  function Inject(pod: Pod, plan: Plan, o: Orders): Pod
    requires |o.init| == |pod.initContainers| && |o.main| == |pod.containers|
  {
    pod.(volumes := if plan.mounts == [] then pod.volumes else Some(Items(pod.volumes) + VolumesFor(plan.mounts)),
         initContainers := InjectContainers(pod.initContainers, plan, o.init),
         containers := InjectContainers(pod.containers, plan, o.main))
  }

  // The arrays that "add" inserts into must be there.
  predicate MountsFit(c: Container, mounts: seq<Request>) {
    Missing(mounts, MountNames(c)) != [] ==> c.volumeMounts.Some?
  }

  predicate AllMountsFit(cs: seq<Container>, mounts: seq<Request>) {
    forall i :: 0 <= i < |cs| ==> MountsFit(cs[i], mounts)
  }

  predicate Applicable(pod: Pod, plan: Plan) {
    && (plan.mounts != [] ==> pod.volumes.Some?)
    && AllMountsFit(pod.initContainers, plan.mounts)
    && AllMountsFit(pod.containers, plan.mounts)
  }

  // ------------------------------------------------------------------- volumes

  lemma {:induction false} ApplyVolumes(pod: Pod, mounts: seq<Request>)
    ensures ApplyAll(pod, VolumeOps(|Items(pod.volumes)|, mounts)) ==
            if mounts == [] then Some(pod)
            else if pod.volumes.None? then None
            else Some(pod.(volumes := Some(Items(pod.volumes) + VolumesFor(mounts))))
  {
    if mounts != [] {
      var front := mounts[..|mounts| - 1];
      var ops := VolumeOps(|Items(pod.volumes)|, mounts);
      ApplyVolumes(pod, front);
      assert ops[..|ops| - 1] == VolumeOps(|Items(pod.volumes)|, front);
      if pod.volumes.Some? {
        assert VolumesFor(mounts) == VolumesFor(front) + [VolumeFor(mounts[|mounts| - 1])];
        assert Items(pod.volumes) + VolumesFor(mounts)
            == InsertAt(Items(pod.volumes) + VolumesFor(front), |Items(pod.volumes)| + |front|,
                        VolumeFor(mounts[|mounts| - 1]));
        assert pod.(volumes := Some(Items(pod.volumes) + VolumesFor([]))) == pod by {
          assert Items(pod.volumes) + VolumesFor([]) == Items(pod.volumes);
        }
      }
    }
  }

  // --------------------------------------------------------------------- mounts

  // Mounts for one container.
  lemma {:induction false} ApplyMounts(pod: Pod, kind: Kind, c: nat, names: seq<string>)
    requires c < |pod.Containers(kind)|
    ensures var x := pod.Containers(kind)[c];
            ApplyAll(pod, MountOps(kind, c, |Items(x.volumeMounts)|, names)) ==
            if names == [] then Some(pod)
            else if x.volumeMounts.None? then None
            else Some(pod.Set(kind, c, x.(volumeMounts := Some(x.volumeMounts.value + MountsFor(names)))))
  {
    var x := pod.Containers(kind)[c];
    var was := x.volumeMounts;
    if names != [] {
      var front := names[..|names| - 1];
      var ops := MountOps(kind, c, |Items(was)|, names);
      ApplyMounts(pod, kind, c, front);
      assert ops[..|ops| - 1] == MountOps(kind, c, |Items(was)|, front);
      if was.Some? {
        LastMount(pod, kind, c, front, names[|names| - 1]);
        assert names == front + [names[|names| - 1]];
        if front == [] {
          assert was.value + MountsFor(front) == was.value;
          pod.SetSame(kind, c);
        }
      }
    }
  }

  lemma LastMount(pod: Pod, kind: Kind, c: nat, front: seq<string>, last: string)
    requires c < |pod.Containers(kind)| && pod.Containers(kind)[c].volumeMounts.Some?
    ensures var x := pod.Containers(kind)[c];
            var was := x.volumeMounts.value;
            Apply(pod.Set(kind, c, x.(volumeMounts := Some(was + MountsFor(front)))),
                  Add(MountAt(kind, c, |was| + |front|), AMount(MountFor(last))))
            == Some(pod.Set(kind, c, x.(volumeMounts := Some(was + MountsFor(front + [last])))))
  {
    var x := pod.Containers(kind)[c];
    var was := x.volumeMounts.value;
    var y := x.(volumeMounts := Some(was + MountsFor(front)));
    var z := x.(volumeMounts := Some(was + MountsFor(front + [last])));
    assert z.volumeMounts.value == InsertAt(y.volumeMounts.value, |was| + |front|, MountFor(last));
    pod.SetTwice(kind, c, y, z);
  }

  function WithMounts(cs: seq<Container>, mounts: seq<Request>, n: nat): seq<Container>
    requires n <= |cs|
  {
    seq(|cs|, i requires 0 <= i < |cs| =>
      if i < n then cs[i].(volumeMounts := MountTarget(cs[i], mounts)) else cs[i])
  }

  lemma FitStep(cs: seq<Container>, mounts: seq<Request>, n: nat)
    requires 0 < n <= |cs|
    ensures AllMountsFit(cs[..n], mounts) <==> AllMountsFit(cs[..n - 1], mounts) && MountsFit(cs[n - 1], mounts)
  {
    if AllMountsFit(cs[..n], mounts) {
      assert forall i :: 0 <= i < n - 1 ==> cs[..n - 1][i] == cs[..n][i];
      assert cs[..n][n - 1] == cs[n - 1];
    } else {
      var i :| 0 <= i < n && !MountsFit(cs[..n][i], mounts);
      assert i < n - 1 ==> cs[..n - 1][i] == cs[..n][i];
    }
  }

  lemma WithMountsStep(pod: Pod, kind: Kind, mounts: seq<Request>, n: nat)
    requires 0 < n <= |pod.Containers(kind)|
    ensures var cs := pod.Containers(kind);
            var p := pod.WithContainers(kind, WithMounts(cs, mounts, n - 1));
            && p.Containers(kind)[n - 1] == cs[n - 1]
            && p.Set(kind, n - 1, cs[n - 1].(volumeMounts := MountTarget(cs[n - 1], mounts)))
               == pod.WithContainers(kind, WithMounts(cs, mounts, n))
  {
    var cs := pod.Containers(kind);
    assert WithMounts(cs, mounts, n - 1)[n - 1 := cs[n - 1].(volumeMounts := MountTarget(cs[n - 1], mounts))]
        == WithMounts(cs, mounts, n);
  }

  lemma {:induction false} ApplyAllMounts(pod: Pod, kind: Kind, mounts: seq<Request>, n: nat)
    requires n <= |pod.Containers(kind)|
    ensures var cs := pod.Containers(kind);
            ApplyAll(pod, AllMountOps(kind, cs[..n], mounts)) ==
            if AllMountsFit(cs[..n], mounts) then Some(pod.WithContainers(kind, WithMounts(cs, mounts, n))) else None
  {
    var cs := pod.Containers(kind);
    if n == 0 {
      assert WithMounts(cs, mounts, 0) == cs;
    } else {
      var c := n - 1;
      ApplyAllMounts(pod, kind, mounts, c);
      MountStep(kind, cs, mounts, c);
      var missing := Missing(mounts, MountNames(cs[c]));
      ApplyAppend(pod, AllMountOps(kind, cs[..c], mounts), MountOps(kind, c, |Items(cs[c].volumeMounts)|, missing));
      FitStep(cs, mounts, n);
      if AllMountsFit(cs[..c], mounts) {
        var p := pod.WithContainers(kind, WithMounts(cs, mounts, c));
        WithMountsStep(pod, kind, mounts, n);
        ApplyMounts(p, kind, c, missing);
        p.SetSame(kind, c);
      }
    }
  }

  // ------------------------------------------------------------------------ envFrom

  lemma {:induction false} ApplyEnvEnd(pod: Pod, kind: Kind, c: nat, sources: seq<EnvSource>)
    requires c < |pod.Containers(kind)| && pod.Containers(kind)[c].envFrom.Some?
    ensures var x := pod.Containers(kind)[c];
            ApplyAll(pod, EnvEndOps(kind, c, sources)) ==
            Some(pod.Set(kind, c, x.(envFrom := Some(x.envFrom.value + sources))))
  {
    var x := pod.Containers(kind)[c];
    if sources == [] {
      assert x.envFrom.value + sources == x.envFrom.value;
      pod.SetSame(kind, c);
    } else {
      var front := sources[..|sources| - 1];
      var ops := EnvEndOps(kind, c, sources);
      ApplyEnvEnd(pod, kind, c, front);
      assert ops[..|ops| - 1] == EnvEndOps(kind, c, front);
      var y := x.(envFrom := Some(x.envFrom.value + front));
      var z := x.(envFrom := Some(x.envFrom.value + sources));
      assert z.envFrom.value == y.envFrom.value + [sources[|sources| - 1]];
      pod.SetTwice(kind, c, y, z);
    }
  }

  // `cs` are the containers the operations were computed from; by the time these are
  // applied, `now` may mount more but has the same envFrom.
  ghost predicate SameEnv(now: seq<Container>, cs: seq<Container>) {
    |now| == |cs| && forall i :: 0 <= i < |cs| ==> now[i].envFrom == cs[i].envFrom
  }

  function WithEnv(now: seq<Container>, cs: seq<Container>, orders: seq<seq<string>>, n: nat): seq<Container>
    requires n <= |cs| == |orders| == |now|
  {
    seq(|now|, i requires 0 <= i < |now| =>
      if i < n then now[i].(envFrom := EnvTarget(cs, orders, i)) else now[i])
  }

  lemma WithEnvStep(pod: Pod, kind: Kind, cs: seq<Container>, orders: seq<seq<string>>, n: nat)
    requires 0 < n <= |cs| == |orders| && |pod.Containers(kind)| == |cs|
    ensures var now := pod.Containers(kind);
            var p := pod.WithContainers(kind, WithEnv(now, cs, orders, n - 1));
            && p.Containers(kind)[n - 1] == now[n - 1]
            && p.Set(kind, n - 1, now[n - 1].(envFrom := EnvTarget(cs, orders, n - 1)))
               == pod.WithContainers(kind, WithEnv(now, cs, orders, n))
  {
    var now := pod.Containers(kind);
    assert WithEnv(now, cs, orders, n - 1)[n - 1 := now[n - 1].(envFrom := EnvTarget(cs, orders, n - 1))]
        == WithEnv(now, cs, orders, n);
  }

  lemma ApplyContainerEnv(pod: Pod, kind: Kind, cs: seq<Container>, orders: seq<seq<string>>, c: nat)
    requires c < |cs| == |orders| && |pod.Containers(kind)| == |cs|
    requires pod.Containers(kind)[c].envFrom == cs[c].envFrom
    ensures ApplyAll(pod, ContainerEnvOps(kind, cs, orders, c)) ==
            Some(pod.Set(kind, c, pod.Containers(kind)[c].(envFrom := EnvTarget(cs, orders, c))))
  {
    if HasEnv(cs[c]) {
      ApplyEnvEnd(pod, kind, c, SourcesFor(Unreferred(orders[c], Items(cs[c].envFrom))));
    } else {
      var ops := ContainerEnvOps(kind, cs, orders, c);
      assert ops[..0] == [] && ApplyAll(pod, ops) == Apply(pod, ops[0]);
    }
  }

  lemma {:induction false} ApplyAllEnv(pod: Pod, kind: Kind, cs: seq<Container>, orders: seq<seq<string>>, n: nat)
    requires n <= |cs| == |orders| && SameEnv(pod.Containers(kind), cs)
    ensures ApplyAll(pod, AllEnvOps(kind, cs[..n], orders[..n])) ==
            Some(pod.WithContainers(kind, WithEnv(pod.Containers(kind), cs, orders, n)))
  {
    var now := pod.Containers(kind);
    if n == 0 {
      assert WithEnv(now, cs, orders, 0) == now;
    } else {
      var c := n - 1;
      ApplyAllEnv(pod, kind, cs, orders, c);
      EnvStep(kind, cs, orders, c);
      ApplyAppend(pod, AllEnvOps(kind, cs[..c], orders[..c]), ContainerEnvOps(kind, cs, orders, c));
      WithEnvStep(pod, kind, cs, orders, n);
      ApplyContainerEnv(pod.WithContainers(kind, WithEnv(now, cs, orders, c)), kind, cs, orders, c);
    }
  }

  // ------------------------------------------------------------- the whole patch

  lemma ApplyMountPart(pod: Pod, mounts: seq<Request>)
    ensures ApplyAll(pod, MountPart(pod, mounts)) ==
            if Applicable(pod, Plan(mounts, []))
            then Some(pod.(volumes := if mounts == [] then pod.volumes else Some(Items(pod.volumes) + VolumesFor(mounts)),
                           initContainers := WithMounts(pod.initContainers, mounts, |pod.initContainers|),
                           containers := WithMounts(pod.containers, mounts, |pod.containers|)))
            else None
  {
    var inits, mains := pod.initContainers, pod.containers;
    if mounts == [] {
      assert WithMounts(inits, mounts, |inits|) == inits;
      assert WithMounts(mains, mounts, |mains|) == mains;
    } else {
      var volumeOps := VolumeOps(|Items(pod.volumes)|, mounts);
      var initOps, mainOps := AllMountOps(Init, inits, mounts), AllMountOps(Main, mains, mounts);
      ApplyVolumes(pod, mounts);
      ApplyAppend(pod, volumeOps, initOps);
      ApplyAppend(pod, volumeOps + initOps, mainOps);
      assert inits[..|inits|] == inits && mains[..|mains|] == mains;
      if pod.volumes.Some? {
        var p := pod.(volumes := Some(Items(pod.volumes) + VolumesFor(mounts)));
        ApplyAllMounts(p, Init, mounts, |inits|);
        var q := p.WithContainers(Init, WithMounts(inits, mounts, |inits|));
        ApplyAllMounts(q, Main, mounts, |mains|);
      }
    }
  }

  lemma ApplyEnvPart(pod: Pod, now: Pod, configs: seq<string>, o: Orders)
    requires |o.init| == |pod.initContainers| && |o.main| == |pod.containers|
    requires SameEnv(now.initContainers, pod.initContainers) && SameEnv(now.containers, pod.containers)
    requires configs != []
    ensures var inits, mains := pod.initContainers, pod.containers;
            ApplyAll(now, EnvPart(pod, configs, o)) ==
            Some(now.(initContainers := WithEnv(now.initContainers, inits, NamedAll(configs, o.init), |inits|),
                      containers := WithEnv(now.containers, mains, NamedAll(configs, o.main), |mains|)))
  {
    var inits, mains := pod.initContainers, pod.containers;
    var initNames, mainNames := NamedAll(configs, o.init), NamedAll(configs, o.main);
    assert inits[..|inits|] == inits && initNames[..|inits|] == initNames;
    assert mains[..|mains|] == mains && mainNames[..|mains|] == mainNames;
    ApplyAllEnv(now, Init, inits, initNames, |inits|);
    var p := now.WithContainers(Init, WithEnv(now.initContainers, inits, initNames, |inits|));
    ApplyAllEnv(p, Main, mains, mainNames, |mains|);
    ApplyAppend(now, AllEnvOps(Init, inits, initNames), AllEnvOps(Main, mains, mainNames));
  }

  lemma ContainersInjected(cs: seq<Container>, plan: Plan, orders: seq<seq<nat>>)
    requires |cs| == |orders|
    ensures var mounted := WithMounts(cs, plan.mounts, |cs|);
            && SameEnv(mounted, cs)
            && InjectContainers(cs, plan, orders) ==
               if plan.configs == [] then mounted else WithEnv(mounted, cs, NamedAll(plan.configs, orders), |cs|)
  {
  }

  // Every "add" is valid when it is reached exactly when the arrays it needs exist, and
  // the patch then yields the declarative injection, for every iteration order.
  lemma PatchCorrect(pod: Pod, plan: Plan, o: Orders)
    requires |o.init| == |pod.initContainers| && |o.main| == |pod.containers|
    ensures ApplyAll(pod, PatchOps(pod, plan, o)) == if Applicable(pod, plan) then Some(Inject(pod, plan, o)) else None
  {
    ApplyAppend(pod, MountPart(pod, plan.mounts), EnvPart(pod, plan.configs, o));
    ApplyMountPart(pod, plan.mounts);
    ContainersInjected(pod.initContainers, plan, o.init);
    ContainersInjected(pod.containers, plan, o.main);
    assert Applicable(pod, plan) == Applicable(pod, Plan(plan.mounts, []));
    if Applicable(pod, plan) && plan.configs != [] {
      var now := ApplyAll(pod, MountPart(pod, plan.mounts)).value;
      ApplyEnvPart(pod, now, plan.configs, o);
    }
  }
}

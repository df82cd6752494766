// What a reconcile of a Dataset comes to, said of the Dataset, the pods and the PVC.
module DatasetOutcome {
  import opened GoText
  import opened Kube
  import opened NameCheck
  import opened DatasetController
  import opened DatasetReconcile

  // ------------------------------------------------------------ listed plugin pods

  predicate ServesCaching(pod: Data) {
    && "dlf-plugin-type" in pod && pod["dlf-plugin-type"] == "caching"
    && "dlf-plugin-name" in pod
  }

  predicate Serves(pod: Data, name: string) {
    ServesCaching(pod) && pod["dlf-plugin-name"] == name
  }

  ghost predicate SomeServes(pods: seq<Data>) { exists p <- pods :: ServesCaching(p) }
  ghost predicate SomeNamed(pods: seq<Data>, name: string) { exists p <- pods :: Serves(p, name) }

  // The first pod that serves caching, or serves it under a name.
  predicate IsFirstServing(pods: seq<Data>, n: nat) {
    n < |pods| && ServesCaching(pods[n]) && forall m :: 0 <= m < n ==> !ServesCaching(pods[m])
  }

  predicate IsFirstNamed(pods: seq<Data>, name: string, n: nat) {
    n < |pods| && Serves(pods[n], name) && forall m :: 0 <= m < n ==> !Serves(pods[m], name)
  }

  lemma ListedStep(pods: seq<Data>, p: Data)
    ensures CachingPlugins(pods + [p]) == if ServesCaching(p) then CachingPlugins(pods) + [p] else CachingPlugins(pods)
  {
    assert (pods + [p])[..|pods|] == pods;
    assert IsPlugin(p) == ServesCaching(p) && CachingPlugins(pods) + [] == CachingPlugins(pods);
  }

  lemma {:induction false} FirstListed(pods: seq<Data>, n: nat)
    requires IsFirstServing(pods, n)
    ensures CachingPlugins(pods) != [] && CachingPlugins(pods)[0] == pods[n]
    decreases |pods|
  {
    var front, p := pods[..|pods| - 1], pods[|pods| - 1];
    ListedStep(front, p);
    assert pods == front + [p];
    if n < |front| {
      FirstListed(front, n);
    } else {
      NoneListed(front);
    }
  }

  lemma {:induction false} NoneListed(pods: seq<Data>)
    ensures CachingPlugins(pods) == [] <==> !SomeServes(pods)
  {
    if pods != [] {
      var front, p := pods[..|pods| - 1], pods[|pods| - 1];
      NoneListed(front);
      ListedStep(front, p);
      assert pods == front + [p];
    }
  }

  lemma FirstNamedStep(plugins: seq<Data>, p: Data, name: string)
    ensures FirstNamed(plugins + [p], name) ==
            match FirstNamed(plugins, name)
            case Some(q) => Some(q)
            case None => if Get(p, PLUGIN_NAME) == name then Some(p) else None
  {
    assert (plugins + [p])[..|plugins|] == plugins;
  }

  lemma {:induction false} NamedListed(pods: seq<Data>, name: string)
    ensures FirstNamed(CachingPlugins(pods), name).None? <==> !SomeNamed(pods, name)
  {
    if pods != [] {
      var front, p := pods[..|pods| - 1], pods[|pods| - 1];
      NamedListed(front, name);
      ListedStep(front, p);
      assert pods == front + [p];
      assert p in pods && forall q <- front :: q in pods;
      assert SomeNamed(pods, name) <==> SomeNamed(front, name) || Serves(p, name);
      if ServesCaching(p) {
        FirstNamedStep(CachingPlugins(front), p, name);
        assert Get(p, PLUGIN_NAME) == p["dlf-plugin-name"];
      }
    }
  }

  lemma {:induction false} FirstNamedListedAt(pods: seq<Data>, name: string, n: nat)
    requires IsFirstNamed(pods, name, n)
    ensures FirstNamed(CachingPlugins(pods), name) == Some(pods[n])
    decreases |pods|
  {
    var front, p := pods[..|pods| - 1], pods[|pods| - 1];
    if n < |front| {
      FirstNamedListedAt(front, name, n);
    } else {
      NamedListed(front, name);
    }
    ListedStep(front, p);
    assert pods == front + [p];
    if ServesCaching(p) {
      FirstNamedStep(CachingPlugins(front), p, name);
      assert Get(p, PLUGIN_NAME) == p["dlf-plugin-name"];
    }
  }

  // ------------------------------------------------------------ the choice of a plugin

  // A valid Dataset whose caching is being set up and not disabled by its user.
  predicate Choosing(name: string, w: World) {
    && w.ds.Some? && Coherent(name, w.ds.value) && w.ds.value.caching.status == Initializing
    && ParseBool(Get(w.ds.value.labels, "cache.disable")) != Some(true)
  }

  predicate Annotated(d: Dataset) {
    "dlf-plugin-type" in d.annotations && "dlf-plugin-name" in d.annotations
  }

  predicate AssignedWith(w: World, d: Dataset, plugin: string) {
    w.ds == Some(d.(caching := Condition(Pending, "Caching is assigned to " + plugin + " plugin")))
  }

  lemma DisabledByUser(name: string, w: World)
    requires w.ds.Some? && Coherent(name, w.ds.value) && w.ds.value.caching.status == Initializing
    requires ParseBool(Get(w.ds.value.labels, "cache.disable")) == Some(true)
    ensures var w' := ReconcileDataset(name, w);
            w'.ds.Some? && w'.ds.value.caching.status == Disabled && w' == w.(ds := w'.ds)
  {
  }

  // Annotations that are there already decide, as long as some plugin is listed.
  lemma AnnotationsDecide(name: string, w: World)
    requires Choosing(name, w) && SomeServes(w.pods) && Annotated(w.ds.value)
    ensures AssignedWith(ReconcileDataset(name, w), w.ds.value, w.ds.value.annotations["dlf-plugin-name"])
    ensures ReconcileDataset(name, w) == w.(ds := ReconcileDataset(name, w).ds)
  {
    NoneListed(w.pods);
  }

  // A pod of the plugin that the user names, the first one, gives the Dataset its
  // labels as annotations, and the next reconcile assigns caching to that plugin.
  lemma NamedPluginChosen(name: string, w: World, n: nat)
    requires Choosing(name, w) && !Annotated(w.ds.value) && "cache.plugin" in w.ds.value.labels
    requires IsFirstNamed(w.pods, w.ds.value.labels["cache.plugin"], n)
    ensures var d := w.ds.value.(annotations := w.pods[n]);
            && ReconcileDataset(name, w) == w.(ds := Some(d))
            && AssignedWith(Iterate(name, w, 2), d, w.ds.value.labels["cache.plugin"])
  {
    var d := w.ds.value;
    FirstNamedListedAt(w.pods, d.labels["cache.plugin"], n);
    assert w.pods[n] in w.pods && SomeServes(w.pods);
    NoneListed(w.pods);
    var w1 := ReconcileDataset(name, w);
    assert w1 == w.(ds := Some(d.(annotations := w.pods[n])));
    AnnotationsDecide(name, w1);
    assert Iterate(name, w, 2) == Iterate(name, w1, 1) == Iterate(name, ReconcileDataset(name, w1), 0);
  }

  // A user who names none gets the first plugin listed.
  lemma FirstPluginChosen(name: string, w: World, n: nat)
    requires Choosing(name, w) && !Annotated(w.ds.value) && "cache.plugin" !in w.ds.value.labels
    requires IsFirstServing(w.pods, n)
    ensures var d := w.ds.value.(annotations := w.pods[n]);
            && ReconcileDataset(name, w) == w.(ds := Some(d))
            && AssignedWith(Iterate(name, w, 2), d, w.pods[n]["dlf-plugin-name"])
  {
    FirstListed(w.pods, n);
    assert w.pods[n] in w.pods && SomeServes(w.pods);
    var w1 := ReconcileDataset(name, w);
    assert w1 == w.(ds := Some(w.ds.value.(annotations := w.pods[n])));
    AnnotationsDecide(name, w1);
    assert Iterate(name, w, 2) == Iterate(name, w1, 1) == Iterate(name, ReconcileDataset(name, w1), 0);
  }

  // Without any plugin, or without the one that the user names, caching is disabled.
  lemma NoPluginDisables(name: string, w: World)
    requires Choosing(name, w)
    requires !SomeServes(w.pods)
             || (!Annotated(w.ds.value) && "cache.plugin" in w.ds.value.labels
                 && !SomeNamed(w.pods, w.ds.value.labels["cache.plugin"]))
    ensures var w' := ReconcileDataset(name, w);
            w'.ds.Some? && w'.ds.value.caching.status == Disabled && w' == w.(ds := w'.ds)
  {
    NoneListed(w.pods);
    if "cache.plugin" in w.ds.value.labels {
      NamedListed(w.pods, w.ds.value.labels["cache.plugin"]);
    }
  }

  // ------------------------------------------------------------ the other parts

  // The first reconcile of a Dataset checks its name.
  lemma FirstReconcile(name: string, w: World)
    requires w.ds.Some? && Coherent(name, w.ds.value) && w.ds.value.caching.status == Empty
    ensures var d, w' := w.ds.value, ReconcileDataset(name, w);
            && w'.ds.Some? && w' == w.(ds := w'.ds)
            && w'.ds.value == d.(caching := d.caching.(status := w'.ds.value.caching.status), provision := w'.ds.value.provision)
            && if name == "" || Matches(name)
               then w'.ds.value.caching.status == Initializing && w'.ds.value.provision == d.provision.(status := Initializing)
               else w'.ds.value.caching.status == Fail && w'.ds.value.provision.status == Fail
  {
    NameCheckExact(name);
  }

  predicate InProvision(name: string, w: World) {
    && w.ds.Some? && Coherent(name, w.ds.value) && Terminal(w.ds.value.caching.status)
    && w.ds.value.provision.status != Fail && w.ds.value.provision.status != OK
  }

  // Then provisioning follows the PVC.
  lemma ProvisionFollowsClaim(name: string, w: World)
    requires InProvision(name, w)
    ensures var d, w' := w.ds.value, ReconcileDataset(name, w);
            && w'.ds.Some? && w'.ds.value == d.(provision := w'.ds.value.provision)
            && var now := w'.ds.value.provision;
            match w.pvc
            case None => now == d.provision.(status := Pending)
            case Some(claim) =>
              match claim.phase
              case ClaimBound => now == Condition(OK, "")
              case ClaimPending =>
                now == Condition(Pending, if w.lastEvent.Some? then w.lastEvent.value else d.provision.info)
              case ClaimLost => now == d.provision
  {
  }

  // A DatasetInternal is made if and only if caching is disabled and there is none; it
  // has the specification and the labels of the Dataset.
  lemma InternalIsMade(name: string, w: World)
    requires w.ds.Some? && Coherent(name, w.ds.value) && w.di.None?
    ensures var d, w' := w.ds.value, ReconcileDataset(name, w);
            if d.caching.status == Disabled && d.provision.status != Empty then
              && w'.di.Some? && w'.di.value.local == d.local && w'.di.value.extract == d.extract
              && w'.di.value.finalizers == {} && !w'.di.value.deleting
              && w'.di.value.labels == d.labels
            else w'.di.None?
  {
  }

  // The label that may be edited reaches an existing DatasetInternal once provisioning is
  // at an end or the PVC is lost, and not before; nothing else of it changes.
  lemma LabelIsSynced(name: string, w: World)
    requires w.ds.Some? && Coherent(name, w.ds.value) && Terminal(w.ds.value.caching.status) && w.di.Some?
    ensures var d, di, w' := w.ds.value, w.di.value, ReconcileDataset(name, w);
            if d.provision.status == OK || d.provision.status == Fail || (w.pvc.Some? && w.pvc.value.phase == ClaimLost) then
              && w'.di.Some? && w' == w.(di := Some(di.(labels := w'.di.value.labels)))
              && var labels := w'.di.value.labels;
              && ("remove-on-delete" in labels <==> "remove-on-delete" in d.labels)
              && Get(labels, "remove-on-delete") == Get(d.labels, "remove-on-delete")
              && labels - {"remove-on-delete"} == di.labels - {"remove-on-delete"}
            else w'.di == w.di
  {
  }
}

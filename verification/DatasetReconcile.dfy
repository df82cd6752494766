// Reconcile of the Dataset controller, call by call, and what holds over its runs.
module DatasetReconcile {
  import opened GoText
  import opened Kube
  import opened NameCheck
  import opened DatasetController

  // initializeDatasetStatus; the flag tells whether anything changed.
  method InitializeDatasetStatus(d: Dataset) returns (d': Dataset, modified: bool)
    ensures modified <==> d.provision.status == Empty || d.caching.status == Empty
    ensures d' == d.(provision := if d.provision.status == Empty then d.provision.(status := Initializing) else d.provision,
                     caching := if d.caching.status == Empty then d.caching.(status := Initializing) else d.caching)
  {
    d', modified := d, false;
    if d'.provision.status == Empty {
      d' := d'.(provision := d'.provision.(status := Initializing));
      modified := true;
    }
    if d'.caching.status == Empty {
      d' := d'.(caching := d'.caching.(status := Initializing));
      modified := true;
    }
  }

  // datasetHasCachingAnnotationsSet
  method DatasetHasCachingAnnotationsSet(annotations: Data) returns (pluginName: string, present: bool)
    ensures present <==> HasCachingAnnotations(annotations)
    ensures present ==> pluginName == annotations[PLUGIN_NAME]
  {
    var labels := [PLUGIN_TYPE, PLUGIN_NAME];
    present := true;
    for n := 0 to |labels|
      invariant present && forall m :: 0 <= m < n ==> labels[m] in annotations
    {
      if labels[n] !in annotations {
        assert labels[n] == PLUGIN_TYPE || labels[n] == PLUGIN_NAME;
        return "", false;
      }
    }
    assert labels[0] in annotations && labels[1] in annotations;
    pluginName := annotations[PLUGIN_NAME];
  }

  method FindPlugin(plugins: seq<Data>, name: string) returns (found: Option<Data>)
    ensures found == FirstNamed(plugins, name)
  {
    for n := 0 to |plugins|
      invariant FirstNamed(plugins[..n], name) == None
    {
      assert plugins[..n + 1][..n] == plugins[..n];
      if Get(plugins[n], PLUGIN_NAME) == name {
        FirstStays(plugins, n + 1, name);
        return Some(plugins[n]);
      }
    }
    assert plugins[..|plugins|] == plugins;
    return None;
  }

  lemma {:induction false} FirstStays(plugins: seq<Data>, n: nat, name: string)
    requires n <= |plugins| && FirstNamed(plugins[..n], name).Some?
    ensures FirstNamed(plugins, name) == FirstNamed(plugins[..n], name)
    decreases |plugins| - n
  {
    if n == |plugins| {
      assert plugins[..n] == plugins;
    } else {
      assert plugins[..n + 1][..n] == plugins[..n];
      FirstStays(plugins, n + 1, name);
    }
  }

  lemma {:induction false} ListedPodsArePlugins(pods: seq<Data>)
    ensures forall p <- CachingPlugins(pods) :: IsPlugin(p)
  {
    if pods != [] {
      ListedPodsArePlugins(pods[..|pods| - 1]);
    }
  }

  lemma {:induction false} FirstNamedListed(plugins: seq<Data>, name: string)
    ensures FirstNamed(plugins, name).Some? ==>
              FirstNamed(plugins, name).value in plugins && Get(FirstNamed(plugins, name).value, PLUGIN_NAME) == name
  {
    if plugins != [] {
      FirstNamedListed(plugins[..|plugins| - 1], name);
      assert plugins == plugins[..|plugins| - 1] + [plugins[|plugins| - 1]];
    }
  }

  // The caching part, for a Dataset whose caching status is Initializing.
  method SetUpCaching(c: Cluster, d: Dataset) returns (ok: bool)
    requires c.Valid() && Coherent(c.name, d) && d.caching.status == Initializing
    modifies c
    ensures c.Valid() && old(c.run) <= c.run
    ensures c.quiet && c.reliable && old(c.ds) == Some(d) ==>
              c.Now() == old(c.Now()).(ds := Some(CachingSetup(d, old(c.pods))))
  {
    var cacheDisable := ParseBool(Get(d.labels, "cache.disable"));
    if cacheDisable == Some(true) {
      ok := c.UpdateStatus(d, d.(caching := Condition(Disabled, DISABLED_BY_USER)));
      return;
    }
    var listed, plugins := c.ListPlugins();
    if !listed {
      return false;
    }
    ListedPodsArePlugins(c.pods);
    if |plugins| == 0 {
      ok := c.UpdateStatus(d, d.(caching := Condition(Disabled, NO_PLUGINS)));
      return;
    }
    var pluginName, present := DatasetHasCachingAnnotationsSet(d.annotations);
    if present {
      ok := c.UpdateStatus(d, d.(caching := Condition(Pending, AssignedTo(pluginName))));
      return;
    }
    ok := AssignPlugin(c, d, plugins);
  }

  // Annotates a Dataset with the plugin the user named, or with the first one.
  method AssignPlugin(c: Cluster, d: Dataset, plugins: seq<Data>) returns (ok: bool)
    requires c.Valid() && Coherent(c.name, d) && d.caching.status == Initializing
    requires |plugins| > 0 && forall p <- plugins :: IsPlugin(p)
    modifies c
    ensures c.Valid() && old(c.run) <= c.run
    ensures c.quiet && c.reliable && old(c.ds) == Some(d) && plugins == CachingPlugins(old(c.pods))
            && ParseBool(Get(d.labels, "cache.disable")) != Some(true) && !HasCachingAnnotations(d.annotations) ==>
              c.Now() == old(c.Now()).(ds := Some(CachingSetup(d, old(c.pods))))
  {
    if "cache.plugin" !in d.labels {
      assert IsPlugin(plugins[0]);
      ok := c.UpdateAnnotations(d, plugins[0]);
      return;
    }
    var plugin := FindPlugin(plugins, d.labels["cache.plugin"]);
    FirstNamedListed(plugins, d.labels["cache.plugin"]);
    if plugin.Some? {
      ok := c.UpdateAnnotations(d, plugin.value);
      return;
    }
    ok := c.UpdateStatus(d, d.(caching := Condition(Disabled, PluginMissing(d.labels["cache.plugin"]))));
  }

  // The provision part; `stop` means that Reconcile returns here.
  method TrackProvisioning(c: Cluster, d: Dataset) returns (stop: bool)
    requires c.Valid() && Coherent(c.name, d) && d.caching.status != Empty && d.caching.status != Initializing
    requires d.provision.status != Fail && d.provision.status != OK
    modifies c
    ensures c.Valid() && old(c.run) <= c.run
    ensures c.quiet && c.reliable && old(c.ds) == Some(d) ==>
              match ProvisionStep(d, old(c.pvc), old(c.lastEvent))
              case Write(d') => stop && c.Now() == old(c.Now()).(ds := Some(d'))
              case Wait => stop && c.Now() == old(c.Now())
              case Proceed => !stop && c.Now() == old(c.Now())
  {
    var foundPVC := c.GetClaim();
    if foundPVC.NotFound? {
      if d.provision.status != Pending {
        var _ := c.UpdateStatus(d, d.(provision := d.provision.(status := Pending)));
      }
      return true;
    } else if foundPVC.Failed? {
      return true;
    }
    match foundPVC.value.phase {
      case ClaimLost =>
        return false;
      case ClaimPending =>
        var d' := d;
        var statusUpdated := false;
        if d'.provision.status != Pending {
          d' := d'.(provision := d'.provision.(status := Pending));
          statusUpdated := true;
        }
        var lastEvent := c.ReadLastEvent();
        if lastEvent.Some? && d'.provision.info != lastEvent.value {
          d' := d'.(provision := d'.provision.(info := lastEvent.value));
          statusUpdated := true;
        }
        if statusUpdated {
          var _ := c.UpdateStatus(d, d');
        }
        return true;
      case ClaimBound =>
        assert Bound(c.Now());
        var _ := c.UpdateStatus(d, d.(provision := Condition(OK, "")));
        return true;
    }
  }

  // checkIfEditableLabelsChangedAndUpdate
  method CheckIfEditableLabelsChangedAndUpdate(c: Cluster, d: Dataset, internal: Internal) returns (ok: bool)
    requires c.Valid()
    modifies c
    ensures c.Valid() && old(c.run) <= c.run
    ensures c.quiet && c.reliable && old(c.di) == Some(internal) ==>
              c.Now() == old(c.Now()).(di := Some(internal.(labels := SyncLabels(d.labels, internal.labels))))
  {
    ok := true;
    var editable := [REMOVE_ON_DELETE];
    var labels := internal.labels;
    var shouldUpdateOrDelete := false;
    for n := 0 to |editable|
      invariant n == 0 ==> labels == internal.labels && !shouldUpdateOrDelete
      invariant n == 1 ==> labels == SyncLabels(d.labels, internal.labels)
      invariant n == 1 ==> (shouldUpdateOrDelete <==> REMOVE_ON_DELETE in d.labels || REMOVE_ON_DELETE in internal.labels)
    {
      var key := editable[n];
      if key in d.labels {
        shouldUpdateOrDelete := true;
        labels := labels[key := d.labels[key]];
      }
      if key in labels && key !in d.labels {
        shouldUpdateOrDelete := true;
        labels := labels - {key};
      }
    }
    assert !shouldUpdateOrDelete ==> SyncLabels(d.labels, internal.labels) == internal.labels;
    if shouldUpdateOrDelete {
      ok := c.UpdateInternalLabels(internal, labels);
    }
  }

  // The 1-1 DatasetInternal of a Dataset without caching.
  method EnsureInternal(c: Cluster, d: Dataset) returns (ok: bool)
    requires c.Valid() && Coherent(c.name, d) && d.caching.status == Disabled
    modifies c
    ensures c.Valid() && old(c.run) <= c.run
    ensures c.quiet && c.reliable ==>
              ok && c.Now() == if old(c.di).None? then old(c.Now()).(di := Some(NewInternal(d))) else old(c.Now())
  {
    var internal := c.GetInternal();
    if internal.Failed? {
      return false;
    }
    ok := true;
    if internal.NotFound? {
      ok := c.CreateInternalObject(NewInternal(d));
    }
  }

  method Reconcile(c: Cluster) returns (ok: bool)
    requires c.Valid()
    modifies c
    ensures c.Valid() && old(c.run) <= c.run
    ensures c.quiet && c.reliable ==> c.Now() == ReconcileDataset(c.name, old(c.Now()))
  {
    var reply := c.GetDataset();
    if !reply.Ok? {
      return reply.NotFound?;
    }
    var d := reply.value;
    var d', modified := InitializeDatasetStatus(d);
    if modified {
      if |Residue(c.name)| > 0 {
        d' := d'.(provision := Condition(Fail, NAME_INVALID), caching := d'.caching.(status := Fail));
      }
      assert d' == Initialised(c.name, d);
      ok := c.UpdateStatus(d, d');
      return;
    }
    if d.caching.status == Initializing {
      ok := SetUpCaching(c, d);
      return;
    }
    ok := ProvisionAndSync(c, d);
  }

  // The part of Reconcile after the caching setup.
  method ProvisionAndSync(c: Cluster, d: Dataset) returns (ok: bool)
    requires c.Valid() && Coherent(c.name, d) && d.caching.status != Empty && d.caching.status != Initializing
    modifies c
    ensures c.Valid() && old(c.run) <= c.run
    ensures c.quiet && c.reliable && old(c.ds) == Some(d) ==> c.Now() == ReconcileDataset(c.name, old(c.Now()))
  {
    if d.caching.status == Disabled {
      ok := EnsureInternal(c, d);
      if !ok {
        return;
      }
    }
    if d.provision.status != Fail && d.provision.status != OK {
      var stop := TrackProvisioning(c, d);
      if stop {
        return true;
      }
    }
    var internal := c.GetInternal();
    ok := true;
    if internal.Ok? {
      ok := CheckIfEditableLabelsChangedAndUpdate(c, d, internal.value);
    }
  }

  // ------------------------------------------------------------ theorems about runs

  // Along every run the two statuses of a Dataset move only as the status machine says.
  lemma StatusMoves(name: string, run: seq<Event>, i: nat)
    requires IsRun(name, run) && 0 < i < |run| && SameDataset(run[i - 1].world, run[i].world)
    ensures CachingMove(run[i - 1].world.ds.value.caching.status, run[i].world.ds.value.caching.status)
    ensures ProvisionMove(run[i - 1].world.ds.value.provision.status, run[i].world.ds.value.provision.status)
  {
    assert StepAt(name, run, i);
  }

  // From state i on, the Dataset is one and the same up to state j.
  ghost predicate Lives(run: seq<Event>, i: nat, j: nat)
    requires i <= j < |run|
  {
    forall k :: i < k <= j ==> SameDataset(run[k - 1].world, run[k].world)
  }

  // Terminal caching values and the provision values OK and Fail are never left.
  lemma {:induction false} TerminalStays(name: string, run: seq<Event>, i: nat, j: nat)
    requires IsRun(name, run) && i <= j < |run| && run[i].world.ds.Some? && Lives(run, i, j)
    ensures run[j].world.ds.Some?
    ensures var a, b := run[i].world.ds.value, run[j].world.ds.value;
            && (Terminal(a.caching.status) ==> b.caching.status == a.caching.status)
            && (a.provision.status == OK || a.provision.status == Fail ==> b.provision.status == a.provision.status)
    decreases j - i
  {
    if i < j {
      TerminalStays(name, run, i, j - 1);
      assert SameDataset(run[j - 1].world, run[j].world);
      StatusMoves(name, run, j);
    }
  }

  // A Dataset whose provisioning becomes OK had a bound PVC under its name before.
  lemma {:induction false} OkMeansBound(name: string, run: seq<Event>, i: nat, j: nat)
    requires IsRun(name, run) && i <= j < |run| && run[i].world.ds.Some? && Lives(run, i, j)
    requires run[i].world.ds.value.provision.status != OK
    requires run[j].world.ds.Some? && run[j].world.ds.value.provision.status == OK
    ensures BoundBefore(run, j)
    decreases j - i
  {
    assert i < j;
    assert SameDataset(run[j - 1].world, run[j].world);
    if run[j - 1].world.ds.value.provision.status == OK {
      OkMeansBound(name, run, i, j - 1);
      var k :| 0 <= k < j - 1 && Bound(run[k].world);
      assert Bound(run[k].world);
    } else {
      assert StepAt(name, run, j);
    }
  }

  // This operator never makes a DatasetInternal for an invalid name.
  lemma InvalidNameNoInternal(name: string, run: seq<Event>, i: nat)
    requires IsRun(name, run) && 0 < i < |run| && run[i].action != ByOthers
    requires run[i - 1].world.di.None? && run[i].world.di.Some?
    ensures ValidName(name)
  {
    assert StepAt(name, run, i);
  }

  // --------------------------------------------------------------------- progress

  function Iterate(name: string, w: World, n: nat): World
    decreases n
  {
    if n == 0 then w else Iterate(name, ReconcileDataset(name, w), n - 1)
  }

  lemma AnnotatedFromPlugin(d: Dataset, pods: seq<Data>)
    requires d.caching.status == Initializing
    ensures var d' := CachingSetup(d, pods);
            d'.caching.status == Initializing ==>
              HasCachingAnnotations(d'.annotations) && d'.labels == d.labels && d'.provision == d.provision
              && CachingPlugins(pods) != [] && ParseBool(Get(d.labels, "cache.disable")) != Some(true)
  {
    var plugins := CachingPlugins(pods);
    ListedPodsArePlugins(pods);
    if plugins != [] && "cache.plugin" in d.labels {
      FirstNamedListed(plugins, d.labels["cache.plugin"]);
    }
    assert plugins != [] ==> plugins[0] in plugins;
  }

  // Two undisturbed reconciles move caching out of Initializing: annotations copied from
  // a listed pod always pass the annotation check.
  lemma PluginSelectionEnds(name: string, w: World)
    requires w.ds.Some? && Coherent(name, w.ds.value) && w.ds.value.caching.status == Initializing
    ensures var w2 := Iterate(name, w, 2);
            w2.ds.Some? && w2.ds.value.caching.status != Initializing && w2.ds.value.caching.status != Empty
  {
    var w1 := ReconcileDataset(name, w);
    AnnotatedFromPlugin(w.ds.value, w.pods);
    assert Iterate(name, w, 2) == Iterate(name, w1, 1);
    assert Iterate(name, w1, 1) == Iterate(name, ReconcileDataset(name, w1), 0);
  }

  predicate Settled(w: World) {
    w.ds.Some? && Terminal(w.ds.value.caching.status)
    && (w.ds.value.provision.status == OK || w.ds.value.provision.status == Fail)
  }

  lemma {:induction false} StaysPut(name: string, w: World, n: nat)
    requires ReconcileDataset(name, w) == w
    ensures Iterate(name, w, n) == w
  {
    if n > 0 {
      StaysPut(name, w, n - 1);
    }
  }

  lemma SyncTwice(from: Data, to: Data)
    ensures SyncLabels(from, SyncLabels(from, to)) == SyncLabels(from, to)
  {
  }

  lemma SettledFixpoint(name: string, w: World, n: nat)
    requires Settled(w) && n >= 1
    ensures ReconcileDataset(name, Iterate(name, w, n)) == Iterate(name, w, n)
  {
    var w1 := ReconcileDataset(name, w);
    if w1.di.Some? {
      SyncTwice(w.ds.value.labels, w.ds.value.labels);
      if w.di.Some? {
        SyncTwice(w.ds.value.labels, w.di.value.labels);
      }
    }
    StaysPut(name, w1, n - 1);
  }

  lemma TerminalSettles(name: string, w: World)
    requires w.ds.Some? && Coherent(name, w.ds.value) && Terminal(w.ds.value.caching.status) && Bound(w)
    ensures var w1 := ReconcileDataset(name, w); Settled(w1)
  {
  }

  lemma {:induction false} BoundFixpointFrom(name: string, w: World, n: nat)
    requires w.ds.Some? && Coherent(name, w.ds.value) && Terminal(w.ds.value.caching.status) && Bound(w) && n >= 2
    ensures ReconcileDataset(name, Iterate(name, w, n)) == Iterate(name, w, n)
  {
    TerminalSettles(name, w);
    SettledFixpoint(name, ReconcileDataset(name, w), n - 1);
  }

  lemma SetupKeeps(name: string, w: World)
    requires w.ds.Some? && Coherent(name, w.ds.value) && w.ds.value.caching.status in {Empty, Initializing}
    ensures var w1 := ReconcileDataset(name, w);
            && w1.ds.Some? && Coherent(name, w1.ds.value) && w1.pvc == w.pvc && w1.pods == w.pods
            && w1.ds.value.caching.status != Empty
            && (w.ds.value.caching.status == Initializing ==>
                  w1.ds.value.caching.status != Initializing || HasCachingAnnotations(w1.ds.value.annotations))
  {
    if w.ds.value.caching.status == Initializing {
      AnnotatedFromPlugin(w.ds.value, w.pods);
    }
  }

  // Once the PVC is bound, five undisturbed reconciles reach a state that further
  // reconciles leave as it is.
  lemma ContentFixpoint(name: string, w: World)
    requires w.ds.Some? && Coherent(name, w.ds.value) && Bound(w)
    ensures ReconcileDataset(name, Iterate(name, w, 5)) == Iterate(name, w, 5)
  {
    var w1 := ReconcileDataset(name, w);
    if w.ds.value.caching.status == Empty {
      SetupKeeps(name, w);
      FixpointFromInitial(name, w1, 4);
    } else {
      FixpointFromInitial(name, w, 5);
    }
  }

  lemma FixpointFromInitial(name: string, w: World, n: nat)
    requires w.ds.Some? && Coherent(name, w.ds.value) && w.ds.value.caching.status != Empty && Bound(w) && n >= 4
    ensures ReconcileDataset(name, Iterate(name, w, n)) == Iterate(name, w, n)
  {
    if w.ds.value.caching.status != Initializing {
      BoundFixpointFrom(name, w, n);
    } else {
      var w1 := ReconcileDataset(name, w);
      SetupKeeps(name, w);
      if w1.ds.value.caching.status != Initializing {
        BoundFixpointFrom(name, w1, n - 1);
      } else {
        var w2 := ReconcileDataset(name, w1);
        SetupKeeps(name, w1);
        PluginSelectionEnds(name, w);
        assert Iterate(name, w, 2) == Iterate(name, w1, 1) == Iterate(name, w2, 0) == w2;
        BoundFixpointFrom(name, w2, n - 2);
        assert Iterate(name, w, n) == Iterate(name, w1, n - 1) == Iterate(name, w2, n - 2);
      }
    }
  }
}

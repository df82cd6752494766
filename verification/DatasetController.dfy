// The Dataset reconciler: status, plugin selection, the 1-1 DatasetInternal and the
// label that may be edited later.
module DatasetController {
  import opened GoText
  import opened Kube
  import opened NameCheck

  const REMOVE_ON_DELETE := "remove-on-delete"
  const PLUGIN_TYPE := "dlf-plugin-type"
  const PLUGIN_NAME := "dlf-plugin-name"

  datatype Status = Empty | Initializing | Pending | OK | Disabled | Fail
  datatype Condition = Condition(status: Status, info: string)

  // uid tells apart Datasets that had the same name one after the other.
  datatype Dataset = Dataset(
    uid: nat,
    labels: Data,
    annotations: Data,
    local: Data,
    extract: string,
    caching: Condition,
    provision: Condition)

  // The Dataset, DatasetInternal and PVC of one name, the labels of the pods in the
  // operator's namespace, and the last provisioning event of the PVC, if readable.
  datatype World = World(
    ds: Option<Dataset>,
    di: Option<Internal>,
    pvc: Option<Claim>,
    pods: seq<Data>,
    lastEvent: Option<string>)

  // ---------------------------------------------------------------- status messages

  const NAME_INVALID := "Name must consist of lower case alphanumeric characters or '-', and must start and end with an alphanumeric character (e.g. 'example-dataset',  or '123-dataset')"
  const DISABLED_BY_USER := "User explicitly disabled caching"
  const NO_PLUGINS := "No DLF caching plugins are installed"

  function AssignedTo(plugin: string): string { "Caching is assigned to " + plugin + " plugin" }

  function PluginMissing(plugin: string): string {
    "User specified plugin '" + plugin + "' was not found. Falling back to disabled caching"
  }

  // ------------------------------------------------------------ the specification

  predicate IsPlugin(pod: Data) {
    PLUGIN_TYPE in pod && pod[PLUGIN_TYPE] == "caching" && PLUGIN_NAME in pod
  }

  // The list call filters on the server.
  function CachingPlugins(pods: seq<Data>): seq<Data> {
    if pods == [] then []
    else CachingPlugins(pods[..|pods| - 1]) + if IsPlugin(pods[|pods| - 1]) then [pods[|pods| - 1]] else []
  }

  predicate HasCachingAnnotations(annotations: Data) {
    PLUGIN_TYPE in annotations && PLUGIN_NAME in annotations
  }

  // The first plugin with the given name.
  function FirstNamed(plugins: seq<Data>, name: string): Option<Data> {
    if plugins == [] then None
    else
      match FirstNamed(plugins[..|plugins| - 1], name)
      case Some(p) => Some(p)
      case None =>
        var last := plugins[|plugins| - 1];
        if Get(last, PLUGIN_NAME) == name then Some(last) else None
  }

  function Initialised(name: string, d: Dataset): Dataset {
    if !ValidName(name) then
      d.(provision := Condition(Fail, NAME_INVALID),
         caching := d.caching.(status := Fail))
    else
      d.(provision := if d.provision.status == Empty then d.provision.(status := Initializing) else d.provision,
         caching := if d.caching.status == Empty then d.caching.(status := Initializing) else d.caching)
  }

  function CachingSetup(d: Dataset, pods: seq<Data>): Dataset {
    var plugins := CachingPlugins(pods);
    if ParseBool(Get(d.labels, "cache.disable")) == Some(true) then
      d.(caching := Condition(Disabled, DISABLED_BY_USER))
    else if plugins == [] then
      d.(caching := Condition(Disabled, NO_PLUGINS))
    else if HasCachingAnnotations(d.annotations) then
      d.(caching := Condition(Pending, AssignedTo(d.annotations[PLUGIN_NAME])))
    else if "cache.plugin" !in d.labels then
      d.(annotations := plugins[0])
    else
      match FirstNamed(plugins, d.labels["cache.plugin"])
      case Some(plugin) => d.(annotations := plugin)
      case None =>
        d.(caching := Condition(Disabled, PluginMissing(d.labels["cache.plugin"])))
  }

  function NewInternal(d: Dataset): Internal {
    Internal(d.local, d.extract, d.labels, {}, false)
  }

  // checkIfEditableLabelsChangedAndUpdate
  function SyncLabels(from: Data, to: Data): Data {
    if REMOVE_ON_DELETE in from then to[REMOVE_ON_DELETE := from[REMOVE_ON_DELETE]]
    else to - {REMOVE_ON_DELETE}
  }

  function SyncInternal(d: Dataset, di: Option<Internal>): Option<Internal> {
    if di.Some? then Some(di.value.(labels := SyncLabels(d.labels, di.value.labels))) else None
  }

  datatype Provisioning = Write(d: Dataset) | Wait | Proceed

  // What the provision part does for the PVC found.  ClaimLost is an empty case.
  function ProvisionStep(d: Dataset, pvc: Option<Claim>, lastEvent: Option<string>): Provisioning {
    if d.provision.status == Fail || d.provision.status == OK then Proceed
    else
      match pvc
      case None =>
        if d.provision.status != Pending then Write(d.(provision := d.provision.(status := Pending))) else Wait
      case Some(claim) =>
        match claim.phase
        case ClaimLost => Proceed
        case ClaimPending =>
          var info := if lastEvent.Some? then lastEvent.value else d.provision.info;
          if d.provision == Condition(Pending, info) then Wait
          else Write(d.(provision := Condition(Pending, info)))
        case ClaimBound => Write(d.(provision := Condition(OK, "")))
  }

  // One reconcile during which nobody else acts and no call fails.
  function ReconcileDataset(name: string, w: World): World {
    match w.ds
    case None => w
    case Some(d) =>
      if d.provision.status == Empty || d.caching.status == Empty then w.(ds := Some(Initialised(name, d)))
      else if d.caching.status == Initializing then w.(ds := Some(CachingSetup(d, w.pods)))
      else
        var w1 := if d.caching.status == Disabled && w.di.None? then w.(di := Some(NewInternal(d))) else w;
        match ProvisionStep(d, w.pvc, w.lastEvent)
        case Write(d') => w1.(ds := Some(d'))
        case Wait => w1
        case Proceed => w1.(di := SyncInternal(d, w1.di))
  }

  // ------------------------------------------------------------------------- runs

  predicate Terminal(s: Status) { s == Pending || s == OK || s == Disabled || s == Fail }

  predicate CachingMove(a: Status, b: Status) {
    || a == b
    || (a == Empty && (b == Initializing || b == Fail))
    || (a == Initializing && (b == Disabled || b == Pending))
  }

  predicate ProvisionMove(a: Status, b: Status) {
    || a == b
    || (a == Empty && (b == Initializing || b == Fail))
    || (a == Initializing && (b == Pending || b == OK))
    || (a == Pending && b == OK)
  }

  // Both fields leave Empty together; Fail means an invalid name.
  predicate Coherent(name: string, d: Dataset) {
    && (d.caching.status == Empty <==> d.provision.status == Empty)
    && (d.caching.status == Fail <==> d.provision.status == Fail)
    && (d.caching.status != Empty ==> (d.caching.status == Fail <==> !ValidName(name)))
    && d.caching.status != OK && d.provision.status != Disabled
  }

  predicate AllCoherent(name: string, w: World) {
    w.ds.Some? ==> Coherent(name, w.ds.value)
  }

  predicate SameDataset(w: World, w': World) {
    w.ds.Some? && w'.ds.Some? && w.ds.value.uid == w'.ds.value.uid
  }

  // Everybody else may do anything except move the two statuses of a Dataset; a new
  // Dataset starts with both empty.  The caching plugin does write the caching info.
  predicate Others(w: World, w': World) {
    w'.ds.Some? ==>
      if SameDataset(w, w')
      then w'.ds.value.caching.status == w.ds.value.caching.status
           && w'.ds.value.provision.status == w.ds.value.provision.status
      else w'.ds.value.caching.status == Empty && w'.ds.value.provision.status == Empty
  }

  datatype Action = ByOthers | Nothing | WriteStatus | Annotate | CreateInternal | SyncLabel

  predicate Does(name: string, a: Action, w: World, w': World) {
    match a
    case ByOthers => Others(w, w')
    case Nothing => w' == w
    case WriteStatus =>
      && SameDataset(w, w')
      && w' == w.(ds := Some(w.ds.value.(caching := w'.ds.value.caching, provision := w'.ds.value.provision)))
      && CachingMove(w.ds.value.caching.status, w'.ds.value.caching.status)
      && ProvisionMove(w.ds.value.provision.status, w'.ds.value.provision.status)
      && Coherent(name, w'.ds.value)
    case Annotate =>
      && SameDataset(w, w') && w.ds.value.caching.status == Initializing
      && w' == w.(ds := Some(w.ds.value.(annotations := w'.ds.value.annotations)))
      && HasCachingAnnotations(w'.ds.value.annotations)
    case CreateInternal =>
      && ValidName(name) && w.di.None? && w' == w.(di := w'.di)
      && w'.di.Some? && w'.di.value.finalizers == {} && !w'.di.value.deleting
    case SyncLabel =>
      && w.di.Some? && w'.di.Some?
      && w' == w.(di := Some(w.di.value.(labels := w'.di.value.labels)))
      && w'.di.value.labels - {REMOVE_ON_DELETE} == w.di.value.labels - {REMOVE_ON_DELETE}
  }

  datatype Event = Event(action: Action, world: World)

  predicate Bound(w: World) { w.pvc.Some? && w.pvc.value.phase == ClaimBound }

  predicate TurnsOK(w: World, w': World) {
    SameDataset(w, w') && w'.ds.value.provision.status == OK && w.ds.value.provision.status != OK
  }

  ghost predicate StepAt(name: string, run: seq<Event>, i: nat)
    requires 0 < i < |run|
  {
    && Does(name, run[i].action, run[i - 1].world, run[i].world)
    && (TurnsOK(run[i - 1].world, run[i].world) ==> BoundBefore(run, i))
  }

  // Some state before the i-th had the PVC bound.
  ghost predicate BoundBefore(run: seq<Event>, i: nat)
    requires i <= |run|
  {
    exists j :: 0 <= j < i && Bound(run[j].world)
  }

  ghost predicate IsRun(name: string, run: seq<Event>) {
    forall i :: 0 < i < |run| ==> StepAt(name, run, i)
  }

  lemma Extend(name: string, run: seq<Event>, e: Event)
    requires |run| > 0 && IsRun(name, run) && Does(name, e.action, run[|run| - 1].world, e.world)
    requires TurnsOK(run[|run| - 1].world, e.world) ==> BoundBefore(run, |run|)
    ensures IsRun(name, run + [e])
  {
    var longer := run + [e];
    forall i | 0 < i < |longer| ensures StepAt(name, longer, i) {
      if i < |run| {
        assert StepAt(name, run, i);
        StillBound(run, longer, i);
      } else {
        StillBound(run, longer, |run|);
      }
    }
  }

  lemma StillBound(run: seq<Event>, longer: seq<Event>, i: nat)
    requires run <= longer && i <= |run|
    ensures BoundBefore(run, i) ==> BoundBefore(longer, i)
  {
    if BoundBefore(run, i) {
      var j :| 0 <= j < i && Bound(run[j].world);
      assert Bound(longer[j].world);
    }
  }

  lemma StillBoundLater(run: seq<Event>, longer: seq<Event>)
    requires run <= longer
    ensures BoundBefore(run, |run|) ==> BoundBefore(longer, |longer|)
  {
    if BoundBefore(run, |run|) {
      var j :| 0 <= j < |run| && Bound(run[j].world);
      assert Bound(longer[j].world);
    }
  }

  // ------------------------------------------------------------------ the cluster

  class Cluster {
    const name: string
    const quiet: bool
    const reliable: bool

    var ds: Option<Dataset>
    var di: Option<Internal>
    var pvc: Option<Claim>
    var pods: seq<Data>
    var lastEvent: Option<string>

    ghost var run: seq<Event>

    function Now(): World
      reads this
    {
      World(ds, di, pvc, pods, lastEvent)
    }

    ghost predicate Valid()
      reads this
    {
      && |run| > 0 && run[|run| - 1].world == Now()
      && IsRun(name, run)
      && AllCoherent(name, Now())
    }

    // Some state of the run had the PVC bound.
    ghost predicate SeenBound()
      reads this
    {
      BoundBefore(run, |run|)
    }

    constructor (name: string, quiet: bool, reliable: bool, w: World)
      requires AllCoherent(name, w)
      ensures Valid() && Now() == w && run == [Event(Nothing, w)]
      ensures this.name == name && this.quiet == quiet && this.reliable == reliable
    {
      this.name, this.quiet, this.reliable := name, quiet, reliable;
      ds, di, pvc, pods, lastEvent := w.ds, w.di, w.pvc, w.pods, w.lastEvent;
      run := [Event(Nothing, w)];
    }

    ghost method Record(a: Action, was: World)
      requires |run| > 0 && run[|run| - 1].world == was && IsRun(name, run)
      requires Does(name, a, was, Now()) && AllCoherent(name, was)
      requires TurnsOK(was, Now()) ==> SeenBound()
      modifies this`run
      ensures Valid() && run == old(run) + [Event(a, Now())]
    {
      Extend(name, run, Event(a, Now()));
      run := run + [Event(a, Now())];
    }

    method Interfere()
      requires Valid()
      modifies this
      ensures Valid() && run == old(run) + [Event(ByOthers, Now())]
      ensures Others(old(Now()), Now())
      ensures quiet ==> Now() == old(Now())
    {
      ghost var was := Now();
      if !quiet {
        var w: World := *;
        if Others(Now(), w) {
          ds, di, pvc, pods, lastEvent := w.ds, w.di, w.pvc, w.pods, w.lastEvent;
        }
      }
      Record(ByOthers, was);
    }

    // ----------------------------------------------------------------- API calls

    method Fails() returns (fails: bool)
      ensures reliable ==> !fails
    {
      fails := *;
      fails := fails && !reliable;
    }

    method GetDataset() returns (r: Reply<Dataset>)
      requires Valid()
      modifies this
      ensures Valid() && old(run) <= run
      ensures quiet ==> Now() == old(Now())
      ensures r.Ok? ==> ds == Some(r.value) && Coherent(name, r.value)
      ensures r.NotFound? ==> ds == None
      ensures reliable ==> !r.Failed?
    {
      Interfere();
      var fails := Fails();
      r := if fails then Failed else if ds.Some? then Ok(ds.value) else NotFound;
    }

    method GetInternal() returns (r: Reply<Internal>)
      requires Valid()
      modifies this
      ensures Valid() && old(run) <= run
      ensures quiet ==> Now() == old(Now())
      ensures r.Ok? ==> di == Some(r.value)
      ensures r.NotFound? ==> di == None
      ensures reliable ==> !r.Failed?
    {
      Interfere();
      var fails := Fails();
      r := if fails then Failed else if di.Some? then Ok(di.value) else NotFound;
    }

    method GetClaim() returns (r: Reply<Claim>)
      requires Valid()
      modifies this
      ensures Valid() && old(run) <= run
      ensures quiet ==> Now() == old(Now())
      ensures r.Ok? ==> pvc == Some(r.value) && (Bound(Now()) ==> SeenBound())
      ensures r.NotFound? ==> pvc == None
      ensures reliable ==> !r.Failed?
    {
      Interfere();
      var fails := Fails();
      r := if fails then Failed else if pvc.Some? then Ok(pvc.value) else NotFound;
      assert Bound(Now()) ==> Bound(run[|run| - 1].world);
    }

    method ListPlugins() returns (ok: bool, plugins: seq<Data>)
      requires Valid()
      modifies this
      ensures Valid() && old(run) <= run
      ensures quiet ==> Now() == old(Now())
      ensures plugins == CachingPlugins(pods)
      ensures reliable ==> ok
    {
      Interfere();
      var fails := Fails();
      ok, plugins := !fails, CachingPlugins(pods);
    }

    method ReadLastEvent() returns (event: Option<string>)
      requires Valid()
      modifies this
      ensures Valid() && old(run) <= run
      ensures quiet ==> Now() == old(Now())
      ensures quiet && reliable ==> event == lastEvent
    {
      Interfere();
      var fails := Fails();
      event := if fails then None else lastEvent;
    }

    // Status().Update of a copy: rejected when the object has changed since it was read;
    // it writes the status only.
    method UpdateStatus(copy: Dataset, d: Dataset) returns (ok: bool)
      requires Valid()
      requires d == copy.(caching := d.caching, provision := d.provision)
      requires CachingMove(copy.caching.status, d.caching.status)
      requires ProvisionMove(copy.provision.status, d.provision.status)
      requires Coherent(name, d)
      requires d.provision.status == OK && copy.provision.status != OK ==> SeenBound()
      modifies this
      ensures Valid() && old(run) <= run
      ensures quiet && reliable && old(ds) == Some(copy) ==> Now() == old(Now()).(ds := Some(d))
    {
      ghost var before := run;
      Interfere();
      StillBoundLater(before, run);
      if ds != Some(copy) {
        return false;
      }
      var fails := Fails();
      var lost := Fails();
      ghost var was := Now();
      if !fails {
        ds := Some(d);
        Record(WriteStatus, was);
      }
      ok := !fails && !lost;
    }

    // Update of a copy with other annotations.
    method UpdateAnnotations(copy: Dataset, annotations: Data) returns (ok: bool)
      requires Valid() && copy.caching.status == Initializing && HasCachingAnnotations(annotations)
      modifies this
      ensures Valid() && old(run) <= run
      ensures quiet && reliable && old(ds) == Some(copy) ==>
                Now() == old(Now()).(ds := Some(copy.(annotations := annotations)))
    {
      Interfere();
      if ds != Some(copy) {
        return false;
      }
      var fails := Fails();
      var lost := Fails();
      ghost var was := Now();
      if !fails {
        ds := Some(copy.(annotations := annotations));
        Record(Annotate, was);
      }
      ok := !fails && !lost;
    }

    method CreateInternalObject(internal: Internal) returns (ok: bool)
      requires Valid() && ValidName(name) && internal.finalizers == {} && !internal.deleting
      modifies this
      ensures Valid() && old(run) <= run
      ensures quiet && reliable && old(di).None? ==> ok && Now() == old(Now()).(di := Some(internal))
    {
      Interfere();
      if di.Some? {
        return false;
      }
      var fails := Fails();
      var lost := Fails();
      ghost var was := Now();
      if !fails {
        di := Some(internal);
        Record(CreateInternal, was);
      }
      ok := !fails && !lost;
    }

    method UpdateInternalLabels(copy: Internal, labels: Data) returns (ok: bool)
      requires Valid()
      requires labels - {REMOVE_ON_DELETE} == copy.labels - {REMOVE_ON_DELETE}
      modifies this
      ensures Valid() && old(run) <= run
      ensures quiet && reliable && old(di) == Some(copy) ==> Now() == old(Now()).(di := Some(copy.(labels := labels)))
    {
      Interfere();
      if di != Some(copy) {
        return false;
      }
      var fails := Fails();
      var lost := Fails();
      ghost var was := Now();
      if !fails {
        di := Some(copy.(labels := labels));
        Record(SyncLabel, was);
      }
      ok := !fails && !lost;
    }
  }
}

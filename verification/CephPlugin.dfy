// The ceph caching plugin for all Datasets of one name.  The objects it makes in the
// rook namespace are called after the Dataset alone, so Datasets of that name in
// different namespaces compete for them.
module CephPlugin {
  import opened GoText
  import K = Kube

  const FINALIZER := "hpsys.ibm.ie.com"
  const PLUGIN := "ceph-cache-plugin"
  const HOSTNAME := "kubernetes.io/hostname"
  const CONNECTED := "Connected"

  type Data = K.Data

  datatype Id = Id(namespace: string, uid: string)

  type Labels = Option<Data>

  // ---------------------------------------------------------------- ceph_related_objects

  // The labels that all three create functions write.
  function LabelsOf(name: string, id: Id): Labels {
    Some(map["dataset" := name, "dataset-namespace" := id.namespace, "dataset-uid" := id.uid])
  }

  predicate IsSameCephObject(labels: Labels, name: string, id: Id) {
    && labels.Some?
    && Get(labels.value, "dataset") == name
    && Get(labels.value, "dataset-namespace") == id.namespace
    && Get(labels.value, "dataset-uid") == id.uid
  }

  lemma LabelsIdentify(name: string, a: Id, b: Id)
    ensures IsSameCephObject(LabelsOf(name, a), name, b) <==> a == b
  {
  }

  // ----------------------------------------------------------------------- the cluster

  datatype Dataset = Dataset(
    uid: string,
    labels: Data,
    local: Data,
    plugin: string,
    finalizers: set<string>,
    deleting: bool,
    info: string)

  datatype Placement = Placement(key: string, value: string)

  datatype Internal = Internal(
    labels: Data, local: Data, gateways: seq<Placement>, dataLocations: seq<Placement>)

  datatype Store = Store(labels: Labels, phase: Option<string>)
  // `foreign`: the first owner of the service is not the object store found.
  datatype Service = Service(foreign: bool, clusterIP: string)

  // Datasets of the one name and their DatasetInternals by namespace; the objects named
  // after them in the rook namespace; the nodes of the pods that the two label queries
  // find.
  datatype World = World(
    datasets: map<string, Dataset>,
    internals: map<string, Internal>,
    configMap: Option<Labels>,
    store: Option<Store>,
    user: Option<Labels>,
    userSecret: Option<Data>,
    service: Option<Service>,
    rgwPods: seq<string>,
    osdPods: seq<string>,
    clusters: nat)

  function IdOf(ns: string, d: Dataset): Id { Id(ns, d.uid) }

  // The rados ConfigMap carries the labels of this Dataset.
  predicate LockHeld(name: string, id: Id, w: World) {
    w.configMap.Some? && IsSameCephObject(w.configMap.value, name, id)
  }

  predicate OwnStore(name: string, id: Id, w: World) { w.store.Some? && IsSameCephObject(w.store.value.labels, name, id) }
  predicate OwnUser(name: string, id: Id, w: World) { w.user.Some? && IsSameCephObject(w.user.value, name, id) }

  // The lock is held and no store or user is somebody else's.
  predicate Locked(name: string, id: Id, w: World) {
    && LockHeld(name, id, w)
    && (w.store.None? || OwnStore(name, id, w))
    && (w.user.None? || OwnUser(name, id, w))
  }

  predicate Finalized(ns: string, w: World) {
    ns in w.datasets && FINALIZER in w.datasets[ns].finalizers
  }

  predicate Marked(ns: string, w: World) { ns in w.datasets && w.datasets[ns].deleting }

  // A Dataset that carries the plugin's finalizer owns what goes by its name.
  predicate Guarded(name: string, ns: string, w: World) {
    Finalized(ns, w) ==> Locked(name, IdOf(ns, w.datasets[ns]), w)
  }

  // ------------------------------------------------------------------ specification

  function NewInternal(d: Dataset, secret: Data, service: Service): Internal {
    Internal(
      d.labels["dlf-plugin-type" := "caching"]["dlf-plugin-name" := PLUGIN],
      map["type" := "COS",
          "accessKeyID" := Get(secret, "AccessKey"), "secretAccessKey" := Get(secret, "SecretKey"),
          "endpoint" := "http://" + service.clusterIP, "bucket" := Get(d.local, "bucket"),
          "provision" := Get(d.local, "provision"), "region" := Get(d.local, "region")],
      [], [])
  }

  function PlacementsOf(nodes: seq<string>): seq<Placement> {
    seq(|nodes|, i requires 0 <= i < |nodes| => Placement(HOSTNAME, nodes[i]))
  }

  predicate NeedsPlacements(d: Dataset, di: Internal) {
    d.plugin == PLUGIN && (di.gateways == [] || di.dataLocations == [])
  }

  // Removing the last finalizer of an object that is being deleted removes the object.
  function DropFinalizer(ns: string, w: World): World
    requires ns in w.datasets
  {
    var rest := w.datasets[ns].(finalizers := w.datasets[ns].finalizers - {FINALIZER});
    if rest.deleting && rest.finalizers == {} then w.(datasets := w.datasets - {ns})
    else w.(datasets := w.datasets[ns := rest])
  }

  datatype Err = Nil | NotThere | Other

  // Which lookups of a finalisation fail.
  datatype Lookups = Lookups(user: bool, store: bool, secret: bool, configMap: bool)
  const AllAnswer := Lookups(false, false, false, false)

  // finalizeDataset, undisturbed.  A failed lookup of the store, and later of the
  // ConfigMap, returns the error of the lookup before it.
  function Finalization(w: World, fails: Lookups): (World, Err) {
    if fails.user then (w, Other)
    else
      var w1 := w.(user := None);
      if fails.store then (w1, if w.user.None? then NotThere else Nil)
      else
        var w2 := w1.(store := None);
        if fails.secret then (w2, Other)
        else
          var w3 := w2.(userSecret := None);
          if fails.configMap then (w3, if w.userSecret.None? then NotThere else Nil)
          else (w3.(configMap := None), Nil)
  }

  function Provision(name: string, ns: string, d: Dataset, w: World): World
    requires ns in w.datasets
  {
    var id := IdOf(ns, d);
    if w.configMap.None? then w.(configMap := Some(LabelsOf(name, id)))
    else if !LockHeld(name, id, w) then w
    else if w.store.None? then w.(store := Some(Store(LabelsOf(name, id), None)))
    else if !OwnStore(name, id, w) || w.store.value.phase != Some(CONNECTED) || w.rgwPods == [] then w
    else if w.user.None? then w.(user := Some(LabelsOf(name, id)))
    else if !OwnUser(name, id, w) || w.userSecret.None? || w.service.None? || w.service.value.foreign then w
    else
      w.(internals := w.internals[ns := NewInternal(d, w.userSecret.value, w.service.value)],
         datasets := w.datasets[ns := d.(finalizers := d.finalizers + {FINALIZER})])
  }

  function Place(ns: string, d: Dataset, w: World): World
    requires ns in w.internals
  {
    var di := w.internals[ns];
    if NeedsPlacements(d, di) && w.rgwPods != [] && w.osdPods != [] then
      w.(internals := w.internals[ns := di.(gateways := di.gateways + PlacementsOf(w.rgwPods),
                                            dataLocations := di.dataLocations + PlacementsOf(w.osdPods))])
    else w
  }

  // One reconcile during which nobody else acts and no call fails.
  function ReconcileCeph(name: string, ns: string, w: World): World {
    if ns !in w.datasets then w
    else
      var d := w.datasets[ns];
      if d.deleting then
        if FINALIZER in d.finalizers then DropFinalizer(ns, Finalization(w, AllAnswer).0) else w
      else if ns in w.internals then Place(ns, d, w)
      else if w.clusters == 0 then w.(datasets := w.datasets[ns := d.(info := "no ceph clusters available")])
      else Provision(name, ns, d, w)
  }

  // ------------------------------------------------------------------------- runs

  predicate NamesNamespace(labels: Option<Labels>, ns: string) {
    labels.Some? && labels.value.Some? && Get(labels.value.value, "dataset-namespace") == ns
  }

  predicate StoreKept(w: World, w': World) {
    w'.store.Some? ==> w.store.Some? && w'.store.value.labels == w.store.value.labels
  }

  predicate UserKept(w: World, w': World) {
    w'.user.Some? ==> w.user.Some? && w'.user.value == w.user.value
  }

  predicate PlacementsKept(ns: string, w: World, w': World) {
    ns in w'.internals ==>
      || (w'.internals[ns].gateways == [] && w'.internals[ns].dataLocations == [])
      || (ns in w.internals && w'.internals[ns].gateways == w.internals[ns].gateways
          && w'.internals[ns].dataLocations == w.internals[ns].dataLocations)
  }

  // What the reconciles for namespace `ns` take for granted about everybody else: nobody
  // else touches the plugin's finalizer of that Dataset, and a new DatasetInternal has no
  // placements.  The objects in the rook namespace may be made, changed and deleted.
  predicate Others(ns: string, w: World, w': World) {
    && (Finalized(ns, w) <==> Finalized(ns, w'))
    && (Finalized(ns, w) ==> w'.datasets[ns].uid == w.datasets[ns].uid && (Marked(ns, w) ==> Marked(ns, w')))
    && PlacementsKept(ns, w, w')
  }

  datatype Action =
    | ByOthers
    | Nothing | WriteInfo
    | CreateConfigMap(uid: string) | CreateStore(uid: string) | CreateUser(uid: string) | CreateInternal(uid: string)
    | AddFinalizer
    | DeleteUser | DeleteStore | DeleteSecret | DeleteConfigMap | RemoveFinalizer
    | WritePlacements(rgw: seq<string>, osd: seq<string>)

  predicate IsDelete(a: Action) { a.DeleteUser? || a.DeleteStore? || a.DeleteSecret? || a.DeleteConfigMap? }

  // What the plugin does to the cluster for namespace `ns`, and what it finds then.  A
  // finalisation asks for the finalizer and the deletion mark, not for any labels.
  predicate Does(name: string, ns: string, a: Action, w: World, w': World) {
    match a
    case ByOthers => Others(ns, w, w')
    case Nothing => w' == w
    case WriteInfo =>
      && ns in w.datasets && ns in w'.datasets
      && w' == w.(datasets := w.datasets[ns := w.datasets[ns].(info := w'.datasets[ns].info)])
    case CreateConfigMap(uid) =>
      w.configMap.None? && w' == w.(configMap := Some(LabelsOf(name, Id(ns, uid))))
    case CreateStore(uid) =>
      w.store.None? && w' == w.(store := Some(Store(LabelsOf(name, Id(ns, uid)), None)))
    case CreateUser(uid) =>
      w.user.None? && w' == w.(user := Some(LabelsOf(name, Id(ns, uid))))
    case CreateInternal(uid) =>
      && ns !in w.internals && ns in w'.internals
      && w'.internals[ns].gateways == [] && w'.internals[ns].dataLocations == []
      && w' == w.(internals := w.internals[ns := w'.internals[ns]])
    case AddFinalizer =>
      && ns in w.datasets && !Marked(ns, w)
      && w' == w.(datasets := w.datasets[ns := w.datasets[ns].(finalizers := w.datasets[ns].finalizers + {FINALIZER})])
    case DeleteUser =>
      Finalized(ns, w) && Marked(ns, w) && w.user.Some? && (w'.user == w.user || w'.user.None?) && w' == w.(user := w'.user)
    case DeleteStore =>
      Finalized(ns, w) && Marked(ns, w) && w.store.Some? && (w'.store == w.store || w'.store.None?) && w' == w.(store := w'.store)
    case DeleteSecret =>
      Finalized(ns, w) && Marked(ns, w) && w' == w.(userSecret := None)
    case DeleteConfigMap =>
      Finalized(ns, w) && Marked(ns, w) && w.configMap.Some? && w' == w.(configMap := None)
    case RemoveFinalizer =>
      Finalized(ns, w) && Marked(ns, w) && w' == DropFinalizer(ns, w)
    case WritePlacements(rgw, osd) =>
      && ns in w.internals && w.internals[ns].gateways == [] && w.internals[ns].dataLocations == []
      && rgw != [] && osd != []
      && w' == w.(internals := w.internals[ns := w.internals[ns].(gateways := PlacementsOf(rgw), dataLocations := PlacementsOf(osd))])
  }

  datatype Event = Event(action: Action, world: World)

  // What a step rests on may have been read long before.  How far the chain has got: the
  // ConfigMap, then the store, then the user were seen to carry the labels of the Dataset
  // since the plugin last deleted anything for this namespace.
  function Seen(name: string, id: Id, run: seq<Event>): nat {
    if run == [] then 0
    else
      var e := run[|run| - 1];
      SeenNow(name, id, if IsDelete(e.action) then 0 else Seen(name, id, run[..|run| - 1]), e.world)
  }

  const LOCK: nat := 1
  const STORE: nat := 2
  const USER: nat := 3

  function SeenNow(name: string, id: Id, before: nat, w: World): nat {
    var s1 := if before < LOCK && LockHeld(name, id, w) then LOCK else before;
    var s2 := if s1 == LOCK && OwnStore(name, id, w) then STORE else s1;
    if s2 == STORE && OwnUser(name, id, w) then USER else s2
  }

  // Some state of the run had these gateway pods, some had these osd pods.
  ghost predicate RgwListed(run: seq<Event>, rgw: seq<string>) {
    exists e <- run :: e.world.rgwPods == rgw
  }

  ghost predicate OsdListed(run: seq<Event>, osd: seq<string>) {
    exists e <- run :: e.world.osdPods == osd
  }

  // What had been read before takes the next action.
  ghost predicate Justified(name: string, ns: string, a: Action, before: seq<Event>)
    requires before != []
  {
    match a
    case CreateStore(uid) => Seen(name, Id(ns, uid), before) >= LOCK
    case CreateUser(uid) => Seen(name, Id(ns, uid), before) >= STORE
    case CreateInternal(uid) => Seen(name, Id(ns, uid), before) >= USER
    case AddFinalizer =>
      var w := before[|before| - 1].world;
      ns in w.datasets && Seen(name, IdOf(ns, w.datasets[ns]), before) >= USER
    case WritePlacements(rgw, osd) => RgwListed(before, rgw) && OsdListed(before, osd)
    case _ => true
  }

  ghost predicate StepAt(name: string, ns: string, run: seq<Event>, i: nat)
    requires 0 < i < |run|
  {
    && Does(name, ns, run[i].action, run[i - 1].world, run[i].world)
    && Justified(name, ns, run[i].action, run[..i])
  }

  ghost predicate IsRun(name: string, ns: string, run: seq<Event>) {
    forall i :: 0 < i < |run| ==> StepAt(name, ns, run, i)
  }

  lemma Extend(name: string, ns: string, run: seq<Event>, e: Event)
    requires |run| > 0 && IsRun(name, ns, run) && Does(name, ns, e.action, run[|run| - 1].world, e.world)
    requires Justified(name, ns, e.action, run)
    ensures IsRun(name, ns, run + [e])
  {
    var longer := run + [e];
    forall i | 0 < i < |longer| ensures StepAt(name, ns, longer, i) {
      if i < |run| {
        assert StepAt(name, ns, run, i) && longer[..i] == run[..i];
      } else {
        assert longer[..i] == run;
      }
    }
  }

  // ------------------------------------------------------------------ finalisations

  // The ConfigMap is deleted, but the finalizer is not removed yet.
  function Open(run: seq<Event>): bool {
    if run == [] then false
    else
      var a := run[|run| - 1].action;
      if a.DeleteConfigMap? then true
      else if a.RemoveFinalizer? then false
      else Open(run[..|run| - 1])
  }

  lemma OpenNext(run: seq<Event>, e: Event)
    ensures Open(run + [e]) == (e.action.DeleteConfigMap? || (Open(run) && !e.action.RemoveFinalizer?))
  {
    assert (run + [e])[..|run|] == run;
  }

  // No finalisation is taken up again after its ConfigMap is deleted.
  ghost predicate Tidy(run: seq<Event>) {
    forall i :: 0 <= i < |run| && IsDelete(run[i].action) ==> !Open(run[..i])
  }

  lemma TidyNext(run: seq<Event>, e: Event)
    requires Tidy(run) && (IsDelete(e.action) ==> !Open(run))
    ensures Tidy(run + [e])
  {
    var longer := run + [e];
    forall i | 0 <= i < |longer| && IsDelete(longer[i].action) ensures !Open(longer[..i]) {
      assert longer[..i] == run[..i];
      assert i == |run| ==> longer[..i] == run;
    }
  }

  // The new events are no part of a finalisation.
  ghost predicate Calm(before: seq<Event>, run: seq<Event>) {
    && before <= run
    && forall m :: |before| <= m < |run| ==> !IsDelete(run[m].action) && !run[m].action.RemoveFinalizer?
  }

  lemma {:induction false} CalmSeen(name: string, id: Id, before: seq<Event>, run: seq<Event>)
    requires Calm(before, run)
    ensures Seen(name, id, run) >= Seen(name, id, before)
    decreases |run|
  {
    if |before| < |run| {
      CalmSeen(name, id, before, run[..|run| - 1]);
    } else {
      assert run == before;
    }
  }

  lemma {:induction false} CalmKeeps(before: seq<Event>, run: seq<Event>)
    requires Calm(before, run)
    ensures Open(run) == Open(before)
    ensures Tidy(before) ==> Tidy(run)
    decreases |run|
  {
    if run == before {
    } else {
      var shorter := run[..|run| - 1];
      CalmKeeps(before, shorter);
      if Tidy(before) {
        TidyNext(shorter, run[|run| - 1]);
        assert shorter + [run[|run| - 1]] == run;
      }
    }
  }

  // --------------------------------------------------------------------- API calls

  class Cluster {
    const name: string
    const ns: string
    // quiet: nobody else acts and deleted objects go at once; readable, writable: no
    // lookup, no write fails; finishes: the last two writes of a finalisation, the
    // deletion of the ConfigMap and the removal of the finalizer, do not fail.
    const quiet: bool
    const readable: bool
    const writable: bool
    const finishes: bool

    var w: World
    ghost var run: seq<Event>

    ghost predicate Valid()
      reads this
    {
      && |run| > 0 && run[|run| - 1].world == w
      && IsRun(name, ns, run)
      && (ns in w.internals ==> (w.internals[ns].gateways == [] <==> w.internals[ns].dataLocations == []))
    }

    // Every finalisation so far has come to its end or stopped before its last two writes.
    ghost predicate Settled()
      reads this
    {
      Tidy(run) && !Open(run)
    }

    constructor (name: string, ns: string, quiet: bool, readable: bool, writable: bool, finishes: bool, w: World)
      requires ns in w.internals ==> (w.internals[ns].gateways == [] <==> w.internals[ns].dataLocations == [])
      ensures Valid() && this.w == w && run == [Event(Nothing, w)]
      ensures this.name == name && this.ns == ns && this.quiet == quiet
      ensures Settled()
      ensures this.readable == readable && this.writable == writable && this.finishes == finishes
    {
      this.name, this.ns, this.quiet, this.readable, this.writable, this.finishes :=
        name, ns, quiet, readable, writable, finishes;
      this.w := w;
      run := [Event(Nothing, w)];
    }

    method Interfere()
      requires Valid()
      modifies this
      ensures Valid() && run == old(run) + [Event(ByOthers, w)] && Calm(old(run), run)
      ensures Tidy(old(run)) ==> Tidy(run)
      ensures old(Settled()) ==> Settled()
      ensures Others(ns, old(w), w)
      ensures quiet ==> w == old(w)
    {
      if !quiet {
        var w': World := *;
        if Others(ns, w, w') {
          w := w';
        }
      }
      Record(ByOthers, old(w));
    }

    ghost method Record(a: Action, was: World)
      requires |run| > 0 && run[|run| - 1].world == was && IsRun(name, ns, run)
      requires Does(name, ns, a, was, w) && Justified(name, ns, a, run)
      requires ns in was.internals ==> (was.internals[ns].gateways == [] <==> was.internals[ns].dataLocations == [])
      modifies this`run
      ensures Valid() && run == old(run) + [Event(a, w)]
      ensures Open(run) == (a.DeleteConfigMap? || (Open(old(run)) && !a.RemoveFinalizer?))
      ensures Tidy(old(run)) && (IsDelete(a) ==> !Open(old(run))) ==> Tidy(run)
    {
      Extend(name, ns, run, Event(a, w));
      if Tidy(run) && (IsDelete(a) ==> !Open(run)) {
        TidyNext(run, Event(a, w));
      }
      OpenNext(run, Event(a, w));
      run := run + [Event(a, w)];
    }

    method Write(ghost a: Action, w': World, applied: bool)
      requires Valid() && Does(name, ns, a, w, w') && Justified(name, ns, a, run) && a != ByOthers
      modifies this
      ensures Valid() && w == (if applied then w' else old(w))
      ensures run == old(run) + [Event(if applied then a else Nothing, w)]
      ensures !IsDelete(a) && !a.RemoveFinalizer? ==> Calm(old(run), run)
      ensures old(Settled()) && a != DeleteConfigMap ==> Settled()
      ensures old(Settled()) ==> Tidy(run)
      ensures Tidy(old(run)) && a == RemoveFinalizer && applied ==> Settled()
      ensures old(Settled()) && !applied ==> Settled()
    {
      if applied {
        w := w';
        Record(a, old(w));
      } else {
        Record(Nothing, old(w));
      }
    }

    method Fails() returns (fails: bool)
      ensures readable ==> !fails
    {
      fails := *;
      fails := fails && !readable;
    }

    // How a write ends: `applied` and yet reported as failed is possible.
    method Fate(sure: bool) returns (applied: bool, ok: bool)
      ensures ok ==> applied
      ensures writable || sure ==> applied && ok
    {
      if writable || sure {
        return true, true;
      }
      applied, ok := *, *;
      ok := ok && applied;
    }

    method GetDataset() returns (r: K.Reply<Dataset>)
      requires Valid()
      modifies this
      ensures Valid() && Calm(old(run), run) && Others(ns, old(w), w)
      ensures old(Settled()) ==> Settled()
      ensures quiet ==> w == old(w)
      ensures r.Ok? ==> ns in w.datasets && w.datasets[ns] == r.value
      ensures r.NotFound? ==> ns !in w.datasets
      ensures readable ==> !r.Failed?
    {
      Interfere();
      var fails := Fails();
      r := if fails then K.Failed else if ns in w.datasets then K.Ok(w.datasets[ns]) else K.NotFound;
    }

    method GetInternal() returns (r: K.Reply<Internal>)
      requires Valid()
      modifies this
      ensures Valid() && Calm(old(run), run) && Others(ns, old(w), w)
      ensures old(Settled()) ==> Settled()
      ensures quiet ==> w == old(w)
      ensures r.Ok? ==> ns in w.internals && w.internals[ns] == r.value
      ensures r.NotFound? ==> ns !in w.internals
      ensures readable ==> !r.Failed?
    {
      Interfere();
      var fails := Fails();
      r := if fails then K.Failed else if ns in w.internals then K.Ok(w.internals[ns]) else K.NotFound;
    }

    method GetConfigMap() returns (r: K.Reply<Labels>)
      requires Valid()
      modifies this
      ensures Valid() && Calm(old(run), run) && Others(ns, old(w), w)
      ensures old(Settled()) ==> Settled()
      ensures quiet ==> w == old(w)
      ensures r.Ok? ==> w.configMap == Some(r.value)
      ensures r.NotFound? ==> w.configMap.None?
      ensures readable ==> !r.Failed?
    {
      Interfere();
      var fails := Fails();
      r := if fails then K.Failed else if w.configMap.Some? then K.Ok(w.configMap.value) else K.NotFound;
    }

    method GetStore() returns (r: K.Reply<Store>)
      requires Valid()
      modifies this
      ensures Valid() && Calm(old(run), run) && Others(ns, old(w), w)
      ensures old(Settled()) ==> Settled()
      ensures quiet ==> w == old(w)
      ensures r.Ok? ==> w.store == Some(r.value)
      ensures r.NotFound? ==> w.store.None?
      ensures readable ==> !r.Failed?
    {
      Interfere();
      var fails := Fails();
      r := if fails then K.Failed else if w.store.Some? then K.Ok(w.store.value) else K.NotFound;
    }

    method GetUser() returns (r: K.Reply<Labels>)
      requires Valid()
      modifies this
      ensures Valid() && Calm(old(run), run) && Others(ns, old(w), w)
      ensures old(Settled()) ==> Settled()
      ensures quiet ==> w == old(w)
      ensures r.Ok? ==> w.user == Some(r.value)
      ensures r.NotFound? ==> w.user.None?
      ensures readable ==> !r.Failed?
    {
      Interfere();
      var fails := Fails();
      r := if fails then K.Failed else if w.user.Some? then K.Ok(w.user.value) else K.NotFound;
    }

    method GetUserSecret() returns (r: K.Reply<Data>)
      requires Valid()
      modifies this
      ensures Valid() && Calm(old(run), run) && Others(ns, old(w), w)
      ensures old(Settled()) ==> Settled()
      ensures quiet ==> w == old(w)
      ensures r.Ok? ==> w.userSecret == Some(r.value)
      ensures r.NotFound? ==> w.userSecret.None?
      ensures readable ==> !r.Failed?
    {
      Interfere();
      var fails := Fails();
      r := if fails then K.Failed else if w.userSecret.Some? then K.Ok(w.userSecret.value) else K.NotFound;
    }

    method GetService() returns (r: K.Reply<Service>)
      requires Valid()
      modifies this
      ensures Valid() && Calm(old(run), run) && Others(ns, old(w), w)
      ensures old(Settled()) ==> Settled()
      ensures quiet ==> w == old(w)
      ensures r.Ok? ==> w.service == Some(r.value)
      ensures r.NotFound? ==> w.service.None?
      ensures readable ==> !r.Failed?
    {
      Interfere();
      var fails := Fails();
      r := if fails then K.Failed else if w.service.Some? then K.Ok(w.service.value) else K.NotFound;
    }

    method ListRgwPods() returns (ok: bool, nodes: seq<string>)
      requires Valid()
      modifies this
      ensures Valid() && Calm(old(run), run) && Others(ns, old(w), w)
      ensures old(Settled()) ==> Settled()
      ensures quiet ==> w == old(w)
      ensures nodes == w.rgwPods && RgwListed(run, nodes)
      ensures readable ==> ok
    {
      Interfere();
      var fails := Fails();
      ok, nodes := !fails, w.rgwPods;
      assert run[|run| - 1].world.rgwPods == nodes;
    }

    method ListOsdPods() returns (ok: bool, nodes: seq<string>)
      requires Valid()
      modifies this
      ensures Valid() && Calm(old(run), run) && Others(ns, old(w), w)
      ensures old(Settled()) ==> Settled()
      ensures quiet ==> w == old(w)
      ensures nodes == w.osdPods && OsdListed(run, nodes)
      ensures readable ==> ok
    {
      Interfere();
      var fails := Fails();
      ok, nodes := !fails, w.osdPods;
      assert run[|run| - 1].world.osdPods == nodes;
    }

    method CountClusters() returns (ok: bool, clusters: nat)
      requires Valid()
      modifies this
      ensures Valid() && Calm(old(run), run) && Others(ns, old(w), w)
      ensures old(Settled()) ==> Settled()
      ensures quiet ==> w == old(w)
      ensures clusters == w.clusters
      ensures readable ==> ok
    {
      Interfere();
      var fails := Fails();
      ok, clusters := !fails, w.clusters;
    }

    // addErrorToDataset
    method AddErrorToDataset(info: string, instance: Dataset) returns (ok: bool)
      requires Valid()
      modifies this
      ensures old(Settled()) ==> Settled()
      ensures Valid() && Calm(old(run), run)
      ensures quiet && writable && ns in old(w).datasets && old(w).datasets[ns] == instance ==>
                w == old(w).(datasets := old(w).datasets[ns := instance.(info := info)])
    {
      Interfere();
      if ns !in w.datasets || w.datasets[ns] != instance {
        return false;
      }
      var applied;
      applied, ok := Fate(false);
      Write(WriteInfo, w.(datasets := w.datasets[ns := instance.(info := info)]), applied);
    }

    method CreateConfigMapObject(id: Id) returns (ok: bool)
      requires Valid() && id.namespace == ns
      modifies this
      ensures old(Settled()) ==> Settled()
      ensures Valid() && Calm(old(run), run)
      ensures quiet && writable && old(w).configMap.None? ==> w == old(w).(configMap := Some(LabelsOf(name, id)))
    {
      Interfere();
      if w.configMap.Some? {
        return false;
      }
      var applied;
      applied, ok := Fate(false);
      Write(CreateConfigMap(id.uid), w.(configMap := Some(LabelsOf(name, id))), applied);
    }

    method CreateStoreObject(id: Id) returns (ok: bool)
      requires Valid() && id.namespace == ns && Seen(name, id, run) >= LOCK
      modifies this
      ensures old(Settled()) ==> Settled()
      ensures Valid() && Calm(old(run), run)
      ensures quiet && writable && old(w).store.None? ==> w == old(w).(store := Some(Store(LabelsOf(name, id), None)))
    {
      Interfere();
      CalmSeen(name, id, old(run), run);
      if w.store.Some? {
        return false;
      }
      var applied;
      applied, ok := Fate(false);
      Write(CreateStore(id.uid), w.(store := Some(Store(LabelsOf(name, id), None))), applied);
    }

    method CreateUserObject(id: Id) returns (ok: bool)
      requires Valid() && id.namespace == ns && Seen(name, id, run) >= STORE
      modifies this
      ensures old(Settled()) ==> Settled()
      ensures Valid() && Calm(old(run), run)
      ensures quiet && writable && old(w).user.None? ==> w == old(w).(user := Some(LabelsOf(name, id)))
    {
      Interfere();
      CalmSeen(name, id, old(run), run);
      if w.user.Some? {
        return false;
      }
      var applied;
      applied, ok := Fate(false);
      Write(CreateUser(id.uid), w.(user := Some(LabelsOf(name, id))), applied);
    }

    method CreateInternalObject(id: Id, di: Internal) returns (ok: bool)
      requires Valid() && id.namespace == ns && Seen(name, id, run) >= USER
      requires di.gateways == [] && di.dataLocations == []
      modifies this
      ensures old(Settled()) ==> Settled()
      ensures Valid() && Calm(old(run), run) && Seen(name, id, run) >= USER
      ensures quiet && writable && ns !in old(w).internals ==> ok && w == old(w).(internals := old(w).internals[ns := di])
    {
      Interfere();
      CalmSeen(name, id, old(run), run);
      if ns in w.internals {
        return false;
      }
      var applied;
      applied, ok := Fate(false);
      Write(CreateInternal(id.uid), w.(internals := w.internals[ns := di]), applied);
      CalmSeen(name, id, old(run), run);
    }

    // Update of an instance read before: rejected when the object has changed since, or
    // is being deleted.
    method AddFinalizerTo(instance: Dataset) returns (ok: bool)
      requires Valid() && Seen(name, IdOf(ns, instance), run) >= USER
      modifies this
      ensures old(Settled()) ==> Settled()
      ensures Valid() && Calm(old(run), run)
      ensures quiet && writable && ns in old(w).datasets && old(w).datasets[ns] == instance && !instance.deleting ==>
                w == old(w).(datasets := old(w).datasets[ns := instance.(finalizers := instance.finalizers + {FINALIZER})])
    {
      Interfere();
      CalmSeen(name, IdOf(ns, instance), old(run), run);
      if ns !in w.datasets || w.datasets[ns] != instance || instance.deleting {
        return false;
      }
      var applied;
      applied, ok := Fate(false);
      Write(AddFinalizer, w.(datasets := w.datasets[ns := instance.(finalizers := instance.finalizers + {FINALIZER})]), applied);
    }

    // Deletes.  An object with finalizers of its own lingers.
    method DeleteUserObject() returns (ok: bool)
      requires Valid() && Finalized(ns, w) && Marked(ns, w)
      modifies this
      ensures old(Settled()) ==> Settled()
      ensures Valid() && old(run) <= run && Finalized(ns, w) && Marked(ns, w)
      ensures quiet && writable && old(w).user.Some? ==> ok && w == old(w).(user := None)
    {
      Interfere();
      if w.user.None? {
        return false;
      }
      var applied;
      applied, ok := Fate(false);
      var lingers: bool := *;
      Write(DeleteUser, w.(user := if lingers && !quiet then w.user else None), applied);
    }

    method DeleteStoreObject() returns (ok: bool)
      requires Valid() && Finalized(ns, w) && Marked(ns, w)
      modifies this
      ensures old(Settled()) ==> Settled()
      ensures Valid() && old(run) <= run && Finalized(ns, w) && Marked(ns, w)
      ensures quiet && writable && old(w).store.Some? ==> ok && w == old(w).(store := None)
    {
      Interfere();
      if w.store.None? {
        return false;
      }
      var applied;
      applied, ok := Fate(false);
      var lingers: bool := *;
      Write(DeleteStore, w.(store := if lingers && !quiet then w.store else None), applied);
    }

    method DeleteSecretObject() returns (ok: bool)
      requires Valid() && Finalized(ns, w) && Marked(ns, w)
      modifies this
      ensures old(Settled()) ==> Settled()
      ensures Valid() && old(run) <= run && Finalized(ns, w) && Marked(ns, w)
      ensures quiet && writable && old(w).userSecret.Some? ==> ok && w == old(w).(userSecret := None)
    {
      Interfere();
      if w.userSecret.None? {
        return false;
      }
      var applied;
      applied, ok := Fate(false);
      Write(DeleteSecret, w.(userSecret := None), applied);
    }

    method DeleteConfigMapObject() returns (ok: bool)
      requires Valid() && Finalized(ns, w) && Marked(ns, w)
      modifies this
      ensures Valid() && old(run) <= run && Finalized(ns, w) && Marked(ns, w)
      ensures old(Settled()) ==> if finishes && !ok then Settled() else Tidy(run)
      ensures quiet && writable && old(w).configMap.Some? ==> ok && w == old(w).(configMap := None)
    {
      Interfere();
      if w.configMap.None? {
        return false;
      }
      var applied;
      applied, ok := Fate(finishes);
      Write(DeleteConfigMap, w.(configMap := None), applied);
    }

    method RemoveFinalizerFrom(instance: Dataset) returns (ok: bool)
      requires Valid() && Finalized(ns, w) && Marked(ns, w)
      modifies this
      ensures Valid() && old(run) <= run
      ensures finishes && Tidy(old(run)) ==> Settled()
      ensures quiet && writable && old(w).datasets[ns] == instance ==> w == DropFinalizer(ns, old(w))
    {
      Interfere();
      if w.datasets[ns] != instance && !finishes {
        return false;
      }
      var applied;
      applied, ok := Fate(finishes);
      Write(RemoveFinalizer, DropFinalizer(ns, w), applied);
    }

    // Status().Update of a DatasetInternal read before.
    method WritePlacementsOf(instance: Internal, updated: Internal, ghost rgw: seq<string>, ghost osd: seq<string>) returns (ok: bool)
      requires Valid() && rgw != [] && osd != [] && RgwListed(run, rgw) && OsdListed(run, osd)
      requires instance.gateways == [] && instance.dataLocations == []
      requires updated == instance.(gateways := PlacementsOf(rgw), dataLocations := PlacementsOf(osd))
      modifies this
      ensures old(Settled()) ==> Settled()
      ensures Valid() && Calm(old(run), run)
      ensures quiet && writable && ns in old(w).internals && old(w).internals[ns] == instance ==>
                w == old(w).(internals := old(w).internals[ns := updated])
    {
      ghost var before := run;
      Interfere();
      if ns !in w.internals || w.internals[ns] != instance {
        return false;
      }
      assert forall e <- before :: e in run;
      var applied;
      applied, ok := Fate(false);
      Write(WritePlacements(rgw, osd), w.(internals := w.internals[ns := updated]), applied);
    }
  }
}

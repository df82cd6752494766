// The DatasetInternal reconciler for COS datasets, one name at a time.  Between any two
// API calls other actors may act; any call may fail, also after it took effect.
module InternalController {
  import opened GoText
  import opened Kube

  const FINALIZER := "dataset-finalizer"
  const REMOVE_ON_DELETE := "remove-on-delete"

  datatype Id = Id(name: string, namespace: string)

  // The DatasetInternal, the PVC and the ConfigMap called `name`, and all Secrets of the
  // namespace: a dataset may take its credentials from one of them.
  datatype World = World(
    di: Option<Internal>,
    pvc: Option<Claim>,
    configMap: Option<Data>,
    secrets: map<string, Secret>)

  // ------------------------------------------------------- what a COS dataset needs

  predicate IsCos(di: Internal) { Get(di.local, "type") == "COS" }

  // getBooleanStringForKeyInMap with the default "false".
  function BooleanString(m: Data, key: string): string {
    if key !in m then "false"
    else
      match ParseBool(m[key])
      case Some(b) => FormatBool(b)
      case None => "false"
  }

  datatype Keys = Keys(accessKeyID: string, secretAccessKey: string)

  predicate NamesSecret(id: Id, local: Data) {
    && "secret-name" in local
    && ("secret-namespace" !in local || local["secret-namespace"] == id.namespace)
  }

  function KeysIn(data: Data): Option<Keys> {
    if "accessKeyID" in data && "secretAccessKey" in data
    then Some(Keys(data["accessKeyID"], data["secretAccessKey"]))
    else None
  }

  function Credentials(id: Id, local: Data, secrets: map<string, Secret>): Option<Keys> {
    if NamesSecret(id, local)
    then if local["secret-name"] in secrets then KeysIn(secrets[local["secret-name"]].data) else None
    else KeysIn(local)
  }

  function ConfigData(di: Internal): Data {
    var bucket := Cut(Get(di.local, "bucket"), '/');
    map["endpoint" := Get(di.local, "endpoint"), "bucket" := bucket.before,
        "folder" := bucket.after, "region" := Get(di.local, "region")]
  }

  function SecretData(di: Internal, keys: Keys): Data {
    var bucket := Cut(Get(di.local, "bucket"), '/');
    map["accessKeyID" := keys.accessKeyID, "secretAccessKey" := keys.secretAccessKey,
        "endpoint" := Get(di.local, "endpoint"), "bucket" := bucket.before,
        "folder" := bucket.after, "region" := Get(di.local, "region"),
        "readonly" := BooleanString(di.local, "readonly"),
        "extract" := if |di.extract| > 0 then di.extract else "false",
        "provision" := BooleanString(di.local, "provision"),
        REMOVE_ON_DELETE := BooleanString(di.labels, REMOVE_ON_DELETE)]
  }

  function NewClaim(di: Internal): Claim {
    Claim(Operator, false, ClaimPending, BooleanString(di.local, "readonly") == "true")
  }

  function EnsureConfigMap(di: Internal, w: World): World {
    if w.configMap.None? then w.(configMap := Some(ConfigData(di))) else w
  }

  function EnsureClaim(di: Internal, w: World): World {
    if w.pvc.None? then w.(pvc := Some(NewClaim(di))) else w
  }

  // The one editable value of an existing Secret; StringData is merged into Data.
  function WithEditable(s: Secret, data: Data): Secret
    requires REMOVE_ON_DELETE in data
  {
    s.(data := s.data[REMOVE_ON_DELETE := data[REMOVE_ON_DELETE]])
  }

  function EnsureSecret(id: Id, data: Data, w: World): World
    requires REMOVE_ON_DELETE in data
  {
    if id.name !in w.secrets then w.(secrets := w.secrets[id.name := Secret(Operator, data)])
    else if Get(w.secrets[id.name].data, REMOVE_ON_DELETE) != data[REMOVE_ON_DELETE]
    then w.(secrets := w.secrets[id.name := WithEditable(w.secrets[id.name], data)])
    else w
  }

  // The first `n` of the three writes of processLocalDatasetCOS.
  function Writes(id: Id, di: Internal, w: World, n: nat): World {
    match Credentials(id, di.local, w.secrets)
    case None => w
    case Some(keys) =>
      var w1 := if n >= 1 then EnsureConfigMap(di, w) else w;
      var w2 := if n >= 2 then EnsureClaim(di, w1) else w1;
      if n >= 3 then EnsureSecret(id, SecretData(di, keys), w2) else w2
  }

  // Removing the last finalizer of an object that is being deleted removes the object.
  function WithoutFinalizer(di: Internal): Option<Internal> {
    var rest := di.(finalizers := di.finalizers - {FINALIZER});
    if di.deleting && rest.finalizers == {} then None else Some(rest)
  }

  function TearDown(id: Id, di: Internal, w: World): World {
    if FINALIZER !in di.finalizers then w
    else if w.pvc.Some? then w.(pvc := Some(w.pvc.value.(deleting := true)))
    else if id.name in w.secrets then w.(secrets := w.secrets - {id.name})
    else w.(di := WithoutFinalizer(di))
  }

  // One reconcile during which nobody else acts and no call fails.
  function ReconcileInternal(id: Id, w: World): World {
    match w.di
    case None => w
    case Some(di) =>
      if FINALIZER !in di.finalizers then
        // The API server takes no new finalizer on an object that is being deleted.
        if di.deleting then w else w.(di := Some(di.(finalizers := di.finalizers + {FINALIZER})))
      else if di.deleting then TearDown(id, di, w)
      else Writes(id, di, w, 3)
  }

  // ------------------------------------------------------------------------- runs

  predicate HasFinalizer(w: World) { w.di.Some? && FINALIZER in w.di.value.finalizers }
  predicate Marked(w: World) { w.di.Some? && w.di.value.deleting }
  predicate OwnClaim(w: World) { w.pvc.Some? && w.pvc.value.origin == Operator }
  predicate OwnSecret(id: Id, w: World) { id.name in w.secrets && w.secrets[id.name].origin == Operator }
  predicate TypeIsCos(w: World) { w.di.Some? ==> IsCos(w.di.value) }

  // Everybody else: users and other controllers create, edit and delete all kinds of
  // objects, a PVC under deletion lingers or goes, operators restart.  The API server
  // keeps an object that has finalizers, a deletion mark is final, and nobody else
  // touches dataset-finalizer or creates objects as the COS path.
  predicate Others(id: Id, w: World, w': World) {
    && (HasFinalizer(w) <==> HasFinalizer(w'))
    && (HasFinalizer(w) && Marked(w) ==> Marked(w'))
    && (OwnClaim(w') ==> OwnClaim(w) && (w.pvc.value.deleting ==> w'.pvc.value.deleting))
    && (OwnSecret(id, w') ==> OwnSecret(id, w))
    && TypeIsCos(w')
  }

  datatype Action =
    | ByOthers
    | Nothing | Read | AddFinalizer | CreateConfigMap | CreateClaim | CreateSecret | UpdateSecret
    | DeleteClaim | DeleteSecret | DropFinalizer

  // What a step does to the cluster: others' steps, and what the controller may do when.
  predicate Does(id: Id, a: Action, w: World, w': World) {
    match a
    case ByOthers => Others(id, w, w')
    case Nothing => w' == w
    case Read => w' == w
    case AddFinalizer =>
      && w.di.Some? && !w.di.value.deleting
      && w' == w.(di := Some(w.di.value.(finalizers := w.di.value.finalizers + {FINALIZER})))
    case CreateConfigMap =>
      HasFinalizer(w) && w.configMap.None? && w' == w.(configMap := w'.configMap)
    case CreateClaim =>
      HasFinalizer(w) && w.pvc.None? && OwnClaim(w') && w' == w.(pvc := w'.pvc)
    case CreateSecret =>
      && HasFinalizer(w) && id.name !in w.secrets && OwnSecret(id, w')
      && w' == w.(secrets := w.secrets[id.name := w'.secrets[id.name]])
    case UpdateSecret =>
      && HasFinalizer(w) && id.name in w.secrets && id.name in w'.secrets
      && w'.secrets[id.name].origin == w.secrets[id.name].origin
      && w' == w.(secrets := w.secrets[id.name := w'.secrets[id.name]])
    case DeleteClaim =>
      && HasFinalizer(w) && Marked(w) && w.pvc.Some?
      && w' == w.(pvc := Some(w.pvc.value.(deleting := true)))
    case DeleteSecret =>
      && HasFinalizer(w) && Marked(w) && !OwnClaim(w)
      && w' == w.(secrets := w.secrets - {id.name})
    case DropFinalizer =>
      && HasFinalizer(w) && Marked(w) && !OwnClaim(w) && !OwnSecret(id, w)
      && w' == w.(di := WithoutFinalizer(w.di.value))
  }

  // A state of the cluster and the action that led to it.
  datatype Event = Event(action: Action, world: World)

  // Whether the controller found the object marked when it last read it.
  predicate ReadMarked(run: seq<Event>) {
    if run == [] then false
    else if run[|run| - 1].action.Read? then Marked(run[|run| - 1].world)
    else ReadMarked(run[..|run| - 1])
  }

  // The controller creates a PVC or Secret only for an object that it read unmarked.
  predicate StepAt(id: Id, run: seq<Event>, i: nat)
    requires 0 < i < |run|
  {
    && Does(id, run[i].action, run[i - 1].world, run[i].world)
    && (run[i].action in {CreateClaim, CreateSecret} ==> !ReadMarked(run[..i]))
  }

  ghost predicate IsRun(id: Id, run: seq<Event>) {
    forall i :: 0 < i < |run| ==> StepAt(id, run, i)
  }

  lemma Extend(id: Id, run: seq<Event>, e: Event)
    requires run != [] && IsRun(id, run) && Does(id, e.action, run[|run| - 1].world, e.world)
    requires e.action in {CreateClaim, CreateSecret} ==> !ReadMarked(run)
    ensures IsRun(id, run + [e])
    ensures !e.action.Read? ==> ReadMarked(run + [e]) == ReadMarked(run)
    ensures e.action.Read? ==> ReadMarked(run + [e]) == Marked(e.world)
  {
    var longer := run + [e];
    assert longer[..|run|] == run;
    forall i | 0 < i < |longer| ensures StepAt(id, longer, i) {
      assert i < |run| ==> StepAt(id, run, i) && longer[..i] == run[..i];
    }
  }

  // A PVC or Secret of the COS path is always covered by the finalizer.
  predicate Covered(id: Id, w: World) {
    OwnClaim(w) || OwnSecret(id, w) ==> HasFinalizer(w)
  }

  // How much is left to tear down.
  function Rank(id: Id, w: World): nat {
    (if !OwnClaim(w) then 0 else if w.pvc.value.deleting then 1 else 2)
    + (if OwnSecret(id, w) then 1 else 0)
    + (if HasFinalizer(w) then 1 else 0)
  }

  ghost predicate RankFalls(id: Id, run: seq<Event>, from: nat) {
    forall i :: from <= i < |run| - 1 ==> Rank(id, run[i + 1].world) <= Rank(id, run[i].world)
  }

  // ------------------------------------------------------------------ the cluster

  class Cluster {
    const id: Id
    // quiet: nobody else acts; reliable: no API call fails.
    const quiet: bool
    const reliable: bool

    var di: Option<Internal>
    var pvc: Option<Claim>
    var configMap: Option<Data>
    var secrets: map<string, Secret>

    // Everything that happened to the cluster.
    ghost var run: seq<Event>

    function Now(): World
      reads this
    {
      World(di, pvc, configMap, secrets)
    }

    ghost predicate Valid()
      reads this
    {
      && |run| > 0 && run[|run| - 1].world == Now()
      && IsRun(id, run)
      && TypeIsCos(Now())
    }

    constructor (id: Id, quiet: bool, reliable: bool, w: World)
      requires TypeIsCos(w)
      ensures Valid() && Now() == w && run == [Event(Nothing, w)]
      ensures this.id == id && this.quiet == quiet && this.reliable == reliable
    {
      this.id, this.quiet, this.reliable := id, quiet, reliable;
      di, pvc, configMap, secrets := w.di, w.pvc, w.configMap, w.secrets;
      run := [Event(Nothing, w)];
    }

    // What others do before the next API call.
    method Interfere()
      requires Valid()
      modifies this
      ensures Valid() && run == old(run) + [Event(ByOthers, Now())]
      ensures ReadMarked(run) == old(ReadMarked(run))
      ensures Others(id, old(Now()), Now())
      ensures quiet ==> Now() == old(Now())
    {
      ghost var was := Now();
      if !quiet {
        var w: World := *;
        if Others(id, Now(), w) {
          di, pvc, configMap, secrets := w.di, w.pvc, w.configMap, w.secrets;
        }
      }
      assert Others(id, was, Now());
      Extend(id, run, Event(ByOthers, Now()));
      run := run + [Event(ByOthers, Now())];
    }

    // The effect of a write by this controller, or none.
    method Write(ghost a: Action, w: World, applied: bool)
      requires Valid() && Does(id, a, Now(), w) && TypeIsCos(w) && a != Read
      requires a in {CreateClaim, CreateSecret} ==> !ReadMarked(run)
      modifies this
      ensures ReadMarked(run) == old(ReadMarked(run))
      ensures Valid() && Now() == if applied then w else old(Now())
      ensures run == old(run) + [Event(if applied then a else Nothing, Now())]
    {
      ghost var was := Now();
      if applied {
        di, pvc, configMap, secrets := w.di, w.pvc, w.configMap, w.secrets;
      }
      assert Does(id, if applied then a else Nothing, was, Now());
      Extend(id, run, Event(if applied then a else Nothing, Now()));
      run := run + [Event(if applied then a else Nothing, Now())];
    }

    // ----------------------------------------------------------------- API calls

    method GetInternal() returns (r: Reply<Internal>)
      requires Valid()
      modifies this
      ensures Valid() && old(run) <= run && RankFalls(id, run, |old(run)| - 1)
      ensures Others(id, old(Now()), Now())
      ensures quiet ==> Now() == old(Now())
      ensures r.Ok? ==> di == Some(r.value) && ReadMarked(run) == r.value.deleting
      ensures r.NotFound? ==> di == None
      ensures reliable ==> !r.Failed?
    {
      Interfere();
      var fails: bool := *;
      r := if fails && !reliable then Failed else if di.Some? then Ok(di.value) else NotFound;
      if r.Ok? {
        RecordRead();
      }
    }

    ghost method RecordRead()
      requires Valid()
      modifies this`run
      ensures Valid() && run == old(run) + [Event(Read, Now())]
      ensures ReadMarked(run) == Marked(Now())
    {
      Extend(id, run, Event(Read, Now()));
      run := run + [Event(Read, Now())];
    }

    method GetClaim() returns (r: Reply<Claim>)
      requires Valid()
      modifies this
      ensures Valid() && run == old(run) + [Event(ByOthers, Now())] && Others(id, old(Now()), Now())
      ensures ReadMarked(run) == old(ReadMarked(run))
      ensures quiet ==> Now() == old(Now())
      ensures r.Ok? ==> pvc == Some(r.value)
      ensures r.NotFound? ==> pvc == None
      ensures reliable ==> !r.Failed?
    {
      Interfere();
      var fails: bool := *;
      r := if fails && !reliable then Failed else if pvc.Some? then Ok(pvc.value) else NotFound;
    }

    method GetSecret(name: string) returns (r: Reply<Secret>)
      requires Valid()
      modifies this
      ensures Valid() && run == old(run) + [Event(ByOthers, Now())] && Others(id, old(Now()), Now())
      ensures ReadMarked(run) == old(ReadMarked(run))
      ensures quiet ==> Now() == old(Now())
      ensures r.Ok? ==> name in secrets && secrets[name] == r.value
      ensures r.NotFound? ==> name !in secrets
      ensures reliable ==> !r.Failed?
    {
      Interfere();
      var fails: bool := *;
      r := if fails && !reliable then Failed else if name in secrets then Ok(secrets[name]) else NotFound;
    }

    method GetConfigMap() returns (r: Reply<Data>)
      requires Valid()
      modifies this
      ensures Valid() && run == old(run) + [Event(ByOthers, Now())] && Others(id, old(Now()), Now())
      ensures ReadMarked(run) == old(ReadMarked(run))
      ensures quiet ==> Now() == old(Now())
      ensures r.Ok? ==> configMap == Some(r.value)
      ensures r.NotFound? ==> configMap == None
      ensures reliable ==> !r.Failed?
    {
      Interfere();
      var fails: bool := *;
      r := if fails && !reliable then Failed else if configMap.Some? then Ok(configMap.value) else NotFound;
    }

    // How a write ends: `applied` and yet reported as failed is possible.
    method Fate() returns (applied: bool, ok: bool)
      ensures ok ==> applied
      ensures reliable ==> applied && ok
    {
      if reliable {
        return true, true;
      }
      applied, ok := *, *;
      ok := ok && applied;
    }

    // Update of an instance read before: rejected when the object has changed since.
    method AddFinalizerTo(instance: Internal) returns (ok: bool)
      requires Valid()
      modifies this
      ensures Valid() && old(run) <= run
      ensures quiet && reliable && old(di) == Some(instance) ==>
                Now() == old(Now()).(di := if instance.deleting then old(di) else Some(instance.(finalizers := instance.finalizers + {FINALIZER})))
    {
      Interfere();
      if di != Some(instance) || instance.deleting {
        return false;
      }
      var applied;
      applied, ok := Fate();
      Write(AddFinalizer, Now().(di := Some(instance.(finalizers := instance.finalizers + {FINALIZER}))), applied);
    }

    method DropFinalizerFrom(instance: Internal) returns (ok: bool)
      requires Valid()
      requires FINALIZER in instance.finalizers && instance.deleting
      requires !OwnClaim(Now()) && !OwnSecret(id, Now())
      modifies this
      ensures Valid() && old(run) <= run && RankFalls(id, run, |old(run)| - 1)
      ensures quiet && reliable && old(di) == Some(instance) ==> Now() == old(Now()).(di := WithoutFinalizer(instance))
    {
      Interfere();
      if di != Some(instance) {
        return false;
      }
      var applied;
      applied, ok := Fate();
      Write(DropFinalizer, Now().(di := WithoutFinalizer(instance)), applied);
    }

    method DeleteClaimObject() returns (ok: bool)
      requires Valid() && HasFinalizer(Now()) && Marked(Now())
      modifies this
      ensures Valid() && old(run) <= run && RankFalls(id, run, |old(run)| - 1)
      ensures quiet && reliable && old(pvc).Some? ==>
                Now() == old(Now()).(pvc := Some(old(pvc).value.(deleting := true)))
    {
      Interfere();
      if pvc.None? {
        return false;
      }
      var applied;
      applied, ok := Fate();
      Write(DeleteClaim, Now().(pvc := Some(pvc.value.(deleting := true))), applied);
    }

    method DeleteSecretObject() returns (ok: bool)
      requires Valid() && HasFinalizer(Now()) && Marked(Now()) && !OwnClaim(Now())
      modifies this
      ensures Valid() && old(run) <= run && RankFalls(id, run, |old(run)| - 1)
      ensures quiet && reliable && id.name in old(secrets) ==>
                Now() == old(Now()).(secrets := old(secrets) - {id.name})
    {
      Interfere();
      if id.name !in secrets {
        return false;
      }
      var applied;
      applied, ok := Fate();
      Write(DeleteSecret, Now().(secrets := secrets - {id.name}), applied);
    }

    // Create and update calls of the COS path; an existing object is left alone.
    method CreateConfigMapObject(data: Data) returns (ok: bool)
      requires Valid() && HasFinalizer(Now())
      modifies this
      ensures Valid() && old(run) <= run && HasFinalizer(Now())
      ensures ReadMarked(run) == old(ReadMarked(run))
      ensures quiet && old(configMap).None? ==>
                Now() == old(Now()) || Now() == old(Now()).(configMap := Some(data))
      ensures quiet && old(configMap).None? && (ok || reliable) ==> ok && Now() == old(Now()).(configMap := Some(data))
    {
      Interfere();
      if configMap.Some? {
        return false;
      }
      var applied;
      applied, ok := Fate();
      Write(CreateConfigMap, Now().(configMap := Some(data)), applied);
    }

    method CreateClaimObject(claim: Claim) returns (ok: bool)
      requires Valid() && HasFinalizer(Now()) && !ReadMarked(run) && claim.origin == Operator
      modifies this
      ensures Valid() && old(run) <= run && HasFinalizer(Now())
      ensures ReadMarked(run) == old(ReadMarked(run))
      ensures quiet && old(pvc).None? ==>
                Now() == old(Now()) || Now() == old(Now()).(pvc := Some(claim))
      ensures quiet && old(pvc).None? && (ok || reliable) ==> ok && Now() == old(Now()).(pvc := Some(claim))
    {
      Interfere();
      if pvc.Some? {
        return false;
      }
      var applied;
      applied, ok := Fate();
      Write(CreateClaim, Now().(pvc := Some(claim)), applied);
    }

    method CreateSecretObject(secret: Secret) returns (ok: bool)
      requires Valid() && HasFinalizer(Now()) && !ReadMarked(run) && secret.origin == Operator
      modifies this
      ensures Valid() && old(run) <= run && HasFinalizer(Now())
      ensures ReadMarked(run) == old(ReadMarked(run))
      ensures quiet && id.name !in old(secrets) ==>
                Now() == old(Now()) || Now() == old(Now()).(secrets := old(secrets)[id.name := secret])
      ensures quiet && id.name !in old(secrets) && (ok || reliable) ==>
                ok && Now() == old(Now()).(secrets := old(secrets)[id.name := secret])
    {
      Interfere();
      if id.name in secrets {
        return false;
      }
      var applied;
      applied, ok := Fate();
      Write(CreateSecret, Now().(secrets := secrets[id.name := secret]), applied);
    }

    method UpdateSecretObject(existing: Secret, updated: Secret) returns (ok: bool)
      requires Valid() && HasFinalizer(Now()) && updated.origin == existing.origin
      modifies this
      ensures Valid() && old(run) <= run && HasFinalizer(Now())
      ensures ReadMarked(run) == old(ReadMarked(run))
      ensures quiet && id.name in old(secrets) && old(secrets)[id.name] == existing ==>
                Now() == old(Now()) || Now() == old(Now()).(secrets := old(secrets)[id.name := updated])
      ensures quiet && id.name in old(secrets) && old(secrets)[id.name] == existing && (ok || reliable) ==>
                ok && Now() == old(Now()).(secrets := old(secrets)[id.name := updated])
    {
      Interfere();
      if id.name !in secrets || secrets[id.name] != existing {
        return false;
      }
      var applied;
      applied, ok := Fate();
      Write(UpdateSecret, Now().(secrets := secrets[id.name := updated]), applied);
    }
  }
}

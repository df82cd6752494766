// The value of `remove-on-delete` on its way from the label of a Dataset through the
// label of its DatasetInternal and the Secret to the client of the CSI driver.
module RemoveOnDelete {
  import opened GoText
  import opened Kube
  import D = DatasetController
  import R = DatasetReconcile
  import I = InternalController
  import P = InternalReconcile
  import V = Volumes
  import O = InternalObjects

  const KEY := I.REMOVE_ON_DELETE

  // What both controllers see of the cluster.
  datatype System = System(
    ds: Option<D.Dataset>,
    di: Option<Internal>,
    pvc: Option<Claim>,
    pods: seq<Data>,
    lastEvent: Option<string>,
    configMap: Option<Data>,
    secrets: map<string, Secret>)
  {
    function ForDataset(): D.World { D.World(ds, di, pvc, pods, lastEvent) }
    function ForInternal(): I.World { I.World(di, pvc, configMap, secrets) }
  }

  // Each controller's steps are among those the other one reckons with.
  lemma DatasetStepsAreOthers(id: I.Id, s: System, a: D.Action, w': D.World)
    requires a != D.ByOthers && D.Does(id.name, a, s.ForDataset(), w')
    requires w'.di.Some? ==> I.IsCos(w'.di.value)
    ensures I.Others(id, s.ForInternal(), s.(di := w'.di, pvc := w'.pvc).ForInternal())
  {
  }

  lemma InternalStepsAreOthers(id: I.Id, s: System, a: I.Action, w': I.World)
    requires a != I.ByOthers && I.Does(id, a, s.ForInternal(), w')
    ensures D.Others(s.ForDataset(), s.(di := w'.di, pvc := w'.pvc).ForDataset())
  {
  }

  // SyncInternalPartly is a reconcile of the DatasetInternal that stops after `writes` of
  // its three writes.
  datatype Step = Edit(labels: Data) | SyncDataset | SyncInternal | SyncInternalPartly(writes: nat)

  function Do(id: I.Id, s: System, step: Step): System {
    match step
    case Edit(labels) =>
      if s.ds.Some? then s.(ds := Some(s.ds.value.(labels := labels))) else s
    case SyncDataset =>
      var w := D.ReconcileDataset(id.name, s.ForDataset());
      s.(ds := w.ds, di := w.di)
    case SyncInternal =>
      var w := I.ReconcileInternal(id, s.ForInternal());
      s.(di := w.di, pvc := w.pvc, configMap := w.configMap, secrets := w.secrets)
    case SyncInternalPartly(writes) =>
      if I.HasFinalizer(s.ForInternal()) && !I.Marked(s.ForInternal()) then
        var w := I.Writes(id, s.di.value, s.ForInternal(), writes);
        s.(pvc := w.pvc, configMap := w.configMap, secrets := w.secrets)
      else s
  }

  function Run(id: I.Id, s: System, steps: seq<Step>): System {
    if steps == [] then s else Do(id, Run(id, s, steps[..|steps| - 1]), steps[|steps| - 1])
  }

  // A settled Dataset whose COS DatasetInternal exists or is still to be made by this
  // operator, with credentials to be had.
  predicate Ready(id: I.Id, s: System) {
    && R.Settled(s.ForDataset())
    && match s.di
       case None =>
         && s.ds.value.caching.status == D.Disabled
         && I.IsCos(D.NewInternal(s.ds.value))
         && I.Credentials(id, s.ds.value.local, s.secrets).Some?
       case Some(di) =>
         && I.IsCos(di) && !di.deleting
         && I.Credentials(id, di.local, s.secrets).Some?
  }

  // ------------------------------------------------------------- the three layers

  predicate SameLabel(a: Data, b: Data) {
    (KEY in a <==> KEY in b) && Get(a, KEY) == Get(b, KEY)
  }

  predicate InternalAgrees(s: System)
    requires s.ds.Some?
  {
    s.di.Some? && SameLabel(s.ds.value.labels, s.di.value.labels)
  }

  predicate SecretAgrees(id: I.Id, s: System)
    requires s.ds.Some?
  {
    id.name in s.secrets && Get(s.secrets[id.name].data, KEY) == I.BooleanString(s.ds.value.labels, KEY)
  }

  // How many layers are still to come into line: one that lies behind a layer that
  // disagrees may be set to the wrong value again, so it counts as well.
  function Distance(id: I.Id, s: System): nat
    requires s.ds.Some?
  {
    if !InternalAgrees(s) then 3
    else if !I.HasFinalizer(s.ForInternal()) then 2
    else if !SecretAgrees(id, s) then 1
    else 0
  }

  // What a schedule leaves of a distance: the DatasetInternal waits for the Dataset
  // controller, the finalizer and the Secret for the DatasetInternal controller.
  function After(distance: nat, step: Step): nat {
    match step
    case Edit(_) => 3
    case SyncDataset => if distance > 2 then 2 else distance
    case SyncInternal => if 0 < distance <= 2 then distance - 1 else distance
    case SyncInternalPartly(_) => distance
  }

  function Remaining(distance: nat, steps: seq<Step>): nat {
    if steps == [] then distance else After(Remaining(distance, steps[..|steps| - 1]), steps[|steps| - 1])
  }

  lemma AfterMonotone(a: nat, b: nat, step: Step)
    requires a <= b
    ensures After(a, step) <= After(b, step)
  {
  }

  // Only the value of the key may differ in the Secret, and only that Secret may be new.
  predicate OnlyTheValue(id: I.Id, before: map<string, Secret>, after: map<string, Secret>) {
    && before.Keys <= after.Keys <= before.Keys + {id.name}
    && (forall name <- before :: name != id.name ==> after[name] == before[name])
    && (id.name in before ==>
          after[id.name].origin == before[id.name].origin
          && after[id.name].data - {KEY} == before[id.name].data - {KEY})
  }

  // Of an existing DatasetInternal only the label and the finalizer may change.
  predicate OnlyTheLabel(before: Option<Internal>, after: Option<Internal>) {
    before.Some? ==>
      && after.Some?
      && after.value == before.value.(labels := after.value.labels, finalizers := after.value.finalizers)
      && after.value.labels - {KEY} == before.value.labels - {KEY}
      && before.value.finalizers <= after.value.finalizers <= before.value.finalizers + {I.FINALIZER}
  }

  lemma SyncDatasetStep(id: I.Id, s: System)
    requires Ready(id, s)
    ensures var s' := Do(id, s, SyncDataset); 
            && Ready(id, s') && InternalAgrees(s')
            && s' == s.(di := s'.di)
            && (s.di.Some? ==> s'.di == Some(s.di.value.(labels := s'.di.value.labels)))
            && (s.di.Some? ==> s'.di.value.labels - {KEY} == s.di.value.labels - {KEY})
            && (InternalAgrees(s) ==> s'.di == s.di)
  {
    var d := s.ds.value;
    var w := D.ReconcileDataset(id.name, s.ForDataset());
    if s.di.Some? {
      var from, to := d.labels, s.di.value.labels;
      assert InternalAgrees(s) ==> D.SyncLabels(from, to) == to;
    }
  }

  lemma SecretEnsured(id: I.Id, data: Data, w: I.World)
    requires KEY in data
    ensures var w' := I.EnsureSecret(id, data, w);
            && w'.di == w.di && OnlyTheValue(id, w.secrets, w'.secrets)
            && id.name in w'.secrets && Get(w'.secrets[id.name].data, KEY) == data[KEY]
  {
  }

  lemma WritesSecret(id: I.Id, di: Internal, w: I.World)
    requires I.Credentials(id, di.local, w.secrets).Some?
    ensures var w' := I.Writes(id, di, w, 3);
            && w'.di == w.di && OnlyTheValue(id, w.secrets, w'.secrets)
            && id.name in w'.secrets && Get(w'.secrets[id.name].data, KEY) == I.BooleanString(di.labels, KEY)
  {
    var data := I.SecretData(di, I.Credentials(id, di.local, w.secrets).value);
    SecretEnsured(id, data, I.EnsureClaim(di, I.EnsureConfigMap(di, w)));
  }

  lemma SyncInternalStep(id: I.Id, s: System)
    requires Ready(id, s)
    ensures var s' := Do(id, s, SyncInternal);
            && Ready(id, s') && s'.ds == s.ds
            && (s.di.None? ==> s' == s)
            && (s.di.Some? ==> s'.di == Some(s.di.value.(finalizers := s.di.value.finalizers + {I.FINALIZER})))
            && (s.di.Some? && !I.HasFinalizer(s.ForInternal()) ==> s'.secrets == s.secrets)
            && (I.HasFinalizer(s.ForInternal()) ==>
                  id.name in s'.secrets && Get(s'.secrets[id.name].data, KEY) == I.BooleanString(s.di.value.labels, KEY))
            && OnlyTheValue(id, s.secrets, s'.secrets)
  {
    if I.HasFinalizer(s.ForInternal()) {
      P.WritesKeepCredentials(id, s.di.value, s.ForInternal(), 3);
      WritesSecret(id, s.di.value, s.ForInternal());
      assert s.di.value.finalizers + {I.FINALIZER} == s.di.value.finalizers;
    }
  }

  lemma WritesFrame(id: I.Id, di: Internal, w: I.World, n: nat)
    ensures var w' := I.Writes(id, di, w, n);
            w'.di == w.di && (n < 3 ==> w'.secrets == w.secrets) && (n >= 3 ==> w' == I.Writes(id, di, w, 3))
  {
  }

  lemma PartialStep(id: I.Id, s: System, writes: nat)
    requires Ready(id, s)
    ensures var s' := Do(id, s, SyncInternalPartly(writes));
            && Ready(id, s') && s' == s.(pvc := s'.pvc, configMap := s'.configMap, secrets := s'.secrets)
            && OnlyTheValue(id, s.secrets, s'.secrets)
            && Distance(id, s') <= Distance(id, s)
  {
    if I.HasFinalizer(s.ForInternal()) {
      var di, w := s.di.value, s.ForInternal();
      P.WritesKeepCredentials(id, di, w, writes);
      WritesFrame(id, di, w, writes);
      if writes >= 3 {
        WritesSecret(id, di, w);
      }
    }
  }

  lemma EditStep(id: I.Id, s: System, labels: Data)
    requires Ready(id, s)
    ensures Ready(id, Do(id, s, Edit(labels)))
    ensures Do(id, s, Edit(labels)) == s.(ds := Some(s.ds.value.(labels := labels)))
  {
  }

  lemma DistanceStep(id: I.Id, s: System, step: Step)
    requires Ready(id, s)
    ensures Ready(id, Do(id, s, step))
    ensures Distance(id, Do(id, s, step)) <= After(Distance(id, s), step)
  {
    match step
    case Edit(labels) => EditStep(id, s, labels);
    case SyncDataset => SyncDatasetStep(id, s);
    case SyncInternal => SyncInternalStep(id, s);
    case SyncInternalPartly(writes) => PartialStep(id, s, writes);
  }

  lemma {:induction false} DistanceRun(id: I.Id, s: System, steps: seq<Step>)
    requires Ready(id, s)
    ensures Ready(id, Run(id, s, steps))
    ensures Distance(id, Run(id, s, steps)) <= Remaining(Distance(id, s), steps)
  {
    if steps != [] {
      var init := steps[..|steps| - 1];
      DistanceRun(id, s, init);
      DistanceStep(id, Run(id, s, init), steps[|steps| - 1]);
      AfterMonotone(Distance(id, Run(id, s, init)), Remaining(Distance(id, s), init), steps[|steps| - 1]);
    }
  }

  lemma FrameStep(id: I.Id, s: System, step: Step)
    requires Ready(id, s)
    ensures var s' := Do(id, s, step);
            && s'.ds == Some(s.ds.value.(labels := s'.ds.value.labels))
            && s'.ds.value.labels == (if step.Edit? then step.labels else s.ds.value.labels)
            && OnlyTheLabel(s.di, s'.di) && OnlyTheValue(id, s.secrets, s'.secrets)
  {
    match step
    case Edit(labels) => EditStep(id, s, labels);
    case SyncDataset => SyncDatasetStep(id, s);
    case SyncInternal => SyncInternalStep(id, s);
    case SyncInternalPartly(writes) => PartialStep(id, s, writes);
  }

  function LastLabels(labels: Data, steps: seq<Step>): Data {
    if steps == [] then labels
    else
      match steps[|steps| - 1]
      case Edit(edited) => edited
      case _ => LastLabels(labels, steps[..|steps| - 1])
  }

  // Over every schedule of edits and reconciles, nothing but the one label and the one
  // value changes in what was there.
  lemma {:induction false} FrameRun(id: I.Id, s: System, steps: seq<Step>)
    requires Ready(id, s)
    ensures var s' := Run(id, s, steps);
            && s'.ds == Some(s.ds.value.(labels := LastLabels(s.ds.value.labels, steps)))
            && OnlyTheLabel(s.di, s'.di) && OnlyTheValue(id, s.secrets, s'.secrets)
  {
    if steps != [] {
      var init := steps[..|steps| - 1];
      FrameRun(id, s, init);
      DistanceRun(id, s, init);
      var was := Run(id, s, init);
      FrameStep(id, was, steps[|steps| - 1]);
      ValueTransitive(id, s.secrets, was.secrets, Run(id, s, steps).secrets);
    }
  }

  lemma ValueTransitive(id: I.Id, a: map<string, Secret>, b: map<string, Secret>, c: map<string, Secret>)
    requires OnlyTheValue(id, a, b) && OnlyTheValue(id, b, c)
    ensures OnlyTheValue(id, a, c)
  {
  }

  // ---------------------------------------------------------------- schedules

  predicate NoEdit(steps: seq<Step>) {
    forall step <- steps :: !step.Edit?
  }

  lemma {:induction false} RemainingSplit(distance: nat, a: seq<Step>, b: seq<Step>)
    ensures Remaining(distance, a + b) == Remaining(Remaining(distance, a), b)
    ensures distance <= 3 ==> Remaining(distance, a) <= 3
    decreases |a| + |b|
  {
    if b != [] {
      assert (a + b)[..|a + b| - 1] == a + b[..|b| - 1];
      RemainingSplit(distance, a, b[..|b| - 1]);
    } else {
      assert a + b == a;
      if a != [] {
        RemainingSplit(distance, a[..|a| - 1], []);
      }
    }
  }

  lemma {:induction false} RemainingFalls(distance: nat, steps: seq<Step>)
    requires NoEdit(steps)
    ensures Remaining(distance, steps) <= distance
  {
    if steps != [] {
      var init := steps[..|steps| - 1];
      assert forall step <- init :: step in steps;
      RemainingFalls(distance, init);
      assert steps[|steps| - 1] in steps;
    }
  }

  // After the last edit it takes one reconcile of the Dataset and then two of the
  // DatasetInternal, whatever reconciles come in between.
  predicate Enough(steps: seq<Step>, edits: seq<Step>, b: seq<Step>, c: seq<Step>, e: seq<Step>) {
    && steps == edits + [SyncDataset] + b + [SyncInternal] + c + [SyncInternal] + e
    && NoEdit(b) && NoEdit(c) && NoEdit(e)
  }

  lemma EnoughRemains(distance: nat, steps: seq<Step>, edits: seq<Step>, b: seq<Step>, c: seq<Step>, e: seq<Step>)
    requires distance <= 3 && Enough(steps, edits, b, c, e)
    ensures Remaining(distance, steps) == 0
  {
    var s1 := edits + [SyncDataset];
    RemainingSplit(distance, edits, [SyncDataset]);
    assert s1[..|s1| - 1] == edits;
    assert Remaining(distance, s1) <= 2;
    RemainingSplit(distance, s1, b);
    RemainingFalls(Remaining(distance, s1), b);
    var s2 := s1 + b + [SyncInternal];
    assert s2[..|s2| - 1] == s1 + b;
    assert Remaining(distance, s2) <= 1;
    RemainingSplit(distance, s2, c);
    RemainingFalls(Remaining(distance, s2), c);
    var s3 := s2 + c + [SyncInternal];
    assert s3[..|s3| - 1] == s2 + c;
    RemainingSplit(distance, s3, e);
    RemainingFalls(Remaining(distance, s3), e);
  }

  // ------------------------------------------------------------------ the theorem

  // After any schedule of edits and reconciles with enough of both kinds after the last
  // edit, the Secret holds and the client reads what the Dataset's label says, where a
  // label that is absent or does not parse counts as false.
  lemma Convergence(id: I.Id, s: System, steps: seq<Step>, edits: seq<Step>, b: seq<Step>, c: seq<Step>, e: seq<Step>)
    requires Ready(id, s) && Enough(steps, edits, b, c, e)
    ensures var s' := Run(id, s, steps);
            var wanted := Get(LastLabels(s.ds.value.labels, steps), KEY);
            && id.name in s'.secrets
            && V.ConfigFrom(s'.secrets[id.name].data).removeOnDelete == (ParseBool(wanted) == Some(true))
  {
    var s' := Run(id, s, steps);
    EnoughRemains(Distance(id, s), steps, edits, b, c, e);
    DistanceRun(id, s, steps);
    FrameRun(id, s, steps);
    assert SecretAgrees(id, s');
    LabelReachesClient(s'.ds.value.labels, s'.secrets[id.name].data);
  }

  lemma LabelReachesClient(labels: Data, secret: Data)
    requires Get(secret, KEY) == I.BooleanString(labels, KEY)
    ensures V.ConfigFrom(secret).removeOnDelete == (ParseBool(Get(labels, KEY)) == Some(true))
  {
  }

  // The other options travel the same way, once, when the Secret is made: the client is
  // configured as the Dataset says, with the bucket cut at its first slash.
  lemma SpecReachesClient(d: D.Dataset, keys: I.Keys)
    ensures var cfg := V.ConfigFrom(I.SecretData(D.NewInternal(d), keys));
            var bucket := Get(d.local, "bucket");
            && I.Keys(cfg.accessKeyID, cfg.secretAccessKey) == keys
            && cfg.endpoint == Get(d.local, "endpoint") && cfg.region == Get(d.local, "region")
            && '/' !in cfg.bucket
            && bucket == (if '/' in bucket then cfg.bucket + "/" + cfg.folder else cfg.bucket)
            && cfg.readonly == (ParseBool(Get(d.local, "readonly")) == Some(true))
            && cfg.provision == (ParseBool(Get(d.local, "provision")) == Some(true))
            && cfg.removeOnDelete == (ParseBool(Get(d.labels, KEY)) == Some(true))
  {
    FlagTravels(d.local, "readonly");
    FlagTravels(d.local, "provision");
    FlagTravels(d.labels, KEY);
  }

  lemma FlagTravels(m: Data, key: string)
    ensures (ParseBool(I.BooleanString(m, key)) == Some(true)) == (ParseBool(Get(m, key)) == Some(true))
  {
  }

  // So deleting the volume then takes its bucket, the one that the Secret names or else
  // the one of its id, if and only if the label asks for it, and nothing else.
  lemma LabelDecidesBucket(id: I.Id, s: System, steps: seq<Step>, edits: seq<Step>, b: seq<Step>, c: seq<Step>, e: seq<Step>,
                           d: V.Driver, buckets: V.Buckets, volumeID: string, bucket: string)
    requires Ready(id, s) && Enough(steps, edits, b, c, e)
    ensures var s' := Run(id, s, steps);
            var wanted := Get(LastLabels(s.ds.value.labels, steps), KEY);
            && id.name in s'.secrets
            && var (after, answer) := d.Serve(buckets, V.DeleteRequest(volumeID, s'.secrets[id.name].data));
               V.BucketNamed(s'.secrets[id.name].data, volumeID, bucket) ==>
                 after == if answer == V.Deleted && ParseBool(wanted) == Some(true) then buckets - {bucket} else buckets
  {
    Convergence(id, s, steps, edits, b, c, e);
    var secret := Run(id, s, steps).secrets[id.name].data;
    RemovalFlag(secret);
    if V.BucketNamed(secret, volumeID, bucket) {
      V.DeleteMeaning(d, buckets, volumeID, secret, bucket);
    }
  }

  // ------------------------------------------------------------ whose bucket it is

  // The specification that the DatasetInternal has or will have.
  function LocalOf(s: System): Data
    requires s.ds.Some?
  {
    if s.di.Some? then s.di.value.local else s.ds.value.local
  }

  predicate SecretNamesBucket(id: I.Id, s: System)
    requires s.ds.Some?
  {
    id.name in s.secrets ==> Get(s.secrets[id.name].data, "bucket") == Cut(Get(LocalOf(s), "bucket"), '/').before
  }

  lemma WritesNameBucket(id: I.Id, di: Internal, w: I.World, n: nat)
    requires id.name in w.secrets ==> Get(w.secrets[id.name].data, "bucket") == Cut(Get(di.local, "bucket"), '/').before
    ensures var w' := I.Writes(id, di, w, n);
            id.name in w'.secrets ==> Get(w'.secrets[id.name].data, "bucket") == Cut(Get(di.local, "bucket"), '/').before
  {
  }

  lemma BucketStep(id: I.Id, s: System, step: Step)
    requires Ready(id, s) && SecretNamesBucket(id, s)
    ensures var s' := Do(id, s, step);
            s'.ds.Some? && LocalOf(s') == LocalOf(s) && SecretNamesBucket(id, s')
  {
    FrameStep(id, s, step);
    match step
    case Edit(_) =>
    case SyncDataset => SyncDatasetStep(id, s);
    case SyncInternal =>
      SyncInternalStep(id, s);
      if I.HasFinalizer(s.ForInternal()) {
        WritesNameBucket(id, s.di.value, s.ForInternal(), 3);
      }
    case SyncInternalPartly(writes) =>
      if I.HasFinalizer(s.ForInternal()) {
        WritesNameBucket(id, s.di.value, s.ForInternal(), writes);
      }
  }

  lemma {:induction false} BucketRun(id: I.Id, s: System, steps: seq<Step>)
    requires Ready(id, s) && SecretNamesBucket(id, s)
    ensures var s' := Run(id, s, steps);
            s'.ds.Some? && LocalOf(s') == LocalOf(s) && SecretNamesBucket(id, s')
  {
    if steps != [] {
      var init := steps[..|steps| - 1];
      BucketRun(id, s, init);
      DistanceRun(id, s, init);
      BucketStep(id, Run(id, s, init), steps[|steps| - 1]);
    }
  }

  // From the Dataset to the bucket: with the Secret made on the way, deleting the volume
  // takes the bucket that the specification names before its first slash, if and only if
  // the last label parses as true, and nothing else.
  lemma DatasetDecidesBucket(id: I.Id, s: System, steps: seq<Step>, edits: seq<Step>, b: seq<Step>, c: seq<Step>, e: seq<Step>,
                             d: V.Driver, buckets: V.Buckets, volumeID: string, bucket: string, folder: string)
    requires Ready(id, s) && Enough(steps, edits, b, c, e) && id.name !in s.secrets
    requires O.BucketCut(LocalOf(s), bucket, folder) && bucket != ""
    ensures var s' := Run(id, s, steps);
            var wanted := Get(LastLabels(s.ds.value.labels, steps), KEY);
            && id.name in s'.secrets
            && var (after, answer) := d.Serve(buckets, V.DeleteRequest(volumeID, s'.secrets[id.name].data));
               after == if answer == V.Deleted && ParseBool(wanted) == Some(true) then buckets - {bucket} else buckets
  {
    Convergence(id, s, steps, edits, b, c, e);
    BucketRun(id, s, steps);
    var named := Get(LocalOf(s), "bucket");
    var cut := Cut(named, '/');
    if '/' in named {
      CutOnce(cut.before, cut.after, bucket, folder, '/');
    }
    var secret := Run(id, s, steps).secrets[id.name].data;
    RemovalFlag(secret);
    V.DeleteMeaning(d, buckets, volumeID, secret, bucket);
  }

  lemma RemovalFlag(secret: Data)
    ensures V.ConfigFrom(secret).removeOnDelete == (ParseBool(Get(secret, "remove-on-delete")) == Some(true))
  {
  }
}

// Reconcile of the DatasetInternal controller and the functions it calls, call by call.
module InternalReconcile {
  import opened GoText
  import opened Kube
  import opened InternalController

  // checkAndExtractObjectStorageAccess
  method CheckAndExtractObjectStorageAccess(c: Cluster, cr: Internal) returns (keys: Option<Keys>)
    requires c.Valid() && HasFinalizer(c.Now()) && !ReadMarked(c.run)
    modifies c
    ensures c.Valid() && old(c.run) <= c.run && HasFinalizer(c.Now()) && !ReadMarked(c.run)
    ensures c.quiet ==> c.Now() == old(c.Now())
    ensures c.quiet && (keys.Some? || c.reliable) ==> keys == Credentials(c.id, cr.local, c.secrets)
  {
    var secretOK := false;
    var secretName := "";
    if "secret-name" in cr.local {
      secretName := cr.local["secret-name"];
      if "secret-namespace" !in cr.local {
        secretOK := true;
      } else {
        secretOK := cr.local["secret-namespace"] == c.id.namespace;
      }
    }
    if secretOK {
      var reply := c.GetSecret(secretName);
      // A lookup that fails leaves an empty Secret, which has no keys.
      keys := if reply.Ok? then KeysIn(reply.value.data) else None;
    } else {
      keys := None;
      if "accessKeyID" in cr.local && "secretAccessKey" in cr.local {
        keys := Some(Keys(cr.local["accessKeyID"], cr.local["secretAccessKey"]));
      }
    }
  }

  // createConfigMapforDataset
  method CreateConfigMapForDataset(c: Cluster, configData: Data) returns (ok: bool)
    requires c.Valid() && HasFinalizer(c.Now()) && !ReadMarked(c.run)
    modifies c
    ensures c.Valid() && old(c.run) <= c.run && HasFinalizer(c.Now()) && !ReadMarked(c.run)
    ensures c.quiet ==>
              var done := if old(c.configMap).None? then old(c.Now()).(configMap := Some(configData)) else old(c.Now());
              (c.Now() == done || c.Now() == old(c.Now())) && (ok || c.reliable ==> ok && c.Now() == done)
  {
    var found := c.GetConfigMap();
    if found.NotFound? {
      ok := c.CreateConfigMapObject(configData);
    } else {
      ok := found.Ok?;
    }
  }

  method CreateClaimForDataset(c: Cluster, newPVC: Claim) returns (ok: bool)
    requires c.Valid() && HasFinalizer(c.Now()) && !ReadMarked(c.run) && newPVC.origin == Operator
    modifies c
    ensures c.Valid() && old(c.run) <= c.run && HasFinalizer(c.Now()) && !ReadMarked(c.run)
    ensures c.quiet ==>
              var done := if old(c.pvc).None? then old(c.Now()).(pvc := Some(newPVC)) else old(c.Now());
              (c.Now() == done || c.Now() == old(c.Now())) && (ok || c.reliable ==> ok && c.Now() == done)
  {
    var found := c.GetClaim();
    if found.NotFound? {
      ok := c.CreateClaimObject(newPVC);
    } else {
      ok := found.Ok?;
    }
  }

  // checkIfEditableValueChangeAndUpdate
  method CheckIfEditableValueChangeAndUpdate(c: Cluster, existing: Secret, data: Data) returns (ok: bool)
    requires c.Valid() && HasFinalizer(c.Now()) && !ReadMarked(c.run) && REMOVE_ON_DELETE in data
    modifies c
    ensures c.Valid() && old(c.run) <= c.run && HasFinalizer(c.Now()) && !ReadMarked(c.run)
    ensures c.quiet && c.id.name in old(c.secrets) && old(c.secrets)[c.id.name] == existing ==>
              var done := EnsureSecret(c.id, data, old(c.Now()));
              (c.Now() == done || c.Now() == old(c.Now())) && (ok || c.reliable ==> ok && c.Now() == done)
  {
    ok := true;
    var stringData: Data := map[];
    var editable := [REMOVE_ON_DELETE];
    var shouldUpdate := false;
    for n := 0 to |editable|
      invariant n == 0 ==> !shouldUpdate && stringData == map[]
      invariant n == 1 ==> shouldUpdate == (Get(existing.data, REMOVE_ON_DELETE) != data[REMOVE_ON_DELETE])
      invariant shouldUpdate ==> stringData == map[REMOVE_ON_DELETE := data[REMOVE_ON_DELETE]]
    {
      var key := editable[n];
      if Get(existing.data, key) != data[key] {
        shouldUpdate := true;
        stringData := stringData[key := data[key]];
      }
    }
    if shouldUpdate {
      // The API server merges StringData into Data.
      var updated := existing.(data := existing.data + stringData);
      assert updated == WithEditable(existing, data);
      ok := c.UpdateSecretObject(existing, updated);
    }
  }

  method CreateSecretForDataset(c: Cluster, data: Data) returns (ok: bool)
    requires c.Valid() && HasFinalizer(c.Now()) && !ReadMarked(c.run) && REMOVE_ON_DELETE in data
    modifies c
    ensures c.Valid() && old(c.run) <= c.run && HasFinalizer(c.Now()) && !ReadMarked(c.run)
    ensures c.quiet ==>
              var done := EnsureSecret(c.id, data, old(c.Now()));
              (c.Now() == done || c.Now() == old(c.Now())) && (ok || c.reliable ==> ok && c.Now() == done)
  {
    var found := c.GetSecret(c.id.name);
    match found {
      case NotFound =>
        ok := c.CreateSecretObject(Secret(Operator, data));
      case Failed =>
        ok := false;
      case Ok(secret) =>
        ok := CheckIfEditableValueChangeAndUpdate(c, secret, data);
    }
  }

  // The Secret data that processLocalDatasetCOS puts together.
  method MakeSecretData(cr: Internal, keys: Keys) returns (stringData: Data)
    ensures stringData == SecretData(cr, keys)
  {
    var bucket := Cut(Get(cr.local, "bucket"), '/');
    var readonly := BooleanString(cr.local, "readonly");
    var provision := BooleanString(cr.local, "provision");
    var removeOnDelete := BooleanString(cr.labels, REMOVE_ON_DELETE);
    if "provision" in cr.local {
      var provisionBool := ParseBool(cr.local["provision"]);
      if provisionBool.Some? {
        provision := FormatBool(provisionBool.value);
      }
    }
    var extract := "false";
    if |cr.extract| > 0 {
      extract := cr.extract;
    }
    stringData := map[
      "accessKeyID" := keys.accessKeyID, "secretAccessKey" := keys.secretAccessKey,
      "endpoint" := Get(cr.local, "endpoint"), "bucket" := bucket.before, "folder" := bucket.after,
      "region" := Get(cr.local, "region"), "readonly" := readonly, "extract" := extract,
      "provision" := provision, REMOVE_ON_DELETE := removeOnDelete];
  }

  // `cr` is the copy read at the start of the reconcile; the cluster may have moved on.
  method ProcessLocalDatasetCOS(c: Cluster, cr: Internal) returns (ok: bool)
    requires c.Valid() && HasFinalizer(c.Now()) && !ReadMarked(c.run)
    modifies c
    ensures c.Valid() && old(c.run) <= c.run
    ensures c.quiet ==> exists n: nat :: n <= 3 && c.Now() == Writes(c.id, cr, old(c.Now()), n)
    ensures c.quiet && c.reliable ==> c.Now() == Writes(c.id, cr, old(c.Now()), 3)
  {
    ghost var was := c.Now();
    var keys := CheckAndExtractObjectStorageAccess(c, cr);
    if keys.None? {
      assert c.quiet ==> c.Now() == Writes(c.id, cr, was, 0);
      return false;
    }
    var stringData := MakeSecretData(cr, keys.value);
    ok := CreateConfigMapForDataset(c, ConfigData(cr));
    assert c.quiet ==> c.Now() == Writes(c.id, cr, was, 0) || c.Now() == Writes(c.id, cr, was, 1);
    if !ok {
      return;
    }
    ok := CreateClaimForDataset(c, Claim(Operator, false, ClaimPending, BooleanString(cr.local, "readonly") == "true"));
    assert c.quiet ==> c.Now() == Writes(c.id, cr, was, 1) || c.Now() == Writes(c.id, cr, was, 2);
    if !ok {
      return;
    }
    ok := CreateSecretForDataset(c, stringData);
    assert c.quiet ==> c.Now() == Writes(c.id, cr, was, 2) || c.Now() == Writes(c.id, cr, was, 3);
  }

  // The part of Reconcile that runs for a marked object carrying the finalizer.
  method Finalize(c: Cluster, instance: Internal) returns (ok: bool)
    requires c.Valid() && HasFinalizer(c.Now()) && Marked(c.Now())
    requires FINALIZER in instance.finalizers && instance.deleting
    modifies c
    ensures c.Valid() && old(c.run) <= c.run && RankFalls(c.id, c.run, |old(c.run)| - 1)
    ensures c.quiet && c.reliable && old(c.di) == Some(instance) ==>
              c.Now() == TearDown(c.id, instance, old(c.Now()))
  {
    var foundPVC := c.GetClaim();
    if foundPVC.Ok? {
      ok := c.DeleteClaimObject();
      return;
    } else if foundPVC.Failed? {
      return false;
    }
    ok := FinalizeSecret(c, instance);
  }

  // The rest of the finalizer logic, reached once the PVC is gone.
  method FinalizeSecret(c: Cluster, instance: Internal) returns (ok: bool)
    requires c.Valid() && HasFinalizer(c.Now()) && Marked(c.Now()) && !OwnClaim(c.Now())
    requires FINALIZER in instance.finalizers && instance.deleting
    modifies c
    ensures c.Valid() && old(c.run) <= c.run && RankFalls(c.id, c.run, |old(c.run)| - 1)
    ensures c.quiet && c.reliable && old(c.di) == Some(instance) && old(c.pvc).None? ==>
              c.Now() == TearDown(c.id, instance, old(c.Now()))
  {
    var found := c.GetSecret(c.id.name);
    if found.Ok? {
      // The result of this delete is not looked at.
      var _ := c.DeleteSecretObject();
      return true;
    } else if found.Failed? {
      return false;
    }
    ok := c.DropFinalizerFrom(instance);
  }

  // Every state Reconcile takes the cluster through is reached by a legal step, whatever
  // others do in between and whichever calls fail; once the object is marked for
  // deletion the reconcile only tears down.
  method Reconcile(c: Cluster) returns (ok: bool)
    requires c.Valid()
    modifies c
    ensures c.Valid() && old(c.run) <= c.run
    ensures c.quiet && c.reliable ==> c.Now() == ReconcileInternal(c.id, old(c.Now()))
    ensures old(HasFinalizer(c.Now()) && Marked(c.Now())) ==> RankFalls(c.id, c.run, |old(c.run)| - 1)
  {
    var reply := c.GetInternal();
    if !reply.Ok? {
      return false;
    }
    var instance := reply.value;
    if FINALIZER !in instance.finalizers {
      ok := c.AddFinalizerTo(instance);
      return;
    }
    if instance.deleting {
      ok := Finalize(c, instance);
      return;
    }
    ok := ProcessLocalDatasetCOS(c, instance);
  }

  // ------------------------------------------------------------ theorems about runs

  // No leak: along every run a PVC or Secret of the COS path is covered by a
  // DatasetInternal that carries the finalizer.
  lemma {:induction false} NoLeak(id: Id, run: seq<Event>, i: nat)
    requires IsRun(id, run) && i < |run| && Covered(id, run[0].world)
    ensures Covered(id, run[i].world)
  {
    if i > 0 {
      NoLeak(id, run, i - 1);
      assert StepAt(id, run, i);
    }
  }

  // Hence a DatasetInternal that has vanished leaves neither behind.
  lemma VanishedLeavesNothing(id: Id, run: seq<Event>, i: nat)
    requires IsRun(id, run) && i < |run| && Covered(id, run[0].world) && run[i].world.di.None?
    ensures !OwnClaim(run[i].world) && !OwnSecret(id, run[i].world)
  {
    NoLeak(id, run, i);
  }

  // When the controller removes the Secret, the PVC that needs it is gone; when it
  // removes the finalizer, both are; and it never takes a PVC or Secret away from an
  // object that is not marked for deletion.
  lemma TeardownOrder(id: Id, run: seq<Event>, i: nat)
    requires IsRun(id, run) && 0 < i < |run| && run[i].action != ByOthers
    ensures var w, w' := run[i - 1].world, run[i].world;
            && (OwnSecret(id, w) && !OwnSecret(id, w') ==> Marked(w) && !OwnClaim(w))
            && (HasFinalizer(w) && !HasFinalizer(w') ==> Marked(w) && !OwnClaim(w) && !OwnSecret(id, w))
            && (OwnClaim(w) && (OwnClaim(w') ==> w'.pvc.value.deleting && !w.pvc.value.deleting) ==> Marked(w))
  {
    assert StepAt(id, run, i);
  }

  // -------------------------------------------------------------------- teardown

  // The claim that was marked is released and goes.
  function Release(w: World): World {
    if w.pvc.Some? && w.pvc.value.deleting then w.(pvc := None) else w
  }

  function Drain(id: Id, w: World, n: nat): World
    decreases n
  {
    if n == 0 then w else Drain(id, Release(ReconcileInternal(id, w)), n - 1)
  }

  predicate Gone(id: Id, w: World) {
    w.pvc.None? && id.name !in w.secrets && !HasFinalizer(w)
  }

  function Left(id: Id, w: World): nat {
    (if w.pvc.Some? then 1 else 0) + (if id.name in w.secrets then 1 else 0) + 1
  }

  lemma DrainOnce(id: Id, w: World)
    requires HasFinalizer(w) && Marked(w)
    ensures var w' := Release(ReconcileInternal(id, w));
            if Left(id, w) == 1 then Gone(id, w') && w'.di == WithoutFinalizer(w.di.value)
            else w'.di == w.di && Left(id, w') == Left(id, w) - 1
  {
  }

  lemma {:induction false} DrainIdle(id: Id, w: World, n: nat)
    requires Gone(id, w) && (w.di.Some? ==> Marked(w))
    ensures Drain(id, w, n) == w
  {
    if n > 0 {
      DrainIdle(id, w, n - 1);
    }
  }

  lemma {:induction false} DrainAll(id: Id, w: World, n: nat)
    requires HasFinalizer(w) && Marked(w) && Left(id, w) <= n
    decreases n
    ensures Gone(id, Drain(id, w, n)) && Drain(id, w, n).di == WithoutFinalizer(w.di.value)
  {
    DrainOnce(id, w);
    var w' := Release(ReconcileInternal(id, w));
    if Left(id, w) == 1 {
      DrainIdle(id, w', n - 1);
    } else {
      DrainAll(id, w', n - 1);
    }
  }

  // Three undisturbed reconciles, each followed by the release of a marked PVC, end
  // every teardown; without other finalizers the object itself is gone.
  lemma TeardownCompletes(id: Id, w: World)
    requires HasFinalizer(w) && Marked(w)
    ensures Gone(id, Drain(id, w, 3))
    ensures Drain(id, w, 3).di.None? <==> w.di.value.finalizers == {FINALIZER}
  {
    DrainAll(id, w, 3);
    assert w.di.value.finalizers - {FINALIZER} == {} ==> w.di.value.finalizers == {FINALIZER};
  }

  // An undisturbed reconcile of a marked object lowers the rank, unless the PVC lingers
  // or something made by a user stands in the way; rank zero means all is gone.
  lemma TeardownProgress(id: Id, w: World)
    requires HasFinalizer(w) && Marked(w)
    requires w.pvc.Some? ==> OwnClaim(w) && !w.pvc.value.deleting
    requires id.name in w.secrets ==> OwnSecret(id, w)
    ensures Rank(id, ReconcileInternal(id, w)) < Rank(id, w)
    ensures Rank(id, ReconcileInternal(id, w)) == 0 ==> Gone(id, ReconcileInternal(id, w))
  {
  }

  // Over every run, the rank of a marked object never rises once the controller has read
  // it marked, whoever takes the step.
  lemma RankNeverRises(id: Id, run: seq<Event>, i: nat)
    requires IsRun(id, run) && 0 < i < |run| && Marked(run[i - 1].world) && ReadMarked(run[..i])
    ensures Rank(id, run[i].world) <= Rank(id, run[i - 1].world)
  {
    assert StepAt(id, run, i);
  }

  // A mark that was read stays read as long as the finalizer keeps the object.
  lemma {:induction false} MarkStaysRead(id: Id, run: seq<Event>, i: nat, j: nat)
    requires IsRun(id, run) && 0 < i <= j <= |run| && ReadMarked(run[..i]) && Marked(run[i - 1].world)
    requires forall k :: i - 1 <= k < j ==> HasFinalizer(run[k].world)
    ensures ReadMarked(run[..j]) && Marked(run[j - 1].world)
    decreases j - i
  {
    if i < j {
      MarkStaysRead(id, run, i, j - 1);
      assert StepAt(id, run, j - 1);
      assert run[..j][..j - 1] == run[..j - 1];
    }
  }

  // A reconcile that read the object, as `cr`, before it was marked may still make the
  // first n of its writes: exactly then the rank rises when credentials are to be had and
  // a PVC or Secret that is still to be written is missing.
  lemma RankInFlight(id: Id, cr: Internal, w: World, n: nat)
    requires HasFinalizer(w) && Marked(w)
    ensures Rank(id, Writes(id, cr, w, n)) > Rank(id, w) <==>
            && Credentials(id, cr.local, w.secrets).Some?
            && ((n >= 2 && w.pvc.None?) || (n >= 3 && id.name !in w.secrets))
  {
  }

  // ----------------------------------------------------------- crash convergence

  // Reconciles that stop after ns[0], ns[1], ... of the three writes.
  function Crashes(id: Id, di: Internal, w: World, ns: seq<nat>): World {
    if ns == [] then w else Writes(id, di, Crashes(id, di, w, ns[..|ns| - 1]), ns[|ns| - 1])
  }

  lemma WritesKeepCredentials(id: Id, di: Internal, w: World, n: nat)
    ensures Credentials(id, di.local, Writes(id, di, w, n).secrets) == Credentials(id, di.local, w.secrets)
  {
  }

  lemma WritesAbsorb(id: Id, di: Internal, w: World, n: nat)
    ensures Writes(id, di, Writes(id, di, w, n), 3) == Writes(id, di, w, 3)
  {
    WritesKeepCredentials(id, di, w, n);
    if Credentials(id, di.local, w.secrets).Some? {
      var data := SecretData(di, Credentials(id, di.local, w.secrets).value);
      assert Get(EnsureSecret(id, data, w).secrets[id.name].data, REMOVE_ON_DELETE) == data[REMOVE_ON_DELETE];
    }
  }

  // With specification, labels and credentials fixed, stopping after any number of
  // writes, any number of times, changes nothing about where a full run ends; and a full
  // run after a full run changes nothing.
  lemma {:induction false} CrashConvergence(id: Id, di: Internal, w: World, ns: seq<nat>)
    ensures Writes(id, di, Crashes(id, di, w, ns), 3) == Writes(id, di, w, 3)
    ensures Writes(id, di, Writes(id, di, w, 3), 3) == Writes(id, di, w, 3)
  {
    WritesAbsorb(id, di, w, 3);
    if ns != [] {
      CrashConvergence(id, di, w, ns[..|ns| - 1]);
      WritesAbsorb(id, di, Crashes(id, di, w, ns[..|ns| - 1]), ns[|ns| - 1]);
    }
  }
}

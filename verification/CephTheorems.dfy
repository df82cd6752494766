// Datasets of one name side by side: exclusion over all interleavings, where a
// finalisation goes wrong, how the name is handed over, and the cache placements.
module CephTheorems {
  import opened GoText
  import opened CephPlugin
  import opened CephReconcile
  import K = Kube
  import I = InternalController
  import D = DatasetController

  // ---------------------------------------------------------------- interleavings

  // What the plugin does for one namespace is what it expects of others for every other,
  // whether or not it deletes what is not its own.
  lemma StepsAreOthers(name: string, ns: string, other: string, a: Action, w: World, w': World)
    requires ns != other && a != ByOthers && Does(name, ns, a, w, w')
    ensures Others(other, w, w')
  {
  }

  // A state of the cluster, the action that led to it and the namespace it was done for;
  // None stands for users and other controllers.
  datatype Move = Move(actor: Option<string>, action: Action, world: World)

  // The run as the reconciles for one namespace see it.
  function View(ns: string, moves: seq<Move>): seq<Event> {
    seq(|moves|, i requires 0 <= i < |moves| =>
      Event(if moves[i].actor == Some(ns) then moves[i].action else ByOthers, moves[i].world))
  }

  // While the ConfigMap names a namespace, users and other controllers leave it alone;
  // a store or user may go meanwhile, but none is made.
  predicate SharedKept(ns: string, w: World, w': World) {
    NamesNamespace(w.configMap, ns) ==> w'.configMap == w.configMap && StoreKept(w, w') && UserKept(w, w')
  }

  ghost predicate Outside(w: World, w': World) {
    forall ns :: Others(ns, w, w') && SharedKept(ns, w, w')
  }

  ghost predicate MoveAt(name: string, moves: seq<Move>, i: nat)
    requires 0 < i < |moves|
  {
    match moves[i].actor
    case Some(ns) => moves[i].action != ByOthers && StepAt(name, ns, View(ns, moves), i)
    case None => Outside(moves[i - 1].world, moves[i].world)
  }

  ghost predicate IsInterleaving(name: string, moves: seq<Move>) {
    forall i :: 0 < i < |moves| ==> MoveAt(name, moves, i)
  }

  // However the steps for any number of namespaces interleave, each namespace sees a run
  // as its reconciles assume it.
  lemma InterleavingIsRun(name: string, moves: seq<Move>, ns: string)
    requires IsInterleaving(name, moves)
    ensures IsRun(name, ns, View(ns, moves))
  {
    var run := View(ns, moves);
    forall i | 0 < i < |run| ensures StepAt(name, ns, run, i) {
      assert MoveAt(name, moves, i);
      if moves[i].actor.Some? && moves[i].actor != Some(ns) {
        var actor := moves[i].actor.value;
        assert View(actor, moves)[i].action == moves[i].action;
        StepsAreOthers(name, actor, ns, moves[i].action, moves[i - 1].world, moves[i].world);
      }
    }
  }

  // ------------------------------------------------------------------- hypotheses

  ghost predicate AllGuarded(name: string, w: World) {
    forall ns :: Guarded(name, ns, w)
  }

  // No delete for a namespace falls between its own deletion of the ConfigMap and its
  // removal of the finalizer.
  predicate TidyMove(moves: seq<Move>, i: nat)
    requires i < |moves|
  {
    moves[i].actor.Some? && IsDelete(moves[i].action) ==> !Open(View(moves[i].actor.value, moves)[..i])
  }

  ghost predicate Orderly(moves: seq<Move>, n: nat)
    requires n < |moves|
  {
    forall i :: 0 < i <= n ==> TidyMove(moves, i)
  }

  // That is what reconciles whose last two writes do not fail keep up.
  lemma FinishedIsOrderly(moves: seq<Move>, n: nat)
    requires n < |moves| && forall ns :: Tidy(View(ns, moves))
    ensures Orderly(moves, n)
  {
    forall i | 0 < i <= n ensures TidyMove(moves, i) {
      if moves[i].actor.Some? {
        var run := View(moves[i].actor.value, moves);
        assert Tidy(run) && run[i].action == moves[i].action;
      }
    }
  }

  // -------------------------------------------------------------------- exclusion

  // What a step for `ns` would need to find in order to touch only what is its own.
  predicate Safe(name: string, ns: string, a: Action, w: World) {
    match a
    case CreateStore(uid) => LockHeld(name, Id(ns, uid), w)
    case CreateUser(uid) => LockHeld(name, Id(ns, uid), w)
    case CreateInternal(uid) => Locked(name, Id(ns, uid), w)
    case AddFinalizer => ns in w.datasets && Locked(name, IdOf(ns, w.datasets[ns]), w)
    case _ => IsDelete(a) ==> ns in w.datasets && Locked(name, IdOf(ns, w.datasets[ns]), w)
  }

  // What was seen still holds.
  predicate Holds(name: string, id: Id, seen: nat, w: World) {
    && (seen >= LOCK ==> LockHeld(name, id, w))
    && (seen >= STORE ==> w.store.None? || OwnStore(name, id, w))
    && (seen >= USER ==> w.user.None? || OwnUser(name, id, w))
  }

  ghost predicate GuardedOrOpen(name: string, moves: seq<Move>, n: nat)
    requires n < |moves|
  {
    forall ns :: Guarded(name, ns, moves[n].world) || Open(View(ns, moves)[..n + 1])
  }

  ghost predicate SeenHolds(name: string, moves: seq<Move>, n: nat)
    requires n < |moves|
  {
    forall id: Id :: Holds(name, id, Seen(name, id, View(id.namespace, moves)[..n + 1]), moves[n].world)
  }

  lemma SafeStepShared(name: string, ns: string, other: string, a: Action, w: World, w': World)
    requires ns != other && a != ByOthers && Does(name, ns, a, w, w') && Safe(name, ns, a, w)
    ensures SharedKept(other, w, w')
  {
  }

  lemma OwnStepHolds(name: string, id: Id, a: Action, w: World, w': World, seen: nat)
    requires a != ByOthers && Does(name, id.namespace, a, w, w') && Safe(name, id.namespace, a, w) && !IsDelete(a)
    requires Holds(name, id, seen, w)
    ensures Holds(name, id, seen, w')
  {
  }

  lemma SharedHolds(name: string, id: Id, w: World, w': World, seen: nat)
    requires SharedKept(id.namespace, w, w') && Holds(name, id, seen, w)
    ensures Holds(name, id, seen, w')
  {
  }

  // Only the deletion of the ConfigMap leaves the finalizer without the lock.
  lemma GuardStep(name: string, ns: string, a: Action, w: World, w': World)
    requires a != ByOthers && Does(name, ns, a, w, w') && Safe(name, ns, a, w) && a != DeleteConfigMap
    requires Guarded(name, ns, w)
    ensures Guarded(name, ns, w')
  {
  }

  lemma GuardKept(name: string, ns: string, w: World, w': World)
    requires Others(ns, w, w') && SharedKept(ns, w, w') && Guarded(name, ns, w)
    ensures Guarded(name, ns, w')
  {
  }

  // A step is safe because what it rests on was read before and holds still, and because
  // a finalisation that is not resumed finds its Dataset guarded.
  lemma NextIsSafe(name: string, moves: seq<Move>, n: nat)
    requires IsInterleaving(name, moves) && 0 < n < |moves| && TidyMove(moves, n) && moves[n].actor.Some?
    requires GuardedOrOpen(name, moves, n - 1) && SeenHolds(name, moves, n - 1)
    ensures Safe(name, moves[n].actor.value, moves[n].action, moves[n - 1].world)
  {
    var ns, w := moves[n].actor.value, moves[n - 1].world;
    var run := View(ns, moves);
    assert MoveAt(name, moves, n);
    assert run[n].action == moves[n].action && run[n - 1].world == w;
    assert Guarded(name, ns, w) || Open(run[..n]);
    match moves[n].action
    case CreateStore(uid) => assert Holds(name, Id(ns, uid), Seen(name, Id(ns, uid), run[..n]), w);
    case CreateUser(uid) => assert Holds(name, Id(ns, uid), Seen(name, Id(ns, uid), run[..n]), w);
    case CreateInternal(uid) => assert Holds(name, Id(ns, uid), Seen(name, Id(ns, uid), run[..n]), w);
    case AddFinalizer =>
      var id := IdOf(ns, w.datasets[ns]);
      assert Holds(name, id, Seen(name, id, run[..n]), w);
    case _ =>
  }

  lemma NextGuarded(name: string, moves: seq<Move>, n: nat)
    requires IsInterleaving(name, moves) && 0 < n < |moves|
    requires moves[n].actor.Some? ==> Safe(name, moves[n].actor.value, moves[n].action, moves[n - 1].world)
    requires GuardedOrOpen(name, moves, n - 1)
    ensures GuardedOrOpen(name, moves, n)
  {
    var w, w' := moves[n - 1].world, moves[n].world;
    assert MoveAt(name, moves, n);
    forall ns ensures Guarded(name, ns, w') || Open(View(ns, moves)[..n + 1]) {
      var run := View(ns, moves);
      assert run[..n + 1] == run[..n] + [run[n]];
      OpenNext(run[..n], run[n]);
      assert Guarded(name, ns, w) || Open(run[..n]);
      if moves[n].actor == Some(ns) {
        if Guarded(name, ns, w) && moves[n].action != DeleteConfigMap {
          GuardStep(name, ns, moves[n].action, w, w');
        }
      } else if Guarded(name, ns, w) {
        OthersKeep(name, moves, n, ns);
        GuardKept(name, ns, w, w');
      }
    }
  }

  lemma OthersKeep(name: string, moves: seq<Move>, n: nat, ns: string)
    requires IsInterleaving(name, moves) && 0 < n < |moves| && moves[n].actor != Some(ns)
    requires moves[n].actor.Some? ==> Safe(name, moves[n].actor.value, moves[n].action, moves[n - 1].world)
    ensures Others(ns, moves[n - 1].world, moves[n].world) && SharedKept(ns, moves[n - 1].world, moves[n].world)
  {
    var w, w' := moves[n - 1].world, moves[n].world;
    assert MoveAt(name, moves, n);
    if moves[n].actor.Some? {
      var actor := moves[n].actor.value;
      assert View(actor, moves)[n].action == moves[n].action;
      StepsAreOthers(name, actor, ns, moves[n].action, w, w');
      SafeStepShared(name, actor, ns, moves[n].action, w, w');
    }
  }

  lemma NextHolds(name: string, moves: seq<Move>, n: nat)
    requires IsInterleaving(name, moves) && 0 < n < |moves|
    requires moves[n].actor.Some? ==> Safe(name, moves[n].actor.value, moves[n].action, moves[n - 1].world)
    requires SeenHolds(name, moves, n - 1)
    ensures SeenHolds(name, moves, n)
  {
    var w, w' := moves[n - 1].world, moves[n].world;
    assert MoveAt(name, moves, n);
    forall id: Id ensures Holds(name, id, Seen(name, id, View(id.namespace, moves)[..n + 1]), w') {
      var run := View(id.namespace, moves);
      var seen := Seen(name, id, run[..n]);
      assert run[..n + 1][..n] == run[..n];
      assert Holds(name, id, seen, w);
      if moves[n].actor == Some(id.namespace) {
        if !IsDelete(moves[n].action) {
          OwnStepHolds(name, id, moves[n].action, w, w', seen);
        }
      } else {
        OthersKeep(name, moves, n, id.namespace);
        SharedHolds(name, id, w, w', seen);
      }
    }
  }

  lemma {:induction false} Invariant(name: string, moves: seq<Move>, n: nat)
    requires IsInterleaving(name, moves) && n < |moves| && AllGuarded(name, moves[0].world) && Orderly(moves, n)
    ensures GuardedOrOpen(name, moves, n) && SeenHolds(name, moves, n)
  {
    if n == 0 {
      forall id: Id ensures Holds(name, id, Seen(name, id, View(id.namespace, moves)[..1]), moves[0].world) {
        var run := View(id.namespace, moves)[..1];
        assert run[..0] == [] && Seen(name, id, run[..0]) == 0;
      }
    } else {
      Invariant(name, moves, n - 1);
      if moves[n].actor.Some? {
        NextIsSafe(name, moves, n);
      }
      NextGuarded(name, moves, n);
      NextHolds(name, moves, n);
    }
  }

  lemma MoveIsSafe(name: string, moves: seq<Move>, i: nat)
    requires IsInterleaving(name, moves) && 0 < i < |moves| && AllGuarded(name, moves[0].world) && Orderly(moves, i)
    requires moves[i].actor.Some?
    ensures Safe(name, moves[i].actor.value, moves[i].action, moves[i - 1].world)
  {
    Invariant(name, moves, i - 1);
    NextIsSafe(name, moves, i);
  }

  // While the ConfigMap carries the labels of a Dataset, no reconcile for another
  // namespace makes, changes or deletes any object of that name in the rook namespace,
  // nor makes a DatasetInternal.
  lemma Exclusion(name: string, moves: seq<Move>, i: nat, owner: Id)
    requires IsInterleaving(name, moves) && 0 < i < |moves| && AllGuarded(name, moves[0].world) && Orderly(moves, i)
    requires LockHeld(name, owner, moves[i - 1].world)
    requires moves[i].actor.Some? && moves[i].actor.value != owner.namespace
    ensures var w, w' := moves[i - 1].world, moves[i].world;
            && w'.configMap == w.configMap && w'.store == w.store && w'.user == w.user && w'.userSecret == w.userSecret
            && w'.internals.Keys == w.internals.Keys
  {
    MoveIsSafe(name, moves, i);
    assert MoveAt(name, moves, i);
    ExclusionStep(name, moves[i].actor.value, moves[i].action, moves[i - 1].world, moves[i].world, owner);
  }

  lemma ExclusionStep(name: string, ns: string, a: Action, w: World, w': World, owner: Id)
    requires LockHeld(name, owner, w) && ns != owner.namespace
    requires a != ByOthers && Does(name, ns, a, w, w') && Safe(name, ns, a, w)
    ensures w'.configMap == w.configMap && w'.store == w.store && w'.user == w.user && w'.userSecret == w.userSecret
    ensures w'.internals.Keys == w.internals.Keys
  {
    assert ns in w.internals ==> w.internals.Keys + {ns} == w.internals.Keys;
  }

  // A store, a user or a DatasetInternal is made only for a Dataset whose labels the
  // ConfigMap carries at that moment.
  lemma MakesOnlyLocked(name: string, moves: seq<Move>, i: nat, ns: string)
    requires IsInterleaving(name, moves) && 0 < i < |moves| && AllGuarded(name, moves[0].world) && Orderly(moves, i)
    requires moves[i].actor == Some(ns)
    ensures var w, w' := moves[i - 1].world, moves[i].world;
            (w.store.None? && w'.store.Some?) || (w.user.None? && w'.user.Some?) || w'.internals.Keys > w.internals.Keys
            ==> exists uid :: LockHeld(name, Id(ns, uid), w)
  {
    MoveIsSafe(name, moves, i);
    assert MoveAt(name, moves, i);
    var w, w' := moves[i - 1].world, moves[i].world;
    match moves[i].action
    case CreateStore(uid) => assert LockHeld(name, Id(ns, uid), w);
    case CreateUser(uid) => assert LockHeld(name, Id(ns, uid), w);
    case CreateInternal(uid) => assert LockHeld(name, Id(ns, uid), w);
    case WritePlacements(_, _) => assert w'.internals.Keys == w.internals.Keys + {ns} == w.internals.Keys;
    case _ =>
  }

  // The deletes of a finalisation do not look at labels, and yet what they delete
  // carries the labels of the Dataset that is finalised.
  lemma DeletesOnlyOwn(name: string, moves: seq<Move>, i: nat, ns: string)
    requires IsInterleaving(name, moves) && 0 < i < |moves| && AllGuarded(name, moves[0].world) && Orderly(moves, i)
    requires moves[i].actor == Some(ns) && IsDelete(moves[i].action)
    ensures ns in moves[i - 1].world.datasets && Locked(name, IdOf(ns, moves[i - 1].world.datasets[ns]), moves[i - 1].world)
  {
    MoveIsSafe(name, moves, i);
  }

  // Step j resumes the finalisation in which the same namespace deleted the ConfigMap at
  // step m: the finalizer has not been removed in between.
  predicate Resumes(moves: seq<Move>, m: nat, j: nat) {
    && m < j < |moves| && moves[m].actor.Some? && moves[j].actor == moves[m].actor
    && moves[m].action == DeleteConfigMap && IsDelete(moves[j].action)
    && forall k :: m < k < j ==> moves[k].actor != moves[m].actor || moves[k].action != RemoveFinalizer
  }

  lemma {:induction false} OpenedAt(run: seq<Event>) returns (m: nat)
    requires Open(run)
    ensures m < |run| && run[m].action == DeleteConfigMap
    ensures forall k :: m < k < |run| ==> run[k].action != RemoveFinalizer
    decreases |run|
  {
    if run[|run| - 1].action.DeleteConfigMap? {
      m := |run| - 1;
    } else {
      m := OpenedAt(run[..|run| - 1]);
    }
  }

  // Where a delete does hit what belongs to somebody else, some finalisation was resumed
  // after it had deleted its ConfigMap and not removed its finalizer.
  lemma ForeignDeleteNeedsResumption(name: string, moves: seq<Move>, i: nat, ns: string)
    requires IsInterleaving(name, moves) && 0 < i < |moves| && AllGuarded(name, moves[0].world)
    requires moves[i].actor == Some(ns) && IsDelete(moves[i].action)
    requires ns in moves[i - 1].world.datasets ==> !Locked(name, IdOf(ns, moves[i - 1].world.datasets[ns]), moves[i - 1].world)
    ensures exists m, j: nat :: j <= i && Resumes(moves, m, j)
  {
    if Orderly(moves, i) {
      DeletesOnlyOwn(name, moves, i, ns);
    } else {
      var j: nat :| 0 < j <= i && !TidyMove(moves, j);
      var run := View(moves[j].actor.value, moves);
      var m := OpenedAt(run[..j]);
      assert run[m].action == DeleteConfigMap;
      forall k | m < k < j ensures moves[k].actor != moves[m].actor || moves[k].action != RemoveFinalizer {
        assert run[..j][k].action != RemoveFinalizer;
      }
      assert Resumes(moves, m, j);
    }
  }

  // A Dataset that carries the finalizer, and whose finalisation is not between its last
  // two writes, owns all that goes by its name; so there is at most one.
  lemma OneOwner(name: string, moves: seq<Move>, n: nat, a: string, b: string)
    requires IsInterleaving(name, moves) && n < |moves| && AllGuarded(name, moves[0].world) && Orderly(moves, n)
    requires Finalized(a, moves[n].world) && !Open(View(a, moves)[..n + 1])
    requires Finalized(b, moves[n].world) && !Open(View(b, moves)[..n + 1])
    ensures Locked(name, IdOf(a, moves[n].world.datasets[a]), moves[n].world)
    ensures a == b
  {
    Invariant(name, moves, n);
    assert Guarded(name, a, moves[n].world) && Guarded(name, b, moves[n].world);
  }

  // ---------------------------------------------------- where finalisation goes wrong

  predicate Leftover(w: World) {
    w.user.Some? || w.store.Some? || w.userSecret.Some? || w.configMap.Some?
  }

  // A finalisation reports success and leaves something behind exactly when the store
  // lookup fails after the user was found, or the ConfigMap lookup fails after the
  // Secret was found: the error it returns is that of the lookup before.
  lemma SwallowedError(w: World, fails: Lookups)
    ensures var (after, err) := Finalization(w, fails);
            err == Nil && Leftover(after) <==>
              && !fails.user
              && if fails.store then w.user.Some? && (w.store.Some? || w.userSecret.Some? || w.configMap.Some?)
                 else !fails.secret && fails.configMap && w.userSecret.Some? && w.configMap.Some?
  {
  }

  // -------------------------------------------------------------- handing over a name

  // What rook makes of a store and a user.
  datatype Rook = Rook(nodes: seq<string>, clusterIP: string, keys: Data)

  function Tend(rook: Rook, w: World): World {
    var w1 := if w.store.Some?
              then w.(store := Some(w.store.value.(phase := Some(CONNECTED))), rgwPods := rook.nodes,
                      service := Some(Service(false, rook.clusterIP)))
              else w;
    if w.user.Some? then w1.(userSecret := Some(rook.keys)) else w1
  }

  function Grow(name: string, ns: string, rook: Rook, w: World, n: nat): World
    decreases n
  {
    if n == 0 then w else Grow(name, ns, rook, Tend(rook, ReconcileCeph(name, ns, w)), n - 1)
  }

  predicate Wants(ns: string, w: World) {
    ns in w.datasets && !w.datasets[ns].deleting && ns !in w.internals && w.clusters > 0
  }

  predicate Free(w: World) { w.configMap.None? && w.store.None? && w.user.None? }

  // The Dataset has what it needs and is guarded by the finalizer.
  predicate Provisioned(name: string, ns: string, w: World) {
    && ns in w.internals && Finalized(ns, w) && !Marked(ns, w)
    && Locked(name, IdOf(ns, w.datasets[ns]), w) && w.store.Some? && w.user.Some?
  }

  // Four undisturbed reconciles, with rook at work in between, take a Dataset from a
  // free name to a DatasetInternal.
  lemma ProvisionCompletes(name: string, ns: string, rook: Rook, w: World)
    requires Wants(ns, w) && Free(w) && rook.nodes != []
    ensures Provisioned(name, ns, Grow(name, ns, rook, w, 4))
    ensures Grow(name, ns, rook, w, 4).datasets == 
              w.datasets[ns := w.datasets[ns].(finalizers := w.datasets[ns].finalizers + {FINALIZER})]
  {
    var id := IdOf(ns, w.datasets[ns]);
    LabelsIdentify(name, id, id);
    var w1 := Tend(rook, ReconcileCeph(name, ns, w));
    assert w1 == w.(configMap := Some(LabelsOf(name, id)));
    StoreGrows(name, ns, rook, w1, id);
  }

  lemma StoreGrows(name: string, ns: string, rook: Rook, w1: World, id: Id)
    requires Wants(ns, w1) && id == IdOf(ns, w1.datasets[ns]) && rook.nodes != []
    requires w1.configMap == Some(LabelsOf(name, id)) && w1.store.None? && w1.user.None?
    ensures Provisioned(name, ns, Grow(name, ns, rook, w1, 3))
    ensures Grow(name, ns, rook, w1, 3).datasets ==
              w1.datasets[ns := w1.datasets[ns].(finalizers := w1.datasets[ns].finalizers + {FINALIZER})]
  {
    LabelsIdentify(name, id, id);
    var w2 := Tend(rook, ReconcileCeph(name, ns, w1));
    assert OwnStore(name, id, w2);
    UserGrows(name, ns, rook, w2, id);
  }

  lemma UserGrows(name: string, ns: string, rook: Rook, w2: World, id: Id)
    requires Wants(ns, w2) && id == IdOf(ns, w2.datasets[ns]) && LockHeld(name, id, w2)
    requires StoreReady(name, id, w2) && w2.user.None? && w2.service == Some(Service(false, rook.clusterIP)) && rook.nodes != []
    ensures Provisioned(name, ns, Grow(name, ns, rook, w2, 2))
    ensures Grow(name, ns, rook, w2, 2).datasets ==
              w2.datasets[ns := w2.datasets[ns].(finalizers := w2.datasets[ns].finalizers + {FINALIZER})]
  {
    LabelsIdentify(name, id, id);
    var w3 := Tend(rook, ReconcileCeph(name, ns, w2));
    assert OwnUser(name, id, w3);
    var w4 := Tend(rook, ReconcileCeph(name, ns, w3));
    assert Provisioned(name, ns, w4);
    assert Grow(name, ns, rook, w2, 2) == Grow(name, ns, rook, w3, 1) == Grow(name, ns, rook, w4, 0) == w4;
  }

  // The DatasetInternal made for the gateway is one the COS path accepts, with the keys
  // that rook made for the user.
  lemma InternalIsCos(d: Dataset, secret: Data, service: Service, id: I.Id, secrets: map<string, K.Secret>)
    ensures var made := NewInternal(d, secret, service);
            var di := K.Internal(made.local, "", made.labels, {}, false);
            && I.IsCos(di)
            && I.Credentials(id, di.local, secrets) == Some(I.Keys(Get(secret, "AccessKey"), Get(secret, "SecretKey")))
            && Get(di.local, "endpoint") == "http://" + service.clusterIP
            && Get(di.local, "bucket") == Get(d.local, "bucket")
            && Get(di.local, "provision") == Get(d.local, "provision")
            && Get(di.local, "region") == Get(d.local, "region")
            && di.labels - {"dlf-plugin-type", "dlf-plugin-name"} == d.labels - {"dlf-plugin-type", "dlf-plugin-name"}
            && D.HasCachingAnnotations(di.labels) && di.labels[D.PLUGIN_NAME] == PLUGIN
  {
  }

  // An undisturbed reconcile makes a DatasetInternal exactly when there is a cluster, the
  // ConfigMap, the store and the user carry the labels of the Dataset, the store is
  // connected and has a gateway pod, and rook has made the user's Secret and a service
  // that does not belong to another store.
  lemma MadeWhenReady(name: string, ns: string, w: World)
    requires ns in w.datasets && ns !in w.internals
    ensures var d := w.datasets[ns];
            var id := IdOf(ns, d);
            var w' := ReconcileCeph(name, ns, w);
            && (ns in w'.internals <==>
                  && !d.deleting && w.clusters > 0
                  && w.configMap.Some? && IsSameCephObject(w.configMap.value, name, id)
                  && w.store.Some? && IsSameCephObject(w.store.value.labels, name, id)
                  && w.store.value.phase == Some("Connected") && w.rgwPods != []
                  && w.user.Some? && IsSameCephObject(w.user.value, name, id)
                  && w.userSecret.Some? && w.service.Some? && !w.service.value.foreign)
            && (ns in w'.internals ==>
                  ns in w'.datasets && w'.datasets[ns] == d.(finalizers := d.finalizers + {"hpsys.ibm.ie.com"}))
  {
  }

  // A finalisation that ends hands the name over: another Dataset then gets it and keeps
  // it when the first is reconciled again.
  lemma Handover(name: string, a: string, b: string, rook: Rook, w: World)
    requires a != b && Finalized(a, w) && Marked(a, w) && Wants(b, w) && rook.nodes != []
    ensures var done := Grow(name, b, rook, ReconcileCeph(name, a, w), 4);
            && Provisioned(name, b, done) && !Finalized(a, done)
            && (Marked(a, done) ==> ReconcileCeph(name, a, done) == done)
  {
    ProvisionCompletes(name, b, rook, ReconcileCeph(name, a, w));
  }

  // But when removing the finalizer, the very last write, fails after another Dataset
  // has taken the name, the repeated finalisation takes all from it.
  lemma LostUpdate(name: string, a: string, b: string, rook: Rook, w: World)
    requires a != b && Finalized(a, w) && Marked(a, w) && Wants(b, w) && rook.nodes != []
    ensures var stopped := Finalization(w, AllAnswer).0;
            var grown := Grow(name, b, rook, stopped, 4);
            var after := ReconcileCeph(name, a, grown);
            && !Guarded(name, a, stopped)
            && Provisioned(name, b, grown)
            && after.configMap.None? && after.store.None? && after.user.None? && !Guarded(name, b, after)
  {
    var stopped := Finalization(w, AllAnswer).0;
    ProvisionCompletes(name, b, rook, stopped);
    assert stopped.datasets == w.datasets;
    Emptied(name, a, Grow(name, b, rook, stopped, 4));
  }

  lemma Emptied(name: string, ns: string, w: World)
    requires Finalized(ns, w) && Marked(ns, w)
    ensures var after := ReconcileCeph(name, ns, w);
            && Free(after)
            && forall other :: other != ns ==> (Finalized(other, after) <==> Finalized(other, w))
  {
  }

  // ---------------------------------------------------------------- cache placements

  predicate AllOrNothing(ns: string, w: World) {
    ns in w.internals ==> (w.internals[ns].gateways == [] <==> w.internals[ns].dataLocations == [])
  }

  predicate Placed(ns: string, w: World) {
    ns in w.internals && w.internals[ns].gateways != [] && w.internals[ns].dataLocations != []
  }

  lemma {:induction false} PlacementsAllOrNothing(name: string, ns: string, run: seq<Event>, i: nat)
    requires IsRun(name, ns, run) && i < |run| && AllOrNothing(ns, run[0].world)
    ensures AllOrNothing(ns, run[i].world)
  {
    if i > 0 {
      PlacementsAllOrNothing(name, ns, run, i - 1);
      assert StepAt(name, ns, run, i);
    }
  }

  // Placements once written stay as they are, as long as the DatasetInternal is not made
  // anew.
  lemma {:induction false} PlacementsStay(name: string, ns: string, run: seq<Event>, i: nat, j: nat)
    requires IsRun(name, ns, run) && i <= j < |run| && Placed(ns, run[i].world)
    requires forall k :: i <= k <= j ==> Placed(ns, run[k].world)
    ensures Placed(ns, run[j].world) && run[j].world.internals[ns].gateways == run[i].world.internals[ns].gateways
    ensures run[j].world.internals[ns].dataLocations == run[i].world.internals[ns].dataLocations
    decreases j - i
  {
    if i < j {
      PlacementsStay(name, ns, run, i, j - 1);
      assert StepAt(name, ns, run, j);
    }
  }

  // They can only come to nothing by others, ...
  lemma OnlyOthersReset(name: string, ns: string, run: seq<Event>, i: nat)
    requires IsRun(name, ns, run) && 0 < i < |run| && Placed(ns, run[i - 1].world) && !Placed(ns, run[i].world)
    ensures run[i].action == ByOthers
  {
    assert StepAt(name, ns, run, i);
  }

  // An undisturbed reconcile of a Dataset that is annotated with the plugin fills in
  // missing placements when there are gateway and osd pods, and touches nothing else; it
  // leaves alone those that are there and those of other plugins' Datasets.
  lemma PlacementsFilledIn(name: string, ns: string, w: World)
    requires ns in w.datasets && !w.datasets[ns].deleting && ns in w.internals && AllOrNothing(ns, w)
    ensures var w' := ReconcileCeph(name, ns, w);
            if w.datasets[ns].plugin == "ceph-cache-plugin" && !Placed(ns, w) && w.rgwPods != [] && w.osdPods != [] then
              && ns in w'.internals && w' == w.(internals := w.internals[ns := w'.internals[ns]])
              && var di := w'.internals[ns];
              && |di.gateways| == |w.rgwPods| && |di.dataLocations| == |w.osdPods|
              && (forall k :: 0 <= k < |w.rgwPods| ==> di.gateways[k] == Placement("kubernetes.io/hostname", w.rgwPods[k]))
              && (forall k :: 0 <= k < |w.osdPods| ==> di.dataLocations[k] == Placement("kubernetes.io/hostname", w.osdPods[k]))
            else w' == w
  {
    var di := w.internals[ns];
    if di.gateways == [] && di.dataLocations == [] {
      assert di.gateways + PlacementsOf(w.rgwPods) == PlacementsOf(w.rgwPods);
      assert di.dataLocations + PlacementsOf(w.osdPods) == PlacementsOf(w.osdPods);
    }
  }

  // ... and they come from the plugin alone, which writes one entry for each gateway pod
  // and each osd pod of two lists that it was given before.
  lemma PlacementsMatchPods(name: string, ns: string, run: seq<Event>, i: nat)
    requires IsRun(name, ns, run) && 0 < i < |run| && !Placed(ns, run[i - 1].world) && Placed(ns, run[i].world)
    ensures run[i].action.WritePlacements?
    ensures var rgw, osd := run[i].action.rgw, run[i].action.osd;
            var di := run[i].world.internals[ns];
            && RgwListed(run[..i], rgw) && OsdListed(run[..i], osd) && rgw != [] && osd != []
            && |di.gateways| == |rgw| && (forall k :: 0 <= k < |rgw| ==> di.gateways[k] == Placement(HOSTNAME, rgw[k]))
            && |di.dataLocations| == |osd| && (forall k :: 0 <= k < |osd| ==> di.dataLocations[k] == Placement(HOSTNAME, osd[k]))
  {
    assert StepAt(name, ns, run, i);
  }
}

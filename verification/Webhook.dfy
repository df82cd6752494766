// The admission handler from labels to response, and what it promises as a whole.
module Webhook {
  import opened GoText
  import opened PodPatch
  import opened DatasetLabels
  import opened LabelTheorems
  import opened DatasetPatch
  import opened PatchTheorems
  import opened InjectionTheorems
  import opened EnvironmentTheorems

  type Store = map<string, map<string, string>>

  // The API server keeps no object with an empty name or an underscore in its name.
  predicate KubeNames(store: Store) {
    forall name <- store :: name != "" && PlainName(name)
  }

  datatype Response = Allowed | Errored | Patched(ops: seq<Op>)

  // `order` is how Go iterates over the labels, `o` how it iterates over the configs.
  ghost function Admit(pod: Pod, order: seq<string>, store: Store, unreachable: set<string>, o: Orders): Response
    requires forall k <- order :: k in pod.labels
    requires |o.init| == |pod.initContainers| && |o.main| == |pod.containers|
  {
    match ParseLabels(pod.labels, order)
    case None => Errored
    case Some(p) =>
      if !AllFound(p.requests, store, unreachable) then Errored
      else Answer(Compile(pod, InIndexOrder(Resolved(p.requests, store)), o))
  }

  function Answer(patch: Option<seq<Op>>): Response {
    match patch
    case None => Errored
    case Some(ops) => if ops == [] then Allowed else Patched(ops)
  }

  ghost function PlanFor(pod: Pod, order: seq<string>, store: Store): Option<Plan>
    requires forall k <- order :: k in pod.labels
  {
    match ParseLabels(pod.labels, order)
    case None => None
    case Some(p) => PlanAll(InIndexOrder(Resolved(p.requests, store)), ClaimedBy(Items(pod.volumes)))
  }

  ghost predicate Iterates(pod: Pod, order: seq<string>, store: Store, o: Orders) {
    && IsIteration(order, pod.labels)
    && |o.init| == |pod.initContainers| && |o.main| == |pod.containers|
    && (PlanFor(pod, order, store).Some? ==> ValidOrders(pod, PlanFor(pod, order, store).value.configs, o))
  }

  method Handle(create: bool, pod: Pod, order: seq<string>, store: Store, unreachable: set<string>, o: Orders)
    returns (response: Response)
    requires Iterates(pod, order, store, o)
    ensures response == if create then Admit(pod, order, store, unreachable, o) else Allowed
  {
    if !create {
      return Allowed;
    }
    var datasetInputs := DatasetInputFromPod(pod.labels, order);
    if datasetInputs.None? {
      return Errored;
    }
    var datasets := datasetInputs.value;
    // The lookups do not depend on the order they are made in.
    var ok := RetrieveDatasets(datasets, SortedKeys(datasets.Keys), store, unreachable, Views(datasets));
    if !ok {
      return Errored;
    }
    var patchops := PatchPodWithDatasetLabels(pod, datasets, o, Views(datasets));
    if patchops.None? {
      return Errored;
    }
    if |patchops.value| == 0 {
      return Allowed;
    }
    return Patched(patchops.value);
  }

  // The webhook is registered to be invoked again when later webhooks change the pod.
  // On its own result it has nothing left to do, in whatever order Go iterates then.
  lemma WebhookIdempotent(pod: Pod, store: Store, unreachable: set<string>,
                          order: seq<string>, o: Orders, pod': Pod, order': seq<string>, o': Orders)
    requires Settled(pod.labels) && Iterates(pod, order, store, o)
    requires Admit(pod, order, store, unreachable, o).Patched?
    requires ApplyAll(pod, Admit(pod, order, store, unreachable, o).ops) == Some(pod')
    requires IsIteration(order', pod.labels) && ValidOrders(pod, PlanFor(pod, order, store).value.configs, o')
    ensures pod'.labels == pod.labels
    ensures |pod'.initContainers| == |pod.initContainers| && |pod'.containers| == |pod.containers|
    ensures Admit(pod', order', store, unreachable, o') == Allowed
  {
    var p := ParseLabels(pod.labels, order).value;
    var requests := InIndexOrder(Resolved(p.requests, store));
    var plan := PlanFor(pod, order, store).value;
    PatchCorrect(pod, plan, o);
    Confluence(pod.labels, order, order');
    Reinvocation(pod, requests, plan, o, pod', o');
  }

  ghost predicate SameVariablesIn(a: seq<Container>, b: seq<Container>) {
    forall objects: Objects, i: nat, variable: string :: i < |a| && i < |b| ==>
      Lookup(objects, Items(a[i].envFrom), variable) == Lookup(objects, Items(b[i].envFrom), variable)
  }

  ghost predicate SameMounts(a: seq<Container>, b: seq<Container>) {
    |a| == |b| && forall i :: 0 <= i < |a| ==> a[i].name == b[i].name && a[i].volumeMounts == b[i].volumeMounts
  }

  ghost predicate SameOutcome(a: Pod, b: Pod) {
    && a.volumes == b.volumes
    && SameMounts(a.initContainers, b.initContainers) && SameMounts(a.containers, b.containers)
    && SameVariablesIn(a.initContainers, b.initContainers) && SameVariablesIn(a.containers, b.containers)
  }

  lemma {:induction false} PlannedNames(requests: seq<Request>, claimed: set<string>, names: set<string>)
    requires forall r <- requests :: r.name in names
    ensures PlanAll(requests, claimed).Some? ==> forall d <- PlanAll(requests, claimed).value.configs :: d in names
  {
    if requests != [] && PlanAll(requests, claimed).Some? {
      var front, r := requests[..|requests| - 1], requests[|requests| - 1];
      PlannedNames(front, claimed, names);
      PlannedUses(PlanAll(front, claimed).value, r, r.uses, claimed, names);
    }
  }

  lemma {:induction false} PlannedUses(plan: Plan, r: Request, uses: seq<string>, claimed: set<string>, names: set<string>)
    requires r.name in names && (forall d <- plan.configs :: d in names) && PlanUses(plan, r, uses, claimed).Some?
    ensures forall d <- PlanUses(plan, r, uses, claimed).value.configs :: d in names
  {
    if uses != [] {
      PlannedUses(plan, r, uses[..|uses| - 1], claimed, names);
    }
  }

  // Every dataset was found on the API server, so all names are plain.
  lemma PlanIsPlain(pod: Pod, order: seq<string>, store: Store, unreachable: set<string>)
    requires (forall k <- order :: k in pod.labels) && KubeNames(store) && PlanFor(pod, order, store).Some?
    requires AllFound(ParseLabels(pod.labels, order).value.requests, store, unreachable)
    ensures AllPlain(PlanFor(pod, order, store).value.configs)
  {
    var requests := InIndexOrder(Resolved(ParseLabels(pod.labels, order).value.requests, store));
    forall r | r in requests ensures r.name in store.Keys {
      var n :| 0 <= n < |requests| && requests[n] == r;
      ResolvedIsFound(ParseLabels(pod.labels, order).value.requests, store, unreachable, n);
    }
    PlannedNames(requests, ClaimedBy(Items(pod.volumes)), store.Keys);
  }

  lemma ResolvedIsFound(requests: map<Int64, Request>, store: Store, unreachable: set<string>, n: nat)
    requires AllFound(requests, store, unreachable) && n < |InIndexOrder(Resolved(requests, store))|
    ensures InIndexOrder(Resolved(requests, store))[n].name in store
  {
    var keys := SortedKeys(Resolved(requests, store).Keys);
    assert keys[n] in keys;
    assert Found(requests[keys[n]], store, unreachable);
  }

  lemma SameVariables(cs: seq<Container>, plan: Plan, orders: seq<seq<nat>>, orders': seq<seq<nat>>)
    requires |orders| == |orders'| == |cs| && AllPlain(plan.configs)
    requires forall j :: 0 <= j < |orders| ==> Visits(orders[j], |plan.configs|) && Visits(orders'[j], |plan.configs|)
    ensures SameVariablesIn(InjectContainers(cs, plan, orders), InjectContainers(cs, plan, orders'))
  {
    var a, b := InjectContainers(cs, plan, orders), InjectContainers(cs, plan, orders');
    forall objects: Objects, i: nat, variable: string | i < |a| && i < |b|
      ensures Lookup(objects, Items(a[i].envFrom), variable) == Lookup(objects, Items(b[i].envFrom), variable)
    {
      EffectiveEnvironment(objects, cs, plan, orders, i, variable);
      EffectiveEnvironment(objects, cs, plan, orders', i, variable);
    }
  }

  lemma SameInjection(pod: Pod, plan: Plan, o: Orders, o': Orders)
    requires ValidOrders(pod, plan.configs, o) && ValidOrders(pod, plan.configs, o') && AllPlain(plan.configs)
    ensures SameOutcome(Inject(pod, plan, o), Inject(pod, plan, o'))
  {
    SameVariables(pod.initContainers, plan, o.init, o'.init);
    SameVariables(pod.containers, plan, o.main, o'.main);
  }

  // An empty patch is empty for every order.
  lemma SameNeed(pod: Pod, requests: seq<Request>, plan: Plan, o: Orders, o': Orders)
    requires PlanAll(requests, ClaimedBy(Items(pod.volumes))) == Some(plan)
    requires ValidOrders(pod, plan.configs, o) && ValidOrders(pod, plan.configs, o')
    ensures Compile(pod, requests, o) == Some([]) <==> Compile(pod, requests, o') == Some([])
    ensures Answer(Compile(pod, requests, o)).Errored? <==> Answer(Compile(pod, requests, o')).Errored?
    ensures Answer(Compile(pod, requests, o)).Allowed? <==> Answer(Compile(pod, requests, o')).Allowed?
  {
    if Compile(pod, requests, o) == Some([]) {
      Reinvocation(pod, requests, plan, o, pod, o');
    }
    if Compile(pod, requests, o') == Some([]) {
      Reinvocation(pod, requests, plan, o', pod, o);
    }
  }

  lemma SameParseSameKind(pod: Pod, store: Store, unreachable: set<string>,
                          order: seq<string>, o: Orders, order': seq<string>, o': Orders)
    requires Iterates(pod, order, store, o) && Iterates(pod, order', store, o')
    requires ParseLabels(pod.labels, order) == ParseLabels(pod.labels, order')
    ensures var r, r' := Admit(pod, order, store, unreachable, o), Admit(pod, order', store, unreachable, o');
            (r.Errored? <==> r'.Errored?) && (r.Allowed? <==> r'.Allowed?)
    ensures PlanFor(pod, order, store) == PlanFor(pod, order', store)
  {
    if PlanFor(pod, order, store).Some? {
      var requests := InIndexOrder(Resolved(ParseLabels(pod.labels, order).value.requests, store));
      SameNeed(pod, requests, PlanFor(pod, order, store).value, o, o');
    }
  }

  // Two invocations on one pod give the same kind of response ...
  lemma WebhookOrderIndependent(pod: Pod, store: Store, unreachable: set<string>,
                                order: seq<string>, o: Orders, order': seq<string>, o': Orders)
    requires Settled(pod.labels) && Iterates(pod, order, store, o) && Iterates(pod, order', store, o')
    ensures var r, r' := Admit(pod, order, store, unreachable, o), Admit(pod, order', store, unreachable, o');
            (r.Errored? <==> r'.Errored?) && (r.Allowed? <==> r'.Allowed?)
    ensures PlanFor(pod, order, store) == PlanFor(pod, order', store)
  {
    Confluence(pod.labels, order, order');
    SameParseSameKind(pod, store, unreachable, order, o, order', o');
  }

  // ... and, where they patch, both patches apply or neither does, and the patched pods
  // agree on volumes, on mounts and on the value of every variable.
  lemma WebhookOutcome(pod: Pod, store: Store, unreachable: set<string>,
                       order: seq<string>, o: Orders, order': seq<string>, o': Orders)
    requires KubeNames(store) && Settled(pod.labels) && Iterates(pod, order, store, o) && Iterates(pod, order', store, o')
    requires Admit(pod, order, store, unreachable, o).Patched? && Admit(pod, order', store, unreachable, o').Patched?
    ensures var a := ApplyAll(pod, Admit(pod, order, store, unreachable, o).ops);
            var b := ApplyAll(pod, Admit(pod, order', store, unreachable, o').ops);
            && (a.Some? <==> b.Some?)
            && (a.Some? ==> SameOutcome(a.value, b.value))
  {
    Confluence(pod.labels, order, order');
    var plan := PlanFor(pod, order, store).value;
    PlanIsPlain(pod, order, store, unreachable);
    PatchCorrect(pod, plan, o);
    PatchCorrect(pod, plan, o');
    SameInjection(pod, plan, o, o');
  }

  // In a patched pod each variable of each container has the value it has when every
  // planned dataset is injected once.
  lemma PatchedEnvironment(pod: Pod, store: Store, unreachable: set<string>, order: seq<string>, o: Orders,
                           pod': Pod, kind: Kind, i: nat, objects: Objects, variable: string)
    requires KubeNames(store) && Iterates(pod, order, store, o)
    requires Admit(pod, order, store, unreachable, o).Patched?
    requires ApplyAll(pod, Admit(pod, order, store, unreachable, o).ops) == Some(pod')
    requires i < |pod.Containers(kind)|
    ensures i < |pod'.Containers(kind)|
    ensures Lookup(objects, Items(pod'.Containers(kind)[i].envFrom), variable) ==
            Lookup(objects, EnvOnce(pod.Containers(kind)[i], PlanFor(pod, order, store).value.configs), variable)
  {
    var plan := PlanFor(pod, order, store).value;
    PlanIsPlain(pod, order, store, unreachable);
    PatchCorrect(pod, plan, o);
    EffectiveEnvironment(objects, pod.Containers(kind), plan, if kind.Init? then o.init else o.main, i, variable);
  }
}

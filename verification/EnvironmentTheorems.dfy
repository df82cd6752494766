// The variables a container receives through envFrom.  Later sources override earlier
// ones, and dataset names, like all Kubernetes names, contain no underscore.
module EnvironmentTheorems {
  import opened GoText
  import opened PodPatch
  import opened DatasetLabels
  import opened LabelTheorems
  import opened DatasetPatch
  import opened PatchTheorems
  import opened InjectionTheorems

  type Data = map<string, string>

  // The ConfigMaps and Secrets of the pod's namespace.
  datatype Objects = Objects(configMaps: map<string, Data>, secrets: map<string, Data>)

  function Find(objects: map<string, Data>, name: Option<string>, key: string): Option<string> {
    if name.Some? && name.value in objects && key in objects[name.value] then Some(objects[name.value][key]) else None
  }

  // The value one source gives to a variable: its key is the variable less the prefix.
  function Provides(o: Objects, e: EnvSource, variable: string): Option<string> {
    if !(e.prefix <= variable) then None
    else
      var key := variable[|e.prefix|..];
      match Find(o.secrets, e.secretRef, key)
      case Some(v) => Some(v)
      case None => Find(o.configMaps, e.configMapRef, key)
  }

  function Lookup(o: Objects, sources: seq<EnvSource>, variable: string): Option<string> {
    if sources == [] then None
    else
      match Provides(o, sources[|sources| - 1], variable)
      case Some(v) => Some(v)
      case None => Lookup(o, sources[..|sources| - 1], variable)
  }

  lemma {:induction false} LookupAppend(o: Objects, a: seq<EnvSource>, b: seq<EnvSource>, variable: string)
    ensures Lookup(o, a + b, variable) ==
            match Lookup(o, b, variable) case Some(v) => Some(v) case None => Lookup(o, a, variable)
  {
    if b == [] {
      assert a + b == a;
    } else {
      LookupAppend(o, a, b[..|b| - 1], variable);
      assert (a + b)[..|a + b| - 1] == a + b[..|b| - 1];
    }
  }

  // What the ConfigMap and Secret of dataset d, both prefixed "d_", give to a variable:
  // the Secret comes second, so it wins.
  function FromDataset(o: Objects, d: string, variable: string): Option<string> {
    match Provides(o, SecretSource(d), variable)
    case Some(v) => Some(v)
    case None => Provides(o, ConfigMapSource(d), variable)
  }

  predicate PlainName(d: string) { '_' !in d }

  // The prefix of a variable names at most one dataset.
  lemma PrefixNamesOne(d: string, e: string, variable: string)
    requires PlainName(d) && PlainName(e)
    requires d + "_" <= variable && e + "_" <= variable
    ensures d == e
  {
    assert (d + "_")[|d|] == variable[|d|] && (e + "_")[|e|] == variable[|e|];
    assert (d + "_")[..|d|] == d == variable[..|d|];
    assert (e + "_")[..|e|] == e == variable[..|e|];
  }

  lemma FromDatasetUnique(o: Objects, d: string, e: string, variable: string)
    requires PlainName(d) && PlainName(e)
    requires FromDataset(o, d, variable).Some? && FromDataset(o, e, variable).Some?
    ensures d == e
  {
    PrefixNamesOne(d, e, variable);
  }

  ghost predicate AllPlain(names: seq<string>) {
    forall d <- names :: PlainName(d)
  }

  lemma LookupPair(o: Objects, d: string, variable: string)
    ensures Lookup(o, [ConfigMapSource(d), SecretSource(d)], variable) == FromDataset(o, d, variable)
  {
    var one, two := [ConfigMapSource(d)], [ConfigMapSource(d), SecretSource(d)];
    assert one[..0] == [] && two[..1] == one;
    assert Lookup(o, one, variable) == Provides(o, ConfigMapSource(d), variable);
  }

  // Any number of copies of the sources of some datasets, in any order, gives each
  // variable the value of the one dataset whose prefix it has.
  lemma {:induction false} LookupSources(o: Objects, names: seq<string>, d: string, variable: string)
    requires AllPlain(names)
    ensures d in names && FromDataset(o, d, variable).Some? ==>
              Lookup(o, SourcesFor(names), variable) == FromDataset(o, d, variable)
    ensures (forall e <- names :: FromDataset(o, e, variable).None?) ==>
              Lookup(o, SourcesFor(names), variable) == None
  {
    if names != [] {
      var front, last := names[..|names| - 1], names[|names| - 1];
      LookupSources(o, front, d, variable);
      assert names == front + [last];
      LookupAppend(o, SourcesFor(front), [ConfigMapSource(last), SecretSource(last)], variable);
      LookupPair(o, last, variable);
      if d in names && FromDataset(o, d, variable).Some? && FromDataset(o, last, variable).Some? {
        FromDatasetUnique(o, d, last, variable);
      }
    }
  }

  // Only WHICH datasets are named matters, not how often or in which order.
  lemma SameNamesSameEnv(o: Objects, a: seq<string>, b: seq<string>, variable: string)
    requires AllPlain(a) && AllPlain(b)
    requires forall d :: d in a <==> d in b
    ensures Lookup(o, SourcesFor(a), variable) == Lookup(o, SourcesFor(b), variable)
  {
    if d :| d in a && FromDataset(o, d, variable).Some? {
      LookupSources(o, a, d, variable);
      LookupSources(o, b, d, variable);
    } else {
      LookupSources(o, a, "", variable);
      LookupSources(o, b, "", variable);
    }
  }

  // ------------------------------------------------------------ the accumulated list

  function NamesUpTo(cs: seq<Container>, orders: seq<seq<string>>): seq<string>
    requires |orders| == |cs|
  {
    if cs == [] then []
    else
      var n := |cs| - 1;
      NamesUpTo(cs[..n], orders[..n]) + if HasEnv(cs[n]) then [] else orders[n]
  }

  lemma {:induction false} SourcesAppend(a: seq<string>, b: seq<string>)
    ensures SourcesFor(a + b) == SourcesFor(a) + SourcesFor(b)
  {
    if b == [] {
      assert a + b == a;
    } else {
      SourcesAppend(a, b[..|b| - 1]);
      assert (a + b)[..|a + b| - 1] == a + b[..|b| - 1];
    }
  }

  lemma {:induction false} AccumulatedSources(cs: seq<Container>, orders: seq<seq<string>>)
    requires |orders| == |cs|
    ensures Accumulated(cs, orders) == SourcesFor(NamesUpTo(cs, orders))
    ensures forall d <- NamesUpTo(cs, orders) :: exists order <- orders :: d in order
  {
    if cs != [] {
      var n := |cs| - 1;
      AccumulatedSources(cs[..n], orders[..n]);
      SourcesAppend(NamesUpTo(cs[..n], orders[..n]), if HasEnv(cs[n]) then [] else orders[n]);
      forall d | d in NamesUpTo(cs, orders) ensures exists order <- orders :: d in order {
        if d in NamesUpTo(cs[..n], orders[..n]) {
          var order :| order in orders[..n] && d in order;
          assert order in orders;
        } else {
          assert orders[n] in orders;
        }
      }
    }
  }

  // ----------------------------------------------------------------- the environment

  // The declarative environment: the container's own sources, then every dataset that
  // they do not refer to, injected once.
  function EnvOnce(c: Container, configs: seq<string>): seq<EnvSource> {
    Items(c.envFrom) + SourcesFor(Unreferred(configs, Items(c.envFrom)))
  }

  lemma EnvWithOwn(o: Objects, cs: seq<Container>, configs: seq<string>, orders: seq<seq<nat>>, i: nat, variable: string)
    requires i < |cs| == |orders| && AllPlain(configs) && HasEnv(cs[i])
    requires Visits(orders[i], |configs|)
    ensures Lookup(o, EnvTarget(cs, NamedAll(configs, orders), i).value, variable) ==
            Lookup(o, EnvOnce(cs[i], configs), variable)
  {
    var names, existing := Named(configs, orders[i]), cs[i].envFrom.value;
    var a, b := Unreferred(names, existing), Unreferred(configs, existing);
    forall d ensures d in a <==> d in b {
      NamedCovers(configs, orders[i], d);
      UnreferredExact(names, existing, d);
      UnreferredExact(configs, existing, d);
    }
    forall d | d in b ensures PlainName(d) {
      UnreferredExact(configs, existing, d);
    }
    SameNamesSameEnv(o, a, b, variable);
    LookupAppend(o, existing, SourcesFor(a), variable);
    LookupAppend(o, existing, SourcesFor(b), variable);
  }

  // The accumulated list names exactly the configs.
  lemma AccumulatedNames(cs: seq<Container>, configs: seq<string>, orders: seq<seq<nat>>, i: nat, d: string)
    requires i < |cs| == |orders| && !HasEnv(cs[i])
    requires forall j :: 0 <= j < |orders| ==> Visits(orders[j], |configs|)
    ensures d in NamesUpTo(cs[..i + 1], NamedAll(configs, orders)[..i + 1]) <==> d in configs
  {
    var ds, upTo := cs[..i + 1], NamedAll(configs, orders)[..i + 1];
    AccumulatedSources(ds, upTo);
    if d in NamesUpTo(ds, upTo) {
      var order :| order in upTo && d in order;
      var j :| 0 <= j < |upTo| && upTo[j] == order;
      NamedCovers(configs, orders[j], d);
    }
    if d in configs {
      NamedCovers(configs, orders[i], d);
      assert d in upTo[i] && ds[i] == cs[i];
    }
  }

  lemma AccumulatedEnv(o: Objects, cs: seq<Container>, configs: seq<string>, orders: seq<seq<nat>>, i: nat, variable: string)
    requires i < |cs| == |orders| && AllPlain(configs) && !HasEnv(cs[i])
    requires forall j :: 0 <= j < |orders| ==> Visits(orders[j], |configs|)
    ensures Lookup(o, Accumulated(cs[..i + 1], NamedAll(configs, orders)[..i + 1]), variable) ==
            Lookup(o, SourcesFor(configs), variable)
  {
    var ds, upTo := cs[..i + 1], NamedAll(configs, orders)[..i + 1];
    AccumulatedSources(ds, upTo);
    forall d ensures d in NamesUpTo(ds, upTo) <==> d in configs {
      AccumulatedNames(cs, configs, orders, i, d);
    }
    SameNamesSameEnv(o, NamesUpTo(ds, upTo), configs, variable);
  }

  lemma {:induction false} NoneReferred(configs: seq<string>)
    ensures Unreferred(configs, []) == configs
  {
    if configs != [] {
      NoneReferred(configs[..|configs| - 1]);
      assert !Refers([], configs[|configs| - 1]);
    }
  }

  lemma EnvWithoutOwn(o: Objects, cs: seq<Container>, configs: seq<string>, orders: seq<seq<nat>>, i: nat, variable: string)
    requires i < |cs| == |orders| && AllPlain(configs) && !HasEnv(cs[i])
    requires forall j :: 0 <= j < |orders| ==> Visits(orders[j], |configs|)
    ensures Lookup(o, EnvTarget(cs, NamedAll(configs, orders), i).value, variable) ==
            Lookup(o, EnvOnce(cs[i], configs), variable)
  {
    AccumulatedEnv(o, cs, configs, orders, i, variable);
    NoneReferred(configs);
    assert [] + SourcesFor(configs) == SourcesFor(configs);
  }

  // Whatever order Go visits the configs in for each container, and however many copies
  // the shared `values` list has gathered, every variable has the value it would have if
  // each dataset were injected once, in index order.
  lemma EffectiveEnvironment(o: Objects, cs: seq<Container>, plan: Plan, orders: seq<seq<nat>>, i: nat, variable: string)
    requires i < |cs| == |orders| && AllPlain(plan.configs)
    requires forall j :: 0 <= j < |orders| ==> Visits(orders[j], |plan.configs|)
    ensures Lookup(o, Items(InjectContainers(cs, plan, orders)[i].envFrom), variable) ==
            Lookup(o, EnvOnce(cs[i], plan.configs), variable)
  {
    if plan.configs == [] {
      assert Items(cs[i].envFrom) + [] == Items(cs[i].envFrom);
    } else if HasEnv(cs[i]) {
      EnvWithOwn(o, cs, plan.configs, orders, i, variable);
    } else {
      EnvWithoutOwn(o, cs, plan.configs, orders, i, variable);
    }
  }
}

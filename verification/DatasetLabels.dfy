// Reading dataset requests from pod labels: DatasetInputFromPod and
// RetrieveDatasetsFromAPIServer of the admission controller.
module DatasetLabels {
  import opened GoText

  const PREFIX_LABELS := "dataset."
  const LABEL_SEPARATOR := '.'

  // The value held by a DatasetInput; `local` is Spec.Local of its Dataset resource.
  datatype Request = Request(name: string, uses: seq<string>, local: map<string, string>)

  const NoRequest := Request("", [], map[])

  class DatasetInput {
    var name: string
    var useasLabels: seq<string>
    var local: map<string, string>

    ghost function View(): Request
      reads this
    {
      Request(name, useasLabels, local)
    }

    constructor ()
      ensures View() == NoRequest
    {
      name, useasLabels, local := "", [], map[];
    }

    method SetName(name: string)
      modifies this
      ensures View() == old(View()).(name := name)
    {
      this.name := name;
    }

    method AddToRequestedUse(useas: string)
      modifies this
      ensures View() == old(View()).(uses := old(useasLabels) + [useas])
    {
      useasLabels := useasLabels + [useas];
    }
  }

  ghost function Views(m: map<Int64, DatasetInput>): map<Int64, Request>
    reads m.Values
  {
    map i | i in m :: m[i].View()
  }

  ghost predicate Separate(m: map<Int64, DatasetInput>) {
    forall i, j :: i in m && j in m && m[i] == m[j] ==> i == j
  }

  // ------------------------------------------------------------------ one label

  datatype Meaning = NotDataset | Malformed | Id(index: Int64) | UseAs(index: Int64)

  function Decode(key: string): Meaning {
    if !(PREFIX_LABELS <= key) then NotDataset
    else
      var parts := Split(key, LABEL_SEPARATOR);
      if |parts| != 3 then Malformed
      else
        match Atoi(parts[1])
        case None => Malformed
        case Some(i) =>
          if parts[2] == "id" then Id(i)
          else if parts[2] == "useas" then UseAs(i)
          else Malformed
  }

  // Once one token repeats, `isPresent` stays set and no later token is added.
  function AddUses(uses: seq<string>, tokens: seq<string>): seq<string>
    decreases |tokens|
  {
    if tokens == [] then uses
    else if TrimSpace(tokens[0]) in uses then uses
    else AddUses(uses + [TrimSpace(tokens[0])], tokens[1..])
  }

  // What the loop carries: the requests so far and the names already used.
  datatype Parse = Parse(requests: map<Int64, Request>, names: set<string>)

  function At(requests: map<Int64, Request>, i: Int64): Request {
    if i in requests then requests[i] else NoRequest
  }

  function ParseLabel(p: Parse, key: string, value: string): Option<Parse> {
    match Decode(key)
    case NotDataset => Some(p)
    case Malformed => None
    case Id(i) =>
      var r := At(p.requests, i);
      if r.name != "" || value in p.names then None
      else Some(Parse(p.requests[i := r.(name := value)], p.names + {value}))
    case UseAs(i) =>
      var r := At(p.requests, i);
      Some(p.(requests := p.requests[i := r.(uses := AddUses(r.uses, Split(value, LABEL_SEPARATOR)))]))
  }

  function ParseLabels(labels: map<string, string>, order: seq<string>): Option<Parse>
    requires forall k <- order :: k in labels
  {
    if order == [] then Some(Parse(map[], {}))
    else
      match ParseLabels(labels, order[..|order| - 1])
      case None => None
      case Some(p) => ParseLabel(p, order[|order| - 1], labels[order[|order| - 1]])
  }

  // A Go map is iterated in some order that visits every key once.
  ghost predicate IsIteration(order: seq<string>, labels: map<string, string>) {
    && (forall k :: k in order <==> k in labels)
    && (forall i, j :: 0 <= i < j < |order| ==> order[i] != order[j])
  }

  method AddRequestedUses(dataset: DatasetInput, value: string)
    modifies dataset
    ensures dataset.View() == old(dataset.View()).(uses := AddUses(old(dataset.useasLabels), Split(value, LABEL_SEPARATOR)))
  {
    var isPresent := false;
    var uArray := Split(value, LABEL_SEPARATOR);
    for n := 0 to |uArray|
      invariant dataset.View() == old(dataset.View()).(uses := dataset.useasLabels)
      invariant AddUses(old(dataset.useasLabels), uArray) ==
                if isPresent then dataset.useasLabels else AddUses(dataset.useasLabels, uArray[n..])
    {
      var use := TrimSpace(uArray[n]);
      var before := isPresent;
      for m := 0 to |dataset.useasLabels|
        invariant isPresent == (before || use in dataset.useasLabels[..m])
      {
        if dataset.useasLabels[m] == use {
          isPresent := true;
        }
      }
      assert dataset.useasLabels[..|dataset.useasLabels|] == dataset.useasLabels;
      assert uArray[n..][1..] == uArray[n + 1..];
      if !isPresent {
        dataset.AddToRequestedUse(use);
      }
    }
  }

  // The body of the loop over pod.Labels.
  method ReadLabel(datasets: map<Int64, DatasetInput>, uniqueDatasets: set<string>, k: string, v: string,
                   ghost was: map<Int64, Request>)
    returns (ok: bool, datasets': map<Int64, DatasetInput>, uniqueDatasets': set<string>)
    requires Separate(datasets) && was == Views(datasets)
    modifies datasets.Values
    ensures ok <==> ParseLabel(Parse(was, uniqueDatasets), k, v).Some?
    ensures ok ==> Parse(Views(datasets'), uniqueDatasets') == ParseLabel(Parse(was, uniqueDatasets), k, v).value
    ensures ok ==> Separate(datasets') && fresh(datasets'.Values - datasets.Values)
  {
    ok, datasets', uniqueDatasets' := true, datasets, uniqueDatasets;
    match Decode(k) {
      case NotDataset =>
      case Malformed =>
        ok := false;
      case Id(idx) =>
        ok, datasets', uniqueDatasets' := ReadId(datasets, uniqueDatasets, idx, v, was);
      case UseAs(idx) =>
        datasets' := ReadUses(datasets, idx, v, was);
    }
  }

  method ReadId(datasets: map<Int64, DatasetInput>, uniqueDatasets: set<string>, idx: Int64, v: string,
                ghost was: map<Int64, Request>)
    returns (ok: bool, datasets': map<Int64, DatasetInput>, uniqueDatasets': set<string>)
    requires Separate(datasets) && was == Views(datasets)
    modifies datasets.Values
    ensures ok <==> At(was, idx).name == "" && v !in uniqueDatasets
    ensures ok ==> Views(datasets') == was[idx := At(was, idx).(name := v)] && uniqueDatasets' == uniqueDatasets + {v}
    ensures ok ==> Separate(datasets') && fresh(datasets'.Values - datasets.Values)
  {
    var dataset := FindOrNew(datasets, idx);
    assert dataset.View() == At(was, idx);
    if dataset.name != "" || v in uniqueDatasets {
      return false, datasets, uniqueDatasets;
    }
    dataset.SetName(v);
    datasets' := Store(datasets, idx, dataset);
    OneChanged(datasets', idx, was);
    return true, datasets', uniqueDatasets + {v};
  }

  method ReadUses(datasets: map<Int64, DatasetInput>, idx: Int64, v: string, ghost was: map<Int64, Request>)
    returns (datasets': map<Int64, DatasetInput>)
    requires Separate(datasets) && was == Views(datasets)
    modifies datasets.Values
    ensures Views(datasets') ==
            was[idx := At(was, idx).(uses := AddUses(At(was, idx).uses, Split(v, LABEL_SEPARATOR)))]
    ensures Separate(datasets') && fresh(datasets'.Values - datasets.Values)
  {
    var dataset := FindOrNew(datasets, idx);
    assert dataset.View() == At(was, idx);
    AddRequestedUses(dataset, v);
    datasets' := Store(datasets, idx, dataset);
    OneChanged(datasets', idx, was);
  }

  lemma OneChanged(m: map<Int64, DatasetInput>, idx: Int64, was: map<Int64, Request>)
    requires idx in m && m.Keys == was.Keys + {idx}
    requires forall i :: i in m && i != idx ==> m[i].View() == was[i]
    ensures Views(m) == was[idx := m[idx].View()]
  {
  }

  // `order` is the order in which Go happens to iterate over pod.Labels.
  method DatasetInputFromPod(labels: map<string, string>, order: seq<string>)
    returns (result: Option<map<Int64, DatasetInput>>)
    requires IsIteration(order, labels)
    ensures result.Some? <==> ParseLabels(labels, order).Some?
    ensures result.Some? ==> fresh(result.value.Values) && Separate(result.value)
    ensures result.Some? ==> Views(result.value) == ParseLabels(labels, order).value.requests
  {
    var datasets: map<Int64, DatasetInput> := map[];
    var uniqueDatasets: set<string> := {};
    for n := 0 to |order|
      invariant fresh(datasets.Values) && Separate(datasets)
      invariant ParseLabels(labels, order[..n]) == Some(Parse(Views(datasets), uniqueDatasets))
    {
      assert order[..n + 1][..n] == order[..n];
      var ok;
      ok, datasets, uniqueDatasets := ReadLabel(datasets, uniqueDatasets, order[n], labels[order[n]], Views(datasets));
      if !ok {
        NoneStays(labels, order, n + 1);
        return None;
      }
    }
    assert order[..|order|] == order;
    return Some(datasets);
  }

  function Store(datasets: map<Int64, DatasetInput>, idx: Int64, dataset: DatasetInput): (m: map<Int64, DatasetInput>)
    requires Separate(datasets)
    requires if idx in datasets then dataset == datasets[idx] else dataset !in datasets.Values
    ensures m == datasets[idx := dataset] && Separate(m)
    ensures m.Values == datasets.Values + {dataset}
  {
    var m := datasets[idx := dataset];
    assert m[idx] == dataset;
    assert forall i :: i in datasets && i != idx ==> m[i] == datasets[i];
    m
  }

  method FindOrNew(datasets: map<Int64, DatasetInput>, idx: Int64) returns (dataset: DatasetInput)
    ensures idx in datasets ==> dataset == datasets[idx] && dataset in datasets.Values
    ensures idx !in datasets ==> fresh(dataset) && dataset.View() == NoRequest
  {
    if idx in datasets {
      dataset := datasets[idx];
    } else {
      dataset := new DatasetInput();
    }
  }

  lemma {:induction false} NoneStays(labels: map<string, string>, order: seq<string>, n: nat)
    requires n <= |order|
    requires forall k <- order :: k in labels
    requires ParseLabels(labels, order[..n]) == None
    ensures ParseLabels(labels, order) == None
    decreases |order| - n
  {
    if n == |order| {
      assert order[..n] == order;
    } else {
      assert order[..n + 1][..n] == order[..n];
      NoneStays(labels, order, n + 1);
    }
  }

  predicate Found(r: Request, store: map<string, map<string, string>>, unreachable: set<string>) {
    r.name in store && r.name !in unreachable
  }

  ghost predicate AllFound(requests: map<Int64, Request>, store: map<string, map<string, string>>, unreachable: set<string>) {
    forall i :: i in requests ==> Found(requests[i], store, unreachable)
  }

  function Resolve(r: Request, store: map<string, map<string, string>>): Request {
    r.(local := if r.name in store then store[r.name] else map[])
  }

  function Resolved(requests: map<Int64, Request>, store: map<string, map<string, string>>): map<Int64, Request> {
    map i | i in requests :: Resolve(requests[i], store)
  }

  // RetrieveDatasetsFromAPIServer, for the pod's namespace: `store` holds Spec.Local of
  // the Datasets there, `unreachable` the names whose query fails for another reason.
  method RetrieveDatasets(datasets: map<Int64, DatasetInput>, order: seq<Int64>,
                          store: map<string, map<string, string>>, unreachable: set<string>,
                          ghost was: map<Int64, Request>)
    returns (ok: bool)
    requires Separate(datasets) && was == Views(datasets)
    requires forall i :: i in order <==> i in datasets
    modifies datasets.Values
    ensures ok <==> AllFound(was, store, unreachable)
    ensures ok ==> Views(datasets) == Resolved(was, store)
  {
    for n := 0 to |order|
      invariant forall i :: i in order[..n] ==> Found(was[i], store, unreachable)
      invariant forall i :: i in datasets ==>
                  datasets[i].View() == (if i in order[..n] then Resolve(was[i], store) else was[i])
    {
      assert order[n] in order && order[n] in was;
      var dataset := datasets[order[n]];
      assert dataset in datasets.Values && dataset.name == was[order[n]].name;
      if dataset.name in unreachable || dataset.name !in store {
        assert !Found(was[order[n]], store, unreachable);
        return false;
      }
      assert order[..n + 1] == order[..n] + [order[n]];
      dataset.local := store[dataset.name];
      assert dataset.View() == Resolve(was[order[n]], store);
    }
    assert order[..|order|] == order;
    return true;
  }
}

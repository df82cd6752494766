// What DatasetInputFromPod computes does not depend on how Go iterates over the labels.
module LabelTheorems {
  import opened GoText
  import opened DatasetLabels

  // ------------------------------------------------- the uses of a "useas" label

  function Trimmed(tokens: seq<string>): seq<string> {
    seq(|tokens|, i requires 0 <= i < |tokens| => TrimSpace(tokens[i]))
  }

  ghost predicate NoDuplicates<T>(s: seq<T>) {
    forall i, j :: 0 <= i < j < |s| ==> s[i] != s[j]
  }

  ghost predicate LongestDuplicateFreePrefix(u: seq<string>, tokens: seq<string>) {
    && u <= tokens
    && NoDuplicates(u)
    && (u != tokens ==> tokens[|u|] in u)
  }

  lemma {:induction false} AddUsesPrefix(uses: seq<string>, tokens: seq<string>)
    requires NoDuplicates(uses)
    ensures LongestDuplicateFreePrefix(AddUses(uses, tokens), uses + Trimmed(tokens))
    decreases |tokens|
  {
    if tokens == [] {
      assert uses + Trimmed(tokens) == uses;
    } else {
      var first := TrimSpace(tokens[0]);
      assert Trimmed(tokens) == [first] + Trimmed(tokens[1..]);
      if first in uses {
        assert (uses + Trimmed(tokens))[|uses|] == first;
      } else {
        assert uses + Trimmed(tokens) == uses + [first] + Trimmed(tokens[1..]);
        AddUsesPrefix(uses + [first], tokens[1..]);
      }
    }
  }

  lemma UsesOfLabel(value: string)
    ensures LongestDuplicateFreePrefix(AddUses([], Split(value, LABEL_SEPARATOR)), Trimmed(Split(value, LABEL_SEPARATOR)))
  {
    AddUsesPrefix([], Split(value, LABEL_SEPARATOR));
    assert [] + Trimmed(Split(value, LABEL_SEPARATOR)) == Trimmed(Split(value, LABEL_SEPARATOR));
  }

  // The uses that one "useas" label asks for.
  function UsesIn(value: string): seq<string> {
    AddUses([], Split(value, LABEL_SEPARATOR))
  }

  function FirstUse(value: string): string {
    TrimSpace(Split(value, LABEL_SEPARATOR)[0])
  }

  // Adding to uses that hold the first token of a label adds nothing.
  lemma FirstTokenKnown(uses: seq<string>, value: string)
    ensures UsesIn(value) != [] && UsesIn(value)[0] == FirstUse(value)
    ensures FirstUse(value) in uses ==> AddUses(uses, Split(value, LABEL_SEPARATOR)) == uses
  {
    UsesOfLabel(value);
    assert UsesIn(value) != [];
    assert UsesIn(value)[0] == Trimmed(Split(value, LABEL_SEPARATOR))[0];
  }

  // ------------------------------------------------------------------ confluence

  // "dataset.0.id" and "dataset.00.id" decode alike.  No index has two id labels ...
  ghost predicate OneId(labels: map<string, string>) {
    forall k, l :: k in labels && l in labels && Decode(k) == Decode(l) && Decode(k).Id? ==> k == l
  }

  // ... and useas labels of one index ask for the same uses.
  ghost predicate SameUses(labels: map<string, string>) {
    forall k, l :: k in labels && l in labels && Decode(k) == Decode(l) && Decode(k).UseAs? ==>
                     UsesIn(labels[k]) == UsesIn(labels[l])
  }

  ghost predicate Harmonious(labels: map<string, string>) { OneId(labels) && SameUses(labels) }

  ghost predicate WellFormed(labels: map<string, string>, keys: set<string>)
    requires keys <= labels.Keys
  {
    && (forall k :: k in keys ==> !Decode(k).Malformed?)
    && (forall k, l :: k in keys && l in keys && Decode(k).Id? && Decode(l).Id? && labels[k] == labels[l] ==> k == l)
  }

  ghost predicate HasId(keys: set<string>, i: Int64) {
    exists k :: k in keys && Decode(k) == Id(i)
  }

  ghost predicate HasUses(keys: set<string>, i: Int64) {
    exists k :: k in keys && Decode(k) == UseAs(i)
  }

  // What the labels with these keys say about index i, without any order.
  ghost predicate Spells(labels: map<string, string>, keys: set<string>, i: Int64, r: Request)
    requires keys <= labels.Keys
  {
    && (forall k :: k in keys && Decode(k) == Id(i) ==> r.name == labels[k])
    && (forall k :: k in keys && Decode(k) == UseAs(i) ==> r.uses == UsesIn(labels[k]))
    && (!HasId(keys, i) ==> r.name == "")
    && (!HasUses(keys, i) ==> r.uses == [])
    && r.local == map[]
  }

  ghost predicate Describes(labels: map<string, string>, keys: set<string>, p: Parse)
    requires keys <= labels.Keys
  {
    && (forall i :: i in p.requests <==> HasId(keys, i) || HasUses(keys, i))
    && (forall i :: Spells(labels, keys, i, At(p.requests, i)))
    && NamesSeen(labels, keys, p.names)
  }

  ghost predicate NamesSeen(labels: map<string, string>, keys: set<string>, names: set<string>)
    requires keys <= labels.Keys
  {
    && (forall k :: k in keys && Decode(k).Id? ==> labels[k] in names)
    && (forall v :: v in names ==> exists k :: k in keys && Decode(k).Id? && labels[k] == v)
  }

  lemma OneMoreSeen(labels: map<string, string>, keys: set<string>, k: string, names: set<string>)
    requires keys <= labels.Keys && k in labels && Decode(k).Id?
    requires NamesSeen(labels, keys, names)
    ensures NamesSeen(labels, keys + {k}, names + {labels[k]})
  {
    forall v | v in names + {labels[k]} ensures exists l :: l in keys + {k} && Decode(l).Id? && labels[l] == v {
      if v == labels[k] {
        assert k in keys + {k};
      } else {
        var l :| l in keys && Decode(l).Id? && labels[l] == v;
        assert l in keys + {k};
      }
    }
  }

  lemma DescribesUnique(labels: map<string, string>, keys: set<string>, p: Parse, q: Parse)
    requires keys <= labels.Keys
    requires Describes(labels, keys, p) && Describes(labels, keys, q)
    ensures p == q
  {
    forall i | i in p.requests ensures p.requests[i] == q.requests[i] {
      assert Spells(labels, keys, i, At(p.requests, i)) && Spells(labels, keys, i, At(q.requests, i));
    }
    assert p.requests == q.requests;
    assert p.names == q.names;
  }

  // A label says nothing about the indices it does not decode to.
  lemma SpellsFrame(labels: map<string, string>, keys: set<string>, k: string, i: Int64, r: Request)
    requires keys <= labels.Keys && k in labels
    requires Decode(k) != Id(i) && Decode(k) != UseAs(i)
    requires Spells(labels, keys, i, r)
    ensures Spells(labels, keys + {k}, i, r)
    ensures HasId(keys + {k}, i) <==> HasId(keys, i)
    ensures HasUses(keys + {k}, i) <==> HasUses(keys, i)
  {
    if HasId(keys, i) {
      var l :| l in keys && Decode(l) == Id(i);
      assert l in keys + {k};
    }
    if HasUses(keys, i) {
      var l :| l in keys && Decode(l) == UseAs(i);
      assert l in keys + {k};
    }
  }

  lemma SpellsId(labels: map<string, string>, keys: set<string>, k: string, i: Int64, r: Request)
    requires Harmonious(labels) && keys <= labels.Keys && k in labels && k !in keys && Decode(k) == Id(i)
    requires Spells(labels, keys, i, r)
    ensures r.name == "" && Spells(labels, keys + {k}, i, r.(name := labels[k])) && HasId(keys + {k}, i)
  {
    assert !HasId(keys, i);
    assert k in keys + {k};
    if HasUses(keys, i) {
      var l :| l in keys && Decode(l) == UseAs(i);
      assert l in keys + {k};
    }
  }

  lemma SpellsUses(labels: map<string, string>, keys: set<string>, k: string, i: Int64, r: Request)
    requires Harmonious(labels) && keys <= labels.Keys && k in labels && k !in keys && Decode(k) == UseAs(i)
    requires Spells(labels, keys, i, r)
    ensures Spells(labels, keys + {k}, i, r.(uses := AddUses(r.uses, Split(labels[k], LABEL_SEPARATOR))))
    ensures HasUses(keys + {k}, i)
  {
    assert k in keys + {k};
    if HasUses(keys, i) {
      FirstTokenKnown(r.uses, labels[k]);
    }
    if HasId(keys, i) {
      var l :| l in keys && Decode(l) == Id(i);
      assert l in keys + {k};
    }
  }

  lemma OneMoreName(labels: map<string, string>, keys: set<string>, k: string, p: Parse)
    requires keys <= labels.Keys && k in labels && k !in keys && Decode(k).Id?
    requires WellFormed(labels, keys) && Describes(labels, keys, p)
    ensures labels[k] !in p.names <==> WellFormed(labels, keys + {k})
  {
    if labels[k] in p.names {
      var l :| l in keys && Decode(l).Id? && labels[l] == labels[k];
      assert l in keys + {k} && k in keys + {k};
    } else {
      assert forall l :: l in keys && Decode(l).Id? ==> labels[l] != labels[k];
    }
  }

  lemma OneMoreIndex(labels: map<string, string>, keys: set<string>, k: string, p: Parse)
    requires Harmonious(labels) && keys <= labels.Keys && k in labels && k !in keys
    requires Describes(labels, keys, p) && ParseLabel(p, k, labels[k]).Some?
    ensures var q := ParseLabel(p, k, labels[k]).value.requests;
            && (forall i :: i in q <==> HasId(keys + {k}, i) || HasUses(keys + {k}, i))
            && (forall i :: Spells(labels, keys + {k}, i, At(q, i)))
  {
    var q := ParseLabel(p, k, labels[k]).value.requests;
    forall i
      ensures Spells(labels, keys + {k}, i, At(q, i))
      ensures i in q <==> HasId(keys + {k}, i) || HasUses(keys + {k}, i)
    {
      if Decode(k) == Id(i) {
        SpellsId(labels, keys, k, i, At(p.requests, i));
      } else if Decode(k) == UseAs(i) {
        SpellsUses(labels, keys, k, i, At(p.requests, i));
      } else {
        SpellsFrame(labels, keys, k, i, At(p.requests, i));
      }
    }
  }

  lemma OneMoreLabel(labels: map<string, string>, keys: set<string>, k: string, p: Parse)
    requires Harmonious(labels) && keys <= labels.Keys && k in labels && k !in keys
    requires WellFormed(labels, keys) && Describes(labels, keys, p)
    ensures ParseLabel(p, k, labels[k]).Some? <==> WellFormed(labels, keys + {k})
    ensures ParseLabel(p, k, labels[k]).Some? ==> Describes(labels, keys + {k}, ParseLabel(p, k, labels[k]).value)
  {
    var meaning := Decode(k);
    if meaning.Malformed? {
      assert k in keys + {k};
    } else if meaning.Id? {
      assert !HasId(keys, meaning.index) && Spells(labels, keys, meaning.index, At(p.requests, meaning.index));
      OneMoreName(labels, keys, k, p);
      OneMoreSeen(labels, keys, k, p.names);
    }
    if ParseLabel(p, k, labels[k]).Some? {
      OneMoreIndex(labels, keys, k, p);
    }
  }

  function Keys(order: seq<string>): set<string> {
    set k | k in order
  }

  lemma {:induction false} ParsePrefix(labels: map<string, string>, order: seq<string>, n: nat)
    requires Harmonious(labels) && IsIteration(order, labels) && n <= |order|
    ensures ParseLabels(labels, order[..n]).Some? <==> WellFormed(labels, Keys(order[..n]))
    ensures ParseLabels(labels, order[..n]).Some? ==>
              Describes(labels, Keys(order[..n]), ParseLabels(labels, order[..n]).value)
  {
    if n > 0 {
      ParsePrefix(labels, order, n - 1);
      assert order[..n][..n - 1] == order[..n - 1];
      assert Keys(order[..n]) == Keys(order[..n - 1]) + {order[n - 1]};
      if ParseLabels(labels, order[..n - 1]).Some? {
        OneMoreLabel(labels, Keys(order[..n - 1]), order[n - 1], ParseLabels(labels, order[..n - 1]).value);
      }
    }
  }

  // Parsing succeeds exactly on well formed labels and then returns what they describe.
  lemma ParseExact(labels: map<string, string>, order: seq<string>)
    requires Harmonious(labels) && IsIteration(order, labels)
    ensures ParseLabels(labels, order).Some? <==> WellFormed(labels, labels.Keys)
    ensures ParseLabels(labels, order).Some? ==> Describes(labels, labels.Keys, ParseLabels(labels, order).value)
  {
    ParsePrefix(labels, order, |order|);
    assert order[..|order|] == order;
    assert Keys(order) == labels.Keys;
  }

  // Whether the iteration order matters shows in the labels.
  ghost predicate Settled(labels: map<string, string>) {
    Doomed(labels) || Harmonious(labels)
  }

  lemma Confluence(labels: map<string, string>, order1: seq<string>, order2: seq<string>)
    requires Settled(labels) && IsIteration(order1, labels) && IsIteration(order2, labels)
    ensures ParseLabels(labels, order1) == ParseLabels(labels, order2)
  {
    if Doomed(labels) {
      DoomedFails(labels, order1);
      DoomedFails(labels, order2);
    } else {
      SameDescription(labels, order1, order2);
    }
  }

  lemma SameDescription(labels: map<string, string>, order1: seq<string>, order2: seq<string>)
    requires Harmonious(labels) && IsIteration(order1, labels) && IsIteration(order2, labels)
    ensures ParseLabels(labels, order1) == ParseLabels(labels, order2)
  {
    ParseExact(labels, order1);
    ParseExact(labels, order2);
    if ParseLabels(labels, order1).Some? {
      DescribesUnique(labels, labels.Keys, ParseLabels(labels, order1).value, ParseLabels(labels, order2).value);
    }
  }

  // ------------------------------------------------ exactly when the order matters

  // A label set that fails in every order: a malformed label, two equal ids, or one
  // index with two names.
  ghost predicate TwoNames(labels: map<string, string>) {
    exists k, l :: k in labels && l in labels && k != l && Decode(k) == Decode(l) && Decode(k).Id?
                   && labels[k] != "" && labels[l] != ""
  }

  ghost predicate Doomed(labels: map<string, string>) {
    !WellFormed(labels, labels.Keys) || TwoNames(labels)
  }

  ghost predicate OrderFree(labels: map<string, string>) {
    forall a, b :: IsIteration(a, labels) && IsIteration(b, labels) ==> ParseLabels(labels, a) == ParseLabels(labels, b)
  }

  // What an order has read so far, label sets of every kind included.
  ghost predicate IdRead(labels: map<string, string>, order: seq<string>, value: string)
    requires forall k <- order :: k in labels
  {
    exists k <- order :: Decode(k).Id? && labels[k] == value
  }

  ghost predicate NameRead(labels: map<string, string>, order: seq<string>, i: Int64)
    requires forall k <- order :: k in labels
  {
    exists k <- order :: Decode(k) == Id(i) && labels[k] != ""
  }

  function UsesRead(labels: map<string, string>, order: seq<string>, i: Int64): seq<string>
    requires forall k <- order :: k in labels
  {
    if order == [] then []
    else
      var uses := UsesRead(labels, order[..|order| - 1], i);
      var k := order[|order| - 1];
      if Decode(k) == UseAs(i) then AddUses(uses, Split(labels[k], LABEL_SEPARATOR)) else uses
  }

  ghost predicate Reads(labels: map<string, string>, order: seq<string>, p: Parse)
    requires forall k <- order :: k in labels
  {
    && (forall v :: v in p.names <==> IdRead(labels, order, v))
    && (forall i :: At(p.requests, i).name != "" <==> NameRead(labels, order, i))
    && (forall i :: At(p.requests, i).uses == UsesRead(labels, order, i))
  }

  ghost predicate Passes(labels: map<string, string>, before: seq<string>, k: string)
    requires (forall l <- before :: l in labels) && k in labels
  {
    && !Decode(k).Malformed?
    && (Decode(k).Id? ==> !IdRead(labels, before, labels[k]) && !NameRead(labels, before, Decode(k).index))
  }

  ghost predicate AllPass(labels: map<string, string>, order: seq<string>)
    requires forall k <- order :: k in labels
  {
    forall n :: 0 <= n < |order| ==> Passes(labels, order[..n], order[n])
  }

  lemma ReadsNext(labels: map<string, string>, before: seq<string>, k: string, p: Parse)
    requires (forall l <- before :: l in labels) && k in labels && Reads(labels, before, p)
    ensures ParseLabel(p, k, labels[k]).Some? <==> Passes(labels, before, k)
    ensures ParseLabel(p, k, labels[k]).Some? ==> Reads(labels, before + [k], ParseLabel(p, k, labels[k]).value)
  {
    var order := before + [k];
    assert order[..|before|] == before;
    assert forall l :: l in order <==> l in before || l == k;
    forall v ensures IdRead(labels, order, v) <==> IdRead(labels, before, v) || (Decode(k).Id? && labels[k] == v) {
    }
    forall i: Int64
      ensures NameRead(labels, order, i) <==> NameRead(labels, before, i) || (Decode(k) == Id(i) && labels[k] != "")
    {
    }
  }

  // The outcome of one order, for every label set.
  lemma {:induction false} ParseOrder(labels: map<string, string>, order: seq<string>)
    requires forall k <- order :: k in labels
    ensures ParseLabels(labels, order).Some? <==> AllPass(labels, order)
    ensures ParseLabels(labels, order).Some? ==> Reads(labels, order, ParseLabels(labels, order).value)
  {
    if order != [] {
      var before, k := order[..|order| - 1], order[|order| - 1];
      assert order == before + [k];
      ParseOrder(labels, before);
      assert forall n :: 0 <= n < |before| ==> order[..n] == before[..n];
      assert AllPass(labels, order) <==> AllPass(labels, before) && Passes(labels, before, k);
      if ParseLabels(labels, before).Some? {
        ReadsNext(labels, before, k, ParseLabels(labels, before).value);
      }
    }
  }

  lemma DoomedFails(labels: map<string, string>, order: seq<string>)
    requires IsIteration(order, labels) && Doomed(labels)
    ensures ParseLabels(labels, order) == None
  {
    ParseOrder(labels, order);
    if AllPass(labels, order) {
      PassedIsHealthy(labels, order);
    }
  }

  lemma PassedIsHealthy(labels: map<string, string>, order: seq<string>)
    requires IsIteration(order, labels) && AllPass(labels, order)
    ensures !Doomed(labels)
  {
    forall k | k in labels ensures !Decode(k).Malformed? {
      var n := Position(order, k);
      assert Passes(labels, order[..n], order[n]);
    }
    forall k, l | k in labels && l in labels && k != l && Decode(k).Id? && Decode(l).Id?
      ensures labels[k] != labels[l]
      ensures Decode(k) == Decode(l) ==> labels[k] == "" || labels[l] == ""
    {
      var m := Position(order, k);
      var n := Position(order, l);
      if m < n {
        TwoIdsPassed(labels, order, m, n);
      } else {
        TwoIdsPassed(labels, order, n, m);
      }
    }
  }

  lemma TwoIdsPassed(labels: map<string, string>, order: seq<string>, m: nat, n: nat)
    requires IsIteration(order, labels) && AllPass(labels, order) && m < n < |order|
    requires Decode(order[m]).Id? && Decode(order[n]).Id?
    ensures labels[order[m]] != labels[order[n]]
    ensures Decode(order[m]) == Decode(order[n]) ==> labels[order[m]] == ""
  {
    assert order[m] in order[..n] && Passes(labels, order[..n], order[n]);
  }

  lemma Position(order: seq<string>, k: string) returns (n: nat)
    requires k in order
    ensures n < |order| && order[n] == k
  {
    n :| 0 <= n < |order| && order[n] == k;
  }

  // Without doom, an order succeeds that visits an empty id, if there is one, first.
  lemma EmptyIdFirst(labels: map<string, string>, order: seq<string>)
    requires IsIteration(order, labels) && !Doomed(labels)
    requires OneId(labels) || (order != [] && Decode(order[0]).Id? && labels[order[0]] == "")
    ensures ParseLabels(labels, order).Some?
  {
    ParseOrder(labels, order);
    forall n | 0 <= n < |order| ensures Passes(labels, order[..n], order[n]) {
      var k := order[n];
      assert k in order && k in labels;
      forall l | l in order[..n] ensures l in labels && l != k {
        var m := Position(order[..n], l);
        assert order[m] == l && l in order;
      }
      if !OneId(labels) && n > 0 {
        assert order[0] in order && order[0] != k;
      }
    }
  }

  // ------------------------------------------------------------- orders to compare

  lemma {:induction false} Enumeration(keys: set<string>) returns (order: seq<string>)
    ensures forall k :: k in order <==> k in keys
    ensures forall i, j :: 0 <= i < j < |order| ==> order[i] != order[j]
    decreases |keys|
  {
    if keys == {} {
      order := [];
    } else {
      var k := Member(keys);
      var rest := Enumeration(keys - {k});
      order := rest + [k];
      assert forall i :: 0 <= i < |rest| ==> rest[i] in rest;
    }
  }

  lemma Starting(labels: map<string, string>, k: string) returns (order: seq<string>)
    requires k in labels
    ensures IsIteration(order, labels) && order != [] && order[0] == k
  {
    var rest := Enumeration(labels.Keys - {k});
    order := [k] + rest;
    assert forall i :: 0 <= i < |rest| ==> rest[i] in rest;
  }

  lemma StartingWithTwo(labels: map<string, string>, k: string, l: string) returns (order: seq<string>)
    requires k in labels && l in labels && k != l
    ensures IsIteration(order, labels) && |order| >= 2 && order[0] == k && order[1] == l
  {
    var rest := Enumeration(labels.Keys - {k, l});
    order := [k, l] + rest;
    assert forall i :: 0 <= i < |rest| ==> rest[i] in rest;
  }

  // The first useas label of an index fixes how its uses begin; if all of its labels
  // begin alike, it fixes them altogether.
  lemma {:induction false} FirstUses(labels: map<string, string>, order: seq<string>, n: nat, i: Int64)
    requires (forall k <- order :: k in labels) && 0 < n <= |order| && Decode(order[0]) == UseAs(i)
    ensures UsesIn(labels[order[0]]) <= UsesRead(labels, order[..n], i)
    ensures (forall k <- order :: Decode(k) == UseAs(i) ==> FirstUse(labels[k]) == FirstUse(labels[order[0]])) ==>
              UsesRead(labels, order[..n], i) == UsesIn(labels[order[0]])
  {
    assert order[..n][..n - 1] == order[..n - 1];
    if n > 1 {
      FirstUses(labels, order, n - 1, i);
      var uses, k := UsesRead(labels, order[..n - 1], i), order[n - 1];
      assert k in order && order[0] in order;
      UsesGrow(uses, Split(labels[k], LABEL_SEPARATOR));
      FirstTokenKnown(uses, labels[k]);
      FirstTokenKnown(uses, labels[order[0]]);
      assert uses != [] ==> uses[0] in uses;
    }
  }

  lemma {:induction false} UsesGrow(uses: seq<string>, tokens: seq<string>)
    ensures uses <= AddUses(uses, tokens)
    decreases |tokens|
  {
    if tokens != [] && TrimSpace(tokens[0]) !in uses {
      UsesGrow(uses + [TrimSpace(tokens[0])], tokens[1..]);
    }
  }

  // Two id labels for one index, one of them empty: visited first, the empty one lets the
  // other pass; visited second, it fails.
  lemma TwoIdsDisagree(labels: map<string, string>)
    requires !Doomed(labels) && !OneId(labels)
    ensures !OrderFree(labels)
  {
    var k, l :| k in labels && l in labels && Decode(k) == Decode(l) && Decode(k).Id? && k != l;
    if labels[k] == "" {
      k, l := l, k;
    }
    assert labels[k] != "" && labels[l] == "";
    var fails := StartingWithTwo(labels, k, l);
    ParseOrder(labels, fails);
    assert fails[0] in fails[..1] && !Passes(labels, fails[..1], fails[1]);
    var passes := Starting(labels, l);
    EmptyIdFirst(labels, passes);
    assert ParseLabels(labels, fails) != ParseLabels(labels, passes);
  }

  lemma TwoUsesDisagree(labels: map<string, string>)
    requires !Doomed(labels) && OneId(labels) && !SameUses(labels)
    ensures !OrderFree(labels)
  {
    var k, l :| k in labels && l in labels && Decode(k) == Decode(l) && Decode(k).UseAs? && UsesIn(labels[k]) != UsesIn(labels[l]);
    var i := Decode(k).index;
    if m :| m in labels && Decode(m) == UseAs(i) && FirstUse(labels[m]) != FirstUse(labels[k]) {
      FirstTokenKnown([], labels[k]);
      FirstTokenKnown([], labels[m]);
      FirstUsesDisagree(labels, k, m, i);
    } else {
      FirstUsesDisagree(labels, k, l, i);
    }
  }

  lemma FirstUsesDisagree(labels: map<string, string>, k: string, l: string, i: Int64)
    requires !Doomed(labels) && OneId(labels)
    requires k in labels && l in labels && Decode(k) == Decode(l) == UseAs(i) && UsesIn(labels[k]) != UsesIn(labels[l])
    requires FirstUse(labels[k]) != FirstUse(labels[l])
             || forall m :: m in labels && Decode(m) == UseAs(i) ==> FirstUse(labels[m]) == FirstUse(labels[k])
    ensures !OrderFree(labels)
  {
    var a := Starting(labels, k);
    var b := Starting(labels, l);
    EmptyIdFirst(labels, a);
    EmptyIdFirst(labels, b);
    ParseOrder(labels, a);
    ParseOrder(labels, b);
    FirstUses(labels, a, |a|, i);
    FirstUses(labels, b, |b|, i);
    FirstTokenKnown([], labels[k]);
    FirstTokenKnown([], labels[l]);
    assert a[..|a|] == a && b[..|b|] == b;
    var p, q := ParseLabels(labels, a).value, ParseLabels(labels, b).value;
    assert At(p.requests, i).uses != At(q.requests, i).uses;
  }

  // The iteration order does not matter exactly when every order fails or when the
  // labels of each index agree: at most one id, and useas labels asking for the same.
  lemma ConfluenceExact(labels: map<string, string>)
    ensures OrderFree(labels) <==> Settled(labels)
  {
    if Settled(labels) {
      forall a, b | IsIteration(a, labels) && IsIteration(b, labels) ensures ParseLabels(labels, a) == ParseLabels(labels, b) {
        Confluence(labels, a, b);
      }
    } else if OneId(labels) {
      TwoUsesDisagree(labels);
    } else {
      TwoIdsDisagree(labels);
    }
  }

  // ----------------------------------- what every parse, clashing or not, guarantees

  ghost predicate Consistent(p: Parse) {
    && (forall i :: i in p.requests ==> NoDuplicates(p.requests[i].uses))
    && (forall i :: i in p.requests && p.requests[i].name != "" ==> p.requests[i].name in p.names)
    && (forall i, j :: i in p.requests && j in p.requests && p.requests[i].name == p.requests[j].name != "" ==> i == j)
  }

  lemma {:induction false} ParseConsistent(labels: map<string, string>, order: seq<string>)
    requires forall k <- order :: k in labels
    requires ParseLabels(labels, order).Some?
    ensures Consistent(ParseLabels(labels, order).value)
  {
    if order != [] {
      var front := order[..|order| - 1];
      var k := order[|order| - 1];
      ParseConsistent(labels, front);
      if Decode(k).UseAs? {
        var r := At(ParseLabels(labels, front).value.requests, Decode(k).index);
        AddUsesPrefix(r.uses, Split(labels[k], LABEL_SEPARATOR));
      }
    }
  }

  // Every dataset is named once and no use repeats.
  ghost predicate Accepted(requests: map<Int64, Request>) {
    && (forall i, j :: i in requests && j in requests && requests[i].name == requests[j].name ==> i == j)
    && (forall i :: i in requests ==> NoDuplicates(requests[i].uses))
  }

  // What parsing and the lookup of every dataset establish together: the API server
  // holds no object with an empty name.
  lemma ParsedRequestsAccepted(labels: map<string, string>, order: seq<string>,
                               store: map<string, map<string, string>>, unreachable: set<string>)
    requires (forall k <- order :: k in labels) && ParseLabels(labels, order).Some?
    requires "" !in store && AllFound(ParseLabels(labels, order).value.requests, store, unreachable)
    ensures Accepted(Resolved(ParseLabels(labels, order).value.requests, store))
  {
    ParseConsistent(labels, order);
    var requests := ParseLabels(labels, order).value.requests;
    assert forall i :: i in requests ==> Found(requests[i], store, unreachable) && requests[i].name != "";
  }
}

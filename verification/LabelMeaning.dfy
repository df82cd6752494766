// What the labels of a pod mean, in terms of the keys as they are spelled.
module LabelMeaning {
  import opened GoText
  import opened DatasetLabels
  import opened LabelTheorems

  // The index is written between the dots.
  function IdKey(s: string): string { "dataset." + s + ".id" }
  function UsesKey(s: string): string { "dataset." + s + ".useas" }

  ghost predicate IsIdKey(k: string, i: Int64) {
    exists s: string :: '.' !in s && WrittenAs(s, i) && k == IdKey(s)
  }

  ghost predicate IsUsesKey(k: string, i: Int64) {
    exists s: string :: '.' !in s && WrittenAs(s, i) && k == UsesKey(s)
  }

  ghost predicate ForDataset(k: string) { "dataset." <= k }

  // ------------------------------------------------------------------- one key

  lemma ThreeParts(s: string, last: string)
    requires '.' !in s && '.' !in last
    ensures Split("dataset." + s + "." + last, '.') == ["dataset", s, last]
  {
    var parts := ["dataset", s, last];
    var two := parts[..2];
    assert two[..1] == ["dataset"] && Join(two, '.') == "dataset" + "." + s;
    assert Join(parts, '.') == "dataset" + "." + s + "." + last;
    assert "dataset" + "." == "dataset.";
    assert Clean(parts, '.');
    SplitOfJoin(parts, '.');
  }

  lemma KeyOfParts(k: string)
    requires ForDataset(k) && |Split(k, '.')| == 3
    ensures var parts := Split(k, '.');
            '.' !in parts[1] && k == "dataset." + parts[1] + "." + parts[2]
  {
    var parts := Split(k, '.');
    SplitJoin(k, '.');
    SplitClean(k, '.');
    var two := parts[..2];
    assert two[..1] == [parts[0]] && Join(two, '.') == parts[0] + "." + parts[1];
    assert k == parts[0] + "." + parts[1] + "." + parts[2];
    var d := "dataset";
    assert d + "." == "dataset." && k == d + "." + k[8..];
    CutOnce(d, k[8..], parts[0], parts[1] + "." + parts[2], '.');
  }

  lemma IdKeyDecodes(s: string, i: Int64)
    requires '.' !in s && WrittenAs(s, i)
    ensures Decode(IdKey(s)) == Id(i)
  {
    ThreeParts(s, "id");
    AtoiExact(s, i);
    assert IdKey(s) == "dataset." + s + "." + "id";
  }

  lemma UsesKeyDecodes(s: string, i: Int64)
    requires '.' !in s && WrittenAs(s, i)
    ensures Decode(UsesKey(s)) == UseAs(i)
  {
    ThreeParts(s, "useas");
    AtoiExact(s, i);
    assert UsesKey(s) == "dataset." + s + "." + "useas";
  }

  // The three kinds of keys.
  lemma KeyMeaning(k: string)
    ensures Decode(k) == NotDataset <==> !ForDataset(k)
    ensures forall i: Int64 :: Decode(k) == Id(i) <==> IsIdKey(k, i)
    ensures forall i: Int64 :: Decode(k) == UseAs(i) <==> IsUsesKey(k, i)
  {
    forall i: Int64 | IsIdKey(k, i) ensures Decode(k) == Id(i) {
      var s :| '.' !in s && WrittenAs(s, i) && k == IdKey(s);
      IdKeyDecodes(s, i);
    }
    forall i: Int64 | IsUsesKey(k, i) ensures Decode(k) == UseAs(i) {
      var s :| '.' !in s && WrittenAs(s, i) && k == UsesKey(s);
      UsesKeyDecodes(s, i);
    }
    if Decode(k).Id? || Decode(k).UseAs? {
      DecodedKey(k);
    }
  }

  lemma DecodedKey(k: string)
    requires Decode(k).Id? || Decode(k).UseAs?
    ensures Decode(k).Id? ==> IsIdKey(k, Decode(k).index)
    ensures Decode(k).UseAs? ==> IsUsesKey(k, Decode(k).index)
  {
    var parts := Split(k, '.');
    KeyOfParts(k);
    AtoiExact(parts[1], Decode(k).index);
    if Decode(k).Id? {
      assert k == IdKey(parts[1]);
    } else {
      assert k == UsesKey(parts[1]);
    }
  }

  // ------------------------------------------------------------------ all labels

  // Two id labels that cannot both be accepted in this order: their values are equal, or
  // they are for one index and the earlier one gives it a name.
  ghost predicate NamesCollide(labels: map<string, string>, order: seq<string>, m: nat, n: nat, i: Int64, j: Int64)
    requires m < n < |order| && order[m] in labels && order[n] in labels
  {
    && IsIdKey(order[m], i) && IsIdKey(order[n], j)
    && (labels[order[m]] == labels[order[n]] || (i == j && labels[order[m]] != ""))
  }

  ghost predicate Spelled(k: string) {
    exists i: Int64 :: IsIdKey(k, i) || IsUsesKey(k, i)
  }

  // Parsing fails exactly when a key for a dataset is misspelled or two names collide.
  lemma FailureMeaning(labels: map<string, string>, order: seq<string>)
    requires IsIteration(order, labels)
    ensures ParseLabels(labels, order).None? <==>
            || (exists k <- order :: ForDataset(k) && !Spelled(k))
            || (exists m: nat, n: nat, i: Int64, j: Int64 :: m < n < |order| && NamesCollide(labels, order, m, n, i, j))
  {
    ParseOrder(labels, order);
    forall k | k in order ensures Decode(k).Malformed? <==> ForDataset(k) && !Spelled(k) {
      KeyMeaning(k);
    }
    if AllPass(labels, order) {
      forall k | k in order ensures !Decode(k).Malformed? {
        var n := Position(order, k);
        assert Passes(labels, order[..n], order[n]);
      }
      forall m: nat, n: nat, i: Int64, j: Int64 | m < n < |order| ensures !NamesCollide(labels, order, m, n, i, j) {
        KeyMeaning(order[m]);
        KeyMeaning(order[n]);
        assert order[m] in order[..n] && Passes(labels, order[..n], order[n]);
      }
    } else {
      var n: nat :| n < |order| && !Passes(labels, order[..n], order[n]);
      FailedKey(labels, order, n);
    }
  }

  lemma FailedKey(labels: map<string, string>, order: seq<string>, n: nat)
    requires IsIteration(order, labels) && n < |order| && !Passes(labels, order[..n], order[n])
    ensures Decode(order[n]).Malformed?
            || exists m: nat, i: Int64, j: Int64 :: m < n && NamesCollide(labels, order, m, n, i, j)
  {
    var k := order[n];
    if !Decode(k).Malformed? {
      var l :| l in order[..n] && Decode(l).Id?
               && (labels[l] == labels[k] || (Decode(l) == Decode(k) && labels[l] != ""));
      var m := Position(order[..n], l);
      KeyMeaning(k);
      KeyMeaning(l);
      assert NamesCollide(labels, order, m, n, Decode(l).index, Decode(k).index);
    }
  }

  ghost predicate OnlyUsesKey(labels: map<string, string>, k: string, i: Int64) {
    IsUsesKey(k, i) && forall l :: l in labels && IsUsesKey(l, i) ==> l == k
  }

  // After a successful parse every non-empty id names its index, the only useas label of
  // an index gives it the longest prefix of its tokens without a repetition, and nothing
  // else puts a request, a name or a use anywhere.
  lemma LabelMeaning(labels: map<string, string>, order: seq<string>, i: Int64)
    requires IsIteration(order, labels) && ParseLabels(labels, order).Some?
    ensures i in ParseLabels(labels, order).value.requests <==> exists k :: k in labels && (IsIdKey(k, i) || IsUsesKey(k, i))
    ensures var r := At(ParseLabels(labels, order).value.requests, i);
            && (forall k :: k in labels && IsIdKey(k, i) && labels[k] != "" ==> r.name == labels[k])
            && (r.name != "" ==> exists k :: k in labels && IsIdKey(k, i) && labels[k] == r.name)
            && (forall k :: k in labels && OnlyUsesKey(labels, k, i) ==>
                  LongestDuplicateFreePrefix(r.uses, Trimmed(Split(labels[k], '.'))))
            && (r.uses != [] ==> exists k :: k in labels && IsUsesKey(k, i))
  {
    forall k | k in labels ensures (Decode(k) == Id(i) <==> IsIdKey(k, i)) && (Decode(k) == UseAs(i) <==> IsUsesKey(k, i)) {
      KeyMeaning(k);
    }
    ParseOrder(labels, order);
    RequestGiven(labels, order, i);
    NameGiven(labels, order, i);
    NoUses(labels, order, i);
    forall k | k in labels && OnlyUsesKey(labels, k, i)
      ensures LongestDuplicateFreePrefix(UsesRead(labels, order, i), Trimmed(Split(labels[k], '.')))
    {
      OneUses(labels, order, |order|, k, i);
      assert order[..|order|] == order;
      UsesOfLabel(labels[k]);
    }
  }

  lemma {:induction false} RequestGiven(labels: map<string, string>, order: seq<string>, i: Int64)
    requires (forall k <- order :: k in labels) && ParseLabels(labels, order).Some?
    ensures i in ParseLabels(labels, order).value.requests <==> exists k <- order :: Decode(k) == Id(i) || Decode(k) == UseAs(i)
  {
    if order != [] {
      RequestGiven(labels, order[..|order| - 1], i);
      assert order == order[..|order| - 1] + [order[|order| - 1]];
    }
  }

  // The name at an index is the value of one of its id labels, and of every non-empty one.
  lemma {:induction false} NameGiven(labels: map<string, string>, order: seq<string>, i: Int64)
    requires (forall k <- order :: k in labels) && ParseLabels(labels, order).Some?
    ensures var name := At(ParseLabels(labels, order).value.requests, i).name;
            && (forall k <- order :: Decode(k) == Id(i) && labels[k] != "" ==> labels[k] == name)
            && (name != "" ==> exists k <- order :: Decode(k) == Id(i) && labels[k] == name)
  {
    if order != [] {
      var before, k := order[..|order| - 1], order[|order| - 1];
      NameGiven(labels, before, i);
      assert order == before + [k];
    }
  }

  lemma {:induction false} NoUses(labels: map<string, string>, order: seq<string>, i: Int64)
    requires forall k <- order :: k in labels
    ensures UsesRead(labels, order, i) != [] ==> exists k <- order :: Decode(k) == UseAs(i)
  {
    if order != [] {
      NoUses(labels, order[..|order| - 1], i);
      assert order == order[..|order| - 1] + [order[|order| - 1]];
    }
  }

  lemma {:induction false} OneUses(labels: map<string, string>, order: seq<string>, n: nat, k: string, i: Int64)
    requires IsIteration(order, labels) && n <= |order| && k in labels
    requires forall l <- order :: Decode(l) == UseAs(i) <==> l == k
    ensures UsesRead(labels, order[..n], i) == if k in order[..n] then UsesIn(labels[k]) else []
  {
    if n > 0 {
      OneUses(labels, order, n - 1, k, i);
      UsesNext(labels, order[..n - 1], order[n - 1], i);
      assert order[..n] == order[..n - 1] + [order[n - 1]];
      assert order[n - 1] in order;
      assert k in order[..n - 1] ==> order[n - 1] != k;
    }
  }

  lemma UsesNext(labels: map<string, string>, before: seq<string>, k: string, i: Int64)
    requires (forall l <- before :: l in labels) && k in labels
    ensures UsesRead(labels, before + [k], i) ==
            if Decode(k) == UseAs(i) then AddUses(UsesRead(labels, before, i), Split(labels[k], LABEL_SEPARATOR))
            else UsesRead(labels, before, i)
  {
    assert (before + [k])[..|before|] == before;
  }
}

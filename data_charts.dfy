/**
 * The type histogram drawn by the pie and bar charts: one `{type, count}`
 * entry per distinct `type` among the items, in order of first occurrence,
 * built by a fold that looks an entry up with a linear `find` and either bumps
 * its count or appends a new entry.
 */
module DataCharts {
  import opened Js

  /** One bar or pie slice: a `type` value and how many items carry it. */
  datatype TypeCount = TypeCount(itemType: Value, count: nat)

  /** How many of the keys equal `k`. */
  function Occurrences(keys: seq<Value>, k: Value): (n: nat)
    ensures n <= |keys|
    ensures n == 0 <==> k !in keys
  {
    if keys == [] then 0
    else Occurrences(keys[..|keys| - 1], k) + (if keys[|keys| - 1] == k then 1 else 0)
  }

  /** The keys without repetitions, each where it first occurs. */
  function Distinct(keys: seq<Value>): (d: seq<Value>)
    ensures |d| <= |keys|
    ensures forall x :: x in d <==> x in keys
  {
    if keys == [] then []
    else
      var d := Distinct(keys[..|keys| - 1]);
      var k := keys[|keys| - 1];
      if k in d then d else d + [k]
  }

  /** The position of the first key equal to `x`. */
  function FirstIndex(keys: seq<Value>, x: Value): (i: nat)
    requires x in keys
    ensures i < |keys| && keys[i] == x
    ensures forall j :: 0 <= j < i ==> keys[j] != x
  {
    if keys[0] == x then 0 else 1 + FirstIndex(keys[1..], x)
  }

  /** The histogram the chart is meant to show, defined independently of the
      fold: the distinct keys in first-occurrence order, each with its count. */
  function Distribution(keys: seq<Value>): seq<TypeCount>
  {
    var d := Distinct(keys);
    seq(|d|, i requires 0 <= i < |d| => TypeCount(d[i], Occurrences(keys, d[i])))
  }

  /** The sum of all counts. */
  function TotalCount(dist: seq<TypeCount>): nat
  {
    if dist == [] then 0 else TotalCount(dist[..|dist| - 1]) + dist[|dist| - 1].count
  }

  /** The `item.type` reads the fold performs, one per item (in the `find`
      callback and in the `push`); the fold throws as soon as an item is
      `null` or `undefined`. */
  function TypeKeys(data: seq<Value>): (r: Result<seq<Value>>)
    ensures r.Ok? <==> forall j :: 0 <= j < |data| ==> Property(data[j], "type").Ok?
    ensures r.Ok? ==> |r.value| == |data|
    ensures r.Ok? ==> forall j :: 0 <= j < |data| ==> r.value[j] == Property(data[j], "type").value
  {
    if data == [] then Ok([])
    else
      var init := data[..|data| - 1];
      assert forall j :: 0 <= j < |init| ==> init[j] == data[j];
      match (TypeKeys(init), Property(data[|data| - 1], "type"))
      case (Ok(keys), Ok(k)) => Ok(keys + [k])
      case _ => Threw
  }

  lemma {:induction false} OccurrencesAppend(keys: seq<Value>, k: Value, x: Value)
    ensures Occurrences(keys + [k], x) == Occurrences(keys, x) + (if k == x then 1 else 0)
  {
    assert (keys + [k])[..|keys|] == keys;
  }

  lemma {:induction false} DistinctAppend(keys: seq<Value>, k: Value)
    ensures Distinct(keys + [k]) == if k in keys then Distinct(keys) else Distinct(keys) + [k]
  {
    assert (keys + [k])[..|keys|] == keys;
  }

  lemma {:induction false} TotalCountAppend(dist: seq<TypeCount>, e: TypeCount)
    ensures TotalCount(dist + [e]) == TotalCount(dist) + e.count
  {
    assert (dist + [e])[..|dist|] == dist;
  }

  /** Raising one entry's count by one raises the total by one. */
  lemma {:induction false} TotalCountBump(dist: seq<TypeCount>, j: nat)
    requires j < |dist|
    ensures TotalCount(dist[j := dist[j].(count := dist[j].count + 1)]) == TotalCount(dist) + 1
    decreases |dist|
  {
    var bumped := dist[j := dist[j].(count := dist[j].count + 1)];
    var n := |dist| - 1;
    if j < n {
      TotalCountBump(dist[..n], j);
      assert bumped[..n] == dist[..n][j := dist[j].(count := dist[j].count + 1)];
    } else {
      assert bumped[..n] == dist[..n];
    }
  }

  /** An item of a new type appends an entry with count 1 and leaves the
      other entries as they were. */
  lemma {:induction false} DistributionAppendNew(keys: seq<Value>, k: Value)
    requires k !in keys
    ensures Distribution(keys + [k]) == Distribution(keys) + [TypeCount(k, 1)]
  {
    var before, after := Distribution(keys), Distribution(keys + [k]);
    var expected := before + [TypeCount(k, 1)];
    DistinctAppend(keys, k);
    forall i | 0 <= i < |after| ensures after[i] == expected[i] {
      OccurrencesAppend(keys, k, Distinct(keys + [k])[i]);
    }
  }

  /** An item of a type already seen, whose entry is at `j`, raises that
      entry's count by 1 and leaves every other entry as it was. */
  lemma {:induction false} DistributionAppendSeen(keys: seq<Value>, k: Value, j: nat)
    requires j < |Distinct(keys)| && Distinct(keys)[j] == k
    ensures j < |Distribution(keys)|
    ensures Distribution(keys + [k]) ==
              Distribution(keys)[j := Distribution(keys)[j].(count := Distribution(keys)[j].count + 1)]
  {
    var before, after := Distribution(keys), Distribution(keys + [k]);
    var expected := before[j := before[j].(count := before[j].count + 1)];
    DistinctAppend(keys, k);
    DistinctUnique(keys);
    forall i | 0 <= i < |after| ensures after[i] == expected[i] {
      OccurrencesAppend(keys, k, Distinct(keys)[i]);
    }
  }

  /** One more item either appends a new entry with count 1 (its type is new)
      or raises the count of exactly one entry, the one for its type, by 1;
      every other entry stays as it was. */
  lemma DistributionStep(keys: seq<Value>, k: Value)
    ensures k !in keys ==> Distribution(keys + [k]) == Distribution(keys) + [TypeCount(k, 1)]
    ensures k in keys ==>
              exists j :: 0 <= j < |Distribution(keys)| && Distribution(keys)[j].itemType == k &&
                Distribution(keys + [k]) ==
                  Distribution(keys)[j := Distribution(keys)[j].(count := Distribution(keys)[j].count + 1)]
  {
    if k !in keys {
      DistributionAppendNew(keys, k);
    } else {
      var j :| 0 <= j < |Distinct(keys)| && Distinct(keys)[j] == k;
      DistributionAppendSeen(keys, k, j);
      assert Distribution(keys)[j].itemType == k;
    }
  }

  /** No key appears twice among the distinct keys. */
  lemma {:induction false} DistinctUnique(keys: seq<Value>)
    ensures forall i, j :: 0 <= i < j < |Distinct(keys)| ==> Distinct(keys)[i] != Distinct(keys)[j]
  {
    if keys != [] {
      var init := keys[..|keys| - 1];
      DistinctUnique(init);
      assert keys == init + [keys[|keys| - 1]];
      DistinctAppend(init, keys[|keys| - 1]);
    }
  }

  /** The histogram of the items' types: each type present gets exactly one
      entry, each entry counts exactly the items of its type and is at least 1,
      no entry names a type that is absent, and no items give no entries. */
  lemma DistributionCounts(keys: seq<Value>)
    ensures keys == [] ==> Distribution(keys) == []
    ensures forall i :: 0 <= i < |Distribution(keys)| ==>
              Distribution(keys)[i].count == Occurrences(keys, Distribution(keys)[i].itemType) &&
              Distribution(keys)[i].count >= 1
    ensures forall i, j :: 0 <= i < j < |Distribution(keys)| ==>
              Distribution(keys)[i].itemType != Distribution(keys)[j].itemType
    ensures forall x :: x in keys <==> exists i :: 0 <= i < |Distribution(keys)| && Distribution(keys)[i].itemType == x
  {
    DistinctUnique(keys);
    var d := Distinct(keys);
    forall x | x in keys ensures exists i :: 0 <= i < |Distribution(keys)| && Distribution(keys)[i].itemType == x {
      var i :| 0 <= i < |d| && d[i] == x;
      assert Distribution(keys)[i].itemType == x;
    }
  }

  /** The counts add up to the number of items. */
  lemma {:induction false} TotalCountIsLength(keys: seq<Value>)
    ensures TotalCount(Distribution(keys)) == |keys|
  {
    if keys != [] {
      var init, k := keys[..|keys| - 1], keys[|keys| - 1];
      assert keys == init + [k];
      TotalCountIsLength(init);
      if k in init {
        var j :| 0 <= j < |Distinct(init)| && Distinct(init)[j] == k;
        DistributionAppendSeen(init, k, j);
        TotalCountBump(Distribution(init), j);
      } else {
        DistributionAppendNew(init, k);
        TotalCountAppend(Distribution(init), TypeCount(k, 1));
      }
    }
  }

  lemma {:induction false} FirstIndexAppend(keys: seq<Value>, k: Value, x: Value)
    requires x in keys
    ensures FirstIndex(keys + [k], x) == FirstIndex(keys, x)
  {
    var a, b := FirstIndex(keys + [k], x), FirstIndex(keys, x);
    assert (keys + [k])[b] == x;
  }

  lemma {:induction false} DistinctInFirstOccurrenceOrder(keys: seq<Value>)
    ensures forall i, j :: 0 <= i < j < |Distinct(keys)| ==>
              FirstIndex(keys, Distinct(keys)[i]) < FirstIndex(keys, Distinct(keys)[j])
  {
    if keys != [] {
      var init, k := keys[..|keys| - 1], keys[|keys| - 1];
      assert keys == init + [k];
      DistinctInFirstOccurrenceOrder(init);
      DistinctAppend(init, k);
      var d, d0 := Distinct(keys), Distinct(init);
      forall i, j | 0 <= i < j < |d|
        ensures FirstIndex(keys, d[i]) < FirstIndex(keys, d[j])
      {
        FirstIndexAppend(init, k, d0[i]);
        if j < |d0| {
          FirstIndexAppend(init, k, d0[j]);
        } else {
          assert d[j] == k && k !in init;
          assert FirstIndex(keys, k) == |init|;
        }
      }
    }
  }

  /** Entries appear in the order in which their types first occur. */
  lemma FirstOccurrenceOrder(keys: seq<Value>)
    ensures forall i, j :: 0 <= i < j < |Distribution(keys)| ==>
              FirstIndex(keys, Distribution(keys)[i].itemType) < FirstIndex(keys, Distribution(keys)[j].itemType)
  {
    DistinctInFirstOccurrenceOrder(keys);
  }

  /** `acc.find(d => d.type === type)`, as the index of the first entry for
      `type`, or `None` when there is none. */
  method FindEntry(acc: seq<TypeCount>, itemType: Value) returns (found: Option<nat>)
    ensures found.Some? ==> found.value < |acc| && acc[found.value].itemType == itemType
    ensures found.Some? ==> forall j :: 0 <= j < found.value ==> acc[j].itemType != itemType
    ensures found.None? <==> forall j :: 0 <= j < |acc| ==> acc[j].itemType != itemType
  {
    var i := 0;
    while i < |acc|
      invariant 0 <= i <= |acc|
      invariant forall j :: 0 <= j < i ==> acc[j].itemType != itemType
    {
      if acc[i].itemType == itemType {
        return Some(i);
      }
      i := i + 1;
    }
    return None;
  }

  /** The `typeDistribution` fold over the chart's items: the histogram of their
      `type` values, or a throw when an item is `null` or `undefined`. */
  method TypeDistribution(data: seq<Value>) returns (r: Result<seq<TypeCount>>)
    ensures r.Threw? <==> TypeKeys(data).Threw?
    ensures r.Ok? ==> r.value == Distribution(TypeKeys(data).value)
  {
    var acc: seq<TypeCount> := [];
    var i := 0;
    while i < |data|
      invariant 0 <= i <= |data|
      invariant TypeKeys(data[..i]).Ok?
      invariant acc == Distribution(TypeKeys(data[..i]).value)
    {
      var itemType := Property(data[i], "type");
      if itemType.Threw? {
        return Threw;
      }
      var keys := TypeKeys(data[..i]).value;
      assert data[..i + 1][..i] == data[..i];
      assert TypeKeys(data[..i + 1]) == Ok(keys + [itemType.value]);
      var existing := FindEntry(acc, itemType.value);
      if existing.Some? {
        var j := existing.value;
        DistributionAppendSeen(keys, itemType.value, j);
        acc := acc[j := acc[j].(count := acc[j].count + 1)];
      } else {
        DistributionCounts(keys);
        DistributionAppendNew(keys, itemType.value);
        acc := acc + [TypeCount(itemType.value, 1)];
      }
      i := i + 1;
    }
    assert data[..i] == data;
    return Ok(acc);
  }
}

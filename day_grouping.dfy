/**
 * The day grouper of the consumption and carbon-intensity passes, which each
 * perform it inline: walk the readings in order, create a bucket the first
 * time a day is seen, and append the reading's value to its day's bucket.
 * `Grouped` is that
 * accumulation, stated on (day, value) entries; `Bucket` is the independent
 * reference definition (the subsequence of values on one day).  The
 * generation-mix pass has its own fold, `MixLists` in ConsumptionCalculator,
 * with the lemmas `MixListsDays` and `MixListsCollectsPerDay`.
 */
module DayGrouping {
  import opened Types
  import opened Sums

  /** A reading reduced to its calendar day and the value that is stored. */
  datatype Keyed<V> = Keyed(day: DayKey, value: V)

  /** The accumulator after folding the entries in order. */
  function Grouped<V>(entries: seq<Keyed<V>>): map<DayKey, seq<V>>
  {
    if |entries| == 0 then map[]
    else
      var acc := Grouped(entries[..|entries| - 1]);
      var last := entries[|entries| - 1];
      var bucket := if last.day in acc then acc[last.day] else [];
      acc[last.day := bucket + [last.value]]
  }

  /** The set of days that occur in the entries. */
  function DaysIn<V>(entries: seq<Keyed<V>>): set<DayKey>
  {
    set i | 0 <= i < |entries| :: entries[i].day
  }

  /** The values of the entries on `day`, in input order. */
  function Bucket<V>(entries: seq<Keyed<V>>, day: DayKey): seq<V>
  {
    if |entries| == 0 then []
    else
      var last := entries[|entries| - 1];
      Bucket(entries[..|entries| - 1], day) + (if last.day == day then [last.value] else [])
  }

  /** All values, in input order. */
  function Values<V>(entries: seq<Keyed<V>>): seq<V>
  {
    seq(|entries|, i requires 0 <= i < |entries| => entries[i].value)
  }

  /** One step of the fold: appending an entry updates exactly its own day's bucket. */
  lemma GroupedSnoc<V>(entries: seq<Keyed<V>>, e: Keyed<V>)
    ensures Grouped(entries + [e])
         == Grouped(entries)[e.day := (if e.day in Grouped(entries) then Grouped(entries)[e.day] else []) + [e.value]]
  {
    assert (entries + [e])[..|entries|] == entries;
  }

  /**
   * The grouper's meaning: its keys are exactly the days that occur, and each
   * day's bucket is exactly that day's subsequence of values, in input order.
   */
  lemma {:induction false} GroupedIsBucketed<V>(entries: seq<Keyed<V>>)
    ensures Grouped(entries).Keys == DaysIn(entries)
    ensures forall d :: d in Grouped(entries) ==> Grouped(entries)[d] == Bucket(entries, d)
  {
    if |entries| > 0 {
      var prefix := entries[..|entries| - 1];
      var last := entries[|entries| - 1];
      GroupedIsBucketed(prefix);
      assert entries == prefix + [last];
      assert DaysIn(entries) == DaysIn(prefix) + {last.day} by {
        forall d | d in DaysIn(entries) ensures d in DaysIn(prefix) + {last.day} {
          var i :| 0 <= i < |entries| && entries[i].day == d;
          if i < |prefix| {
            assert prefix[i] == entries[i];
          }
        }
        forall d | d in DaysIn(prefix) ensures d in DaysIn(entries) {
          var i :| 0 <= i < |prefix| && prefix[i].day == d;
          assert entries[i] == prefix[i];
        }
        assert entries[|entries| - 1].day == last.day;
      }
      forall d | d in Grouped(prefix) && d != last.day
        ensures Bucket(prefix, d) == Bucket(entries, d)
      {
      }
      if last.day !in Grouped(prefix) {
        BucketOfAbsentDay(prefix, last.day);
      }
    }
  }

  /** A day that does not occur has an empty bucket. */
  lemma {:induction false} BucketOfAbsentDay<V>(entries: seq<Keyed<V>>, day: DayKey)
    requires day !in DaysIn(entries)
    ensures Bucket(entries, day) == []
  {
    if |entries| > 0 {
      var prefix := entries[..|entries| - 1];
      assert DaysIn(prefix) <= DaysIn(entries) by {
        forall d | d in DaysIn(prefix) ensures d in DaysIn(entries) {
          var i :| 0 <= i < |prefix| && prefix[i].day == d;
          assert entries[i] == prefix[i];
        }
      }
      assert entries[|entries| - 1].day in DaysIn(entries);
      BucketOfAbsentDay(prefix, day);
    }
  }

  /** A bucket is never created empty: every day present holds at least one value. */
  lemma {:induction false} BucketsAreNonEmpty<V>(entries: seq<Keyed<V>>)
    ensures forall d :: d in Grouped(entries) ==> |Grouped(entries)[d]| > 0
  {
    if |entries| > 0 {
      BucketsAreNonEmpty(entries[..|entries| - 1]);
    }
  }

  /**
   * Sum of f over the values of a map, in no particular key order (the order
   * does not matter, see MapTotalRemove).
   */
  ghost function MapTotal<V>(m: map<DayKey, V>, f: V -> real): real
    decreases |m|
  {
    if m == map[] then 0.0
    else
      var d :| d in m;
      f(m[d]) + MapTotal(m - {d}, f)
  }

  /** Any key can be taken out first. */
  lemma {:induction false} MapTotalRemove<V>(m: map<DayKey, V>, f: V -> real, d: DayKey)
    requires d in m
    ensures MapTotal(m, f) == f(m[d]) + MapTotal(m - {d}, f)
    decreases |m|
  {
    var d' :| d' in m && MapTotal(m, f) == f(m[d']) + MapTotal(m - {d'}, f);
    if d' != d {
      assert |m - {d'}| < |m|;
      MapTotalRemove(m - {d'}, f, d);
      assert (m - {d'}) - {d} == (m - {d}) - {d'};
      assert |m - {d}| < |m|;
      MapTotalRemove(m - {d}, f, d');
    }
  }

  /** Replacing the value of one key changes the total by the difference of f. */
  lemma MapTotalUpdate<V>(m: map<DayKey, V>, f: V -> real, d: DayKey, v: V)
    ensures MapTotal(m[d := v], f) == MapTotal(m, f) + f(v) - (if d in m then f(m[d]) else 0.0)
  {
    MapTotalRemove(m[d := v], f, d);
    assert m[d := v] - {d} == m - {d};
    if d in m {
      MapTotalRemove(m, f, d);
    } else {
      assert m - {d} == m;
    }
  }

  /** The number of values held in a bucket. */
  function BucketSize<V>(bucket: seq<V>): real
  {
    |bucket| as real
  }

  /** Grouping neither loses nor duplicates a reading: bucket sizes add up to the input length. */
  lemma {:induction false} GroupedConservesCount<V>(entries: seq<Keyed<V>>)
    ensures MapTotal(Grouped(entries), BucketSize) == |entries| as real
  {
    if |entries| > 0 {
      var prefix := entries[..|entries| - 1];
      var last := entries[|entries| - 1];
      GroupedConservesCount(prefix);
      var acc := Grouped(prefix);
      var bucket := if last.day in acc then acc[last.day] else [];
      MapTotalUpdate(acc, BucketSize, last.day, bucket + [last.value]);
    }
  }

  /** Adding one reading to its day's bucket adds its value to the total over all days. */
  lemma GroupedTotalSnoc(entries: seq<Keyed<real>>)
    requires |entries| > 0
    ensures MapTotal(Grouped(entries), Sum)
         == MapTotal(Grouped(entries[..|entries| - 1]), Sum) + entries[|entries| - 1].value
  {
    var acc := Grouped(entries[..|entries| - 1]);
    var last := entries[|entries| - 1];
    var bucket := if last.day in acc then acc[last.day] else [];
    assert Grouped(entries) == acc[last.day := bucket + [last.value]];
    MapTotalUpdate(acc, Sum, last.day, bucket + [last.value]);
    SumSnoc(bucket, last.value);
  }

  /** Grouping conserves the total: the per-day totals add up to the total of the input. */
  lemma {:induction false} GroupedConservesTotal(entries: seq<Keyed<real>>)
    ensures MapTotal(Grouped(entries), Sum) == Sum(Values(entries))
  {
    if |entries| > 0 {
      var prefix := entries[..|entries| - 1];
      var last := entries[|entries| - 1];
      GroupedConservesTotal(prefix);
      GroupedTotalSnoc(entries);
      assert Values(entries) == Values(prefix) + [last.value];
      SumSnoc(Values(prefix), last.value);
    }
  }

  // ---------------------------------------------------------------------------
  // Idempotence: regrouping the flattened buckets gives back the same buckets
  // ---------------------------------------------------------------------------

  /** One entry on `day` per value, in order. */
  function DayEntries<V>(day: DayKey, vs: seq<V>): (r: seq<Keyed<V>>)
    ensures |r| == |vs|
    ensures forall k :: 0 <= k < |r| ==> r[k] == Keyed(day, vs[k])
  {
    seq(|vs|, k requires 0 <= k < |vs| => Keyed(day, vs[k]))
  }

  /** The buckets of `m` laid out one day after another, in the order of `order`. */
  function Flatten<V>(m: map<DayKey, seq<V>>, order: seq<DayKey>): seq<Keyed<V>>
    requires forall k :: 0 <= k < |order| ==> order[k] in m
  {
    if |order| == 0 then []
    else Flatten(m, order[..|order| - 1]) + DayEntries(order[|order| - 1], m[order[|order| - 1]])
  }

  /** The bucket of a concatenation is the concatenation of the buckets. */
  lemma {:induction false} BucketAppend<V>(s: seq<Keyed<V>>, t: seq<Keyed<V>>, d: DayKey)
    ensures Bucket(s + t, d) == Bucket(s, d) + Bucket(t, d)
    decreases |t|
  {
    if |t| == 0 {
      assert s + t == s;
    } else {
      var n := |t| - 1;
      BucketAppend(s, t[..n], d);
      assert (s + t)[..|s + t| - 1] == s + t[..n];
    }
  }

  /** The entries of one day hold all their values on that day and none on any other. */
  lemma {:induction false} BucketOfDayEntries<V>(day: DayKey, vs: seq<V>, d: DayKey)
    ensures Bucket(DayEntries(day, vs), d) == if d == day then vs else []
  {
    if |vs| > 0 {
      var n := |vs| - 1;
      BucketOfDayEntries(day, vs[..n], d);
      assert DayEntries(day, vs)[..n] == DayEntries(day, vs[..n]);
      assert vs[..n] + [vs[n]] == vs;
    }
  }

  /** Laying out the buckets of distinct days gives back each listed day's bucket. */
  lemma {:induction false} BucketOfFlatten<V>(m: map<DayKey, seq<V>>, order: seq<DayKey>, d: DayKey)
    requires forall k :: 0 <= k < |order| ==> order[k] in m
    requires forall i, j :: 0 <= i < j < |order| ==> order[i] != order[j]
    ensures Bucket(Flatten(m, order), d) == if d in order then m[d] else []
  {
    if |order| > 0 {
      var n := |order| - 1;
      var prefix := order[..n];
      BucketOfFlatten(m, prefix, d);
      BucketAppend(Flatten(m, prefix), DayEntries(order[n], m[order[n]]), d);
      BucketOfDayEntries(order[n], m[order[n]], d);
      assert order == prefix + [order[n]];
      if d == order[n] {
        forall i | 0 <= i < n ensures prefix[i] != d {
          assert prefix[i] == order[i];
        }
      }
    }
  }

  /** A day occurs in the entries exactly when its bucket is not empty. */
  lemma BucketPresent<V>(entries: seq<Keyed<V>>, d: DayKey)
    ensures d in DaysIn(entries) <==> Bucket(entries, d) != []
  {
    GroupedIsBucketed(entries);
    BucketsAreNonEmpty(entries);
    if d !in DaysIn(entries) {
      BucketOfAbsentDay(entries, d);
    }
  }

  /** Two runs of entries with the same bucket on every day group to the same record. */
  lemma SameBucketsSameGroups<V>(a: seq<Keyed<V>>, b: seq<Keyed<V>>)
    requires forall d :: Bucket(a, d) == Bucket(b, d)
    ensures Grouped(a) == Grouped(b)
  {
    GroupedIsBucketed(a);
    GroupedIsBucketed(b);
    forall d ensures d in DaysIn(a) <==> d in DaysIn(b) {
      BucketPresent(a, d);
      BucketPresent(b, d);
    }
    assert Grouped(a).Keys == Grouped(b).Keys;
  }

  /**
   * Grouping is idempotent: laying the buckets out day after day, in any
   * order that lists every day once, and grouping again gives back the same
   * buckets, because each bucket keeps its input order.
   */
  lemma GroupedIdempotent<V>(entries: seq<Keyed<V>>, order: seq<DayKey>)
    requires forall k :: 0 <= k < |order| ==> order[k] in Grouped(entries)
    requires forall d :: d in Grouped(entries) ==> d in order
    requires forall i, j :: 0 <= i < j < |order| ==> order[i] != order[j]
    ensures Grouped(Flatten(Grouped(entries), order)) == Grouped(entries)
  {
    var m := Grouped(entries);
    var flat := Flatten(m, order);
    GroupedIsBucketed(entries);
    forall d ensures Bucket(flat, d) == Bucket(entries, d) {
      BucketOfFlatten(m, order, d);
      if d !in order {
        BucketOfAbsentDay(entries, d);
      }
    }
    SameBucketsSameGroups(flat, entries);
  }
}

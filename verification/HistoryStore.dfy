/** The on-disk bar history: schema coercion and the prefer-existing merge. */
module HistoryStore {
  import opened Market
  import opened TimeSeries

  /** Stable sort by time, then drop repeated times keeping the first. */
  function CoerceSchema(rows: seq<Bar>): seq<Bar>
  {
    KeepFirst(StableSort(rows))
  }

  function MergePreferExisting(cached: seq<Bar>, fetched: seq<Bar>): seq<Bar>
  {
    if cached + fetched == [] then [] else CoerceSchema(cached + fetched)
  }

  /** What an atomic write checks: times never go back, and none repeats. */
  ghost predicate Writable(rows: seq<Bar>)
  {
    && (forall i :: 0 < i < |rows| ==> rows[i - 1].time <= rows[i].time)
    && DistinctTimes(rows)
  }

  lemma CoerceProps(rows: seq<Bar>)
    ensures Ascending(CoerceSchema(rows))
    ensures forall t :: Lookup(CoerceSchema(rows), t) == LookupFirst(rows, t)
  {
    StableSortSorted(rows);
    KeepFirstAscends(StableSort(rows));
    forall t ensures Lookup(CoerceSchema(rows), t) == LookupFirst(rows, t) {
      KeepFirstLookup(StableSort(rows), t);
      StableSortLookup(rows, t);
    }
  }

  lemma CoerceNoLonger(rows: seq<Bar>)
    ensures |CoerceSchema(rows)| <= |rows|
  {
    StableSortSorted(rows);
    KeepFirstAscends(StableSort(rows));
  }

  /** Coercion yields the one ascending sequence holding, for each time, the first row given for it. */
  lemma CoerceUnique(rows: seq<Bar>, s: seq<Bar>)
    requires Ascending(s)
    requires forall t :: Lookup(s, t) == LookupFirst(rows, t)
    ensures CoerceSchema(rows) == s
  {
    CoerceProps(rows);
    AscendingUnique(CoerceSchema(rows), s);
  }

  /** The merge is ascending; a cached row wins over every fetched row of its time, and nothing is lost. */
  lemma MergeProps(cached: seq<Bar>, fetched: seq<Bar>)
    ensures Ascending(MergePreferExisting(cached, fetched))
    ensures forall t :: Lookup(MergePreferExisting(cached, fetched), t)
                        == Else(LookupFirst(cached, t), LookupFirst(fetched, t))
  {
    CoerceProps(cached + fetched);
    forall t
      ensures Lookup(MergePreferExisting(cached, fetched), t) == Else(LookupFirst(cached, t), LookupFirst(fetched, t))
    {
      LookupConcat(cached, fetched, t);
    }
  }

  lemma SameMerge(s: seq<Bar>, r: seq<Bar>)
    requires Ascending(s) && Ascending(r)
    requires forall t :: Lookup(s, t) == Lookup(r, t)
    ensures s == r
  {
    AscendingUnique(s, r);
  }

  /** Backfilling in pieces is backfilling at once: the merge is associative, and merging two fetches
      one after the other equals merging them together. */
  lemma MergeAssociative(a: seq<Bar>, b: seq<Bar>, c: seq<Bar>)
    ensures MergePreferExisting(MergePreferExisting(a, b), c) == MergePreferExisting(a, MergePreferExisting(b, c))
    ensures MergePreferExisting(MergePreferExisting(a, b), c) == MergePreferExisting(a, b + c)
  {
    var ab, bc := MergePreferExisting(a, b), MergePreferExisting(b, c);
    MergeProps(a, b);
    MergeProps(b, c);
    MergeProps(ab, c);
    MergeProps(a, bc);
    MergeProps(a, b + c);
    hide MergePreferExisting;
    forall t
      ensures Lookup(MergePreferExisting(ab, c), t) == Lookup(MergePreferExisting(a, bc), t)
      ensures Lookup(MergePreferExisting(ab, c), t) == Lookup(MergePreferExisting(a, b + c), t)
    {
      AscendingLookup(ab, t);
      AscendingLookup(bc, t);
      LookupConcat(b, c, t);
    }
    SameMerge(MergePreferExisting(ab, c), MergePreferExisting(a, bc));
    SameMerge(MergePreferExisting(ab, c), MergePreferExisting(a, b + c));
  }

  /** Merging the same fetch again changes nothing, and neither does merging into its own result. */
  lemma MergeIdempotent(cached: seq<Bar>, fetched: seq<Bar>)
    ensures var m := MergePreferExisting(cached, fetched);
            MergePreferExisting(m, fetched) == m && MergePreferExisting(m, cached) == m
  {
    var m := MergePreferExisting(cached, fetched);
    MergeProps(cached, fetched);
    MergeProps(m, fetched);
    MergeProps(m, cached);
    hide MergePreferExisting;
    forall t
      ensures Lookup(MergePreferExisting(m, fetched), t) == Lookup(m, t)
      ensures Lookup(MergePreferExisting(m, cached), t) == Lookup(m, t)
    {
      AscendingLookup(m, t);
    }
    SameMerge(MergePreferExisting(m, fetched), m);
    SameMerge(MergePreferExisting(m, cached), m);
  }

  /** The write's checks accept exactly the strictly ascending frames, so every merge passes them. */
  lemma {:induction false} WritableIffAscending(rows: seq<Bar>)
    ensures Writable(rows) <==> Ascending(rows)
  {
    if Writable(rows) && rows != [] {
      WritableIffAscending(Init(rows));
      SplitLast(rows);
      AscendingAppend(Init(rows), Last(rows));
    }
  }
}

/** Bar sequences keyed by time: lookups, sorting, deduplication and truncation. */
module TimeSeries {
  import opened Market
  import opened Numbers

  ghost predicate Ascending(s: seq<Bar>)
  {
    forall i, j :: 0 <= i < j < |s| ==> s[i].time < s[j].time
  }

  ghost predicate Sorted(s: seq<Bar>)
  {
    forall i, j :: 0 <= i < j < |s| ==> s[i].time <= s[j].time
  }

  function Last(s: seq<Bar>): Bar
    requires s != []
  {
    s[|s| - 1]
  }

  function Init(s: seq<Bar>): seq<Bar>
    requires s != []
  {
    s[..|s| - 1]
  }

  /** The newest `k` bars: a bounded deque's content, Python's `s[-k:]` for positive `k`. */
  function Newest(s: seq<Bar>, k: nat): seq<Bar>
  {
    if |s| <= k then s else s[|s| - k..]
  }

  /** The bar of time `t` when later entries win. */
  function Lookup(s: seq<Bar>, t: int): Option<Bar>
  {
    if s == [] then None else if Last(s).time == t then Some(Last(s)) else Lookup(Init(s), t)
  }

  /** The bar of time `t` when earlier entries win. */
  function LookupFirst(s: seq<Bar>, t: int): Option<Bar>
  {
    if s == [] then None
    else if LookupFirst(Init(s), t).Some? then LookupFirst(Init(s), t)
    else if Last(s).time == t then Some(Last(s)) else None
  }

  /** `a` if present, else `b`. */
  function Else(a: Option<Bar>, b: Option<Bar>): Option<Bar> { if a.Some? then a else b }

  lemma Append(s: seq<Bar>, b: Bar)
    ensures Init(s + [b]) == s && Last(s + [b]) == b
  {
  }

  lemma SplitLast(s: seq<Bar>)
    requires s != []
    ensures s == Init(s) + [Last(s)]
  {
  }

  lemma LookupAppend(s: seq<Bar>, b: Bar, t: int)
    ensures Lookup(s + [b], t) == if b.time == t then Some(b) else Lookup(s, t)
    ensures LookupFirst(s + [b], t) == Else(LookupFirst(s, t), if b.time == t then Some(b) else None)
  {
    Append(s, b);
  }

  lemma AscendingAppend(s: seq<Bar>, b: Bar)
    ensures Ascending(s + [b]) <==> Ascending(s) && (s != [] ==> Last(s).time < b.time)
  {
    var r := s + [b];
    if Ascending(r) {
      assert forall i, j :: 0 <= i < j < |s| ==> r[i] == s[i] && r[j] == s[j];
      if s != [] { assert r[|s| - 1].time < r[|s|].time; }
    }
  }

  lemma SortedAppend(s: seq<Bar>, b: Bar)
    ensures Sorted(s + [b]) <==> Sorted(s) && (s != [] ==> Last(s).time <= b.time)
  {
    var r := s + [b];
    if Sorted(r) {
      assert forall i, j :: 0 <= i < j < |s| ==> r[i] == s[i] && r[j] == s[j];
      if s != [] { assert r[|s| - 1].time <= r[|s|].time; }
    }
  }

  lemma {:induction false} LookupConcat(a: seq<Bar>, b: seq<Bar>, t: int)
    ensures Lookup(a + b, t) == Else(Lookup(b, t), Lookup(a, t))
    ensures LookupFirst(a + b, t) == Else(LookupFirst(a, t), LookupFirst(b, t))
  {
    if b == [] {
      assert a + b == a;
    } else {
      LookupConcat(a, Init(b), t);
      assert Init(a + b) == a + Init(b);
    }
  }

  lemma {:induction false} LookupAbsent(s: seq<Bar>, t: int)
    requires forall i :: 0 <= i < |s| ==> s[i].time != t
    ensures Lookup(s, t) == LookupFirst(s, t) == None
  {
    if s != [] { LookupAbsent(Init(s), t); }
  }

  lemma {:induction false} LookupFound(s: seq<Bar>, i: nat)
    requires i < |s|
    ensures Lookup(s, s[i].time).Some? && LookupFirst(s, s[i].time).Some?
  {
    if i < |s| - 1 { LookupFound(Init(s), i); }
  }

  lemma {:induction false} LookupHasTime(s: seq<Bar>, t: int)
    requires Lookup(s, t).Some?
    ensures Lookup(s, t).value.time == t && Lookup(s, t).value in s
  {
    if Last(s).time != t { LookupHasTime(Init(s), t); }
  }

  /** Without repeated times it does not matter whether later or earlier entries win. */
  lemma {:induction false} AscendingLookup(s: seq<Bar>, t: int)
    requires Ascending(s)
    ensures Lookup(s, t) == LookupFirst(s, t)
  {
    if s != [] {
      AscendingLookup(Init(s), t);
      if Last(s).time == t { LookupAbsent(Init(s), t); }
    }
  }

  ghost predicate SameBars(s: seq<Bar>, r: seq<Bar>)
  {
    forall t :: Lookup(s, t) == Lookup(r, t)
  }

  /** An ascending sequence is determined by which bar it holds for each time. */
  lemma {:induction false} AscendingUnique(s: seq<Bar>, r: seq<Bar>)
    requires Ascending(s) && Ascending(r)
    requires SameBars(s, r)
    ensures s == r
  {
    if s == [] || r == [] {
      NonEmptyHasBar(s);
      NonEmptyHasBar(r);
    } else {
      NewestKnown(s, r);
      NewestKnown(r, s);
      forall t
        ensures Lookup(Init(s), t) == Lookup(Init(r), t)
      {
        assert Lookup(s, t) == Lookup(r, t);
        if t == Last(s).time {
          LookupAbsent(Init(s), t);
          LookupAbsent(Init(r), t);
        }
      }
      AscendingUnique(Init(s), Init(r));
      assert s == Init(s) + [Last(s)] && r == Init(r) + [Last(r)];
    }
  }

  lemma NonEmptyHasBar(s: seq<Bar>)
    ensures s != [] ==> exists t :: Lookup(s, t).Some?
  {
    if s != [] { assert Lookup(s, Last(s).time).Some?; }
  }

  lemma NewestKnown(s: seq<Bar>, r: seq<Bar>)
    requires s != [] && r != [] && Ascending(s) && SameBars(s, r)
    ensures Last(r).time <= Last(s).time
    ensures Last(r).time == Last(s).time ==> Last(r) == Last(s)
  {
    var t := Last(r).time;
    assert Lookup(s, t) == Lookup(r, t) == Some(Last(r));
    LookupHasTime(s, t);
  }

  // ---- Library sorting and deduplication --------------------------------

  /** Insert after every bar that is not later: one step of a stable sort by time. */
  function InsertStable(s: seq<Bar>, b: Bar): seq<Bar>
  {
    if s == [] || Last(s).time <= b.time then s + [b] else InsertStable(Init(s), b) + [Last(s)]
  }

  /** `sorted(s, key=time)`: a stable sort. */
  function StableSort(s: seq<Bar>): seq<Bar>
  {
    if s == [] then [] else InsertStable(StableSort(Init(s)), Last(s))
  }

  lemma {:induction false} InsertStableSorted(s: seq<Bar>, b: Bar)
    requires Sorted(s)
    ensures Sorted(InsertStable(s, b)) && |InsertStable(s, b)| == |s| + 1
    ensures Last(InsertStable(s, b)).time == if s == [] then b.time else MaxInt(Last(s).time, b.time)
  {
    hide Sorted;
    SortedAppend(s, b);
    if s != [] && Last(s).time > b.time {
      SplitLast(s);
      SortedAppend(Init(s), Last(s));
      InsertStableSorted(Init(s), b);
      SortedAppend(InsertStable(Init(s), b), Last(s));
    }
  }

  lemma {:induction false} InsertStableAscends(s: seq<Bar>, b: Bar)
    requires Ascending(s) && Lookup(s, b.time) == None
    ensures Ascending(InsertStable(s, b))
    ensures InsertStable(s, b) != []
    ensures Last(InsertStable(s, b)).time == if s == [] then b.time else MaxInt(Last(s).time, b.time)
  {
    hide Ascending, Lookup;
    AscendingAppend(s, b);
    if s != [] {
      var init, last := Init(s), Last(s);
      SplitLast(s);
      LookupAppend(init, last, b.time);
      if last.time > b.time {
        AscendingAppend(init, last);
        InsertStableAscends(init, b);
        AscendingAppend(InsertStable(init, b), last);
      }
    }
  }

  lemma {:induction false} InsertStableLookup(s: seq<Bar>, b: Bar, t: int)
    ensures Lookup(InsertStable(s, b), t) == if t == b.time then Some(b) else Lookup(s, t)
    ensures LookupFirst(InsertStable(s, b), t) == LookupFirst(s + [b], t)
  {
    hide Lookup, LookupFirst;
    LookupAppend(s, b, t);
    if s != [] && Last(s).time > b.time {
      var init, last := Init(s), Last(s);
      SplitLast(s);
      LookupAppend(init, last, t);
      LookupAppend(init, b, t);
      InsertStableLookup(init, b, t);
      LookupAppend(InsertStable(init, b), last, t);
    }
  }

  lemma {:induction false} StableSortSorted(s: seq<Bar>)
    ensures Sorted(StableSort(s)) && |StableSort(s)| == |s|
  {
    if s != [] {
      StableSortSorted(Init(s));
      InsertStableSorted(StableSort(Init(s)), Last(s));
    }
  }

  lemma {:induction false} StableSortLookup(s: seq<Bar>, t: int)
    ensures Lookup(StableSort(s), t) == Lookup(s, t)
    ensures LookupFirst(StableSort(s), t) == LookupFirst(s, t)
  {
    if s != [] {
      var init, last := Init(s), Last(s);
      SplitLast(s);
      hide Lookup, LookupFirst, InsertStable, Init, Last;
      StableSortLookup(init, t);
      InsertStableLookup(StableSort(init), last, t);
      LookupAppend(init, last, t);
      LookupAppend(StableSort(init), last, t);
    }
  }

  ghost predicate DistinctTimes(d: seq<Bar>)
  {
    forall i, j :: 0 <= i < j < |d| ==> d[i].time != d[j].time
  }

  lemma {:induction false} DistinctSortAscends(d: seq<Bar>)
    requires DistinctTimes(d)
    ensures Ascending(StableSort(d))
  {
    if d != [] {
      DistinctSortAscends(Init(d));
      StableSortLookup(Init(d), Last(d).time);
      LookupAbsent(Init(d), Last(d).time);
      InsertStableAscends(StableSort(Init(d)), Last(d));
    }
  }

  /** `drop_duplicates(keep="first")` on a sorted sequence. */
  function KeepFirst(s: seq<Bar>): seq<Bar>
  {
    if s == [] then []
    else
      var kept := KeepFirst(Init(s));
      if kept != [] && Last(kept).time == Last(s).time then kept else kept + [Last(s)]
  }

  lemma {:induction false} KeepFirstAscends(s: seq<Bar>)
    requires Sorted(s)
    ensures Ascending(KeepFirst(s)) && |KeepFirst(s)| <= |s|
    ensures s != [] ==> KeepFirst(s) != [] && Last(KeepFirst(s)).time == Last(s).time
  {
    if s != [] {
      KeepFirstAscends(Init(s));
      Append(KeepFirst(Init(s)), Last(s));
    }
  }

  lemma {:induction false} KeepFirstLookup(s: seq<Bar>, t: int)
    requires Sorted(s)
    ensures Lookup(KeepFirst(s), t) == LookupFirst(s, t)
  {
    if s != [] {
      var kept := KeepFirst(Init(s));
      KeepFirstLookup(Init(s), t);
      KeepFirstAscends(Init(s));
      Append(kept, Last(s));
      if Last(s).time == t {
        if kept == [] || Last(kept).time != t {
          LookupAbsent(kept, t);
        }
      }
    }
  }
}

/** Candidate deduplication and the resumable extraction phase. */
module Extraction {
  import opened Numbers

  /** An extracted strategy; `details` stands for the fields nothing here looks at. */
  datatype Candidate = Candidate(name: string, parameters: map<string, string>, details: string)

  /** ASCII whitespace, as `str.strip` sees it. */
  predicate Blank(c: char) { 9 <= c as int <= 13 || 28 <= c as int <= 32 }

  function StripLeft(s: string): string
  {
    if s != [] && Blank(s[0]) then StripLeft(s[1..]) else s
  }

  function StripRight(s: string): string
  {
    if s != [] && Blank(s[|s| - 1]) then StripRight(s[..|s| - 1]) else s
  }

  function LowerChar(c: char): char
  {
    if 'A' <= c <= 'Z' then (c as int + 32) as char else c
  }

  function Lower(s: string): string { seq(|s|, i requires 0 <= i < |s| => LowerChar(s[i])) }

  /** `name.strip().lower()` on ASCII names. */
  function Key(c: Candidate): string { Lower(StripRight(StripLeft(c.name))) }

  // ---- Which names share a key ------------------------------------------

  /** The ASCII whitespace characters: tab to carriage return, the four separators and the space. */
  const WHITESPACE: set<int> := {9, 10, 11, 12, 13, 28, 29, 30, 31, 32}

  ghost predicate AllBlank(s: string) { forall i :: 0 <= i < |s| ==> s[i] as int in WHITESPACE }

  /** Without whitespace at either end. */
  predicate Trimmed(s: string)
  {
    s == [] || (s[0] as int !in WHITESPACE && s[|s| - 1] as int !in WHITESPACE)
  }

  lemma {:induction false} StripLeftOf(l: string, s: string)
    requires AllBlank(l) && (s == [] || !Blank(s[0]))
    ensures StripLeft(l + s) == s
  {
    if l == [] {
      assert l + s == s;
    } else {
      StripLeftOf(l[1..], s);
      assert (l + s)[1..] == l[1..] + s;
    }
  }

  lemma {:induction false} StripRightOf(s: string, r: string)
    requires AllBlank(r) && (s == [] || !Blank(s[|s| - 1]))
    ensures StripRight(s + r) == s
  {
    if r == [] {
      assert s + r == s;
    } else {
      StripRightOf(s, r[..|r| - 1]);
      assert (s + r)[..|s + r| - 1] == s + r[..|r| - 1];
    }
  }

  lemma {:induction false} StripLeftOfBlanks(s: string)
    requires AllBlank(s)
    ensures StripLeft(s) == []
  {
    if s != [] { StripLeftOfBlanks(s[1..]); }
  }

  /** The name is the core with whitespace around it. */
  ghost predicate Surrounds(name: string, left: string, core: string, right: string)
  {
    name == left + core + right && AllBlank(left) && AllBlank(right) && Trimmed(core)
  }

  lemma KeyIsLowerCore(c: Candidate, left: string, core: string, right: string)
    requires Surrounds(c.name, left, core, right)
    ensures Key(c) == Lower(core)
  {
    if core == [] {
      StripLeftOfBlanks(c.name);
    } else {
      assert left + core + right == left + (core + right);
      StripLeftOf(left, core + right);
      StripRightOf(core, right);
    }
  }

  /** The same character, or the two cases of one ASCII letter. */
  predicate SameLetter(a: char, b: char)
  {
    || a == b
    || ('A' <= a <= 'Z' && b as int == a as int + 32)
    || ('A' <= b <= 'Z' && a as int == b as int + 32)
  }

  lemma LowerIff(a: string, b: string)
    ensures Lower(a) == Lower(b) <==> |a| == |b| && forall i :: 0 <= i < |a| ==> SameLetter(a[i], b[i])
  {
    forall i | 0 <= i < |a| && i < |b| ensures LowerChar(a[i]) == LowerChar(b[i]) <==> SameLetter(a[i], b[i]) {}
    hide LowerChar, SameLetter;
    assert |Lower(a)| == |a| && |Lower(b)| == |b|;
    if Lower(a) == Lower(b) {
      forall i | 0 <= i < |a| ensures SameLetter(a[i], b[i]) {
        assert Lower(a)[i] == Lower(b)[i];
      }
    }
  }

  /** Two names share a key exactly if they are the same letters in any case, whatever whitespace surrounds
      them. */
  lemma SameKeyIff(a: Candidate, b: Candidate, la: string, coreA: string, ra: string,
                   lb: string, coreB: string, rb: string)
    requires Surrounds(a.name, la, coreA, ra) && Surrounds(b.name, lb, coreB, rb)
    ensures Key(a) == Key(b)
            <==> |coreA| == |coreB| && forall i :: 0 <= i < |coreA| ==> SameLetter(coreA[i], coreB[i])
  {
    hide Key, Lower, Surrounds, SameLetter;
    KeyIsLowerCore(a, la, coreA, ra);
    KeyIsLowerCore(b, lb, coreB, rb);
    LowerIff(coreA, coreB);
  }

  /** Every name has such a core. */
  lemma {:induction false} EveryNameHasACore(name: string) returns (left: string, core: string, right: string)
    ensures Surrounds(name, left, core, right)
    decreases |name|
  {
    left, core, right := [], name, [];
    if name != [] && Blank(name[0]) {
      left, core, right := EveryNameHasACore(name[1..]);
      left := [name[0]] + left;
    } else if name != [] && Blank(name[|name| - 1]) {
      left, core, right := EveryNameHasACore(name[..|name| - 1]);
      right := right + [name[|name| - 1]];
      assert name == left + core + right;
    }
  }

  // ---- Deduplication ----------------------------------------------------

  /** The dictionary's values in insertion order; a same-named candidate takes over the slot only with
      strictly more parameters. */
  function Put(d: seq<Candidate>, c: Candidate): seq<Candidate>
  {
    if d == [] then [c]
    else if Key(d[0]) == Key(c) then
      if |c.parameters| > |d[0].parameters| then [c] + d[1..] else d
    else [d[0]] + Put(d[1..], c)
  }

  function PutAll(d: seq<Candidate>, cs: seq<Candidate>): seq<Candidate>
  {
    if cs == [] then d else Put(PutAll(d, cs[..|cs| - 1]), cs[|cs| - 1])
  }

  function Dedup(cs: seq<Candidate>): seq<Candidate> { PutAll([], cs) }

  /** Candidates filed under other names are passed over. */
  lemma {:induction false} PutSkips(d: seq<Candidate>, c: Candidate, slot: nat)
    requires slot <= |d| && forall i :: 0 <= i < slot ==> Key(d[i]) != Key(c)
    ensures Put(d, c) == d[..slot] + Put(d[slot..], c)
  {
    hide Key;
    if slot > 0 {
      PutSkips(d[1..], c, slot - 1);
      assert d[1..][slot - 1..] == d[slot..];
      assert d[..slot] == [d[0]] + d[1..][..slot - 1];
    }
  }

  /** Assign into the dictionary: a known key keeps its slot. */
  method Overlay(values: seq<Candidate>, c: Candidate) returns (values': seq<Candidate>)
    ensures values' == Put(values, c)
  {
    hide Key;
    var slot := 0;
    while slot < |values| && Key(values[slot]) != Key(c)
      invariant 0 <= slot <= |values|
      invariant forall i :: 0 <= i < slot ==> Key(values[i]) != Key(c)
    {
      slot := slot + 1;
    }
    PutSkips(values, c, slot);
    assert slot < |values| ==> values[slot..][0] == values[slot] && values[slot..][1..] == values[slot + 1..];
    if slot == |values| {
      values' := values + [c];
    } else if |c.parameters| > |values[slot].parameters| {
      values' := values[..slot] + [c] + values[slot + 1..];
    } else {
      values' := values;
    }
  }

  method DedupCandidates(candidates: seq<Candidate>) returns (values: seq<Candidate>)
    ensures values == Dedup(candidates)
  {
    hide Put;
    values := [];
    var k := 0;
    while k < |candidates|
      invariant 0 <= k <= |candidates|
      invariant values == Dedup(candidates[..k])
    {
      assert candidates[..k + 1][..k] == candidates[..k];
      values := Overlay(values, candidates[k]);
      k := k + 1;
    }
    assert candidates[..k] == candidates;
  }

  // ---- What deduplication keeps -----------------------------------------

  ghost predicate DistinctKeys(d: seq<Candidate>)
  {
    forall i, j :: 0 <= i < j < |d| ==> Key(d[i]) != Key(d[j])
  }

  /** The first candidate filed under a key. */
  function Get(d: seq<Candidate>, k: string): Option<Candidate>
  {
    if d == [] then None else if Key(d[0]) == k then Some(d[0]) else Get(d[1..], k)
  }

  lemma {:induction false} GetPut(d: seq<Candidate>, c: Candidate, k: string)
    ensures Get(Put(d, c), k) ==
              if k == Key(c) && (Get(d, k).None? || |c.parameters| > |Get(d, k).value.parameters|)
              then Some(c) else Get(d, k)
  {
    hide Key;
    if d != [] {
      GetPut(d[1..], c, k);
      assert ([d[0]] + Put(d[1..], c))[1..] == Put(d[1..], c);
    }
  }

  /** Among the candidates with a key, the first of those with the most parameters. */
  ghost predicate IsBest(cs: seq<Candidate>, k: string, w: Option<Candidate>)
  {
    match w
    case None => forall j :: 0 <= j < |cs| ==> Key(cs[j]) != k
    case Some(c) =>
      exists i :: 0 <= i < |cs| && cs[i] == c && Key(cs[i]) == k && BestAt(cs, i)
  }

  /** `cs[i]` beats every earlier candidate with its key and is not beaten by a later one. */
  ghost predicate BestAt(cs: seq<Candidate>, i: nat)
    requires i < |cs|
  {
    && (forall j :: 0 <= j < i && Key(cs[j]) == Key(cs[i]) ==> |cs[j].parameters| < |cs[i].parameters|)
    && (forall j :: i < j < |cs| && Key(cs[j]) == Key(cs[i]) ==> |cs[j].parameters| <= |cs[i].parameters|)
  }

  /** A challenger with more parameters than the best becomes the best. */
  lemma ChallengerWins(cs: seq<Candidate>, i: nat, c: Candidate)
    requires i < |cs| && BestAt(cs, i) && Key(cs[i]) == Key(c) && |c.parameters| > |cs[i].parameters|
    ensures BestAt(cs + [c], |cs|)
  {
    hide Key;
  }

  /** Any other candidate leaves the best where it is. */
  lemma BestStays(cs: seq<Candidate>, i: nat, c: Candidate)
    requires i < |cs| && BestAt(cs, i)
    requires Key(cs[i]) == Key(c) ==> |c.parameters| <= |cs[i].parameters|
    ensures BestAt(cs + [c], i)
  {
    hide Key;
  }

  lemma BestAppend(cs: seq<Candidate>, k: string, w: Option<Candidate>, c: Candidate)
    requires IsBest(cs, k, w)
    ensures IsBest(cs + [c], k, if k == Key(c) && (w.None? || |c.parameters| > |w.value.parameters|)
                               then Some(c) else w)
  {
    hide Key;
    var more := cs + [c];
    if w.Some? {
      var i :| 0 <= i < |cs| && cs[i] == w.value && Key(cs[i]) == k && BestAt(cs, i);
      hide BestAt;
      if k == Key(c) && |c.parameters| > |w.value.parameters| {
        ChallengerWins(cs, i, c);
        assert more[|cs|] == c;
      } else {
        BestStays(cs, i, c);
        assert more[i] == w.value;
      }
    } else if k == Key(c) {
      assert more[|cs|] == c && BestAt(more, |cs|);
    }
  }

  /** For every name the result keeps the first candidate with the most parameters, and a name without
      candidates is absent. */
  lemma {:induction false} DedupKeepsBest(cs: seq<Candidate>, k: string)
    ensures IsBest(cs, k, Get(Dedup(cs), k))
  {
    hide Key, Put, IsBest;
    if cs == [] {
      NothingIsBest(cs, k);
    } else {
      var init, c := cs[..|cs| - 1], cs[|cs| - 1];
      DedupKeepsBest(init, k);
      GetPut(Dedup(init), c, k);
      BestAppend(init, k, Get(Dedup(init), k), c);
      assert cs == init + [c];
    }
  }

  lemma NothingIsBest(cs: seq<Candidate>, k: string)
    requires cs == []
    ensures IsBest(cs, k, None)
  {
  }

  function Keys(d: seq<Candidate>): (ks: seq<string>)
    ensures |ks| == |d| && forall i :: 0 <= i < |d| ==> ks[i] == Key(d[i])
  {
    seq(|d|, i requires 0 <= i < |d| => Key(d[i]))
  }

  /** The distinct names in order of first appearance. */
  function FirstKeys(cs: seq<Candidate>): seq<string>
  {
    if cs == [] then []
    else
      var before := FirstKeys(cs[..|cs| - 1]);
      var k := Key(cs[|cs| - 1]);
      if k in before then before else before + [k]
  }

  lemma {:induction false} KeysOfPut(d: seq<Candidate>, c: Candidate)
    ensures Keys(Put(d, c)) == if Key(c) in Keys(d) then Keys(d) else Keys(d) + [Key(c)]
  {
    hide Key;
    if d != [] {
      KeysOfPut(d[1..], c);
      assert Keys(d) == [Key(d[0])] + Keys(d[1..]);
      assert d == [d[0]] + d[1..];
      if Key(d[0]) != Key(c) {
        assert Keys([d[0]] + Put(d[1..], c)) == [Key(d[0])] + Keys(Put(d[1..], c));
      }
    }
  }

  /** The result lists each name once, in order of first appearance. */
  lemma {:induction false} DedupKeepsOrder(cs: seq<Candidate>)
    ensures Keys(Dedup(cs)) == FirstKeys(cs)
    ensures DistinctKeys(Dedup(cs))
  {
    hide Key, Put;
    if cs != [] {
      var init, c := cs[..|cs| - 1], cs[|cs| - 1];
      DedupKeepsOrder(init);
      KeysOfPut(Dedup(init), c);
      DistinctExtends(Dedup(init), Dedup(cs), Key(c));
    }
  }

  lemma DistinctExtends(d: seq<Candidate>, r: seq<Candidate>, k: string)
    requires DistinctKeys(d)
    requires Keys(r) == if k in Keys(d) then Keys(d) else Keys(d) + [k]
    ensures DistinctKeys(r)
  {
    hide Key;
    assert forall i :: 0 <= i < |d| ==> Keys(d)[i] in Keys(d);
    assert forall i :: 0 <= i < |r| ==> Keys(r)[i] == Key(r[i]);
    assert forall i :: 0 <= i < |d| ==> Keys(r)[i] == Key(d[i]);
  }

  // ---- Resuming ---------------------------------------------------------

  lemma {:induction false} PutAllConcat(d: seq<Candidate>, a: seq<Candidate>, b: seq<Candidate>)
    ensures PutAll(d, a + b) == PutAll(PutAll(d, a), b)
  {
    hide Put;
    if b == [] {
      assert a + b == a;
    } else {
      PutAllConcat(d, a, b[..|b| - 1]);
      assert (a + b)[..|a + b| - 1] == a + b[..|b| - 1];
    }
  }

  lemma {:induction false} PutNew(d: seq<Candidate>, c: Candidate)
    requires forall i :: 0 <= i < |d| ==> Key(d[i]) != Key(c)
    ensures Put(d, c) == d + [c]
  {
    if d != [] {
      PutNew(d[1..], c);
      assert d == [d[0]] + d[1..];
    }
  }

  lemma {:induction false} DedupOfDistinct(d: seq<Candidate>)
    requires DistinctKeys(d)
    ensures Dedup(d) == d
  {
    if d != [] {
      var n := |d| - 1;
      DedupOfDistinct(d[..n]);
      PutNew(d[..n], d[n]);
      assert d == d[..n] + [d[n]];
    }
  }

  /** Deduplicating what was already deduplicated together with more is deduplicating everything. */
  lemma DedupResumes(a: seq<Candidate>, b: seq<Candidate>)
    ensures Dedup(Dedup(a) + b) == Dedup(a + b)
  {
    DedupKeepsOrder(a);
    DedupOfDistinct(Dedup(a));
    PutAllConcat([], Dedup(a), b);
    PutAllConcat([], a, b);
  }

  /** What the checkpoint file holds about the extraction phase. */
  datatype Saved = Saved(chunksDone: nat, strategies: seq<Candidate>, extracted: bool)

  function Flatten(results: seq<seq<Candidate>>): seq<Candidate>
  {
    if results == [] then [] else Flatten(results[..|results| - 1]) + results[|results| - 1]
  }

  /** The candidates in hand before chunk `i`, starting from a saved state. */
  function InHand(cp: Saved, results: seq<seq<Candidate>>, i: nat): seq<Candidate>
    requires i <= |results|
  {
    if i <= cp.chunksDone then cp.strategies else cp.strategies + Flatten(results[cp.chunksDone..i])
  }

  /** What is saved before chunk `i`: nothing new while skipping the chunks done earlier, then the
      deduplication of everything in hand. */
  function Progress(cp: Saved, results: seq<seq<Candidate>>, i: nat): Saved
    requires i <= |results|
  {
    if i <= cp.chunksDone then cp else Saved(i, Dedup(InHand(cp, results, i)), cp.extracted)
  }

  /** One process that dies after `budget` saves: skip the phase if it is marked complete; otherwise
      extract chunk after chunk, saving after each, and at last save the mark. */
  function Attempt(cp: Saved, results: seq<seq<Candidate>>, budget: nat): Saved
  {
    if cp.extracted then cp
    else if cp.chunksDone + budget <= |results| || budget == 0
    then Progress(cp, results, MinInt(|results|, cp.chunksDone + budget))
    else Progress(cp, results, |results|).(extracted := true)
  }

  function Attempts(cp: Saved, results: seq<seq<Candidate>>, budgets: seq<nat>): Saved
  {
    if budgets == [] then cp
    else Attempt(Attempts(cp, results, budgets[..|budgets| - 1]), results, budgets[|budgets| - 1])
  }

  lemma InHandStep(cp: Saved, results: seq<seq<Candidate>>, i: nat)
    requires cp.chunksDone <= i < |results|
    ensures InHand(cp, results, i + 1) == InHand(cp, results, i) + results[i]
  {
    var from := cp.chunksDone;
    assert results[from..i + 1][..i - from] == results[from..i];
    assert results[from..from] == [];
    if i == from {
      assert cp.strategies + ([] + results[i]) == cp.strategies + results[i];
    } else {
      assert cp.strategies + (Flatten(results[from..i]) + results[i]) == InHand(cp, results, i) + results[i];
    }
  }

  /** Nothing changes while skipping the chunks done earlier. */
  lemma SkippedChunk(cp: Saved, results: seq<seq<Candidate>>, i: nat)
    requires i <= cp.chunksDone && i <= |results|
    ensures InHand(cp, results, i) == cp.strategies && Progress(cp, results, i) == cp
  {
  }

  /** Where the loop stands before chunk `i`: what is saved, what is in hand, how many saves are left. */
  ghost predicate Reached(start: Saved, results: seq<seq<Candidate>>, budget: nat, i: nat,
                          cp: Saved, inHand: seq<Candidate>, left: int)
  {
    && i <= |results|
    && !start.extracted
    && inHand == InHand(start, results, i)
    && cp == Progress(start, results, i)
    && left == (if i <= start.chunksDone then budget else budget - (i - start.chunksDone)) >= 0
  }

  lemma ReachedStart(start: Saved, results: seq<seq<Candidate>>, budget: nat)
    requires !start.extracted
    ensures Reached(start, results, budget, 0, start, start.strategies, budget)
  {
    SkippedChunk(start, results, 0);
  }

  /** A chunk done earlier changes nothing; any other one costs a save. */
  lemma ReachedStep(start: Saved, results: seq<seq<Candidate>>, budget: nat, i: nat,
                    cp: Saved, inHand: seq<Candidate>, left: int)
    requires i < |results| && Reached(start, results, budget, i, cp, inHand, left)
    ensures cp.extracted == start.extracted == false
    ensures i < cp.chunksDone ==> Reached(start, results, budget, i + 1, cp, inHand, left)
    ensures i >= cp.chunksDone ==>
              && start.chunksDone <= i
              && inHand == InHand(start, results, i)
              && (left > 0 ==> Reached(start, results, budget, i + 1, Progress(start, results, i + 1),
                                       InHand(start, results, i + 1), left - 1))
  {
    hide InHand, Dedup;
    if i < start.chunksDone {
      SkippedChunk(start, results, i);
      SkippedChunk(start, results, i + 1);
    }
  }

  lemma ReachedEnd(start: Saved, results: seq<seq<Candidate>>, budget: nat, i: nat,
                   cp: Saved, inHand: seq<Candidate>, left: int)
    requires Reached(start, results, budget, i, cp, inHand, left)
    requires i == |results| || (i >= cp.chunksDone && left <= 0)
    ensures Attempt(start, results, budget) == if i == |results| && left > 0 then cp.(extracted := true) else cp
  {
    hide InHand, Dedup;
  }

  class AgentCheckpoint {
    var chunksDone: nat
    var strategies: seq<Candidate>
    var extracted: bool

    function Value(): Saved
      reads this
    {
      Saved(chunksDone, strategies, extracted)
    }

    constructor ()
      ensures Value() == Saved(0, [], false)
    {
      chunksDone, strategies, extracted := 0, [], false;
    }

    /** Extract chunk `i`, deduplicate everything in hand and save. */
    method ExtractChunk(results: seq<seq<Candidate>>, i: nat, inHand: seq<Candidate>, ghost start: Saved)
      returns (inHand': seq<Candidate>)
      requires start.chunksDone <= i < |results|
      requires inHand == InHand(start, results, i) && extracted == start.extracted
      modifies this
      ensures inHand' == InHand(start, results, i + 1)
      ensures Value() == Progress(start, results, i + 1)
      ensures chunksDone == i + 1 && extracted == old(extracted)
    {
      InHandStep(start, results, i);
      hide InHand, Dedup;
      inHand' := inHand + results[i];
      chunksDone := i + 1;
      strategies := DedupCandidates(inHand');
    }

    /** The extraction loop over this checkpoint; `results[i]` is what chunk `i` yields and `budget`
        how many saves the process lives for, the phase mark included. */
    method ExtractPhase(results: seq<seq<Candidate>>, budget: nat)
      modifies this
      ensures Value() == Attempt(old(Value()), results, budget)
    {
      if extracted { return; }
      hide InHand, Progress, Reached, Attempt;
      var allCandidates := strategies;
      ghost var start := Value();
      var i := 0;
      var left := budget;
      ReachedStart(start, results, budget);
      while i < |results| && (i < chunksDone || left > 0)
        invariant 0 <= i <= |results|
        invariant Reached(start, results, budget, i, Value(), allCandidates, left)
      {
        ReachedStep(start, results, budget, i, Value(), allCandidates, left);
        if i >= chunksDone {
          allCandidates := ExtractChunk(results, i, allCandidates, start);
          left := left - 1;
        }
        i := i + 1;
      }
      ReachedEnd(start, results, budget, i, Value(), allCandidates, left);
      if i == |results| && left > 0 { extracted := true; }
    }
  }

  /** The saved strategies are those of one uninterrupted pass over the chunks done so far. */
  ghost predicate OnePass(cp: Saved, results: seq<seq<Candidate>>)
  {
    && cp.chunksDone <= |results|
    && cp.strategies == Dedup(Flatten(results[..cp.chunksDone]))
    && (cp.extracted ==> cp.chunksDone == |results|)
  }

  lemma {:induction false} FlattenConcat(a: seq<seq<Candidate>>, b: seq<seq<Candidate>>)
    ensures Flatten(a + b) == Flatten(a) + Flatten(b)
  {
    if b == [] {
      assert a + b == a;
    } else {
      FlattenConcat(a, b[..|b| - 1]);
      assert (a + b)[..|a + b| - 1] == a + b[..|b| - 1];
    }
  }

  lemma FlattenSlices(results: seq<seq<Candidate>>, from: nat, to: nat)
    requires from <= to <= |results|
    ensures Flatten(results[..to]) == Flatten(results[..from]) + Flatten(results[from..to])
  {
    assert results[..to] == results[..from] + results[from..to];
    FlattenConcat(results[..from], results[from..to]);
  }

  lemma ProgressIsOnePass(cp: Saved, results: seq<seq<Candidate>>, i: nat)
    requires OnePass(cp, results) && cp.chunksDone <= i <= |results|
    ensures Progress(cp, results, i).strategies == Dedup(Flatten(results[..i]))
            && Progress(cp, results, i).chunksDone == i
  {
    hide Dedup, Flatten;
    var from := cp.chunksDone;
    FlattenSlices(results, from, i);
    DedupResumes(Flatten(results[..from]), Flatten(results[from..i]));
  }

  lemma AttemptKeepsOnePass(cp: Saved, results: seq<seq<Candidate>>, budget: nat)
    requires OnePass(cp, results)
    ensures OnePass(Attempt(cp, results, budget), results)
  {
    hide Flatten, Dedup;
    ProgressIsOnePass(cp, results, MinInt(|results|, cp.chunksDone + budget));
    ProgressIsOnePass(cp, results, |results|);
  }

  /** However often the process dies and is restarted, the saved strategies are those of one
      uninterrupted pass over the finished chunks, and of the whole book once the phase is marked. */
  lemma {:induction false} ResumeEqualsUninterrupted(results: seq<seq<Candidate>>, budgets: seq<nat>)
    ensures var cp := Attempts(Saved(0, [], false), results, budgets);
            && OnePass(cp, results)
            && (cp.extracted ==> cp.strategies == Dedup(Flatten(results)))
  {
    if budgets == [] {
      assert results[..0] == [];
    } else {
      ResumeEqualsUninterrupted(results, budgets[..|budgets| - 1]);
      AttemptKeepsOnePass(Attempts(Saved(0, [], false), results, budgets[..|budgets| - 1]),
                          results, budgets[|budgets| - 1]);
    }
    assert results[..|results|] == results;
  }

  function Total(budgets: seq<nat>): nat
  {
    if budgets == [] then 0 else Total(budgets[..|budgets| - 1]) + budgets[|budgets| - 1]
  }

  /** No save is wasted: after any deaths and restarts exactly as many chunks are done as there were saves,
      and the phase is marked if and only if there was one save more than chunks. */
  lemma {:induction false} SavesAddUp(results: seq<seq<Candidate>>, budgets: seq<nat>)
    ensures var cp := Attempts(Saved(0, [], false), results, budgets);
            && cp.chunksDone == MinInt(|results|, Total(budgets))
            && (cp.extracted <==> Total(budgets) > |results|)
  {
    hide Dedup, InHand;
    if budgets != [] { SavesAddUp(results, budgets[..|budgets| - 1]); }
  }
}

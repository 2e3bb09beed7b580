/** Which sections lie in which chunk. */
module ChunkTiling {
  import opened Chunking

  /** A run of small sections packed into one chunk, or one oversize section cut into several. */
  datatype Group = Packed(from: nat, upTo: nat) | Cut(at: nat)

  function Begin(g: Group): nat { if g.Packed? then g.from else g.at }

  function End(g: Group): nat { if g.Packed? then g.upTo else g.at + 1 }

  ghost predicate SmallRun(sections: seq<Section>, i: nat, j: nat)
  {
    i <= j <= |sections| && forall k :: i <= k < j ==> !Oversize(sections[k])
  }

  ghost predicate Fits(sections: seq<Section>, g: Group)
  {
    match g
    case Packed(i, j) => i < j && SmallRun(sections, i, j)
    case Cut(i) => i < |sections| && Oversize(sections[i])
  }

  /** One chunk with the run's whole rendered sections under its first heading, or the cuts of the one
      section. */
  ghost function ChunksOf(sections: seq<Section>, g: Group): seq<Chunk>
    requires Fits(sections, g)
  {
    match g
    case Packed(i, j) =>
      var body := Join(RenderedAll(sections[i..j]));
      [Chunk(if sections[i].path == [] then ["(root)"] else sections[i].path, body, |body| / CHARS_PER_TOKEN)]
    case Cut(i) => SplitSection([], sections[i])
  }

  /** The groups follow each other without gap or overlap from section 0 to section `n`. */
  ghost predicate Tile(sections: seq<Section>, groups: seq<Group>, n: nat)
  {
    if groups == [] then n == 0
    else
      var last := groups[|groups| - 1];
      Fits(sections, last) && End(last) == n && Tile(sections, groups[..|groups| - 1], Begin(last))
  }

  ghost function AllChunks(sections: seq<Section>, groups: seq<Group>, n: nat): seq<Chunk>
    requires Tile(sections, groups, n)
  {
    if groups == [] then []
    else
      var last := groups[|groups| - 1];
      AllChunks(sections, groups[..|groups| - 1], Begin(last)) + ChunksOf(sections, last)
  }

  /** The packing loop's count for a run of sections. */
  function Counted(sections: seq<Section>, i: nat, j: nat): int
    requires i <= j <= |sections|
  {
    if i == j then 0 else Counted(sections, i, j - 1) + |sections[j - 1].body| + |Prefix(sections[j - 1])| + 8
  }

  /** No packed run leaves room for the section after it, by the loop's count, if that is packed too. */
  ghost predicate Full(sections: seq<Section>, g: Group, next: nat)
  {
    g.Packed? && g.from <= g.upTo == next < |sections| ==>
      Counted(sections, g.from, g.upTo) + |sections[next].body| > TARGET_CHARS
  }

  ghost predicate Greedy(sections: seq<Section>, groups: seq<Group>)
  {
    forall m :: 0 < m < |groups| && groups[m].Packed? ==> Full(sections, groups[m - 1], groups[m].from)
  }

  lemma TileAppend(sections: seq<Section>, groups: seq<Group>, g: Group)
    requires Fits(sections, g) && Tile(sections, groups, Begin(g))
    ensures Tile(sections, groups + [g], End(g))
    ensures AllChunks(sections, groups + [g], End(g)) == AllChunks(sections, groups, Begin(g)) + ChunksOf(sections, g)
  {
    assert (groups + [g])[..|groups|] == groups;
    hide Fits, ChunksOf;
  }

  // ---- Cutting does not look at the chunks before -----------------------

  lemma {:induction false} ParagraphsIgnoreChunks(path: seq<string>, chunks: seq<Chunk>, paras: seq<string>)
    ensures var q := AddParagraphs(path, Paragraphs([], [], 0), paras);
            AddParagraphs(path, Paragraphs(chunks, [], 0), paras) == Paragraphs(chunks + q.chunks, q.buf, q.chars)
  {
    hide Join;
    if paras == [] {
      assert chunks + [] == chunks;
    } else {
      var n := |paras| - 1;
      ParagraphsIgnoreChunks(path, chunks, paras[..n]);
      var q := AddParagraphs(path, Paragraphs([], [], 0), paras[..n]);
      var c := Chunk(path, Join(q.buf), q.chars / CHARS_PER_TOKEN);
      assert chunks + q.chunks + [c] == chunks + (q.chunks + [c]);
    }
  }

  lemma SplitIgnoresChunks(chunks: seq<Chunk>, s: Section)
    ensures SplitSection(chunks, s) == chunks + SplitSection([], s)
  {
    var paras := SplitBlank(s.body);
    ParagraphsIgnoreChunks(s.path, chunks, paras);
    var q := AddParagraphs(s.path, Paragraphs([], [], 0), paras);
    hide AddParagraphs, Join, SplitBlank;
    var c := Chunk(s.path, Join(q.buf), q.chars / CHARS_PER_TOKEN);
    assert chunks + q.chunks + [c] == chunks + (q.chunks + [c]);
  }

  // ---- The loop keeps a tiling ------------------------------------------

  /** Finished chunks tile the sections before `start`; the pending parts are those from `start` to `k`. */
  ghost predicate Tiled(sections: seq<Section>, k: nat, p: Packing, groups: seq<Group>, start: nat)
  {
    && start <= k <= |sections|
    && Tile(sections, groups, start) && p.chunks == AllChunks(sections, groups, start)
    && SmallRun(sections, start, k)
    && p.parts == RenderedAll(sections[start..k])
    && (start < k ==> p.path == sections[start].path)
    && p.chars == Counted(sections, start, k)
  }

  /** What is pending keeps the greedy order going. */
  ghost predicate PendingGreedy(sections: seq<Section>, k: nat, groups: seq<Group>, start: nat)
  {
    && Greedy(sections, groups)
    && (groups != [] && groups[|groups| - 1].Packed? ==>
          start < k <= |sections| && Full(sections, groups[|groups| - 1], start))
  }

  lemma FlushTiles(sections: seq<Section>, k: nat, p: Packing, groups: seq<Group>, start: nat)
    returns (groups': seq<Group>)
    requires Tiled(sections, k, p, groups, start) && PendingGreedy(sections, k, groups, start)
    ensures Tiled(sections, k, Flush(p), groups', k)
    ensures Greedy(sections, groups')
    ensures groups' == if start < k then groups + [Packed(start, k)] else groups
  {
    if start == k {
      groups' := groups;
      assert sections[start..k] == [] && RenderedAll([]) == [];
    } else {
      groups' := groups + [Packed(start, k)];
      assert Fits(sections, Packed(start, k));
      TileAppend(sections, groups, Packed(start, k));
      assert sections[k..k] == [] && |RenderedAll(sections[start..k])| > 0;
      hide RenderedAll, Join, Tile, AllChunks, Full, Counted;
      assert groups'[..|groups|] == groups;
      FlushMakesChunk(sections, k, p, start);
      PendingNothing(sections, k);
    }
  }

  lemma PendingNothing(sections: seq<Section>, k: nat)
    requires k <= |sections|
    ensures RenderedAll(sections[k..k]) == [] && Counted(sections, k, k) == 0
  {
  }

  lemma FlushMakesChunk(sections: seq<Section>, k: nat, p: Packing, start: nat)
    requires start < k <= |sections| && SmallRun(sections, start, k)
    requires p.parts == RenderedAll(sections[start..k]) && p.parts != [] && p.path == sections[start].path
    ensures Flush(p) == Packing(p.chunks + ChunksOf(sections, Packed(start, k)), p.path, [], 0)
  {
    hide RenderedAll, Join;
  }

  lemma RenderedNext(sections: seq<Section>, start: nat, k: nat)
    requires start <= k < |sections|
    ensures RenderedAll(sections[start..k + 1]) == RenderedAll(sections[start..k]) + [Rendered(sections[k])]
  {
    assert sections[start..k + 1] == sections[start..k] + [sections[k]];
    RenderedAppend(sections[start..k], sections[k]);
  }

  /** A small section joins the pending parts. */
  lemma JoinTiles(sections: seq<Section>, k: nat, p: Packing, groups: seq<Group>, start: nat)
    requires k < |sections| && !Oversize(sections[k])
    requires Tiled(sections, k, p, groups, start)
    ensures var s := sections[k];
            var r := Packing(p.chunks, if p.parts == [] then s.path else p.path, p.parts + [Part(s)],
                             p.chars + |s.body| + |Prefix(s)| + 8);
            Tiled(sections, k + 1, r, groups, start)
  {
    hide Tile, AllChunks, Part, Prefix, Oversize;
    RenderedNext(sections, start, k);
    RenderedSmall(sections[k]);
    assert |RenderedAll(sections[start..k])| == k - start;
  }

  lemma RenderedSmall(s: Section)
    ensures !Oversize(s) ==> Rendered(s) == Part(s)
  {
  }

  /** An oversize section is cut into chunks of its own. */
  lemma CutTiles(sections: seq<Section>, k: nat, p: Packing, groups: seq<Group>) returns (groups': seq<Group>)
    requires k < |sections| && Oversize(sections[k])
    requires Tiled(sections, k, p, groups, k) && Greedy(sections, groups)
    ensures Tiled(sections, k + 1, p.(chunks := SplitSection(p.chunks, sections[k])), groups', k + 1)
    ensures PendingGreedy(sections, k + 1, groups', k + 1)
  {
    groups' := groups + [Cut(k)];
    assert Fits(sections, Cut(k));
    TileAppend(sections, groups, Cut(k));
    SplitIgnoresChunks(p.chunks, sections[k]);
    PendingNothing(sections, k);
    PendingNothing(sections, k + 1);
    hide RenderedAll, Counted, Tile, AllChunks, SplitSection, Oversize;
  }

  lemma {:induction false} SectionsTile(sections: seq<Section>, k: nat) returns (groups: seq<Group>, start: nat)
    requires k <= |sections|
    ensures Tiled(sections, k, AddSections(sections[..k]), groups, start)
    ensures PendingGreedy(sections, k, groups, start)
  {
    if k == 0 {
      groups, start := [], 0;
      assert sections[..0] == [] == sections[0..0];
    } else {
      var s := sections[k - 1];
      assert sections[..k] == sections[..k - 1] + [s];
      AddSectionsStep(sections[..k - 1], s);
      groups, start := SectionsTile(sections, k - 1);
      var p := AddSections(sections[..k - 1]);
      assert p.chars == Counted(sections, start, k - 1) && (p.parts == [] <==> start == k - 1);
      hide AddSections, Tiled, Flush, Counted, SplitSection, Part, Prefix;
      if Oversize(s) {
        var flushed := FlushTiles(sections, k - 1, p, groups, start);
        groups := CutTiles(sections, k - 1, Flush(p), flushed);
        start := k;
      } else if p.chars + |s.body| > TARGET_CHARS && p.parts != [] {
        var flushed := FlushTiles(sections, k - 1, p, groups, start);
        JoinTiles(sections, k - 1, Flush(p), flushed, k - 1);
        assert Full(sections, Packed(start, k - 1), k - 1);
        groups, start := flushed, k - 1;
      } else {
        JoinTiles(sections, k - 1, p, groups, start);
      }
    }
  }

  /** The chunks are exactly those of a tiling of all sections, each section whole in one packed chunk or
      cut on its own, and no packed run stops while the next small section still fits. */
  lemma PackingTiles(sections: seq<Section>) returns (groups: seq<Group>)
    ensures Tile(sections, groups, |sections|)
    ensures Pack(sections) == AllChunks(sections, groups, |sections|)
    ensures Greedy(sections, groups)
  {
    var n := |sections|;
    assert sections[..n] == sections;
    var before, start := SectionsTile(sections, n);
    groups := FlushTiles(sections, n, AddSections(sections), before, start);
  }

  // ---- Cutting one section ----------------------------------------------

  /** The paragraph loop's count for a buffer: two extra characters a paragraph, but none for the paragraph a
      later buffer starts with. */
  function BufferChars(paras: seq<string>, i: nat, j: nat): int
    requires i <= j <= |paras|
    decreases j
  {
    if i == j then 0
    else if j == i + 1 && i > 0 then |paras[i]|
    else BufferChars(paras, i, j - 1) + |paras[j - 1]| + 2
  }

  /** The boundaries run from the first paragraph up to `start`. */
  ghost predicate Boundaries(cuts: seq<nat>, start: nat)
  {
    cuts != [] && cuts[0] == 0 && cuts[|cuts| - 1] == start && forall k :: 0 < k < |cuts| ==> cuts[k - 1] < cuts[k]
  }

  /** Every paragraph of the buffer after its first one still fitted. */
  ghost predicate AllFit(paras: seq<string>, i: nat, j: nat)
    requires j <= |paras|
  {
    forall m :: i < m < j ==> BufferChars(paras, i, m) + |paras[m]| <= 320_000
  }

  /** One chunk for the paragraphs between two boundaries: each paragraph after its first one still fitted,
      and the one after its last, if there is one, did not. */
  ghost predicate IsCut(path: seq<string>, paras: seq<string>, i: nat, j: nat, c: Chunk)
  {
    && i < j <= |paras|
    && c == Chunk(path, Join(paras[i..j]), BufferChars(paras, i, j) / 4)
    && AllFit(paras, i, j)
    && (j < |paras| ==> BufferChars(paras, i, j) + |paras[j]| > 320_000)
  }

  ghost predicate AreCuts(path: seq<string>, paras: seq<string>, cuts: seq<nat>, chunks: seq<Chunk>)
  {
    |cuts| == |chunks| + 1
    && forall k :: 0 <= k < |chunks| ==> IsCut(path, paras, cuts[k], cuts[k + 1], chunks[k])
  }

  /** The loop after `n` paragraphs: finished cuts up to `start`, the paragraphs since in the buffer. */
  ghost predicate Cutting(path: seq<string>, paras: seq<string>, n: nat, q: Paragraphs, cuts: seq<nat>, start: nat)
  {
    && start <= n <= |paras| && (n > 0 ==> start < n)
    && Boundaries(cuts, start) && AreCuts(path, paras, cuts, q.chunks)
    && q.buf == paras[start..n] && q.chars == BufferChars(paras, start, n)
    && AllFit(paras, start, n)
  }

  lemma CutsAppend(path: seq<string>, paras: seq<string>, cuts: seq<nat>, chunks: seq<Chunk>, j: nat, c: Chunk)
    requires cuts != [] && Boundaries(cuts, cuts[|cuts| - 1]) && AreCuts(path, paras, cuts, chunks)
    requires IsCut(path, paras, cuts[|cuts| - 1], j, c)
    ensures Boundaries(cuts + [j], j) && AreCuts(path, paras, cuts + [j], chunks + [c])
  {
    assert cuts[|cuts| - 1] < j;
    hide IsCut;
  }

  lemma NextParagraphCuts(path: seq<string>, paras: seq<string>, n: nat, q: Paragraphs, cuts: seq<nat>, start: nat)
    requires n < |paras| && Cutting(path, paras, n, q, cuts, start)
    requires q.chars + |paras[n]| > TARGET_CHARS && q.buf != []
    ensures Cutting(path, paras, n + 1, AddParagraph(path, q, paras[n]), cuts + [n], n)
  {
    LastBoundary(cuts, start);
    CutIsFull(path, paras, n, q, cuts, start);
    hide Join, AreCuts, Boundaries, IsCut;
    CutsAppend(path, paras, cuts, q.chunks, n, Chunk(path, Join(q.buf), q.chars / CHARS_PER_TOKEN));
    assert paras[n..n + 1] == [paras[n]];
  }

  lemma CutIsFull(path: seq<string>, paras: seq<string>, n: nat, q: Paragraphs, cuts: seq<nat>, start: nat)
    requires 0 < n <= |paras| && Cutting(path, paras, n, q, cuts, start)
    requires n < |paras| ==> q.chars + |paras[n]| > TARGET_CHARS
    ensures IsCut(path, paras, start, n, Chunk(path, Join(q.buf), q.chars / CHARS_PER_TOKEN))
  {
    hide Join, AreCuts, Boundaries;
  }

  lemma NextParagraphJoins(path: seq<string>, paras: seq<string>, n: nat, q: Paragraphs, cuts: seq<nat>, start: nat)
    requires n < |paras| && Cutting(path, paras, n, q, cuts, start)
    requires q.chars + |paras[n]| <= TARGET_CHARS || q.buf == []
    ensures Cutting(path, paras, n + 1, AddParagraph(path, q, paras[n]), cuts, start)
  {
    hide Join, AreCuts, Boundaries, BufferChars;
    assert paras[start..n + 1] == paras[start..n] + [paras[n]];
    assert q.buf == [] ==> start == n == 0;
    NextCount(paras, start, n);
    NextFits(paras, start, n);
    hide AllFit;
  }

  lemma NextFits(paras: seq<string>, i: nat, j: nat)
    requires i <= j < |paras| && AllFit(paras, i, j)
    requires i < j ==> BufferChars(paras, i, j) + |paras[j]| <= 320_000
    ensures AllFit(paras, i, j + 1)
  {
    hide BufferChars;
  }

  /** Adding a paragraph to a buffer, unless it is the first one of a later buffer. */
  lemma NextCount(paras: seq<string>, i: nat, j: nat)
    requires i <= j < |paras|
    ensures i < j || i == 0 ==> BufferChars(paras, i, j + 1) == BufferChars(paras, i, j) + |paras[j]| + 2
  {
  }

  lemma LastBoundary(cuts: seq<nat>, start: nat)
    requires Boundaries(cuts, start)
    ensures |cuts| > 0 && cuts[|cuts| - 1] == start
  {
  }

  lemma {:induction false} ParagraphsAreCut(path: seq<string>, paras: seq<string>, n: nat)
    returns (cuts: seq<nat>, start: nat)
    requires n <= |paras|
    ensures Cutting(path, paras, n, AddParagraphs(path, Paragraphs([], [], 0), paras[..n]), cuts, start)
  {
    if n == 0 {
      cuts, start := [0], 0;
    } else {
      cuts, start := ParagraphsAreCut(path, paras, n - 1);
      assert paras[..n][..n - 1] == paras[..n - 1];
      var q := AddParagraphs(path, Paragraphs([], [], 0), paras[..n - 1]);
      hide Cutting, AddParagraph;
      if q.chars + |paras[n - 1]| > TARGET_CHARS && q.buf != [] {
        NextParagraphCuts(path, paras, n - 1, q, cuts, start);
        cuts, start := cuts + [n - 1], n - 1;
      } else {
        NextParagraphJoins(path, paras, n - 1, q, cuts, start);
      }
    }
  }

  /** The chunks cut from a section follow its paragraphs without gap or overlap, each under the section's path
      and filled for as long as the next paragraph fitted. */
  lemma CutsTileTheSection(s: Section) returns (cuts: seq<nat>)
    ensures Boundaries(cuts, |SplitBlank(s.body)|)
    ensures AreCuts(s.path, SplitBlank(s.body), cuts, SplitSection([], s))
  {
    var paras := SplitBlank(s.body);
    var n := |paras|;
    assert paras[..n] == paras;
    var before, start := ParagraphsAreCut(s.path, paras, n);
    var q := AddParagraphs(s.path, Paragraphs([], [], 0), paras);
    cuts := before + [n];
    hide AddParagraphs, Join, AreCuts, SplitBlank, Boundaries;
    LastBoundary(before, start);
    CutIsFull(s.path, paras, n, q, before, start);
    CutsAppend(s.path, paras, before, q.chunks, n, Chunk(s.path, Join(q.buf), q.chars / CHARS_PER_TOKEN));
  }
}

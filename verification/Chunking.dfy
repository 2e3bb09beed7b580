/** Greedy packing of book sections into chunks sized for the model's context. */
module Chunking {
  import opened Numbers

  /** 80,000 tokens at four characters each. */
  const TARGET_CHARS := 320_000
  const CHARS_PER_TOKEN := 4
  const BLANK_LINE: string := "\n\n"

  datatype Section = Section(path: seq<string>, body: string)

  datatype Chunk = Chunk(headingPath: seq<string>, body: string, tokenEstimate: int)

  // ---- Joining and splitting --------------------------------------------

  function JoinWith(parts: seq<string>, sep: string): string
  {
    if parts == [] then ""
    else if |parts| == 1 then parts[0]
    else JoinWith(parts[..|parts| - 1], sep) + sep + parts[|parts| - 1]
  }

  /** Parts joined by a blank line. */
  function Join(parts: seq<string>): string { JoinWith(parts, BLANK_LINE) }

  /** First position of a blank-line separator at or after `i`. */
  function FindBlank(s: string, i: nat): (r: Option<nat>)
    requires i <= |s|
    ensures r.Some? ==> i <= r.value && r.value + 2 <= |s| && s[r.value..r.value + 2] == BLANK_LINE
    decreases |s| - i
  {
    if i + 2 > |s| then None
    else if s[i..i + 2] == BLANK_LINE then Some(i)
    else FindBlank(s, i + 1)
  }

  /** `body.split("\n\n")`. */
  function SplitBlank(s: string): (parts: seq<string>)
    ensures parts != []
    decreases |s|
  {
    var p := FindBlank(s, 0);
    if p.None? then [s] else [s[..p.value]] + SplitBlank(s[p.value + 2..])
  }

  lemma JoinAppend(a: seq<string>, x: string)
    ensures Join(a + [x]) == if a == [] then x else Join(a) + BLANK_LINE + x
  {
    assert (a + [x])[..|a|] == a;
  }

  lemma {:induction false} JoinConcat(a: seq<string>, b: seq<string>)
    requires a != [] && b != []
    ensures Join(a + b) == Join(a) + BLANK_LINE + Join(b)
  {
    var n := |b| - 1;
    var init, last := b[..n], b[n];
    assert b == init + [last];
    assert a + b == (a + init) + [last];
    hide Join;
    JoinAppend(a + init, last);
    JoinAppend(init, last);
    if n == 0 {
      assert a + init == a;
    } else {
      JoinConcat(a, init);
    }
  }

  /** Splitting at blank lines loses nothing. */
  lemma {:induction false} JoinOfSplit(s: string)
    ensures Join(SplitBlank(s)) == s
    decreases |s|
  {
    var p := FindBlank(s, 0);
    if p.Some? {
      var head, rest := s[..p.value], s[p.value + 2..];
      JoinOfSplit(rest);
      JoinConcat([head], SplitBlank(rest));
      assert s == head + BLANK_LINE + rest;
    }
  }

  predicate BlankAt(s: string, i: nat)
    requires i + 2 <= |s|
  {
    s[i] == '\n' && s[i + 1] == '\n'
  }

  lemma {:induction false} FindBlankIsFirst(s: string, i: nat)
    requires i <= |s|
    ensures var r := FindBlank(s, i);
            && (r.Some? ==> BlankAt(s, r.value))
            && forall k: nat :: i <= k && k + 2 <= (if r.Some? then r.value + 1 else |s|) ==> !BlankAt(s, k)
    decreases |s| - i
  {
    if i + 2 <= |s| {
      assert s[i..i + 2] == BLANK_LINE <==> BlankAt(s, i) by {
        assert s[i..i + 2] == [s[i], s[i + 1]];
      }
      if s[i..i + 2] != BLANK_LINE { FindBlankIsFirst(s, i + 1); }
    }
  }

  /** A piece between two separators: no separator inside, and none earlier with its own last character. */
  ghost predicate IsPiece(part: string, last: bool)
  {
    && (forall k: nat :: k + 2 <= |part| ==> !BlankAt(part, k))
    && (!last && part != [] ==> part[|part| - 1] != '\n')
  }

  /** Splitting cuts at every separator, from the left. */
  lemma {:induction false} SplitPieces(s: string)
    ensures forall i :: 0 <= i < |SplitBlank(s)| ==> IsPiece(SplitBlank(s)[i], i == |SplitBlank(s)| - 1)
    decreases |s|
  {
    var p := FindBlank(s, 0);
    FindBlankIsFirst(s, 0);
    if p.Some? {
      SplitPieces(s[p.value + 2..]);
      FirstPiece(s, p.value);
      hide FindBlank, IsPiece;
    }
  }

  lemma FirstPiece(s: string, p: nat)
    requires p + 2 <= |s| && BlankAt(s, p)
    requires forall k: nat :: k + 2 <= p + 1 ==> !BlankAt(s, k)
    ensures IsPiece(s[..p], false)
  {
    forall k: nat | k + 2 <= p ensures !BlankAt(s[..p], k) {
      assert !BlankAt(s, k);
    }
    if p > 0 { assert !BlankAt(s, p - 1); }
  }

  /** Two part lists that read the same: equal joined texts, and both empty or neither. */
  ghost predicate SameText(a: seq<string>, b: seq<string>)
  {
    Join(a) == Join(b) && (a == [] <==> b == [])
  }

  lemma SameTextExtends(a: seq<string>, b: seq<string>, x: string)
    requires SameText(a, b)
    ensures SameText(a + [x], b + [x])
  {
    JoinAppend(a, x);
    JoinAppend(b, x);
  }

  /** Joining some parts into one changes nothing. */
  lemma SameTextNested(a: seq<string>, parts: seq<string>)
    requires parts != []
    ensures SameText(a + [Join(parts)], a + parts)
  {
    JoinAppend(a, Join(parts));
    if a == [] {
      assert a + parts == parts;
    } else {
      JoinConcat(a, parts);
    }
  }

  // ---- Packing ----------------------------------------------------------

  function Prefix(s: Section): string { JoinWith(s.path, " > ") }

  predicate Oversize(s: Section) { |s.body| > TARGET_CHARS }

  /** A small section's part of a chunk: its heading line, a blank line and its body. */
  function Part(s: Section): string { "### " + Prefix(s) + BLANK_LINE + s.body }

  /** The loop's variables. */
  datatype Packing = Packing(chunks: seq<Chunk>, path: seq<string>, parts: seq<string>, chars: int)

  /** The paragraph loop's variables. */
  datatype Paragraphs = Paragraphs(chunks: seq<Chunk>, buf: seq<string>, chars: int)

  function Flush(p: Packing): Packing
  {
    if p.parts == [] then p
    else
      var body := Join(p.parts);
      Packing(p.chunks + [Chunk(if p.path == [] then ["(root)"] else p.path, body, |body| / CHARS_PER_TOKEN)],
              p.path, [], 0)
  }

  function FlushBuffer(path: seq<string>, q: Paragraphs): seq<Chunk>
  {
    q.chunks + [Chunk(path, Join(q.buf), q.chars / CHARS_PER_TOKEN)]
  }

  function AddParagraph(path: seq<string>, q: Paragraphs, para: string): Paragraphs
  {
    if q.chars + |para| > TARGET_CHARS && q.buf != []
    then Paragraphs(FlushBuffer(path, q), [para], |para|)
    else Paragraphs(q.chunks, q.buf + [para], q.chars + |para| + 2)
  }

  function AddParagraphs(path: seq<string>, q: Paragraphs, paras: seq<string>): Paragraphs
  {
    if paras == [] then q
    else AddParagraph(path, AddParagraphs(path, q, paras[..|paras| - 1]), paras[|paras| - 1])
  }

  function SplitSection(chunks: seq<Chunk>, s: Section): seq<Chunk>
  {
    var q := AddParagraphs(s.path, Paragraphs(chunks, [], 0), SplitBlank(s.body));
    if q.buf == [] then q.chunks else FlushBuffer(s.path, q)
  }

  function AddSmall(p: Packing, s: Section): Packing
  {
    var p1 := if p.chars + |s.body| > TARGET_CHARS && p.parts != [] then Flush(p) else p;
    Packing(p1.chunks, if p1.parts == [] then s.path else p1.path, p1.parts + [Part(s)],
            p1.chars + |s.body| + |Prefix(s)| + 8)
  }

  function AddSection(p: Packing, s: Section): Packing
  {
    if Oversize(s)
    then var p1 := Flush(p); p1.(chunks := SplitSection(p1.chunks, s))
    else AddSmall(p, s)
  }

  function AddSections(sections: seq<Section>): Packing
  {
    if sections == [] then Packing([], [], [], 0)
    else AddSection(AddSections(sections[..|sections| - 1]), sections[|sections| - 1])
  }

  function Pack(sections: seq<Section>): seq<Chunk>
  {
    Flush(AddSections(sections)).chunks
  }

  method PackIntoChunks(sections: seq<Section>) returns (chunks: seq<Chunk>)
    ensures chunks == Pack(sections)
  {
    chunks := [];
    var curPath: seq<string> := [];
    var curParts: seq<string> := [];
    var curChars := 0;
    var k := 0;
    while k < |sections|
      invariant 0 <= k <= |sections|
      invariant Packing(chunks, curPath, curParts, curChars) == AddSections(sections[..k])
    {
      var s := sections[k];
      assert sections[..k + 1][..k] == sections[..k];
      hide AddParagraph, Flush, Part, Prefix;
      if |s.body| > TARGET_CHARS {
        chunks, curParts, curChars := FlushParts(chunks, curPath, curParts, curChars);
        chunks := SplitIntoChunks(chunks, s);
      } else {
        if curChars + |s.body| > TARGET_CHARS && curParts != [] {
          chunks, curParts, curChars := FlushParts(chunks, curPath, curParts, curChars);
        }
        if curParts == [] { curPath := s.path; }
        curParts := curParts + [Part(s)];
        curChars := curChars + |s.body| + |Prefix(s)| + 8;
      }
      k := k + 1;
    }
    assert sections[..k] == sections;
    chunks, curParts, curChars := FlushParts(chunks, curPath, curParts, curChars);
  }

  method FlushParts(chunks: seq<Chunk>, path: seq<string>, parts: seq<string>, chars: int)
    returns (chunks': seq<Chunk>, parts': seq<string>, chars': int)
    ensures Packing(chunks', path, parts', chars') == Flush(Packing(chunks, path, parts, chars))
  {
    if parts == [] { return chunks, parts, chars; }
    var body := Join(parts);
    chunks' := chunks + [Chunk(if path == [] then ["(root)"] else path, body, |body| / CHARS_PER_TOKEN)];
    parts', chars' := [], 0;
  }

  method SplitIntoChunks(chunks: seq<Chunk>, s: Section) returns (chunks': seq<Chunk>)
    ensures chunks' == SplitSection(chunks, s)
  {
    chunks' := chunks;
    var paras := SplitBlank(s.body);
    var buf: seq<string> := [];
    var bufChars := 0;
    var k := 0;
    while k < |paras|
      invariant 0 <= k <= |paras|
      invariant Paragraphs(chunks', buf, bufChars) == AddParagraphs(s.path, Paragraphs(chunks, [], 0), paras[..k])
    {
      var para := paras[k];
      assert paras[..k + 1][..k] == paras[..k];
      if bufChars + |para| > TARGET_CHARS && buf != [] {
        chunks' := chunks' + [Chunk(s.path, Join(buf), bufChars / CHARS_PER_TOKEN)];
        buf := [para];
        bufChars := |para|;
      } else {
        buf := buf + [para];
        bufChars := bufChars + |para| + 2;
      }
      k := k + 1;
    }
    assert paras[..k] == paras;
    if buf != [] {
      chunks' := chunks' + [Chunk(s.path, Join(buf), bufChars / CHARS_PER_TOKEN)];
    }
  }

  // ---- Nothing is lost --------------------------------------------------

  function Bodies(chunks: seq<Chunk>): (b: seq<string>)
    ensures |b| == |chunks| && forall i :: 0 <= i < |b| ==> b[i] == chunks[i].body
  {
    seq(|chunks|, i requires 0 <= i < |chunks| => chunks[i].body)
  }

  /** How a section appears in the chunks: oversize ones as they are, small ones under their heading. */
  function Rendered(s: Section): string { if Oversize(s) then s.body else Part(s) }

  function RenderedAll(sections: seq<Section>): (r: seq<string>)
    ensures |r| == |sections| && forall i :: 0 <= i < |r| ==> r[i] == Rendered(sections[i])
  {
    seq(|sections|, i requires 0 <= i < |sections| => Rendered(sections[i]))
  }

  lemma BodiesAppend(chunks: seq<Chunk>, c: Chunk)
    ensures Bodies(chunks + [c]) == Bodies(chunks) + [c.body]
  {
  }

  lemma FlushKeepsText(p: Packing)
    ensures SameText(Bodies(Flush(p).chunks) + Flush(p).parts, Bodies(p.chunks) + p.parts)
  {
    if p.parts != [] {
      var r := Flush(p);
      var c := r.chunks[|p.chunks|];
      BodiesAppend(p.chunks, c);
      SameTextNested(Bodies(p.chunks), p.parts);
      assert Bodies(r.chunks) + r.parts == Bodies(p.chunks) + [Join(p.parts)];
    }
  }

  lemma SameTextTransitive(a: seq<string>, b: seq<string>, c: seq<string>)
    requires SameText(a, b) && SameText(b, c)
    ensures SameText(a, c)
  {
  }

  lemma AddParagraphKeepsText(path: seq<string>, q: Paragraphs, para: string)
    ensures var r := AddParagraph(path, q, para);
            SameText(Bodies(r.chunks) + r.buf, Bodies(q.chunks) + q.buf + [para])
  {
    var r := AddParagraph(path, q, para);
    var before := Bodies(q.chunks) + q.buf;
    if q.chars + |para| > TARGET_CHARS && q.buf != [] {
      BodiesAppend(q.chunks, r.chunks[|q.chunks|]);
      SameTextNested(Bodies(q.chunks), q.buf);
      SameTextExtends(Bodies(q.chunks) + [Join(q.buf)], before, para);
      assert Bodies(r.chunks) + r.buf == Bodies(q.chunks) + [Join(q.buf)] + [para];
    } else {
      assert Bodies(r.chunks) + r.buf == before + [para];
    }
  }

  lemma {:induction false} ParagraphsKeepText(path: seq<string>, chunks: seq<Chunk>, paras: seq<string>)
    ensures var q := AddParagraphs(path, Paragraphs(chunks, [], 0), paras);
            SameText(Bodies(q.chunks) + q.buf, Bodies(chunks) + paras)
            && (paras != [] ==> q.buf != [])
  {
    if paras != [] {
      var n := |paras| - 1;
      var init, last := paras[..n], paras[n];
      var q := AddParagraphs(path, Paragraphs(chunks, [], 0), init);
      ParagraphsKeepText(path, chunks, init);
      AddParagraphKeepsText(path, q, last);
      hide SameText, Bodies;
      SameTextExtends(Bodies(q.chunks) + q.buf, Bodies(chunks) + init, last);
      var r := AddParagraph(path, q, last);
      assert Bodies(chunks) + init + [last] == Bodies(chunks) + paras;
      assert AddParagraphs(path, Paragraphs(chunks, [], 0), paras) == r;
      SameTextTransitive(Bodies(r.chunks) + r.buf, Bodies(q.chunks) + q.buf + [last], Bodies(chunks) + paras);
    } else {
      assert Bodies(chunks) + paras == Bodies(chunks) == Bodies(chunks) + [];
    }
  }

  /** The chunks cut from an oversize section, joined by blank lines, are its body. */
  lemma SplitSectionKeepsText(chunks: seq<Chunk>, s: Section)
    ensures SameText(Bodies(SplitSection(chunks, s)), Bodies(chunks) + [s.body])
  {
    var paras := SplitBlank(s.body);
    var q := AddParagraphs(s.path, Paragraphs(chunks, [], 0), paras);
    ParagraphsKeepText(s.path, chunks, paras);
    BodiesAppend(q.chunks, FlushBuffer(s.path, q)[|q.chunks|]);
    SameTextNested(Bodies(q.chunks), q.buf);
    JoinOfSplit(s.body);
    SameTextNested(Bodies(chunks), paras);
    hide SameText;
    SameTextTransitive(Bodies(q.chunks) + [Join(q.buf)], Bodies(q.chunks) + q.buf, Bodies(chunks) + paras);
    SameTextSymmetric(Bodies(chunks) + [s.body], Bodies(chunks) + paras);
    SameTextTransitive(Bodies(q.chunks) + [Join(q.buf)], Bodies(chunks) + paras, Bodies(chunks) + [s.body]);
  }

  lemma SameTextSymmetric(a: seq<string>, b: seq<string>)
    requires SameText(a, b)
    ensures SameText(b, a)
  {
  }

  lemma AddSectionKeepsText(p: Packing, s: Section, done: seq<string>)
    requires SameText(Bodies(p.chunks) + p.parts, done)
    ensures var r := AddSection(p, s);
            SameText(Bodies(r.chunks) + r.parts, done + [Rendered(s)])
  {
    var r := AddSection(p, s);
    FlushKeepsText(p);
    var f := Flush(p);
    SameTextTransitive(Bodies(f.chunks) + f.parts, Bodies(p.chunks) + p.parts, done);
    hide SameText, Part, Flush;
    if Oversize(s) {
      assert f.parts == [] by { FlushEmpties(p); }
      assert Bodies(f.chunks) + f.parts == Bodies(f.chunks);
      SplitSectionKeepsText(f.chunks, s);
      SameTextExtends(Bodies(f.chunks), done, s.body);
      assert Bodies(r.chunks) + r.parts == Bodies(SplitSection(f.chunks, s));
      SameTextTransitive(Bodies(SplitSection(f.chunks, s)), Bodies(f.chunks) + [s.body], done + [s.body]);
    } else {
      var p1 := if p.chars + |s.body| > TARGET_CHARS && p.parts != [] then f else p;
      SameTextExtends(Bodies(p1.chunks) + p1.parts, done, Part(s));
      assert Bodies(r.chunks) + r.parts == Bodies(p1.chunks) + p1.parts + [Part(s)];
    }
  }

  lemma FlushEmpties(p: Packing)
    ensures Flush(p).parts == []
  {
  }

  lemma RenderedAppend(sections: seq<Section>, s: Section)
    ensures RenderedAll(sections + [s]) == RenderedAll(sections) + [Rendered(s)]
  {
    hide Rendered;
  }

  lemma AddSectionsStep(sections: seq<Section>, s: Section)
    ensures AddSections(sections + [s]) == AddSection(AddSections(sections), s)
  {
    hide AddSection;
    assert (sections + [s])[..|sections|] == sections;
  }

  lemma {:induction false} SectionsKeepText(sections: seq<Section>)
    ensures var p := AddSections(sections);
            SameText(Bodies(p.chunks) + p.parts, RenderedAll(sections))
  {
    if sections == [] {
      assert Bodies([]) + [] == RenderedAll(sections);
    } else {
      hide *;
      var n := |sections| - 1;
      var init, s := sections[..n], sections[n];
      assert sections == init + [s];
      SectionsKeepText(init);
      RenderedAppend(init, s);
      AddSectionsStep(init, s);
      AddSectionKeepsText(AddSections(init), s, RenderedAll(init));
    }
  }

  /** Packing is lossless: the chunk bodies joined by blank lines are the rendered sections joined by
      blank lines, each section exactly once and in order. */
  lemma PackingIsLossless(sections: seq<Section>)
    ensures Join(Bodies(Pack(sections))) == Join(RenderedAll(sections))
    ensures Pack(sections) == [] <==> sections == []
  {
    var p := AddSections(sections);
    SectionsKeepText(sections);
    FlushKeepsText(p);
    FlushEmpties(p);
    assert Bodies(Flush(p).chunks) + [] == Bodies(Flush(p).chunks);
  }

  // ---- Size bounds ------------------------------------------------------

  function LongestPart(parts: seq<string>): (m: int)
    ensures m >= 0 && forall i :: 0 <= i < |parts| ==> |parts[i]| <= m
  {
    if parts == [] then 0 else MaxInt(LongestPart(parts[..|parts| - 1]), |parts[|parts| - 1]|)
  }

  ghost predicate EndsWith(s: string, suffix: string)
  {
    |suffix| <= |s| && s[|s| - |suffix|..] == suffix
  }

  ghost predicate StartsWith(s: string, prefix: string)
  {
    |prefix| <= |s| && s[..|prefix|] == prefix
  }

  /** A packed chunk is headed by its first section's path and exceeds the target by at most its last
      section's prefix and six characters. */
  ghost predicate PackedFrom(c: Chunk, first: Section, last: Section)
  {
    && !Oversize(first) && !Oversize(last)
    && c.headingPath == (if first.path == [] then ["(root)"] else first.path)
    && StartsWith(c.body, Part(first))
    && EndsWith(c.body, Part(last))
    && |c.body| <= TARGET_CHARS + |Prefix(last)| + 6
  }

  /** A chunk cut from an oversize section keeps its path and exceeds the target by at most two
      characters unless it is one long paragraph. */
  ghost predicate CutFrom(c: Chunk, s: Section)
  {
    && Oversize(s)
    && c.headingPath == s.path
    && |c.body| <= MaxInt(TARGET_CHARS + 2, LongestPart(SplitBlank(s.body)))
  }

  ghost predicate Bounded(c: Chunk, sections: seq<Section>)
  {
    (exists i, j :: 0 <= i <= j < |sections| && PackedFrom(c, sections[i], sections[j]))
    || (exists i :: 0 <= i < |sections| && CutFrom(c, sections[i]))
  }

  ghost predicate AllBounded(chunks: seq<Chunk>, sections: seq<Section>)
  {
    forall k :: 0 <= k < |chunks| ==> Bounded(chunks[k], sections)
  }

  /** What the pending parts would be as a chunk, and how their length is counted. */
  ghost predicate PendingBounded(p: Packing, sections: seq<Section>)
  {
    if p.parts == [] then p.chars == 0
    else
      && |Join(p.parts)| == p.chars - 2
      && exists i, j :: 0 <= i <= j < |sections|
           && PackedFrom(Chunk(if p.path == [] then ["(root)"] else p.path, Join(p.parts), 0), sections[i], sections[j])
  }

  lemma BoundedGrows(c: Chunk, sections: seq<Section>, s: Section)
    requires Bounded(c, sections)
    ensures Bounded(c, sections + [s])
  {
    var more := sections + [s];
    hide PackedFrom, CutFrom;
    if i, j :| 0 <= i <= j < |sections| && PackedFrom(c, sections[i], sections[j]) {
      assert PackedFrom(c, more[i], more[j]);
    } else {
      var i :| 0 <= i < |sections| && CutFrom(c, sections[i]);
      assert CutFrom(c, more[i]);
    }
  }

  lemma AllBoundedGrows(chunks: seq<Chunk>, sections: seq<Section>, s: Section)
    requires AllBounded(chunks, sections)
    ensures AllBounded(chunks, sections + [s])
  {
    hide Bounded;
    forall k | 0 <= k < |chunks| ensures Bounded(chunks[k], sections + [s]) {
      BoundedGrows(chunks[k], sections, s);
    }
  }

  lemma FlushIsBounded(p: Packing, sections: seq<Section>)
    requires AllBounded(p.chunks, sections) && PendingBounded(p, sections)
    ensures AllBounded(Flush(p).chunks, sections) && PendingBounded(Flush(p), sections)
  {
    hide PackedFrom, CutFrom, Join;
    if p.parts != [] {
      var body := Join(p.parts);
      var heading := if p.path == [] then ["(root)"] else p.path;
      var c := Chunk(heading, body, |body| / CHARS_PER_TOKEN);
      var i, j :| 0 <= i <= j < |sections| && PackedFrom(Chunk(heading, body, 0), sections[i], sections[j]);
      PackedIgnoresTokens(Chunk(heading, body, 0), c, sections[i], sections[j]);
      assert Bounded(c, sections);
      hide Bounded;
    }
  }

  lemma PackedIgnoresTokens(c: Chunk, d: Chunk, first: Section, last: Section)
    requires PackedFrom(c, first, last) && c.headingPath == d.headingPath && c.body == d.body
    ensures PackedFrom(d, first, last)
  {
  }

  lemma PartLength(s: Section)
    ensures |Part(s)| == |s.body| + |Prefix(s)| + 6
  {
  }

  /** Adding a small section's part to pending parts that leave it room. */
  lemma PendingGrows(p: Packing, sections: seq<Section>, s: Section)
    requires PendingBounded(p, sections) && !Oversize(s)
    requires p.parts != [] ==> p.chars + |s.body| <= TARGET_CHARS
    ensures var path := if p.parts == [] then s.path else p.path;
            PendingBounded(Packing(p.chunks, path, p.parts + [Part(s)], p.chars + |s.body| + |Prefix(s)| + 8),
                           sections + [s])
  {
    var more := sections + [s];
    var path := if p.parts == [] then s.path else p.path;
    var heading := if path == [] then ["(root)"] else path;
    var text := Join(p.parts + [Part(s)]);
    JoinAppend(p.parts, Part(s));
    PartLength(s);
    hide Join, Part, Prefix;
    var n := |sections|;
    if p.parts == [] {
      assert text == Part(s);
      assert PackedFrom(Chunk(heading, text, 0), more[n], more[n]);
    } else {
      var pending := Join(p.parts);
      var i, j :| 0 <= i <= j < n && PackedFrom(Chunk(heading, pending, 0), sections[i], sections[j]);
      assert text == pending + BLANK_LINE + Part(s);
      assert StartsWith(text, Part(sections[i])) by {
        assert text[..|Part(sections[i])|] == pending[..|Part(sections[i])|];
      }
      assert EndsWith(text, Part(s));
      assert more[i] == sections[i] && more[n] == s;
      assert PackedFrom(Chunk(heading, text, 0), more[i], more[n]);
    }
  }

  ghost predicate BufferCounted(q: Paragraphs, limit: int, unbroken: bool)
  {
    && (q.buf == [] ==> q.chars == 0 && unbroken)
    && (q.buf != [] ==>
          && |Join(q.buf)| == (if unbroken then q.chars - 2 else q.chars)
          && |Join(q.buf)| <= limit)
  }

  /** The paragraph loop: every chunk cut so far is within the limit, and so is the buffer. The first
      buffer's count runs two characters ahead of its text, later ones are exact. */
  lemma {:induction false} ParagraphsBounded(path: seq<string>, chunks: seq<Chunk>, paras: seq<string>, limit: int)
    returns (unbroken: bool)
    requires limit >= TARGET_CHARS + 2 && forall i :: 0 <= i < |paras| ==> |paras[i]| <= limit
    ensures var q := AddParagraphs(path, Paragraphs(chunks, [], 0), paras);
            && BufferCounted(q, limit, unbroken)
            && chunks <= q.chunks
            && forall k :: |chunks| <= k < |q.chunks| ==> q.chunks[k].headingPath == path && |q.chunks[k].body| <= limit
  {
    unbroken := true;
    if paras != [] {
      var n := |paras| - 1;
      var q := AddParagraphs(path, Paragraphs(chunks, [], 0), paras[..n]);
      var before := ParagraphsBounded(path, chunks, paras[..n], limit);
      JoinAppend(q.buf, paras[n]);
      JoinAppend([], paras[n]);
      hide Join;
      if q.chars + |paras[n]| > TARGET_CHARS && q.buf != [] {
        unbroken := false;
        assert [] + [paras[n]] == [paras[n]];
      } else {
        unbroken := before;
      }
    }
  }

  lemma SplitIsBounded(chunks: seq<Chunk>, s: Section, sections: seq<Section>)
    requires Oversize(s) && AllBounded(chunks, sections + [s])
    ensures AllBounded(SplitSection(chunks, s), sections + [s])
  {
    var paras := SplitBlank(s.body);
    var limit := MaxInt(TARGET_CHARS + 2, LongestPart(paras));
    var unbroken := ParagraphsBounded(s.path, chunks, paras, limit);
    var r := SplitSection(chunks, s);
    var more := sections + [s];
    assert more[|sections|] == s;
    hide AddParagraphs, Join, LongestPart, SplitBlank, PackedFrom, Bounded;
    forall k | 0 <= k < |r| ensures Bounded(r[k], more) {
      if k < |chunks| {
        assert r[k] == chunks[k];
      } else {
        CutIsBounded(r[k], more, |sections|);
      }
    }
  }

  lemma CutIsBounded(c: Chunk, sections: seq<Section>, i: nat)
    requires i < |sections| && CutFrom(c, sections[i])
    ensures Bounded(c, sections)
  {
    hide CutFrom, PackedFrom;
  }

  lemma {:induction false} SectionsBounded(sections: seq<Section>)
    ensures AllBounded(AddSections(sections).chunks, sections) && PendingBounded(AddSections(sections), sections)
  {
    if sections != [] {
      var n := |sections| - 1;
      var init, s := sections[..n], sections[n];
      assert sections == init + [s];
      SectionsBounded(init);
      var p := AddSections(init);
      FlushIsBounded(p, init);
      FlushEmpties(p);
      hide AllBounded, PendingBounded, Flush, Part, Prefix;
      if Oversize(s) {
        var f := Flush(p);
        AllBoundedGrows(f.chunks, init, s);
        SplitIsBounded(f.chunks, s, init);
        EmptyPending(f, f.(chunks := SplitSection(f.chunks, s)), init, sections);
      } else {
        var p1 := if p.chars + |s.body| > TARGET_CHARS && p.parts != [] then Flush(p) else p;
        AllBoundedGrows(p1.chunks, init, s);
        PendingGrows(p1, init, s);
      }
    }
  }

  lemma EmptyPending(p: Packing, r: Packing, before: seq<Section>, after: seq<Section>)
    requires p.parts == [] && PendingBounded(p, before)
    requires r.parts == [] && r.chars == p.chars
    ensures PendingBounded(r, after)
  {
  }

  /** Every chunk is either packed from a run of small sections or cut from one oversize section, within
      the respective size bound. */
  lemma ChunksAreBounded(sections: seq<Section>, k: nat)
    requires k < |Pack(sections)|
    ensures Bounded(Pack(sections)[k], sections)
  {
    hide Bounded, PendingBounded, Flush;
    SectionsBounded(sections);
    FlushIsBounded(AddSections(sections), sections);
  }

  lemma PackOne(s: Section)
    requires !Oversize(s)
    ensures Pack([s]) == [Chunk(if s.path == [] then ["(root)"] else s.path, Part(s), |Part(s)| / CHARS_PER_TOKEN)]
  {
    hide Part, Prefix;
    assert [s][..0] == [];
    assert AddSections([]) == Packing([], [], [], 0);
    assert Join([Part(s)]) == Part(s);
    assert [] + [Part(s)] == [Part(s)];
  }

  /** How a chunk of one small section reads: its path after three hashes, the headings joined by arrows, then a
      blank line and the text. Without a path the chunk is filed under the root. */
  lemma SmallSectionReads(path: seq<string>, heading: string, body: string)
    requires |body| <= 320_000
    ensures var text := "### \n\n" + body;
            Pack([Section([], body)]) == [Chunk(["(root)"], text, |text| / 4)]
    ensures var headings := if path == [] then heading else JoinWith(path, " > ") + " > " + heading;
            var text := "### " + headings + "\n\n" + body;
            Pack([Section(path + [heading], body)]) == [Chunk(path + [heading], text, |text| / 4)]
  {
    hide Pack;
    var s, t := Section(path + [heading], body), Section([], body);
    PackOne(s);
    PackOne(t);
    assert s.path[..|s.path| - 1] == path;
    assert Prefix(s) == if path == [] then heading else JoinWith(path, " > ") + " > " + heading;
    assert Part(t) == "### \n\n" + body;
  }
}

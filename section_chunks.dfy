/** The second half of the chunker (TSE-Project/query2.py, lines 64-197):
    the document's blocks in reading order, one chunk start per section
    header (the first block of the header's page that contains its text),
    the starts sorted by block, one semantic chunk per start running to
    the next start, and each semantic chunk cut into windows of at most
    200 words. The PDF is given as its pages' raw block texts and the
    plain text of each page. */
module SectionChunks {
  import opened Common
  import opened PyStr
  import opened StableSort
  import opened SectionRegex
  import opened SectionBoundaries

  /** One entry of `all_blocks`: its page number and its stripped text. */
  datatype Block = Block(page: int, text: string)

  /** One entry of `chunk_starts`. */
  datatype Start = Start(index: int, category: string, page: int)

  /** One chunk as the chunker returns it; `subIndex` is the
      `sub_chunk_index` of a word window, None on the full-document chunk
      and on the semantic chunks before windowing. */
  datatype Chunk = Chunk(text: string, category: string, page: int, paperId: string, subIndex: Option<int>)

  /** `WORD_LIMIT` */
  const WordLimit := 200

  // ---------------------------------------------------------------------
  // All blocks, page by page.

  /** The blocks of page number `page`, stripped. */
  function PageBlocks(page: int, raw: seq<string>): (r: seq<Block>)
    ensures |r| == |raw|
    ensures forall j :: 0 <= j < |raw| ==> r[j] == Block(page, Strip(raw[j]))
  {
    seq(|raw|, j requires 0 <= j < |raw| => Block(page, Strip(raw[j])))
  }

  /** `all_blocks`: the blocks of page 1, then of page 2, and so on. */
  function AllBlocks(pages: seq<seq<string>>): seq<Block> {
    if pages == [] then []
    else AllBlocks(pages[..|pages| - 1]) + PageBlocks(|pages|, pages[|pages| - 1])
  }

  /** Lines 128-136. */
  method CollectBlocks(pages: seq<seq<string>>) returns (all: seq<Block>)
    ensures all == AllBlocks(pages)
  {
    all := [];
    var p := 1;
    while p <= |pages|
      invariant 1 <= p <= |pages| + 1
      invariant all == AllBlocks(pages[..p - 1])
    {
      var blocks := pages[p - 1];
      ghost var before := all;
      var j := 0;
      while j < |blocks|
        invariant 0 <= j <= |blocks|
        invariant all == before + PageBlocks(p, blocks[..j])
      {
        assert PageBlocks(p, blocks[..j + 1]) == PageBlocks(p, blocks[..j]) + [Block(p, Strip(blocks[j]))];
        all := all + [Block(p, Strip(blocks[j]))];
        j := j + 1;
      }
      assert blocks[..j] == blocks;
      assert pages[..p][..p - 1] == pages[..p - 1];
      p := p + 1;
    }
    assert pages[..|pages|] == pages;
  }

  /** Block `b` of page `p + 1` sits in the list right after the blocks of
      the pages before it. */
  lemma {:induction false} BlockAt(pages: seq<seq<string>>, p: nat, b: nat)
    requires p < |pages| && b < |pages[p]|
    ensures |AllBlocks(pages[..p])| + b < |AllBlocks(pages)|
    ensures AllBlocks(pages)[|AllBlocks(pages[..p])| + b] == Block(p + 1, Strip(pages[p][b]))
    decreases |pages|
  {
    var init := pages[..|pages| - 1];
    if p < |pages| - 1 {
      BlockAt(init, p, b);
      assert init[..p] == pages[..p];
    }
  }

  // ---------------------------------------------------------------------
  // Where each header's chunk starts.

  /** A block of the header's page whose stripped text contains the
      header's stripped text. */
  predicate Holds(block: Block, page: int, text: string) {
    block.page == page && Contains(Strip(block.text), Strip(text))
  }

  /** The first block from `i` on that holds the header, -1 when none does. */
  function FirstBlock(all: seq<Block>, page: int, text: string, i: nat): (r: int)
    ensures r == -1 || (i <= r < |all| && Holds(all[r], page, text))
    ensures forall j :: i <= j < |all| && (r == -1 || j < r) ==> !Holds(all[j], page, text)
    decreases |all| - i
  {
    if i >= |all| then -1
    else if Holds(all[i], page, text) then i
    else FirstBlock(all, page, text, i + 1)
  }

  /** `start_index` of a boundary. */
  function FindBlock(all: seq<Block>, h: Boundary): int {
    FirstBlock(all, h.page, h.text, 0)
  }

  /** Lines 140-144. */
  method FindStart(all: seq<Block>, h: Boundary) returns (startIndex: int)
    ensures startIndex == FindBlock(all, h)
  {
    startIndex := -1;
    var i := 0;
    while i < |all|
      invariant 0 <= i <= |all|
      invariant FirstBlock(all, h.page, h.text, 0) == FirstBlock(all, h.page, h.text, i)
    {
      if all[i].page == h.page && Contains(Strip(all[i].text), Strip(h.text)) {
        startIndex := i;
        break;
      }
      i := i + 1;
    }
  }

  /** A boundary of the scan is found: the search stops at a block of its
      page no later than the header's own block, so `start_index` is
      never -1 for it. */
  lemma BoundaryFound(pages: seq<seq<string>>, h: Boundary)
    requires Placed(h, pages)
    ensures var i := FindBlock(AllBlocks(pages), h);
            && 0 <= i < |AllBlocks(pages)|
            && i <= |AllBlocks(pages[..h.page - 1])| + h.blockIdx
            && AllBlocks(pages)[i].page == h.page
  {
    var all := AllBlocks(pages);
    var g := |AllBlocks(pages[..h.page - 1])| + h.blockIdx;
    BlockAt(pages, h.page - 1, h.blockIdx);
    var raw := pages[h.page - 1][h.blockIdx];
    StripIdempotent(raw);
    StrippedIsStrip(h.text);
    ContainsAt(Strip(raw), h.text);
    assert Holds(all[g], h.page, h.text);
  }

  function StartIndex(s: Start): int {
    s.index
  }

  /** The block indices taken so far. */
  function Indices(starts: seq<Start>): (r: seq<int>)
    ensures |r| == |starts| && forall i :: 0 <= i < |starts| ==> r[i] == starts[i].index
  {
    seq(|starts|, i requires 0 <= i < |starts| => starts[i].index)
  }

  /** `chunk_starts` before sorting: for each boundary in turn, its start
      unless none was found or that block already starts a chunk. */
  function Starts(all: seq<Block>, bs: seq<Boundary>): seq<Start> {
    if bs == [] then []
    else
      var prev, h := Starts(all, bs[..|bs| - 1]), bs[|bs| - 1];
      var i := FindBlock(all, h);
      if i != -1 && i !in Indices(prev) then prev + [Start(i, h.category, h.page)] else prev
  }

  /** Lines 138-151. */
  method ChunkStarts(all: seq<Block>, bs: seq<Boundary>) returns (starts: seq<Start>)
    ensures starts == Starts(all, bs)
  {
    starts := [];
    var k := 0;
    while k < |bs|
      invariant 0 <= k <= |bs|
      invariant starts == Starts(all, bs[..k])
    {
      assert bs[..k + 1][..k] == bs[..k];
      var startIndex := FindStart(all, bs[k]);
      if startIndex != -1 && startIndex !in Indices(starts) {
        starts := starts + [Start(startIndex, bs[k].category, bs[k].page)];
      }
      k := k + 1;
    }
    assert bs[..|bs|] == bs;
  }

  /** Each start is a block of the list, no block starts two chunks, and
      each start is the block found for one of the boundaries, with its
      category and page. */
  lemma {:induction false} StartsShape(all: seq<Block>, bs: seq<Boundary>)
    ensures var ss := Starts(all, bs);
            && |ss| <= |bs|
            && DistinctKeys(ss, StartIndex)
            && (forall i :: 0 <= i < |ss| ==> 0 <= ss[i].index < |all|)
            && (forall i :: 0 <= i < |ss| ==> exists k :: 0 <= k < |bs| && Origin(all, ss[i], bs[k]))
    decreases |bs|
  {
    if bs != [] {
      var init, h := bs[..|bs| - 1], bs[|bs| - 1];
      StartsShape(all, init);
      var prev := Starts(all, init);
      forall i | 0 <= i < |prev| ensures exists k :: 0 <= k < |bs| && Origin(all, prev[i], bs[k]) {
        var k :| 0 <= k < |init| && Origin(all, prev[i], init[k]);
        assert bs[k] == init[k];
      }
      var idx := FindBlock(all, h);
      if idx != -1 && idx !in Indices(prev) {
        var ss := prev + [Start(idx, h.category, h.page)];
        forall i, j | 0 <= i < j < |ss| ensures StartIndex(ss[i]) != StartIndex(ss[j]) {
          if j == |prev| {
            assert Indices(prev)[i] == prev[i].index;
          }
        }
        assert Origin(all, ss[|prev|], bs[|bs| - 1]);
      }
    }
  }

  /** Start `s` is the one boundary `h` makes. */
  predicate Origin(all: seq<Block>, s: Start, h: Boundary) {
    s.index == FindBlock(all, h) && s.category == h.category && s.page == h.page
  }

  /** Every boundary whose block is found has a start at that block. */
  lemma {:induction false} StartsCover(all: seq<Block>, bs: seq<Boundary>, k: nat)
    requires k < |bs| && FindBlock(all, bs[k]) != -1
    ensures FindBlock(all, bs[k]) in Indices(Starts(all, bs))
    decreases |bs|
  {
    var init, h := bs[..|bs| - 1], bs[|bs| - 1];
    var prev, ss := Starts(all, init), Starts(all, bs);
    var x := FindBlock(all, bs[k]);
    if k < |bs| - 1 {
      StartsCover(all, init, k);
      assert bs[k] == init[k];
    }
    if x in Indices(prev) {
      var n :| 0 <= n < |prev| && Indices(prev)[n] == x;
      assert ss[n] == prev[n];
      assert Indices(ss)[n] == x;
    } else {
      assert ss == prev + [Start(x, h.category, h.page)];
      assert Indices(ss)[|prev|] == x;
    }
  }

  // ---------------------------------------------------------------------
  // The semantic chunks.

  /** The starts as line 153 leaves them: blocks of the list, in strictly
      increasing block order. */
  predicate Ascending(all: seq<Block>, starts: seq<Start>) {
    && (forall i :: 0 <= i < |starts| ==> 0 <= starts[i].index < |all|)
    && (forall i, j :: 0 <= i < j < |starts| ==> starts[i].index < starts[j].index)
  }

  /** Sorting the starts by block gives ascending starts, the same ones. */
  lemma SortedStarts(all: seq<Block>, bs: seq<Boundary>)
    ensures var sorted := SortBy(Starts(all, bs), StartIndex);
            Ascending(all, sorted) && multiset(sorted) == multiset(Starts(all, bs))
  {
    var ss := Starts(all, bs);
    var sorted := SortBy(ss, StartIndex);
    StartsShape(all, bs);
    SortDistinct(ss, StartIndex);
    forall i | 0 <= i < |sorted| ensures 0 <= sorted[i].index < |all| {
      assert sorted[i] in multiset(ss);
    }
    forall i, j | 0 <= i < j < |sorted| ensures sorted[i].index < sorted[j].index {
      assert StartIndex(sorted[i]) < StartIndex(sorted[j]);
    }
  }

  /** The block after the last one of chunk `i`: the next start, or the
      end of the list. */
  function End(all: seq<Block>, starts: seq<Start>, i: nat): (r: int)
    requires Ascending(all, starts) && i < |starts|
    ensures starts[i].index < r <= |all|
  {
    if i + 1 < |starts| then starts[i + 1].index else |all|
  }

  /** The texts of blocks `lo` to `hi - 1`. */
  function Texts(all: seq<Block>, lo: int, hi: int): (r: seq<string>)
    requires 0 <= lo <= hi <= |all|
    ensures |r| == hi - lo && forall j :: 0 <= j < hi - lo ==> r[j] == all[lo + j].text
  {
    seq(hi - lo, j requires 0 <= j < hi - lo => all[lo + j].text)
  }

  /** Semantic chunk `i` (lines 156-166). */
  function Section(all: seq<Block>, starts: seq<Start>, i: nat, paperId: string): Chunk
    requires Ascending(all, starts) && i < |starts|
  {
    var s := starts[i];
    Chunk(Strip(Join("\n\n", Texts(all, s.index, End(all, starts, i)))), s.category, s.page, paperId, None)
  }

  /** `semantic_chunks` */
  function SemanticChunks(all: seq<Block>, starts: seq<Start>, paperId: string): (r: seq<Chunk>)
    requires Ascending(all, starts)
    ensures |r| == |starts| && forall i :: 0 <= i < |starts| ==> r[i] == Section(all, starts, i, paperId)
  {
    seq(|starts|, i requires 0 <= i < |starts| => Section(all, starts, i, paperId))
  }

  /** Lines 155-166. */
  method BuildSemanticChunks(all: seq<Block>, starts: seq<Start>, paperId: string) returns (chunks: seq<Chunk>)
    requires Ascending(all, starts)
    ensures chunks == SemanticChunks(all, starts, paperId)
  {
    chunks := [];
    var i := 0;
    while i < |starts|
      invariant 0 <= i <= |starts|
      invariant chunks == SemanticChunks(all, starts, paperId)[..i]
    {
      var startMeta := starts[i];
      var startIndex := startMeta.index;
      var endIndex := if i + 1 < |starts| then starts[i + 1].index else |all|;
      var parts := Texts(all, startIndex, endIndex);
      chunks := chunks + [Chunk(Strip(Join("\n\n", parts)), startMeta.category, startMeta.page, paperId, None)];
      i := i + 1;
    }
  }

  /** The block texts the chunks from `i` on are made of, chunk by chunk. */
  function SpanTexts(all: seq<Block>, starts: seq<Start>, i: nat): seq<string>
    requires Ascending(all, starts) && i <= |starts|
    decreases |starts| - i
  {
    if i == |starts| then []
    else Texts(all, starts[i].index, End(all, starts, i)) + SpanTexts(all, starts, i + 1)
  }

  lemma TextsSplit(all: seq<Block>, lo: int, mid: int, hi: int)
    requires 0 <= lo <= mid <= hi <= |all|
    ensures Texts(all, lo, mid) + Texts(all, mid, hi) == Texts(all, lo, hi)
  {
  }

  /** The chunks tile the list: from the first start on, every block is in
      exactly one chunk, in order, and chunk `i` ends where chunk `i + 1`
      begins. The blocks before the first header are in no chunk. */
  lemma {:induction false} ChunksTile(all: seq<Block>, starts: seq<Start>, i: nat)
    requires Ascending(all, starts) && i < |starts|
    ensures SpanTexts(all, starts, i) == Texts(all, starts[i].index, |all|)
    ensures i + 1 < |starts| ==> End(all, starts, i) == starts[i + 1].index
    ensures i + 1 == |starts| ==> End(all, starts, i) == |all|
    decreases |starts| - i
  {
    var lo, hi := starts[i].index, End(all, starts, i);
    if i + 1 < |starts| {
      ChunksTile(all, starts, i + 1);
      TextsSplit(all, lo, hi, |all|);
    } else {
      assert SpanTexts(all, starts, i + 1) == [];
    }
  }

  // ---------------------------------------------------------------------
  // Word windows.

  function Min(a: int, b: int): int {
    if a <= b then a else b
  }

  /** The windows of the `while` loop from word `start` on, the last
      window numbered `count` so far. */
  function Windows(words: seq<string>, start: nat, count: int, c: Chunk): seq<Chunk>
    requires start <= |words|
    decreases |words| - start
  {
    if start >= |words| then []
    else
      var end := Min(start + WordLimit, |words|);
      var text := Strip(Join(" ", words[start..end]));
      if text != "" then [Chunk(text, c.category, c.page, c.paperId, Some(count + 1))] + Windows(words, end, count + 1, c)
      else Windows(words, end, count, c)
  }

  /** The windows of one semantic chunk. */
  function SubChunks(c: Chunk): seq<Chunk> {
    Windows(Words(c.text), 0, 0, c)
  }

  /** Lines 173-195 for one semantic chunk. */
  method SplitChunk(c: Chunk) returns (r: seq<Chunk>)
    ensures r == SubChunks(c)
  {
    var words := Words(c.text);
    var startWordIndex := 0;
    var subChunkCount := 0;
    r := [];
    while startWordIndex < |words|
      invariant 0 <= startWordIndex <= |words|
      invariant SubChunks(c) == r + Windows(words, startWordIndex, subChunkCount, c)
      decreases |words| - startWordIndex
    {
      var endWordIndex := Min(startWordIndex + WordLimit, |words|);
      var subChunkText := Strip(Join(" ", words[startWordIndex..endWordIndex]));
      if subChunkText != "" {
        subChunkCount := subChunkCount + 1;
        r := r + [Chunk(subChunkText, c.category, c.page, c.paperId, Some(subChunkCount))];
      }
      startWordIndex := endWordIndex;
    }
  }

  /** The words of the windows, one window after the other. */
  function WindowWords(r: seq<Chunk>): seq<string> {
    if r == [] then [] else Words(r[0].text) + WindowWords(r[1..])
  }

  /** A window of proper words reads back as those words; it is never blank. */
  lemma WindowText(w: seq<string>)
    requires IsWords(w) && w != []
    ensures Strip(Join(" ", w)) == Join(" ", w) != ""
    ensures Words(Strip(Join(" ", w))) == w
  {
    JoinWordsStripped(w);
    WordsOfJoin(w);
  }

  /** One turn of the loop: the window of words `start` to `end - 1` is
      kept, numbered `count + 1`, and reads back as those words. */
  lemma WindowStep(words: seq<string>, start: nat, end: nat, count: int, c: Chunk)
    requires IsWords(words) && start < |words| && end == Min(start + WordLimit, |words|)
    ensures Windows(words, start, count, c)
         == [Chunk(Join(" ", words[start..end]), c.category, c.page, c.paperId, Some(count + 1))]
            + Windows(words, end, count + 1, c)
    ensures Words(Join(" ", words[start..end])) == words[start..end]
  {
    var w := words[start..end];
    assert IsWords(w) by {
      forall i | 0 <= i < |w| ensures w[i] != [] && NoSpace(w[i]) {
        assert w[i] == words[start + i];
      }
    }
    WindowText(w);
  }

  /** Window number `n` of chunk `c`: 1 to `WordLimit` words, with the
      chunk's metadata. */
  predicate NumberedWindow(x: Chunk, n: int, c: Chunk) {
    x.subIndex == Some(n) && Inherits(x, c) && 1 <= |Words(x.text)| <= WordLimit
  }

  /** Every window holds between 1 and `WordLimit` words, the windows are
      numbered on from `count + 1` one by one, and they carry the chunk's
      category, page and paper. */
  lemma {:induction false} WindowsMeta(words: seq<string>, start: nat, count: int, c: Chunk)
    requires IsWords(words) && start <= |words|
    ensures var r := Windows(words, start, count, c);
            forall k :: 0 <= k < |r| ==> NumberedWindow(r[k], count + k + 1, c)
    decreases |words| - start
  {
    if start < |words| {
      var end := Min(start + WordLimit, |words|);
      WindowStep(words, start, end, count, c);
      WindowsMeta(words, end, count + 1, c);
      var head := Chunk(Join(" ", words[start..end]), c.category, c.page, c.paperId, Some(count + 1));
      var rest := Windows(words, end, count + 1, c);
      assert NumberedWindow(head, count + 1, c);
      ConsWindows(head, rest, count, c);
    }
  }

  lemma ConsWindows(head: Chunk, rest: seq<Chunk>, count: int, c: Chunk)
    requires NumberedWindow(head, count + 1, c)
    requires forall k :: 0 <= k < |rest| ==> NumberedWindow(rest[k], count + 1 + k + 1, c)
    ensures forall k :: 0 <= k < |[head] + rest| ==> NumberedWindow(([head] + rest)[k], count + k + 1, c)
  {
    forall k | 0 <= k < |[head] + rest| ensures NumberedWindow(([head] + rest)[k], count + k + 1, c) {
      if k > 0 {
        assert ([head] + rest)[k] == rest[k - 1];
      }
    }
  }

  /** The words of the windows are the chunk's words from `start` on. */
  lemma {:induction false} WindowsWords(words: seq<string>, start: nat, count: int, c: Chunk)
    requires IsWords(words) && start <= |words|
    ensures WindowWords(Windows(words, start, count, c)) == words[start..]
    decreases |words| - start
  {
    if start < |words| {
      var end := Min(start + WordLimit, |words|);
      WindowStep(words, start, end, count, c);
      WindowsWords(words, end, count + 1, c);
      var head := Chunk(Join(" ", words[start..end]), c.category, c.page, c.paperId, Some(count + 1));
      WindowWordsCons(head, Windows(words, end, count + 1, c));
      SuffixSplit(words, start, end);
    }
  }

  lemma WindowWordsCons(head: Chunk, rest: seq<Chunk>)
    ensures WindowWords([head] + rest) == Words(head.text) + WindowWords(rest)
  {
    assert ([head] + rest)[1..] == rest;
  }

  /** The windows of a semantic chunk: 1 to 200 words each, numbered
      1, 2, … in order, the parent's metadata copied, and together
      exactly the chunk's whitespace-separated words. */
  lemma SubChunksShape(c: Chunk)
    ensures var r := SubChunks(c);
            && (forall k :: 0 <= k < |r| ==> NumberedWindow(r[k], k + 1, c))
            && WindowWords(r) == Words(c.text)
  {
    var words := Words(c.text);
    WindowsMeta(words, 0, 0, c);
    WindowsWords(words, 0, 0, c);
    assert words[0..] == words;
  }

  /** `final_chunks`: the windows of every semantic chunk, in order. */
  function FinalChunks(chunks: seq<Chunk>): seq<Chunk> {
    if chunks == [] then []
    else FinalChunks(chunks[..|chunks| - 1]) + SubChunks(chunks[|chunks| - 1])
  }

  /** Lines 169-197. */
  method WindowAll(chunks: seq<Chunk>) returns (finalChunks: seq<Chunk>)
    ensures finalChunks == FinalChunks(chunks)
  {
    finalChunks := [];
    var i := 0;
    while i < |chunks|
      invariant 0 <= i <= |chunks|
      invariant finalChunks == FinalChunks(chunks[..i])
    {
      assert chunks[..i + 1][..i] == chunks[..i];
      var pieces := SplitChunk(chunks[i]);
      finalChunks := finalChunks + pieces;
      i := i + 1;
    }
    assert chunks[..|chunks|] == chunks;
  }

  /** Every final chunk is a window of some semantic chunk: it holds 1 to
      200 words and a sub-chunk index, and carries that chunk's
      metadata. */
  lemma {:induction false} FinalChunksShape(chunks: seq<Chunk>)
    ensures forall k :: 0 <= k < |FinalChunks(chunks)| ==>
              && FinalChunks(chunks)[k].subIndex.Some?
              && 1 <= |Words(FinalChunks(chunks)[k].text)| <= WordLimit
              && exists i :: 0 <= i < |chunks| && Inherits(FinalChunks(chunks)[k], chunks[i])
    decreases |chunks|
  {
    if chunks != [] {
      var init, c := chunks[..|chunks| - 1], chunks[|chunks| - 1];
      FinalChunksShape(init);
      SubChunksShape(c);
      var prev, sub := FinalChunks(init), SubChunks(c);
      forall k | 0 <= k < |prev| + |sub|
        ensures var x: Chunk := (prev + sub)[k];
                && x.subIndex.Some? && 1 <= |Words(x.text)| <= WordLimit
                && exists i :: 0 <= i < |chunks| && Inherits(x, chunks[i])
      {
        if k < |prev| {
          var i :| 0 <= i < |init| && Inherits(prev[k], init[i]);
          assert chunks[i] == init[i];
        } else {
          assert Inherits(sub[k - |prev|], chunks[|chunks| - 1]);
        }
      }
    }
  }

  /** Window `x` carries the category, page and paper of chunk `c`. */
  predicate Inherits(x: Chunk, c: Chunk) {
    x.category == c.category && x.page == c.page && x.paperId == c.paperId
  }

  // ---------------------------------------------------------------------
  // The whole chunker.

  /** `chunk_pdf_by_sections`: nothing when every title is blank; one
      "Full Document" chunk of the whole plain text on page 1 when no
      header is found; otherwise the word windows of the semantic chunks. */
  function DocumentChunks(pages: seq<seq<string>>, pageTexts: seq<string>, m: Matcher,
                          sections: seq<string>, paperId: string): seq<Chunk>
  {
    var regex := CreateSectionRegex(sections);
    if regex.None? then []
    else
      var bs := Boundaries(pages, m, regex.value, sections);
      if bs == [] then [Chunk(Strip(Concat(pageTexts)), "Full Document", 1, paperId, None)]
      else Pipeline(AllBlocks(pages), bs, paperId)
  }

  /** Lines 126-197, given the blocks and the boundaries. */
  function Pipeline(all: seq<Block>, bs: seq<Boundary>, paperId: string): seq<Chunk> {
    var sorted := SortBy(Starts(all, bs), StartIndex);
    SortedStarts(all, bs);
    FinalChunks(SemanticChunks(all, sorted, paperId))
  }

  /** Lines 64-197. */
  method ChunkPdfBySections(pages: seq<seq<string>>, pageTexts: seq<string>, m: Matcher,
                            paperId: string, sections: seq<string> := SectionsList) returns (chunks: seq<Chunk>)
    ensures chunks == DocumentChunks(pages, pageTexts, m, sections, paperId)
  {
    var sectionRegex := CreateSectionRegex(sections);
    if sectionRegex.None? {
      return [];
    }
    var boundaries := FindBoundaries(pages, m, sectionRegex.value, sections);
    if boundaries == [] {
      return [Chunk(Strip(Concat(pageTexts)), "Full Document", 1, paperId, None)];
    }
    var all := CollectBlocks(pages);
    var chunkStarts := ChunkStarts(all, boundaries);
    SortedStarts(all, boundaries);
    chunkStarts := SortBy(chunkStarts, StartIndex);
    var semantic := BuildSemanticChunks(all, chunkStarts, paperId);
    chunks := WindowAll(semantic);
  }

  /** Blank titles only: no chunk at all. */
  lemma NoTitlesNoChunks(pages: seq<seq<string>>, pageTexts: seq<string>, m: Matcher,
                         sections: seq<string>, paperId: string)
    requires forall i :: 0 <= i < |sections| ==> Strip(sections[i]) == []
    ensures DocumentChunks(pages, pageTexts, m, sections, paperId) == []
  {
  }

  /** No header found: exactly one chunk, the whole stripped text, on
      page 1, with no sub-chunk index. */
  lemma NoHeadersOneChunk(pages: seq<seq<string>>, pageTexts: seq<string>, m: Matcher,
                          sections: seq<string>, paperId: string)
    requires CreateSectionRegex(sections).Some?
    requires Boundaries(pages, m, CreateSectionRegex(sections).value, sections) == []
    ensures DocumentChunks(pages, pageTexts, m, sections, paperId)
         == [Chunk(Strip(Concat(pageTexts)), "Full Document", 1, paperId, None)]
  {
  }

  /** With headers found, every chunk is a numbered window of 1 to 200
      words whose category and page are those of one of the headers. */
  lemma HeaderChunks(pages: seq<seq<string>>, pageTexts: seq<string>, m: Matcher,
                     sections: seq<string>, paperId: string)
    requires CreateSectionRegex(sections).Some?
    requires Boundaries(pages, m, CreateSectionRegex(sections).value, sections) != []
    ensures var r := DocumentChunks(pages, pageTexts, m, sections, paperId);
            var bs := Boundaries(pages, m, CreateSectionRegex(sections).value, sections);
            forall k :: 0 <= k < |r| ==> Windowed(r[k], bs, paperId)
  {
    var bs := Boundaries(pages, m, CreateSectionRegex(sections).value, sections);
    PipelineWindows(AllBlocks(pages), bs, paperId);
  }

  /** A numbered window of 1 to 200 words with the category and page of
      one of the boundaries. */
  predicate Windowed(x: Chunk, bs: seq<Boundary>, paperId: string) {
    && x.subIndex.Some? && 1 <= |Words(x.text)| <= WordLimit && x.paperId == paperId
    && exists j :: 0 <= j < |bs| && x.category == bs[j].category && x.page == bs[j].page
  }

  lemma PipelineWindows(all: seq<Block>, bs: seq<Boundary>, paperId: string)
    ensures var r := Pipeline(all, bs, paperId);
            forall k :: 0 <= k < |r| ==> Windowed(r[k], bs, paperId)
  {
    var sorted := SortBy(Starts(all, bs), StartIndex);
    SortedStarts(all, bs);
    var semantic := SemanticChunks(all, sorted, paperId);
    assert Pipeline(all, bs, paperId) == FinalChunks(semantic);
    SemanticFromBoundaries(all, bs, paperId);
    WindowsFromBoundaries(semantic, bs, paperId);
  }

  /** Chunk `x` has the category and page of one of the boundaries. */
  predicate FromBoundary(x: Chunk, bs: seq<Boundary>) {
    exists j :: 0 <= j < |bs| && x.category == bs[j].category && x.page == bs[j].page
  }

  /** Each semantic chunk has the category and page of a boundary. */
  lemma SemanticFromBoundaries(all: seq<Block>, bs: seq<Boundary>, paperId: string)
    ensures var sorted := SortBy(Starts(all, bs), StartIndex);
            Ascending(all, sorted) &&
            var semantic := SemanticChunks(all, sorted, paperId);
            forall i :: 0 <= i < |semantic| ==> FromBoundary(semantic[i], bs) && semantic[i].paperId == paperId
  {
    var sorted := SortBy(Starts(all, bs), StartIndex);
    SortedStarts(all, bs);
    SortedOrigins(all, bs);
    SemanticMeta(all, sorted, paperId);
    var semantic := SemanticChunks(all, sorted, paperId);
    forall i | 0 <= i < |semantic| ensures FromBoundary(semantic[i], bs) {
      var j :| 0 <= j < |bs| && Origin(all, sorted[i], bs[j]);
      assert semantic[i].category == bs[j].category && semantic[i].page == bs[j].page;
    }
  }

  /** Every sorted start is the start of one of the boundaries. */
  lemma SortedOrigins(all: seq<Block>, bs: seq<Boundary>)
    ensures var sorted := SortBy(Starts(all, bs), StartIndex);
            forall i :: 0 <= i < |sorted| ==> exists j :: 0 <= j < |bs| && Origin(all, sorted[i], bs[j])
  {
    var ss := Starts(all, bs);
    var sorted := SortBy(ss, StartIndex);
    StartsShape(all, bs);
    forall i | 0 <= i < |sorted| ensures exists j :: 0 <= j < |bs| && Origin(all, sorted[i], bs[j]) {
      assert sorted[i] in multiset(ss);
      var n :| 0 <= n < |ss| && ss[n] == sorted[i];
    }
  }

  /** Semantic chunk `i` carries start `i`'s category and page and the paper. */
  lemma SemanticMeta(all: seq<Block>, starts: seq<Start>, paperId: string)
    requires Ascending(all, starts)
    ensures var semantic := SemanticChunks(all, starts, paperId);
            forall i :: 0 <= i < |semantic| ==>
              semantic[i].category == starts[i].category && semantic[i].page == starts[i].page
              && semantic[i].paperId == paperId && semantic[i].subIndex.None?
  {
  }

  /** The windows of chunks that come from boundaries. */
  lemma WindowsFromBoundaries(chunks: seq<Chunk>, bs: seq<Boundary>, paperId: string)
    requires forall i :: 0 <= i < |chunks| ==> FromBoundary(chunks[i], bs) && chunks[i].paperId == paperId
    ensures var r := FinalChunks(chunks);
            forall k :: 0 <= k < |r| ==> Windowed(r[k], bs, paperId)
  {
    FinalChunksShape(chunks);
    var r := FinalChunks(chunks);
    forall k | 0 <= k < |r| ensures Windowed(r[k], bs, paperId) {
      var i :| 0 <= i < |chunks| && Inherits(r[k], chunks[i]);
      var j :| 0 <= j < |bs| && chunks[i].category == bs[j].category && chunks[i].page == bs[j].page;
    }
  }
}

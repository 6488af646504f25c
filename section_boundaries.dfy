/** The first pass of the chunker (TSE-Project/query2.py, lines 70-111):
    every line of every text block is tried against the section-header
    pattern; a line that matches and names a section category not seen
    yet (compared in lower case) becomes a boundary, and the rest of that
    block is skipped. The PDF is given as its pages' raw block texts and
    the compiled pattern's `match` as a supplied function. */
module SectionBoundaries {
  import opened Common
  import opened PyStr

  /** The groups of a match, group 1 first; None for a group that took
      no part in it. */
  type Groups = seq<Option<string>>

  /** `re.compile(pattern, re.IGNORECASE).match(line)`: None when the line
      does not match, else its groups. */
  type Matcher = (string, string) -> Option<Groups>

  /** One entry of `section_boundaries`. */
  datatype Boundary = Boundary(text: string, page: int, category: string, blockIdx: int, lineStart: int)

  /** The first index from `i` on where `p` occurs in `s`, -1 when
      there is none. */
  function FindFrom(s: string, p: string, i: nat): (r: int)
    ensures r == -1 || (i <= r && OccursAt(s, p, r))
    ensures forall j :: i <= j && (r == -1 || j < r) ==> !OccursAt(s, p, j)
    decreases |s| - i
  {
    if i + |p| > |s| then -1
    else if s[i..i + |p|] == p then i
    else FindFrom(s, p, i + 1)
  }

  /** `s.find(p)`: the first index where `p` occurs, -1 when it does not. */
  function Find(s: string, p: string): (r: int)
    ensures -1 <= r <= |s|
    ensures r >= 0 ==> OccursAt(s, p, r) && forall j :: 0 <= j < r ==> !OccursAt(s, p, j)
    ensures r == -1 ==> forall j :: !OccursAt(s, p, j)
  {
    FindFrom(s, p, 0)
  }

  /** `find` gives -1 exactly when `p` is not in `s`. */
  lemma FindMissing(s: string, p: string)
    ensures Find(s, p) == -1 <==> !Contains(s, p)
  {
    ContainsAt(s, p);
  }

  /** The title named by the groups, tried from the last group to the
      first: the first group that is one of the section names exactly,
      stripped; "" when there is none. */
  function GroupTitle(groups: Groups, sections: seq<string>): string {
    if groups == [] then ""
    else
      var g := groups[|groups| - 1];
      if g.Some? && g.value in sections then Strip(g.value)
      else GroupTitle(groups[..|groups| - 1], sections)
  }

  /** The fallback: the first section name found in the line, ignoring
      case, stripped ("" when none is, and also when that name is blank). */
  function SearchTitle(sections: seq<string>, line: string): string {
    if sections == [] then ""
    else if Contains(Lower(line), Lower(sections[0])) then Strip(sections[0])
    else SearchTitle(sections[1..], line)
  }

  /** The title a matching line names. */
  function MatchedTitle(groups: Groups, sections: seq<string>, line: string): string {
    var t := GroupTitle(groups, sections);
    if t == "" then SearchTitle(sections, line) else t
  }

  /** What a stripped line names: its matched title, "" when the pattern
      does not match it. */
  function LineTitle(m: Matcher, pattern: string, sections: seq<string>, line: string): string {
    var groups := m(pattern, line);
    if groups.Some? then MatchedTitle(groups.value, sections, line) else ""
  }

  /** The title of each line, as a function. */
  function TitleOf(m: Matcher, pattern: string, sections: seq<string>): (f: string -> string)
    ensures forall line :: f(line) == LineTitle(m, pattern, sections, line)
  {
    line => LineTitle(m, pattern, sections, line)
  }

  /** The lower-cased categories recorded so far. */
  function Categories(bs: seq<Boundary>): (r: seq<string>)
    ensures |r| == |bs|
  {
    seq(|bs|, i requires 0 <= i < |bs| => Lower(bs[i].category))
  }

  /** The lines of a block from the given one on: the first that matches
      with a new, non-empty title is recorded and ends the block. */
  function ScanLines(acc: seq<Boundary>, page: int, blockIdx: int, blockText: string, lines: seq<string>,
                     title: string -> string): seq<Boundary>
  {
    if lines == [] then acc
    else if Adds(acc, title, lines[0]) then acc + [Entry(page, blockIdx, blockText, lines[0], title)]
    else ScanLines(acc, page, blockIdx, blockText, lines[1..], title)
  }

  /** A raw line whose stripped text has a title not recorded yet. */
  predicate Adds(acc: seq<Boundary>, title: string -> string, line: string) {
    var t := title(Strip(line));
    t != "" && Lower(t) !in Categories(acc)
  }

  /** The boundary a raw line of block `blockIdx` of page `page` makes:
      its stripped text, its title, and where `find` locates the text in
      the block. */
  function Entry(page: int, blockIdx: int, blockText: string, line: string, title: string -> string): Boundary {
    var text := Strip(line);
    Boundary(text, page, title(text), blockIdx, Find(blockText, text))
  }

  /** The lines of one block, stripped and split at newlines. */
  function BlockLines(raw: string): seq<string> {
    Split(Strip(raw), "\n")
  }

  /** The blocks of one page from index `b` on. */
  function ScanBlocks(acc: seq<Boundary>, page: int, blocks: seq<string>, b: nat, title: string -> string): seq<Boundary>
    decreases |blocks| - b
  {
    if b >= |blocks| then acc
    else
      var next := ScanLines(acc, page, b, Strip(blocks[b]), BlockLines(blocks[b]), title);
      ScanBlocks(next, page, blocks, b + 1, title)
  }

  /** The pages from index `p` on (page numbers count from 1). */
  function ScanPages(acc: seq<Boundary>, pages: seq<seq<string>>, p: nat, title: string -> string): seq<Boundary>
    decreases |pages| - p
  {
    if p >= |pages| then acc
    else ScanPages(ScanBlocks(acc, p + 1, pages[p], 0, title), pages, p + 1, title)
  }

  /** The section boundaries of a document. */
  function Boundaries(pages: seq<seq<string>>, m: Matcher, pattern: string, sections: seq<string>): seq<Boundary> {
    ScanPages([], pages, 0, TitleOf(m, pattern, sections))
  }

  // ---------------------------------------------------------------------
  // The loops.

  /** The group loop: from the last group down to the first. */
  method TitleFromGroups(groups: Groups, sections: seq<string>) returns (title: string)
    ensures title == GroupTitle(groups, sections)
  {
    title := "";
    var i := |groups|;
    assert groups[..i] == groups;
    while i > 0
      invariant 0 <= i <= |groups|
      invariant GroupTitle(groups, sections) == GroupTitle(groups[..i], sections)
    {
      assert groups[..i][..i - 1] == groups[..i - 1];
      var g := groups[i - 1];
      if g.Some? && g.value in sections {
        title := Strip(g.value);
        return;
      }
      i := i - 1;
    }
  }

  /** The fallback loop over the section names. */
  method TitleFromSearch(sections: seq<string>, line: string) returns (title: string)
    ensures title == SearchTitle(sections, line)
  {
    title := "";
    var i := 0;
    while i < |sections|
      invariant 0 <= i <= |sections|
      invariant SearchTitle(sections, line) == SearchTitle(sections[i..], line)
    {
      assert sections[i..][1..] == sections[i + 1..];
      if Contains(Lower(line), Lower(sections[i])) {
        title := Strip(sections[i]);
        return;
      }
      i := i + 1;
    }
  }

  /** Lines 81-99 for one stripped line: no title when the pattern does
      not match; else the groups' title, or the fallback search's. */
  method LineTitleOf(m: Matcher, pattern: string, sections: seq<string>, line: string) returns (title: string)
    ensures title == LineTitle(m, pattern, sections, line)
  {
    title := "";
    var groups := m(pattern, line);
    if groups.Some? {
      title := TitleFromGroups(groups.value, sections);
      if title == "" {
        title := TitleFromSearch(sections, line);
      }
    }
  }

  /** Lines 70-111: every page, every block, every line. */
  method FindBoundaries(pages: seq<seq<string>>, m: Matcher, pattern: string, sections: seq<string>)
    returns (boundaries: seq<Boundary>)
    ensures boundaries == Boundaries(pages, m, pattern, sections)
  {
    ghost var titleOf := TitleOf(m, pattern, sections);
    ghost var result := ScanPages([], pages, 0, titleOf);
    boundaries := [];
    var p := 0;
    while p < |pages|
      invariant 0 <= p <= |pages|
      invariant result == ScanPages(boundaries, pages, p, titleOf)
    {
      var blocks := pages[p];
      var b := 0;
      while b < |blocks|
        invariant 0 <= b <= |blocks|
        invariant result == ScanPages(ScanBlocks(boundaries, p + 1, blocks, b, titleOf), pages, p + 1, titleOf)
      {
        var blockText := Strip(blocks[b]);
        var lines := Split(blockText, "\n");
        ghost var whole := ScanLines(boundaries, p + 1, b, blockText, lines, titleOf);
        var j := 0;
        while j < |lines|
          invariant 0 <= j <= |lines|
          invariant whole == ScanLines(boundaries, p + 1, b, blockText, lines[j..], titleOf)
        {
          assert lines[j..][1..] == lines[j + 1..];
          var line := Strip(lines[j]);
          var title := LineTitleOf(m, pattern, sections, line);
          assert title == titleOf(line);
          if title != "" && Lower(title) !in Categories(boundaries) {
            boundaries := boundaries + [Boundary(line, p + 1, title, b, Find(blockText, line))];
            break;
          }
          j := j + 1;
        }
        b := b + 1;
      }
      p := p + 1;
    }
  }

  // ---------------------------------------------------------------------
  // What the scan promises.

  /** Each category is recorded once, compared in lower case. */
  predicate DistinctCategories(bs: seq<Boundary>) {
    forall i, j :: 0 <= i < j < |bs| ==> Lower(bs[i].category) != Lower(bs[j].category)
  }

  /** In document order, at most one boundary per block. */
  predicate InBlockOrder(bs: seq<Boundary>) {
    forall i, j :: 0 <= i < j < |bs| ==> Precedes(bs[i], bs[j].page, bs[j].blockIdx)
  }

  /** Boundary `h` lies before block `b` of page `page`. */
  predicate Precedes(h: Boundary, page: int, b: int) {
    h.page < page || (h.page == page && h.blockIdx < b)
  }

  /** The last boundary (and, in a list in block order, every one) lies
      before block `b` of page `page`. */
  predicate Before(bs: seq<Boundary>, page: int, b: int) {
    bs == [] || Precedes(bs[|bs| - 1], page, b)
  }

  /** Neither starting nor ending with whitespace. */
  predicate Stripped(s: string) {
    s == [] || (!IsSpace(s[0]) && !IsSpace(s[|s| - 1]))
  }

  /** Being stripped is being one's own strip. */
  lemma StrippedIsStrip(s: string)
    ensures Stripped(s) <==> Strip(s) == s
  {
    StripShape(s);
    if Stripped(s) {
      StripNoop(s);
    }
  }

  /** A boundary names a real block of the document, its category is not
      empty, and its text is a stripped line found at `lineStart` in the
      block's stripped text. */
  predicate Placed(h: Boundary, pages: seq<seq<string>>) {
    && 1 <= h.page <= |pages| && 0 <= h.blockIdx < |pages[h.page - 1]|
    && h.category != "" && Stripped(h.text)
    && OccursAt(Strip(pages[h.page - 1][h.blockIdx]), h.text, h.lineStart)
  }

  predicate AllPlaced(bs: seq<Boundary>, pages: seq<seq<string>>) {
    forall i {:trigger Placed(bs[i], pages)} :: 0 <= i < |bs| ==> Placed(bs[i], pages)
  }

  /** The list as the scan builds it: each boundary placed, after the
      ones before it, with a category they do not have. */
  predicate Good(bs: seq<Boundary>, pages: seq<seq<string>>)
    decreases |bs|
  {
    bs == [] ||
      var init, h := bs[..|bs| - 1], bs[|bs| - 1];
      && Good(init, pages) && Before(init, h.page, h.blockIdx) && Placed(h, pages)
      && Lower(h.category) !in Categories(init)
  }

  /** What contains `b` contains what `b` contains. */
  lemma ContainsTrans(a: string, b: string, c: string)
    requires Contains(a, b) && Contains(b, c)
    ensures Contains(a, c)
  {
    ContainsAt(a, b);
    ContainsAt(b, c);
    ContainsAt(a, c);
    var i :| OccursAt(a, b, i);
    var j :| OccursAt(b, c, j);
    forall k | 0 <= k < |c| ensures a[i + j + k] == c[k] {
      assert c[k] == b[j + k];
    }
    assert a[i + j..i + j + |c|] == c;
    assert OccursAt(a, c, i + j);
  }

  /** A string contains its strip. */
  lemma ContainsStrip(s: string)
    ensures Contains(s, Strip(s))
  {
    StripShape(s);
    var a :| 0 <= a <= |s| - |Strip(s)| && Strip(s) == s[a..a + |Strip(s)|];
    ContainsAt(s, Strip(s));
    assert OccursAt(s, Strip(s), a);
  }

  /** Every piece of a split occurs in the string split. */
  lemma SplitPiece(s: string, sep: string, i: int)
    requires sep != [] && 0 <= i < |Split(s, sep)|
    ensures Contains(s, Split(s, sep)[i])
  {
    JoinSplit(s, sep);
    JoinContainsPart(sep, Split(s, sep), i);
  }

  /** A block adds at most one boundary, after the existing ones: the
      one made by its first line that has a new title (`k` is that line,
      `|lines|` when there is none). */
  lemma {:induction false} ScanLinesShape(acc: seq<Boundary>, page: int, b: int, blockText: string, lines: seq<string>,
                                          title: string -> string)
    returns (k: int)
    ensures 0 <= k <= |lines|
    ensures forall i :: 0 <= i < k ==> !Adds(acc, title, lines[i])
    ensures k == |lines| ==> ScanLines(acc, page, b, blockText, lines, title) == acc
    ensures k < |lines| ==> (Adds(acc, title, lines[k]) &&
              ScanLines(acc, page, b, blockText, lines, title) == acc + [Entry(page, b, blockText, lines[k], title)])
    decreases |lines|
  {
    if lines == [] {
      k := 0;
    } else if Adds(acc, title, lines[0]) {
      k := 0;
    } else {
      var j := ScanLinesShape(acc, page, b, blockText, lines[1..], title);
      k := j + 1;
      forall i | 0 <= i < k ensures !Adds(acc, title, lines[i]) {
        if i > 0 {
          assert lines[i] == lines[1..][i - 1];
        }
      }
    }
  }

  /** A new category keeps the categories distinct. */
  lemma ExtendDistinct(acc: seq<Boundary>, h: Boundary)
    requires DistinctCategories(acc) && Lower(h.category) !in Categories(acc)
    ensures DistinctCategories(acc + [h])
  {
    forall i | 0 <= i < |acc| ensures Lower(acc[i].category) != Lower(h.category) {
      assert Categories(acc)[i] == Lower(acc[i].category);
    }
  }

  /** A boundary of a later block keeps the document order. */
  lemma ExtendOrder(acc: seq<Boundary>, h: Boundary)
    requires InBlockOrder(acc) && Before(acc, h.page, h.blockIdx)
    ensures InBlockOrder(acc + [h])
  {
    var bs := acc + [h];
    forall i, j | 0 <= i < j < |bs| ensures Precedes(bs[i], bs[j].page, bs[j].blockIdx) {
      if j == |acc| && i < |acc| - 1 {
        assert Precedes(acc[i], acc[|acc| - 1].page, acc[|acc| - 1].blockIdx);
      }
    }
  }

  lemma ExtendPlaced(acc: seq<Boundary>, h: Boundary, pages: seq<seq<string>>)
    requires AllPlaced(acc, pages) && Placed(h, pages)
    ensures AllPlaced(acc + [h], pages)
  {
    forall i | 0 <= i < |acc| + 1 ensures Placed((acc + [h])[i], pages) {
      if i < |acc| {
        assert (acc + [h])[i] == acc[i];
      }
    }
  }

  /** A boundary of a later block with a new category keeps the list good. */
  lemma Extend(acc: seq<Boundary>, h: Boundary, pages: seq<seq<string>>)
    requires Good(acc, pages) && Before(acc, h.page, h.blockIdx) && Placed(h, pages)
    requires Lower(h.category) !in Categories(acc)
    ensures Good(acc + [h], pages) && Before(acc + [h], h.page, h.blockIdx + 1)
  {
    assert (acc + [h])[..|acc|] == acc;
  }

  /** A list built that way names each category once, is in document
      order and is placed. */
  lemma {:induction false} GoodMeans(bs: seq<Boundary>, pages: seq<seq<string>>)
    requires Good(bs, pages)
    ensures DistinctCategories(bs) && InBlockOrder(bs) && AllPlaced(bs, pages)
    decreases |bs|
  {
    if bs != [] {
      var init, h := bs[..|bs| - 1], bs[|bs| - 1];
      GoodMeans(init, pages);
      assert bs == init + [h];
      ExtendDistinct(init, h);
      ExtendOrder(init, h);
      ExtendPlaced(init, h, pages);
    }
  }

  /** The entry a block adds is placed in that block. */
  lemma EntryPlaced(h: Boundary, pages: seq<seq<string>>, line: string)
    requires 1 <= h.page <= |pages| && 0 <= h.blockIdx < |pages[h.page - 1]| && h.category != ""
    requires Contains(Strip(pages[h.page - 1][h.blockIdx]), line)
    requires h.text == Strip(line) && h.lineStart == Find(Strip(pages[h.page - 1][h.blockIdx]), h.text)
    ensures Placed(h, pages)
  {
    var blockText := Strip(pages[h.page - 1][h.blockIdx]);
    ContainsStrip(line);
    ContainsTrans(blockText, line, h.text);
    FindMissing(blockText, h.text);
    StripShape(line);
  }

  /** One page, from block `b` on. */
  lemma {:induction false} ScanBlocksGood(acc: seq<Boundary>, pages: seq<seq<string>>, page: int, b: nat,
                                          title: string -> string)
    requires 1 <= page <= |pages| && b <= |pages[page - 1]|
    requires Good(acc, pages) && Before(acc, page, b)
    ensures Good(ScanBlocks(acc, page, pages[page - 1], b, title), pages)
    ensures Before(ScanBlocks(acc, page, pages[page - 1], b, title), page + 1, 0)
    decreases |pages[page - 1]| - b, 1
  {
    if b < |pages[page - 1]| {
      LinesInBlock(pages[page - 1][b]);
      BlockGood(acc, pages, page, b, BlockLines(pages[page - 1][b]), title);
      AfterBlockGood(acc, pages, page, b, title);
    }
  }

  /** Block `b` of page `page`: what its lines add keeps the list good. */
  lemma BlockGood(acc: seq<Boundary>, pages: seq<seq<string>>, page: int, b: nat, lines: seq<string>,
                  title: string -> string)
    requires 1 <= page <= |pages| && b < |pages[page - 1]|
    requires forall i :: 0 <= i < |lines| ==> Contains(Strip(pages[page - 1][b]), lines[i])
    requires Good(acc, pages) && Before(acc, page, b)
    ensures Good(ScanLines(acc, page, b, Strip(pages[page - 1][b]), lines, title), pages)
    ensures Before(ScanLines(acc, page, b, Strip(pages[page - 1][b]), lines, title), page, b + 1)
  {
    var text := Strip(pages[page - 1][b]);
    var k := ScanLinesShape(acc, page, b, text, lines, title);
    if k < |lines| {
      var h := Entry(page, b, text, lines[k], title);
      EntryPlaced(h, pages, lines[k]);
      Extend(acc, h, pages);
    }
  }

  /** Every line of a block occurs in its stripped text. */
  lemma LinesInBlock(raw: string)
    ensures forall i :: 0 <= i < |BlockLines(raw)| ==> Contains(Strip(raw), BlockLines(raw)[i])
  {
    forall i | 0 <= i < |BlockLines(raw)| ensures Contains(Strip(raw), BlockLines(raw)[i]) {
      SplitPiece(Strip(raw), "\n", i);
    }
  }

  /** The blocks after block `b`, once that block has been scanned. */
  lemma {:induction false} AfterBlockGood(acc: seq<Boundary>, pages: seq<seq<string>>, page: int, b: nat,
                                          title: string -> string)
    requires 1 <= page <= |pages| && b < |pages[page - 1]|
    requires var raw := pages[page - 1][b];
             var next := ScanLines(acc, page, b, Strip(raw), BlockLines(raw), title);
             Good(next, pages) && Before(next, page, b + 1)
    ensures Good(ScanBlocks(acc, page, pages[page - 1], b, title), pages)
    ensures Before(ScanBlocks(acc, page, pages[page - 1], b, title), page + 1, 0)
    decreases |pages[page - 1]| - b, 0
  {
    var raw := pages[page - 1][b];
    ScanBlocksGood(ScanLines(acc, page, b, Strip(raw), BlockLines(raw), title), pages, page, b + 1, title);
  }

  /** The pages from index `p` on. */
  lemma {:induction false} ScanPagesGood(acc: seq<Boundary>, pages: seq<seq<string>>, p: nat,
                                         title: string -> string)
    requires p <= |pages|
    requires Good(acc, pages) && Before(acc, p + 1, 0)
    ensures Good(ScanPages(acc, pages, p, title), pages)
    decreases |pages| - p, 1
  {
    if p < |pages| {
      ScanBlocksGood(acc, pages, p + 1, 0, title);
      AfterPageGood(acc, pages, p, title);
    }
  }

  /** The pages after page `p + 1`, once that page has been scanned. */
  lemma {:induction false} AfterPageGood(acc: seq<Boundary>, pages: seq<seq<string>>, p: nat,
                                         title: string -> string)
    requires p < |pages|
    requires Good(ScanBlocks(acc, p + 1, pages[p], 0, title), pages)
    requires Before(ScanBlocks(acc, p + 1, pages[p], 0, title), p + 2, 0)
    ensures Good(ScanPages(acc, pages, p, title), pages)
    decreases |pages| - p, 0
  {
    ScanPagesGood(ScanBlocks(acc, p + 1, pages[p], 0, title), pages, p + 1, title);
  }

  /** The boundaries of a document name each category once (first
      occurrence kept, compared in lower case), come in document order
      with at most one per block, and each is a stripped line of its block
      that `find` locates, so `line_start_idx` is never -1. */
  lemma BoundariesGood(pages: seq<seq<string>>, m: Matcher, pattern: string, sections: seq<string>)
    ensures var bs := Boundaries(pages, m, pattern, sections);
            DistinctCategories(bs) && InBlockOrder(bs) && AllPlaced(bs, pages)
  {
    ScanPagesGood([], pages, 0, TitleOf(m, pattern, sections));
    GoodMeans(Boundaries(pages, m, pattern, sections), pages);
  }

  /** A block none of whose lines has a new title adds nothing. */
  lemma {:induction false} ScanLinesQuiet(acc: seq<Boundary>, page: int, b: int, blockText: string, lines: seq<string>,
                                          title: string -> string)
    requires forall i :: 0 <= i < |lines| ==> !Adds(acc, title, lines[i])
    ensures ScanLines(acc, page, b, blockText, lines, title) == acc
    decreases |lines|
  {
    if lines != [] {
      ScanLinesQuiet(acc, page, b, blockText, lines[1..], title);
    }
  }
}

/** The section-header pattern of the chunker
    (TSE-Project/query2.py, `_create_section_regex`): the non-blank titles,
    stripped and escaped, longest first, as the alternatives of a pattern
    that allows leading numbering. The pattern is kept as its text;
    compiling it with IGNORECASE is not part of this model. */
module SectionRegex {
  import opened Common
  import opened PyStr
  import opened StableSort

  /** The characters `re.escape` puts a backslash before. */
  predicate Special(c: char) {
    c in "()[]{}?*+-|^$\\.&~# \t\n\r" || c as int == 11 || c as int == 12
  }

  /** `re.escape(s)` */
  function Escape(s: string): (r: string)
    ensures |r| >= |s|
    ensures s == [] <==> r == []
  {
    if s == [] then []
    else (if Special(s[0]) then ['\\', s[0]] else [s[0]]) + Escape(s[1..])
  }

  /** Reading an escaped string back: a backslash stands for the
      character after it. */
  function Unescape(s: string): string {
    if s == [] then []
    else if s[0] == '\\' && |s| >= 2 then [s[1]] + Unescape(s[2..])
    else [s[0]] + Unescape(s[1..])
  }

  /** Escaping loses nothing: the title can be read back. */
  lemma {:induction false} UnescapeEscape(s: string)
    ensures Unescape(Escape(s)) == s
  {
    if s != [] {
      UnescapeEscape(s[1..]);
      var e := Escape(s[1..]);
      if Special(s[0]) {
        assert (['\\', s[0]] + e)[2..] == e;
      } else {
        assert ([s[0]] + e)[1..] == e;
      }
    }
  }

  /** `[re.escape(s.strip()) for s in sections if s.strip()]` */
  function EscapedTitles(sections: seq<string>): (r: seq<string>)
    ensures |r| <= |sections|
    ensures forall i :: 0 <= i < |r| ==> r[i] != []
  {
    if sections == [] then []
    else
      var last := sections[|sections| - 1];
      EscapedTitles(sections[..|sections| - 1]) + (if Strip(last) != [] then [Escape(Strip(last))] else [])
  }

  /** No title survives exactly when every title is blank. */
  lemma {:induction false} NoEscapedTitles(sections: seq<string>)
    ensures EscapedTitles(sections) == [] <==> forall i :: 0 <= i < |sections| ==> Strip(sections[i]) == []
    decreases |sections|
  {
    if sections != [] {
      var init, last := sections[..|sections| - 1], sections[|sections| - 1];
      NoEscapedTitles(init);
      assert EscapedTitles(sections) == EscapedTitles(init) + (if Strip(last) != [] then [Escape(Strip(last))] else []);
      if EscapedTitles(sections) == [] {
        forall i | 0 <= i < |sections| ensures Strip(sections[i]) == [] {
          if i < |init| {
            assert sections[i] == init[i];
          }
        }
      }
      if forall i :: 0 <= i < |sections| ==> Strip(sections[i]) == [] {
        forall i | 0 <= i < |init| ensures Strip(init[i]) == [] {
          assert sections[i] == init[i];
        }
        assert Strip(last) == [];
      }
    }
  }

  /** A non-blank title's escaped form is among the escaped titles. */
  lemma {:induction false} EscapedTitleListed(sections: seq<string>, i: int)
    requires 0 <= i < |sections| && Strip(sections[i]) != []
    ensures Escape(Strip(sections[i])) in EscapedTitles(sections)
    decreases |sections|
  {
    if i < |sections| - 1 {
      EscapedTitleListed(sections[..|sections| - 1], i);
    }
  }

  /** The sort key of `sort(key=len, reverse=True)`. */
  function LongestFirst(s: string): int {
    -|s|
  }

  /** The optional numbering before a title: "1.", "2.1", "IV", "A." and
      the like. */
  const NumberingPrefix := "(\\s*(\\d+(\\.\\d+)*|[IVXLCDM]+\\.?|[A-Z]\\.?)\\s+)?"
  const PatternHead := "^\\s*" + NumberingPrefix + "("
  const PatternTail := ")\\s*$"

  /** The titles as the pattern lists them. */
  function Alternatives(sections: seq<string>): seq<string> {
    SortBy(EscapedTitles(sections), LongestFirst)
  }

  /** The alternatives are the escaped titles, longest first. */
  lemma AlternativesLongestFirst(sections: seq<string>)
    ensures multiset(Alternatives(sections)) == multiset(EscapedTitles(sections))
    ensures var r := Alternatives(sections); forall i, j :: 0 <= i < j < |r| ==> |r[i]| >= |r[j]|
  {
    var r := Alternatives(sections);
    SortBySorted(EscapedTitles(sections), LongestFirst);
    forall i, j | 0 <= i < j < |r| ensures |r[i]| >= |r[j]| {
      assert LongestFirst(r[i]) <= LongestFirst(r[j]);
    }
  }

  /** `SECTIONS_LIST`: the section titles the chunker looks for unless it
      is given others (spellings as in the source). */
  const SectionsList: seq<string> := [
    "Abstract", "Introduction", "Motivation", "Study Design and Execution", "Results", "Discussion",
    "Related Work", "Conclusion", "Future Work", "Conclusion And Future Work", "Refrences",
    "Background", "Literature Review", "Key Features Of a Tool", "MLFlow: An Open Source Tool For ML Life Cycle Support",
    "Comparative Evaluation of Commerical Tools For ML Life Cycle Support", "Methodology", "Problem Description",
    "Experiements", "Software Development Life Cycles", "Acknowledgments", "System Overview",
    "Basic Design Components", "Service Placement Module", "Implementation and Evaluation", "Evaluation"]

  /** `_create_section_regex`: None when every title is blank; otherwise
      the pattern text, its alternatives the escaped titles longest first,
      titles of equal length in the order given. */
  function CreateSectionRegex(sections: seq<string>): (r: Option<string>)
    ensures r.None? <==> forall i :: 0 <= i < |sections| ==> Strip(sections[i]) == []
    ensures r.Some? ==> r.value == PatternHead + Join("|", Alternatives(sections)) + PatternTail
  {
    NoEscapedTitles(sections);
    if EscapedTitles(sections) == [] then None
    else Some(PatternHead + Join("|", Alternatives(sections)) + PatternTail)
  }

  /** Every non-blank title, escaped, is one of the pattern's
      alternatives, so it occurs in the pattern. */
  lemma TitleInPattern(sections: seq<string>, i: int)
    requires 0 <= i < |sections| && Strip(sections[i]) != []
    ensures CreateSectionRegex(sections).Some?
    ensures Escape(Strip(sections[i])) in Alternatives(sections)
    ensures Contains(CreateSectionRegex(sections).value, Escape(Strip(sections[i])))
  {
    var t := Escape(Strip(sections[i]));
    EscapedTitleListed(sections, i);
    var alts := Alternatives(sections);
    AlternativesLongestFirst(sections);
    assert t in multiset(alts);
    var j :| 0 <= j < |alts| && alts[j] == t;
    JoinContainsPart("|", alts, j);
    ContainsConcat(PatternHead, Join("|", alts), t);
    ContainsConcat(PatternHead + Join("|", alts), PatternTail, t);
  }

  /** Titles of the same length keep their relative order in the pattern
      (`k` is that length negated, the sort key). */
  lemma EqualLengthsInOrder(sections: seq<string>, k: int)
    ensures WithKey(Alternatives(sections), LongestFirst, k) == WithKey(EscapedTitles(sections), LongestFirst, k)
  {
    SortStable(EscapedTitles(sections), LongestFirst, k);
  }

  /** The default titles are not all blank, so the chunker called with
      them always has a pattern. */
  lemma DefaultSectionsHavePattern()
    ensures |SectionsList| == 26
    ensures CreateSectionRegex(SectionsList).Some?
  {
    assert SectionsList[0] == "Abstract";
    assert Strip(SectionsList[0]) != [];
  }
}

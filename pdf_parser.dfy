/**
 * The text side of the PDF parser: the page-marked full text handed to the
 * extractor, the definitions section (Section 1.01 through the page that
 * opens Section 1.02) and the lookup of one section by its ID. Reading the
 * PDF itself is a library call; the pages arrive as input. The regular
 * expressions are predicates given by the caller.
 */
module PdfParser {
  import opened Wrappers
  import opened Text

  /** One page of the document, numbered from 1. */
  datatype PageContent = PageContent(pageNumber: int, text: string)

  function Texts(pages: seq<PageContent>): (texts: seq<string>)
    ensures |texts| == |pages| && forall k :: 0 <= k < |pages| ==> texts[k] == pages[k].text
  {
    seq(|pages|, i requires 0 <= i < |pages| => pages[i].text)
  }

  // ---------------------------------------------------------------------
  // Full text
  // ---------------------------------------------------------------------

  /** The marker put before each page in the full text. */
  function Marker(p: PageContent): string
  {
    "\n[PAGE " + IntToString(p.pageNumber) + "]\n"
  }

  /** The parts `get_full_text` collects: each page's marker, then its text. */
  function PageParts(pages: seq<PageContent>): (parts: seq<string>)
    ensures |parts| == 2 * |pages|
  {
    if pages == [] then []
    else
      var p := pages[|pages| - 1];
      PageParts(pages[..|pages| - 1]) + [Marker(p), p.text]
  }

  /** The full text: the parts joined with newlines. */
  function FullText(pages: seq<PageContent>): string
  {
    Join(PageParts(pages), "\n")
  }

  /** `get_full_text`. */
  method GetFullText(pages: seq<PageContent>) returns (text: string)
    ensures text == FullText(pages)
  {
    var parts: seq<string> := [];
    for i := 0 to |pages|
      invariant parts == PageParts(pages[..i])
    {
      assert pages[..i + 1][..i] == pages[..i];
      parts := parts + [Marker(pages[i])];
      parts := parts + [pages[i].text];
    }
    assert pages[..|pages|] == pages;
    text := Join(parts, "\n");
  }

  lemma {:induction false} JoinSnoc(parts: seq<string>, x: string, sep: string)
    requires parts != []
    ensures Join(parts + [x], sep) == Join(parts, sep) + sep + x
    decreases |parts|
  {
    if |parts| > 1 {
      assert (parts + [x])[1..] == parts[1..] + [x];
      JoinSnoc(parts[1..], x, sep);
    }
  }

  /** The block one page contributes to the full text. */
  function PageBlock(p: PageContent): string
  {
    Marker(p) + "\n" + p.text
  }

  /** Adding a page appends its marker and text after a newline; a single page is just its block. */
  lemma FullTextSnoc(pages: seq<PageContent>, p: PageContent)
    ensures pages == [] ==> FullText(pages + [p]) == PageBlock(p)
    ensures pages != [] ==> FullText(pages + [p]) == FullText(pages) + "\n" + PageBlock(p)
  {
    var parts := PageParts(pages);
    assert (pages + [p])[..|pages|] == pages;
    assert PageParts(pages + [p]) == parts + [Marker(p), p.text];
    if pages != [] {
      JoinSnocPair(parts, Marker(p), p.text, "\n");
    } else {
      assert parts + [Marker(p), p.text] == [Marker(p), p.text];
      JoinPair(Marker(p), p.text, "\n");
    }
  }

  lemma JoinPair(a: string, b: string, sep: string)
    ensures Join([a, b], sep) == a + sep + b
  {
    assert [a, b][1..] == [b];
  }

  lemma JoinSnocPair(parts: seq<string>, a: string, b: string, sep: string)
    requires parts != []
    ensures Join(parts + [a, b], sep) == Join(parts, sep) + sep + (a + sep + b)
  {
    JoinSnoc(parts, a, sep);
    JoinSnoc(parts + [a], b, sep);
    assert parts + [a] + [b] == parts + [a, b];
  }

  lemma ContainsInPrefix(a: string, s: string, sub: string)
    requires Contains(a, sub) && |a| <= |s| && s[..|a|] == a
    ensures Contains(s, sub)
  {
    var i :| 0 <= i <= |a| && OccursAt(a, sub, i);
    assert s[i..i + |sub|] == a[i..i + |sub|];
    assert OccursAt(s, sub, i);
  }

  lemma ContainsInEmpty(s: string, sub: string)
    requires s == [] && Contains(s, sub)
    ensures sub == []
  {
  }

  lemma ContainsAsSuffix(a: string, sub: string)
    ensures Contains(a + sub, sub)
  {
    assert (a + sub)[|a|..|a| + |sub|] == sub;
    assert OccursAt(a + sub, sub, |a|);
  }

  /** Every page's marker and text appear in the full text. */
  lemma EveryPageInFullText(pages: seq<PageContent>)
    ensures forall k :: 0 <= k < |pages| ==> Contains(FullText(pages), PageBlock(pages[k]))
  {
    forall k | 0 <= k < |pages| ensures Contains(FullText(pages), PageBlock(pages[k])) {
      PageInFullText(pages, k);
    }
  }

  lemma {:induction false} PageInFullText(pages: seq<PageContent>, k: nat)
    requires k < |pages|
    ensures Contains(FullText(pages), PageBlock(pages[k]))
    decreases |pages|
  {
    var init := pages[..|pages| - 1];
    var p := pages[|pages| - 1];
    assert pages == init + [p];
    if k == |pages| - 1 {
      LastPageIn(init, p);
    } else {
      assert pages[k] == init[k];
      PageInFullText(init, k);
      EarlierTextIn(init, p, PageBlock(pages[k]));
    }
  }

  lemma LastPageIn(init: seq<PageContent>, p: PageContent)
    ensures Contains(FullText(init + [p]), PageBlock(p))
  {
    FullTextSnoc(init, p);
    if init == [] {
      ContainsAsSuffix([], PageBlock(p));
      assert [] + PageBlock(p) == PageBlock(p);
    } else {
      ContainsAsSuffix(FullText(init) + "\n", PageBlock(p));
    }
  }

  lemma EarlierTextIn(init: seq<PageContent>, p: PageContent, sub: string)
    requires Contains(FullText(init), sub)
    ensures Contains(FullText(init + [p]), sub)
  {
    if init == [] {
      FirstPageHoldsEmpty(init, p, sub);
    } else {
      FullTextSnoc(init, p);
      var a := FullText(init);
      assert FullText(init + [p])[..|a|] == a;
      ContainsInPrefix(a, FullText(init + [p]), sub);
    }
  }

  /** The text of no pages holds only the empty string, which every text holds. */
  lemma FirstPageHoldsEmpty(init: seq<PageContent>, p: PageContent, sub: string)
    requires init == [] && Contains(FullText(init), sub)
    ensures Contains(FullText(init + [p]), sub)
  {
    assert PageParts(init) == [];
    ContainsInEmpty(FullText(init), sub);
    assert OccursAt(FullText(init + [p]), sub, 0);
  }

  // ---------------------------------------------------------------------
  // Searching pages
  // ---------------------------------------------------------------------

  /** The first index at or after `from` whose text satisfies `pred`, or |texts| when none does. */
  function FirstMatch(texts: seq<string>, pred: string -> bool, from: nat): (k: nat)
    requires from <= |texts|
    ensures from <= k <= |texts|
    ensures k < |texts| ==> pred(texts[k])
    ensures forall j :: from <= j < k ==> !pred(texts[j])
    decreases |texts| - from
  {
    if from == |texts| then from
    else if pred(texts[from]) then from
    else FirstMatch(texts, pred, from + 1)
  }

  // ---------------------------------------------------------------------
  // Definitions section
  // ---------------------------------------------------------------------

  /** How a page appears in the definitions section. */
  function DefinitionBlock(p: PageContent): string
  {
    "[PAGE " + IntToString(p.pageNumber) + "]\n" + p.text
  }

  function DefinitionBlocks(pages: seq<PageContent>): (blocks: seq<string>)
    ensures |blocks| == |pages| && forall k :: 0 <= k < |pages| ==> blocks[k] == DefinitionBlock(pages[k])
  {
    seq(|pages|, i requires 0 <= i < |pages| => DefinitionBlock(pages[i]))
  }

  /**
   * The pages of the definitions section: from the first page that opens
   * Section 1.01 through the first page, from there on, that mentions
   * Section 1.02 (or through the last page).
   */
  function DefinitionPages(pages: seq<PageContent>, opensDefinitions: string -> bool, mentionsNext: string -> bool): (d: seq<PageContent>)
    ensures |d| <= |pages|
    ensures d != [] ==> opensDefinitions(d[0].text)
  {
    var s := FirstMatch(Texts(pages), opensDefinitions, 0);
    if s == |pages| then []
    else
      var e := FirstMatch(Texts(pages), mentionsNext, s);
      pages[s..if e < |pages| then e + 1 else |pages|]
  }

  /**
   * `d` is the run of consecutive pages from index `s`: `s` is the first
   * page that opens Section 1.01, no page of the run before its last
   * mentions Section 1.02, and the run ends at such a page or at the
   * document's end.
   */
  predicate DefinitionRun(pages: seq<PageContent>, d: seq<PageContent>, s: int, opensDefinitions: string -> bool, mentionsNext: string -> bool)
  {
    0 <= s && s + |d| <= |pages| && d != [] && d == pages[s..s + |d|] &&
    opensDefinitions(pages[s].text) &&
    (forall k :: 0 <= k < s ==> !opensDefinitions(pages[k].text)) &&
    (forall k :: s <= k < s + |d| - 1 ==> !mentionsNext(pages[k].text)) &&
    (mentionsNext(pages[s + |d| - 1].text) || s + |d| == |pages|)
  }

  /** The definitions pages are empty exactly when no page opens Section 1.01, and otherwise form a definitions run. */
  lemma DefinitionPagesShape(pages: seq<PageContent>, opensDefinitions: string -> bool, mentionsNext: string -> bool)
    ensures DefinitionPages(pages, opensDefinitions, mentionsNext) == [] <==> forall k :: 0 <= k < |pages| ==> !opensDefinitions(pages[k].text)
    ensures DefinitionPages(pages, opensDefinitions, mentionsNext) != [] ==>
      exists s :: DefinitionRun(pages, DefinitionPages(pages, opensDefinitions, mentionsNext), s, opensDefinitions, mentionsNext)
  {
    var texts := Texts(pages);
    var s := FirstMatch(texts, opensDefinitions, 0);
    if s < |pages| {
      var e := FirstMatch(texts, mentionsNext, s);
      var d := DefinitionPages(pages, opensDefinitions, mentionsNext);
      assert d == pages[s..s + |d|];
      assert DefinitionRun(pages, d, s, opensDefinitions, mentionsNext);
    }
  }

  /** Scanning on from `from`, the first match is `i` exactly when `i` is reached and matches. */
  lemma FirstMatchAt(texts: seq<string>, pred: string -> bool, from: nat, i: nat)
    requires from <= i < |texts| && FirstMatch(texts, pred, from) >= i
    ensures pred(texts[i]) <==> FirstMatch(texts, pred, from) == i
  {
  }

  /** Where the definitions pages end once the scan stops at page `e`, or runs off the end. */
  lemma DefinitionPagesUpTo(pages: seq<PageContent>, opensDefinitions: string -> bool, mentionsNext: string -> bool, e: nat)
    requires FirstMatch(Texts(pages), opensDefinitions, 0) <= e <= |pages|
    requires FirstMatch(Texts(pages), mentionsNext, FirstMatch(Texts(pages), opensDefinitions, 0)) >= e
    requires e == |pages| || mentionsNext(pages[e].text)
    ensures var s := FirstMatch(Texts(pages), opensDefinitions, 0);
      DefinitionPages(pages, opensDefinitions, mentionsNext) == if e == |pages| then pages[s..] else pages[s..e + 1]
  {
  }

  lemma DefinitionBlocksSnoc(pages: seq<PageContent>, s: nat, i: nat)
    requires s <= i < |pages|
    ensures DefinitionBlocks(pages[s..i + 1]) == DefinitionBlocks(pages[s..i]) + [DefinitionBlock(pages[i])]
  {
    assert pages[s..i + 1] == pages[s..i] + [pages[i]];
    BlocksSnoc(pages[s..i], pages[i]);
  }

  lemma BlocksSnoc(d: seq<PageContent>, p: PageContent)
    ensures DefinitionBlocks(d + [p]) == DefinitionBlocks(d) + [DefinitionBlock(p)]
  {
    assert forall k :: 0 <= k < |d| ==> (d + [p])[k] == d[k];
  }

  /** `extract_definitions_section`: the definitions pages, each under its page header, or None when there are none. */
  method ExtractDefinitionsSection(pages: seq<PageContent>, opensDefinitions: string -> bool, mentionsNext: string -> bool)
    returns (r: Option<string>)
    ensures var d := DefinitionPages(pages, opensDefinitions, mentionsNext);
      r == if d == [] then None else Some(Join(DefinitionBlocks(d), "\n"))
  {
    ghost var texts := Texts(pages);
    ghost var s := FirstMatch(texts, opensDefinitions, 0);
    ghost var e := if s < |pages| then FirstMatch(texts, mentionsNext, s) else |pages|;
    var definitionsText: seq<string> := [];
    var inDefinitions := false;
    var i := 0;
    while i < |pages|
      invariant 0 <= i <= |pages|
      invariant inDefinitions <==> s < i
      invariant !inDefinitions ==> definitionsText == []
      invariant inDefinitions ==> definitionsText == DefinitionBlocks(pages[s..i]) && e >= i
    {
      var text := pages[i].text;
      assert texts[i] == text;
      if !inDefinitions {
        FirstMatchAt(texts, opensDefinitions, 0, i);
      }
      if opensDefinitions(text) {
        inDefinitions := true;
      }
      if inDefinitions {
        FirstMatchAt(texts, mentionsNext, s, i);
        definitionsText := definitionsText + [DefinitionBlock(pages[i])];
        DefinitionBlocksSnoc(pages, s, i);
        if mentionsNext(text) {
          DefinitionPagesUpTo(pages, opensDefinitions, mentionsNext, i);
          break;
        }
      }
      i := i + 1;
    }
    if i == |pages| && s < |pages| {
      DefinitionPagesUpTo(pages, opensDefinitions, mentionsNext, i);
      assert pages[s..] == pages[s..i];
    }
    if definitionsText != [] {
      return Some(Join(definitionsText, "\n"));
    }
    return None;
  }

  // ---------------------------------------------------------------------
  // One section
  // ---------------------------------------------------------------------

  /**
   * A page holds the section when it mentions the ID, ignoring case, and
   * the section heading pattern matches; `headingAt` gives where the
   * heading match starts.
   */
  predicate HoldsSection(text: string, sectionId: string, headingAt: string -> Option<nat>)
  {
    Contains(Lower(text), Lower(sectionId)) && headingAt(text).Some?
  }

  /** At most 5000 characters of the page, from the heading on. */
  function SectionText(text: string, start: nat): (r: string)
    ensures |r| <= 5000
  {
    Take(Drop(text, start), 5000)
  }

  /**
   * `find_section`: the number of the first page holding the section and
   * the text from its heading on, at most 5000 characters; None when no
   * page holds it.
   */
  method FindSection(pages: seq<PageContent>, sectionId: string, headingAt: string -> Option<nat>)
    returns (r: Option<(int, string)>)
    ensures r.None? <==> forall k :: 0 <= k < |pages| ==> !HoldsSection(pages[k].text, sectionId, headingAt)
    ensures r.Some? ==> exists k :: (0 <= k < |pages| && HoldsSection(pages[k].text, sectionId, headingAt) &&
      (forall j :: 0 <= j < k ==> !HoldsSection(pages[j].text, sectionId, headingAt)) &&
      r.value == (pages[k].pageNumber, SectionText(pages[k].text, headingAt(pages[k].text).value)))
    ensures r.Some? ==> |r.value.1| <= 5000
  {
    for i := 0 to |pages|
      invariant forall j :: 0 <= j < i ==> !HoldsSection(pages[j].text, sectionId, headingAt)
    {
      var page := pages[i];
      if Contains(Lower(page.text), Lower(sectionId)) {
        var heading := headingAt(page.text);
        if heading.Some? {
          var startPos := heading.value;
          var sectionText := Take(Drop(page.text, startPos), 5000);
          return Some((page.pageNumber, sectionText));
        }
      }
    }
    return None;
  }
}

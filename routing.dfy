/**
 * The topic router: it turns a user question into the ontology categories
 * it is about. Category metadata (names, descriptions, question ids,
 * target fields and concept types) is loaded from the graph, turned into
 * keyword sets, and cached with a time-to-live; a question is tokenized,
 * every category is scored against it, the best-scoring categories above
 * a relative threshold are kept, and their question ids and target fields
 * are gathered without duplicates.
 *
 * The query rows are inputs, the clock is a parameter, and Python's
 * `str.lower`/`str.upper` are ASCII only.
 */
module Routing {
  import opened Wrappers
  import opened Text
  import opened Collections

  // ---------------------------------------------------------------------
  // Tokenizer
  // ---------------------------------------------------------------------

  /** A word `_tokenize` discards whatever its length. */
  predicate IsStopword(w: string)
  {
    w in {
      "the", "a", "an", "is", "are", "was", "were", "be", "been", "being",
      "have", "has", "had", "do", "does", "did", "will", "would", "shall",
      "should", "may", "might", "must", "can", "could", "of", "in", "to",
      "for", "with", "on", "at", "by", "from", "as", "into", "through",
      "during", "before", "after", "above", "below", "between", "out",
      "off", "over", "under", "again", "further", "then", "once", "that",
      "this", "these", "those", "and", "but", "or", "nor", "not", "so",
      "if", "what", "which", "who", "whom", "when", "where", "why", "how",
      "all", "each", "every", "both", "few", "more", "most", "other",
      "some", "such", "no", "any", "only"
    }
  }

  const MinKeywordLen := 3

  predicate IsLetter(c: char) { 'a' <= c <= 'z' }

  predicate IsWordChar(c: char) { 'a' <= c <= 'z' || '0' <= c <= '9' }

  /** A string matched by the pattern `[a-z][a-z0-9]+`. */
  predicate IsWord(w: string)
  {
    |w| >= 2 && IsLetter(w[0]) && forall i :: 0 <= i < |w| ==> IsWordChar(w[i])
  }

  /** Length of the longest prefix of `s` drawn from `[a-z0-9]`. */
  function RunLength(s: string): (n: nat)
    ensures n <= |s|
    ensures forall i :: 0 <= i < n ==> IsWordChar(s[i])
    ensures n == |s| || !IsWordChar(s[n])
  {
    if s != [] && IsWordChar(s[0]) then 1 + RunLength(s[1..]) else 0
  }

  /**
   * `re.findall(r'[a-z][a-z0-9]+', s)`: matches are tried left to right,
   * each one is as long as possible, and the next search starts where the
   * previous match ended.
   */
  function FindWords(s: string): (ws: seq<string>)
    ensures forall w :: w in ws ==> IsWord(w)
    decreases |s|
  {
    if |s| < 2 then []
    else if IsLetter(s[0]) && IsWordChar(s[1]) then
      var n := 1 + RunLength(s[1..]);
      [s[..n]] + FindWords(s[n..])
    else FindWords(s[1..])
  }

  lemma {:induction false} FindWordsOccur(s: string)
    ensures forall w :: w in FindWords(s) ==> Contains(s, w)
    decreases |s|
  {
    if |s| < 2 {
    } else if IsLetter(s[0]) && IsWordChar(s[1]) {
      var n := 1 + RunLength(s[1..]);
      FindWordsOccur(s[n..]);
      assert OccursAt(s, s[..n], 0);
      forall w | w in FindWords(s[n..]) ensures Contains(s, w) {
        ContainsInSuffix(s, n, w);
      }
    } else {
      FindWordsOccur(s[1..]);
      forall w | w in FindWords(s[1..]) ensures Contains(s, w) {
        ContainsInSuffix(s, 1, w);
      }
    }
  }

  /** A found word is kept as a keyword when it is long enough and not a stopword. */
  predicate IsKeyword(w: string)
  {
    |w| >= MinKeywordLen && !IsStopword(w)
  }

  /** The kept words of `ws`, as a set. */
  function Keywords(ws: seq<string>): (ts: set<string>)
    ensures forall w :: w in ts <==> w in ws && IsKeyword(w)
  {
    if ws == [] then {}
    else
      var last := ws[|ws| - 1];
      assert forall w :: w in ws <==> w in ws[..|ws| - 1] || w == last;
      Keywords(ws[..|ws| - 1]) + (if IsKeyword(last) then {last} else {})
  }

  /** `_tokenize`: the lower-cased words of length three or more that are not stopwords. */
  function Tokenize(text: string): (tokens: set<string>)
    ensures |text| < MinKeywordLen ==> tokens == {}
  {
    FindWordsOccur(Lower(text));
    Keywords(FindWords(Lower(text)))
  }

  /** Every token is a word of at least `MinKeywordLen` characters that is not a stopword. */
  lemma TokensAreKeywords(text: string)
    ensures forall w :: w in Tokenize(text) ==> IsWord(w) && |w| >= MinKeywordLen && !IsStopword(w)
  {
  }

  /** Every token is a piece of the lower-cased text. */
  lemma TokensOccur(text: string)
    ensures forall w :: w in Tokenize(text) ==> Contains(Lower(text), w)
  {
    FindWordsOccur(Lower(text));
  }

  /** A word matched by the pattern is found whole. */
  lemma FindWordsOfWord(w: string)
    requires IsWord(w)
    ensures FindWords(w) == [w]
  {
    assert RunLength(w[1..]) == |w| - 1;
    assert w[|w|..] == [];
    assert w[..|w|] == w;
  }

  /** A single keyword-shaped word tokenizes to itself and nothing else. */
  lemma TokenizeWord(w: string)
    requires IsWord(w) && IsKeyword(w)
    ensures Tokenize(w) == {w}
  {
    assert Lower(w) == w;
    FindWordsOfWord(w);
    assert Keywords([w]) == Keywords([]) + {w};
  }

  // ---------------------------------------------------------------------
  // Category metadata
  // ---------------------------------------------------------------------

  /** `CategoryMetadata`: one ontology category with its derived keyword set. */
  datatype CategoryMetadata = CategoryMetadata(
    categoryId: string,
    name: string,
    description: string,
    covenantType: string,
    questionIds: seq<string>,
    targetFields: seq<string>,
    targetConceptTypes: seq<string>,
    keywords: set<string>)

  // ---------------------------------------------------------------------
  // Scoring and thresholding
  // ---------------------------------------------------------------------

  /**
   * The route score of one category: two points per question token that
   * is one of its keywords, ten if its lower-cased name occurs in the
   * lower-cased question, and one per keyword occurring in the question.
   */
  function Score(qTokens: set<string>, qLower: string, cat: CategoryMetadata): (n: nat)
    ensures Contains(qLower, Lower(cat.name)) ==> n >= 10
    ensures n <= 3 * |cat.keywords| + 10
  {
    var hits := set k | k in cat.keywords && Contains(qLower, k);
    SubsetCard(qTokens * cat.keywords, cat.keywords);
    SubsetCard(hits, cat.keywords);
    |qTokens * cat.keywords| * 2
    + (if Contains(qLower, Lower(cat.name)) then 10 else 0)
    + |hits|
  }

  /** A subset is no larger than its superset. */
  lemma SubsetCard<T>(a: set<T>, b: set<T>)
    requires a <= b
    ensures |a| <= |b|
    decreases a
  {
    if a != {} {
      var x :| x in a;
      SubsetCard(a - {x}, b - {x});
    }
  }

  /** A category scores iff its name or one of its keywords occurs in the question. */
  lemma ScorePositiveIff(question: string, cat: CategoryMetadata)
    ensures Score(Tokenize(question), Lower(question), cat) > 0 <==>
      (Contains(Lower(question), Lower(cat.name)) || exists k :: k in cat.keywords && Contains(Lower(question), k))
  {
    var qt := Tokenize(question);
    var ql := Lower(question);
    var hits := set k | k in cat.keywords && Contains(ql, k);
    TokensOccur(question);
    assert qt * cat.keywords <= hits;
    if exists k :: k in cat.keywords && Contains(ql, k) {
      var k :| k in cat.keywords && Contains(ql, k);
      assert k in hits;
    }
  }

  /** An empty category name occurs in every question, so it always scores. */
  lemma EmptyNameScores(qTokens: set<string>, qLower: string, cat: CategoryMetadata)
    requires cat.name == ""
    ensures Score(qTokens, qLower, cat) >= 10
  {
    assert OccursAt(qLower, Lower(cat.name), 0);
  }

  /** A question token that is a keyword earns three points: two for the overlap, one as a substring. */
  lemma SharedTokenScoresThree(question: string, cat: CategoryMetadata, k: string)
    requires k in Tokenize(question) && k in cat.keywords
    ensures Score(Tokenize(question), Lower(question), cat) >= 3
  {
    TokensOccur(question);
    assert k in Tokenize(question) * cat.keywords;
    assert k in set k' | k' in cat.keywords && Contains(Lower(question), k');
  }

  /** An item with its score. */
  datatype Ranked<T> = Ranked(score: nat, item: T)

  type ScoredCategory = Ranked<CategoryMetadata>

  /** The `scored` list: the categories with a positive score, in catalogue order. */
  function Scored(qTokens: set<string>, qLower: string, cats: seq<CategoryMetadata>): (r: seq<ScoredCategory>)
    ensures |r| <= |cats|
    ensures forall e :: e in r ==> e.score > 0 && e.item in cats && e.score == Score(qTokens, qLower, e.item)
    ensures forall c :: c in cats && Score(qTokens, qLower, c) > 0 ==> Ranked(Score(qTokens, qLower, c), c) in r
  {
    if cats == [] then []
    else
      var init := Scored(qTokens, qLower, cats[..|cats| - 1]);
      var c := cats[|cats| - 1];
      assert forall d :: d in cats[..|cats| - 1] ==> d in cats;
      assert forall d :: d in cats ==> d in cats[..|cats| - 1] || d == c;
      var s := Score(qTokens, qLower, c);
      if s > 0 then init + [Ranked(s, c)] else init
  }

  /**
   * The scoring loop of `route`: every category of the catalogue, in
   * order, keeps its score when the score is positive.
   */
  method ScoreCategories(question: string, cats: seq<CategoryMetadata>) returns (scored: seq<ScoredCategory>)
    ensures scored == Scored(Tokenize(question), Lower(question), cats)
  {
    var qTokens := Tokenize(question);
    var qLower := Lower(question);
    scored := [];
    for i := 0 to |cats|
      invariant scored == Scored(qTokens, qLower, cats[..i])
    {
      assert cats[..i + 1][..i] == cats[..i];
      var score := Score(qTokens, qLower, cats[i]);
      if score > 0 {
        scored := scored + [Ranked(score, cats[i])];
      }
    }
    assert cats[..|cats|] == cats;
  }

  predicate NonIncreasing<T>(s: seq<Ranked<T>>)
  {
    forall i, j :: 0 <= i < j < |s| ==> s[i].score >= s[j].score
  }

  /** Places `x` after every entry scoring at least as much, so equal scores keep their arrival order. */
  function InsertDesc<T(==)>(s: seq<Ranked<T>>, x: Ranked<T>): (r: seq<Ranked<T>>)
    requires NonIncreasing(s)
    ensures NonIncreasing(r)
    ensures multiset(r) == multiset(s) + multiset{x}
    ensures |r| == |s| + 1 && (r[0] == x || (s != [] && r[0] == s[0]))
  {
    if s == [] then [x]
    else if s[0].score >= x.score then
      var rest := InsertDesc(s[1..], x);
      InsertDescAfterHead(s, x, rest);
      [s[0]] + rest
    else
      InsertDescBeforeAll(s, x);
      [x] + s
  }

  lemma InsertDescAfterHead<T>(s: seq<Ranked<T>>, x: Ranked<T>, rest: seq<Ranked<T>>)
    requires NonIncreasing(s) && s != [] && s[0].score >= x.score
    requires NonIncreasing(rest) && multiset(rest) == multiset(s[1..]) + multiset{x}
    requires |rest| == |s| && (rest[0] == x || (|s| > 1 && rest[0] == s[1]))
    ensures NonIncreasing([s[0]] + rest)
    ensures multiset([s[0]] + rest) == multiset(s) + multiset{x}
  {
    assert rest[0].score <= s[0].score;
    var r := [s[0]] + rest;
    forall i, j | 0 <= i < j < |r| ensures r[i].score >= r[j].score {
      if i > 0 {
        assert r[i] == rest[i - 1] && r[j] == rest[j - 1];
      } else {
        assert r[j] == rest[j - 1] && rest[j - 1].score <= rest[0].score;
      }
    }
    assert s == [s[0]] + s[1..];
  }

  lemma InsertDescBeforeAll<T>(s: seq<Ranked<T>>, x: Ranked<T>)
    requires NonIncreasing(s) && s != [] && s[0].score < x.score
    ensures NonIncreasing([x] + s)
  {
    var r := [x] + s;
    forall i, j | 0 <= i < j < |r| ensures r[i].score >= r[j].score {
      assert r[j] == s[j - 1];
      if i > 0 {
        assert r[i] == s[i - 1];
      }
    }
  }

  /** `scored.sort(key=score, reverse=True)`: a stable sort by descending score. */
  function SortDesc<T(==)>(s: seq<Ranked<T>>): (r: seq<Ranked<T>>)
    ensures NonIncreasing(r)
    ensures multiset(r) == multiset(s)
  {
    if s == [] then []
    else
      assert s == s[..|s| - 1] + [s[|s| - 1]];
      InsertDesc(SortDesc(s[..|s| - 1]), s[|s| - 1])
  }

  /** The entries of `s` scoring exactly `n`, in order. */
  function WithScore<T>(s: seq<Ranked<T>>, n: int): seq<Ranked<T>>
  {
    if s == [] then [] else (if s[0].score == n then [s[0]] else []) + WithScore(s[1..], n)
  }

  lemma {:induction false} WithScoreConcat<T>(a: seq<Ranked<T>>, b: seq<Ranked<T>>, n: int)
    ensures WithScore(a + b, n) == WithScore(a, n) + WithScore(b, n)
    decreases |a|
  {
    if a == [] {
      assert a + b == b;
    } else {
      var t := a[1..];
      assert a == [a[0]] + t;
      assert a + b == [a[0]] + (t + b);
      ConsWithScore(a[0], t + b, n);
      ConsWithScore(a[0], t, n);
      WithScoreConcat(t, b, n);
    }
  }

  lemma {:induction false} WithScoreNone<T>(s: seq<Ranked<T>>, n: int)
    requires forall i :: 0 <= i < |s| ==> s[i].score != n
    ensures WithScore(s, n) == []
    decreases |s|
  {
    if s != [] {
      assert forall i :: 0 <= i < |s| - 1 ==> s[1..][i] == s[i + 1];
      WithScoreNone(s[1..], n);
    }
  }

  lemma ConsWithScore<T>(h: Ranked<T>, rest: seq<Ranked<T>>, n: int)
    ensures WithScore([h] + rest, n) == (if h.score == n then [h] else []) + WithScore(rest, n)
  {
    assert ([h] + rest)[0] == h && ([h] + rest)[1..] == rest;
  }

  lemma NonIncreasingTail<T>(s: seq<Ranked<T>>)
    requires NonIncreasing(s) && s != []
    ensures NonIncreasing(s[1..])
    ensures forall i :: 0 <= i < |s| ==> s[i].score <= s[0].score
  {
    forall i, j | 0 <= i < j < |s[1..]| ensures s[1..][i].score >= s[1..][j].score {
      assert s[1..][i] == s[i + 1] && s[1..][j] == s[j + 1];
    }
  }

  /** Putting the same head before two lists with the same entries of score `n` (up to a tail) keeps that relation. */
  lemma HeadKeepsWithScore<T>(h: Ranked<T>, t: seq<Ranked<T>>, rest: seq<Ranked<T>>, tail: seq<Ranked<T>>, n: int)
    requires WithScore(rest, n) == WithScore(t, n) + tail
    ensures WithScore([h] + rest, n) == WithScore([h] + t, n) + tail
  {
    ConsWithScore(h, rest, n);
    ConsWithScore(h, t, n);
  }

  /** An entry scoring above every entry of `s` goes in front without disturbing any score's entries. */
  lemma AboveAllWithScore<T>(x: Ranked<T>, s: seq<Ranked<T>>, n: int)
    requires forall i :: 0 <= i < |s| ==> s[i].score < x.score
    ensures WithScore([x] + s, n) == WithScore(s, n) + (if x.score == n then [x] else [])
  {
    ConsWithScore(x, s, n);
    if x.score == n {
      WithScoreNone(s, n);
    }
  }

  lemma InsertDescAfterFirst<T>(s: seq<Ranked<T>>, x: Ranked<T>)
    requires NonIncreasing(s) && s != [] && s[0].score >= x.score
    requires NonIncreasing(s[1..])
    ensures InsertDesc(s, x) == [s[0]] + InsertDesc(s[1..], x)
  {
  }

  lemma InsertDescInFront<T>(s: seq<Ranked<T>>, x: Ranked<T>)
    requires NonIncreasing(s) && (s == [] || s[0].score < x.score)
    ensures InsertDesc(s, x) == [x] + s
  {
  }

  /** Inserting `x` puts it after every entry of its own score and leaves the other scores' entries alone. */
  lemma {:induction false} InsertDescWithScore<T>(s: seq<Ranked<T>>, x: Ranked<T>, n: int)
    requires NonIncreasing(s)
    ensures WithScore(InsertDesc(s, x), n) == WithScore(s, n) + (if x.score == n then [x] else [])
    decreases |s|
  {
    if s != [] && s[0].score >= x.score {
      NonIncreasingTail(s);
      InsertDescWithScore(s[1..], x, n);
      InsertBehindHead(s, x, n, if x.score == n then [x] else []);
    } else {
      InsertInFront(s, x, n);
    }
  }

  /** The step of `InsertDescWithScore` where `x` goes behind the head of `s`. */
  lemma InsertBehindHead<T>(s: seq<Ranked<T>>, x: Ranked<T>, n: int, tail: seq<Ranked<T>>)
    requires NonIncreasing(s) && s != [] && s[0].score >= x.score && NonIncreasing(s[1..])
    requires WithScore(InsertDesc(s[1..], x), n) == WithScore(s[1..], n) + tail
    ensures WithScore(InsertDesc(s, x), n) == WithScore(s, n) + tail
  {
    InsertDescAfterFirst(s, x);
    HeadKeepsWithScore(s[0], s[1..], InsertDesc(s[1..], x), tail, n);
    assert s == [s[0]] + s[1..];
  }

  /** The step of `InsertDescWithScore` where `x` goes in front of `s`. */
  lemma InsertInFront<T>(s: seq<Ranked<T>>, x: Ranked<T>, n: int)
    requires NonIncreasing(s) && (s == [] || s[0].score < x.score)
    ensures WithScore(InsertDesc(s, x), n) == WithScore(s, n) + (if x.score == n then [x] else [])
  {
    InsertDescInFront(s, x);
    if s != [] {
      NonIncreasingTail(s);
    }
    AboveAllWithScore(x, s, n);
  }

  /** The sort is stable: the entries of any one score come out in the order they went in. */
  lemma {:induction false} SortDescStable<T>(s: seq<Ranked<T>>, n: int)
    ensures WithScore(SortDesc(s), n) == WithScore(s, n)
    decreases |s|
  {
    if s != [] {
      var init, last := s[..|s| - 1], s[|s| - 1];
      var tail := if last.score == n then [last] else [];
      calc {
        WithScore(SortDesc(s), n);
        WithScore(InsertDesc(SortDesc(init), last), n);
        { InsertDescWithScore(SortDesc(init), last, n); }
        WithScore(SortDesc(init), n) + tail;
        { SortDescStable(init, n); }
        WithScore(init, n) + tail;
        { ConsWithScore(last, [], n); }
        WithScore(init, n) + WithScore([last], n);
        { WithScoreConcat(init, [last], n); }
        WithScore(init + [last], n);
        { assert s == init + [last]; }
        WithScore(s, n);
      }
    }
  }

  /** `max(1, top_score * 0.25)`. */
  function Threshold(top: nat): real
  {
    if 1.0 >= top as real * 0.25 then 1.0 else top as real * 0.25
  }

  /** For a positive score the relative threshold reads as: four times the score reaches the top score. */
  lemma ThresholdIff(score: nat, top: nat)
    requires score >= 1
    ensures score as real >= Threshold(top) <==> 4 * score >= top
  {
  }

  /** The entries of `s` that reach `t`, in order. */
  function AtLeast<T>(s: seq<Ranked<T>>, t: real): (r: seq<Ranked<T>>)
    ensures |r| <= |s|
    ensures forall i :: 0 <= i < |r| ==> r[i].score as real >= t && exists k :: 0 <= k < |s| && r[i] == s[k]
  {
    if s == [] then []
    else
      var rest := AtLeast(s[1..], t);
      assert forall k :: 0 <= k < |s| - 1 ==> s[1..][k] == s[k + 1];
      if s[0].score as real >= t then [s[0]] + rest else rest
  }

  /** No entry reaching the threshold is dropped. */
  lemma {:induction false} AtLeastKeeps<T>(s: seq<Ranked<T>>, t: real)
    ensures forall k :: 0 <= k < |s| && s[k].score as real >= t ==> s[k] in AtLeast(s, t)
  {
    if s != [] {
      AtLeastKeeps(s[1..], t);
      assert forall k :: 1 <= k < |s| ==> s[k] == s[1..][k - 1];
    }
  }

  lemma {:induction false} AtLeastNonIncreasing<T>(s: seq<Ranked<T>>, t: real)
    requires NonIncreasing(s)
    ensures NonIncreasing(AtLeast(s, t))
  {
    if s != [] {
      var rest := AtLeast(s[1..], t);
      AtLeastNonIncreasing(s[1..], t);
      forall i | 0 <= i < |rest| ensures rest[i].score <= s[0].score {
        var k :| 0 <= k < |s[1..]| && rest[i] == s[1..][k];
        assert s[k + 1] == rest[i];
      }
    }
  }

  function MaxScore<T>(s: seq<Ranked<T>>): (m: nat)
    ensures forall i :: 0 <= i < |s| ==> s[i].score <= m
    ensures s != [] ==> exists i :: 0 <= i < |s| && s[i].score == m
  {
    if s == [] then 0
    else
      var m := MaxScore(s[1..]);
      assert forall k :: 1 <= k < |s| ==> s[k] == s[1..][k - 1];
      if s[0].score >= m then s[0].score else m
  }

  /** The matched entries of `route`: sorted by descending score, then cut at the threshold. */
  function MatchedScored<T(==)>(scored: seq<Ranked<T>>): (r: seq<Ranked<T>>)
    ensures NonIncreasing(r)
  {
    var sorted := SortDesc(scored);
    if sorted == [] then []
    else
      AtLeastNonIncreasing(sorted, Threshold(sorted[0].score));
      AtLeast(sorted, Threshold(sorted[0].score))
  }

  /** Sorting keeps exactly the entries it was given. */
  lemma SortedSameMembers<T>(scored: seq<Ranked<T>>)
    ensures forall e :: e in SortDesc(scored) <==> e in scored
  {
    var sorted := SortDesc(scored);
    assert forall e :: e in sorted <==> e in multiset(sorted);
    assert forall e :: e in scored <==> e in multiset(scored);
  }

  lemma HeadInScored<T>(scored: seq<Ranked<T>>)
    requires scored != []
    ensures SortDesc(scored) != [] && SortDesc(scored)[0] in scored
  {
    var sorted := SortDesc(scored);
    assert multiset(sorted) == multiset(scored);
    assert scored[0] in multiset(scored);
    assert sorted != [];
    assert sorted[0] in multiset(sorted);
  }

  /** The first entry of the sorted list carries the maximum score. */
  lemma SortedHeadIsMax<T>(scored: seq<Ranked<T>>)
    requires scored != []
    ensures SortDesc(scored) != [] && SortDesc(scored)[0].score == MaxScore(scored)
  {
    var sorted := SortDesc(scored);
    SortedSameMembers(scored);
    assert scored[0] in sorted;
    HeadInScored(scored);
    var h :| 0 <= h < |scored| && scored[h] == sorted[0];
    assert sorted[0].score <= MaxScore(scored);
    var i :| 0 <= i < |scored| && scored[i].score == MaxScore(scored);
    assert scored[i] in sorted;
    var j :| 0 <= j < |sorted| && sorted[j] == scored[i];
    assert sorted[0].score >= sorted[j].score;
  }

  /**
   * Exactly the scored entries whose score is at least a quarter of the
   * top score are matched; since every kept score is positive, the top
   * scorer is always among them.
   */
  lemma MatchedMembers<T>(scored: seq<Ranked<T>>)
    requires forall i :: 0 <= i < |scored| ==> scored[i].score > 0
    ensures forall e :: e in MatchedScored(scored) <==> e in scored && 4 * e.score >= MaxScore(scored)
  {
    var sorted := SortDesc(scored);
    SortedSameMembers(scored);
    if scored != [] {
      SortedHeadIsMax(scored);
      var top := sorted[0].score;
      var t := Threshold(top);
      AtLeastKeeps(sorted, t);
      forall e | e in scored
        ensures e.score as real >= t <==> 4 * e.score >= top
      {
        ThresholdIff(e.score, top);
      }
    }
  }

  /** Nothing is matched exactly when nothing scored. */
  lemma MatchedEmptyIff<T>(scored: seq<Ranked<T>>)
    requires forall i :: 0 <= i < |scored| ==> scored[i].score > 0
    ensures MatchedScored(scored) == [] <==> scored == []
  {
    MatchedMembers(scored);
    if scored != [] {
      var i :| 0 <= i < |scored| && scored[i].score == MaxScore(scored);
      assert scored[i] in MatchedScored(scored);
    }
  }

  function Categories(s: seq<ScoredCategory>): (cs: seq<CategoryMetadata>)
    ensures |cs| == |s| && forall i :: 0 <= i < |s| ==> cs[i] == s[i].item
  {
    seq(|s|, i requires 0 <= i < |s| => s[i].item)
  }

  // ---------------------------------------------------------------------
  // Covenant type
  // ---------------------------------------------------------------------

  /**
   * `_resolve_covenant_type`: "rp" when every matched category is RP,
   * "mfn" when every one is MFN, otherwise (mixed, or nothing matched)
   * "both". Category types are compared upper-cased.
   */
  function ResolveCovenantType(matched: seq<CategoryMetadata>): (r: string)
    ensures r == "rp" <==> matched != [] && forall c :: c in matched ==> Upper(c.covenantType) == "RP"
    ensures r == "mfn" <==> matched != [] && forall c :: c in matched ==> Upper(c.covenantType) == "MFN"
    ensures r == "rp" || r == "mfn" || r == "both"
  {
    if matched == [] then "both"
    else
      var types := UpperTypes(matched);
      UpperTypesSingle(matched, "RP");
      UpperTypesSingle(matched, "MFN");
      if types == {"RP"} then "rp" else if types == {"MFN"} then "mfn" else "both"
  }

  /** The set of the matched categories' covenant types, upper-cased. */
  function UpperTypes(matched: seq<CategoryMetadata>): set<string>
  {
    set c | c in matched :: Upper(c.covenantType)
  }

  /** The set is the single type `t` exactly when every matched category has that type. */
  lemma UpperTypesSingle(matched: seq<CategoryMetadata>, t: string)
    requires matched != []
    ensures UpperTypes(matched) == {t} <==> forall c :: c in matched ==> Upper(c.covenantType) == t
  {
    var types := UpperTypes(matched);
    assert Upper(matched[0].covenantType) in types;
    assert forall c :: c in matched ==> Upper(c.covenantType) in types;
    if forall c :: c in matched ==> Upper(c.covenantType) == t {
      assert forall u :: u in types ==> u == t;
    }
  }

  // ---------------------------------------------------------------------
  // Aggregation without duplicates
  // ---------------------------------------------------------------------

  /**
   * One inner loop of the aggregation in `route`: the items not seen yet
   * are appended in order, and `seen` keeps mirroring what was appended.
   */
  method AddUnseen(acc: seq<string>, seen: set<string>, items: seq<string>, ghost before: seq<string>)
    returns (acc': seq<string>, seen': set<string>)
    requires acc == Dedup(before)
    requires forall x :: x in seen <==> x in before
    ensures acc' == Dedup(before + items)
    ensures forall x :: x in seen' <==> x in before + items
  {
    acc', seen' := acc, seen;
    ghost var prefix := before;
    assert before + items[..0] == before;
    for j := 0 to |items|
      invariant prefix == before + items[..j]
      invariant acc' == Dedup(prefix)
      invariant forall x :: x in seen' <==> x in prefix
    {
      assert before + items[..j + 1] == prefix + [items[j]];
      DedupSnoc(prefix, items[j]);
      if items[j] !in seen' {
        acc' := acc' + [items[j]];
        seen' := seen' + {items[j]};
      }
      prefix := prefix + [items[j]];
    }
    assert items[..|items|] == items;
  }

  /** The question ids of `cats`, concatenated in order. */
  function AllQuestionIds(cats: seq<CategoryMetadata>): (r: seq<string>)
    ensures forall q :: q in r <==> exists c :: c in cats && q in c.questionIds
  {
    if cats == [] then []
    else
      var init := cats[..|cats| - 1];
      assert forall c :: c in cats <==> c in init || c == cats[|cats| - 1];
      AllQuestionIds(init) + cats[|cats| - 1].questionIds
  }

  /** The target fields of `cats`, concatenated in order. */
  function AllTargetFields(cats: seq<CategoryMetadata>): (r: seq<string>)
    ensures forall f :: f in r <==> exists c :: c in cats && f in c.targetFields
  {
    if cats == [] then []
    else
      var init := cats[..|cats| - 1];
      assert forall c :: c in cats <==> c in init || c == cats[|cats| - 1];
      AllTargetFields(init) + cats[|cats| - 1].targetFields
  }

  /** The aggregation loop of `route`: question ids and target fields of the matches, each once. */
  method Aggregate(matched: seq<CategoryMetadata>) returns (qids: seq<string>, fields: seq<string>)
    ensures qids == Dedup(AllQuestionIds(matched))
    ensures fields == Dedup(AllTargetFields(matched))
  {
    qids, fields := [], [];
    var seenQids: set<string> := {};
    var seenFields: set<string> := {};
    for i := 0 to |matched|
      invariant qids == Dedup(AllQuestionIds(matched[..i]))
      invariant forall x :: x in seenQids <==> x in AllQuestionIds(matched[..i])
      invariant fields == Dedup(AllTargetFields(matched[..i]))
      invariant forall x :: x in seenFields <==> x in AllTargetFields(matched[..i])
    {
      assert matched[..i + 1][..i] == matched[..i];
      qids, seenQids := AddUnseen(qids, seenQids, matched[i].questionIds, AllQuestionIds(matched[..i]));
      fields, seenFields := AddUnseen(fields, seenFields, matched[i].targetFields, AllTargetFields(matched[..i]));
    }
    assert matched[..|matched|] == matched;
  }

  // ---------------------------------------------------------------------
  // Routing
  // ---------------------------------------------------------------------

  /** `TopicRouteResult`. */
  datatype RouteResult = RouteResult(
    matched: seq<CategoryMetadata>,
    covenantType: string,
    questionIds: seq<string>,
    allTargetFields: seq<string>,
    isSpecific: bool)

  /**
   * The result `route` assembles from its matched categories: their
   * covenant type ("both" when nothing matched), their question ids and
   * target fields each once, and whether one to three categories matched.
   */
  function RouteResultOf(matched: seq<CategoryMetadata>): (r: RouteResult)
    ensures r.matched == matched
    ensures r.isSpecific <==> 1 <= |matched| <= 3
    ensures matched == [] ==> r.covenantType == "both"
    ensures r.covenantType == "rp" || r.covenantType == "mfn" || r.covenantType == "both"
    ensures NoDup(r.questionIds) && NoDup(r.allTargetFields)
    ensures forall q :: q in r.questionIds <==> exists c :: c in matched && q in c.questionIds
    ensures forall f :: f in r.allTargetFields <==> exists c :: c in matched && f in c.targetFields
  {
    var covenantType := ResolveCovenantType(matched);
    RouteResult(
      matched,
      if matched == [] then "both" else covenantType,
      Dedup(AllQuestionIds(matched)),
      Dedup(AllTargetFields(matched)),
      0 < |matched| <= 3)
  }

  /** What `route` returns for `question` over the catalogue `cats`, taken in catalogue order. */
  function RouteOver(cats: seq<CategoryMetadata>, question: string): RouteResult
  {
    RouteResultOf(Categories(MatchedScored(Scored(Tokenize(question), Lower(question), cats))))
  }

  /** Every matched entry was a scored entry. */
  lemma MatchedFromScored<T>(scored: seq<Ranked<T>>)
    ensures forall e :: e in MatchedScored(scored) ==> e in scored
  {
    var sorted := SortDesc(scored);
    SortedSameMembers(scored);
    if sorted != [] {
      var r := AtLeast(sorted, Threshold(sorted[0].score));
      assert r == MatchedScored(scored);
      forall e | e in r ensures e in scored {
        var i :| 0 <= i < |r| && r[i] == e;
        var k :| 0 <= k < |sorted| && r[i] == sorted[k];
        assert sorted[k] in sorted;
      }
    }
  }

  /**
   * Over any question tokens: a category is matched iff it scores and its
   * score reaches a quarter of the best score; the matches run in
   * non-increasing score order, come from the catalogue, and there are
   * none exactly when no category scores.
   */
  lemma RouteMatches(cats: seq<CategoryMetadata>, qTokens: set<string>, qLower: string)
    ensures var scored := Scored(qTokens, qLower, cats);
      var ms := MatchedScored(scored);
      NonIncreasing(ms) &&
      (forall e :: e in ms <==> e in scored && 4 * e.score >= MaxScore(scored)) &&
      (forall c :: c in Categories(ms) ==> c in cats) &&
      (ms == [] <==> forall c :: c in cats ==> Score(qTokens, qLower, c) == 0)
  {
    ScoredPositive(qTokens, qLower, cats);
    MatchedMembers(Scored(qTokens, qLower, cats));
    RouteKnown(cats, qTokens, qLower);
    RouteEmptyIff(cats, qTokens, qLower);
  }

  lemma ScoredPositive(qTokens: set<string>, qLower: string, cats: seq<CategoryMetadata>)
    ensures var scored := Scored(qTokens, qLower, cats);
      forall i :: 0 <= i < |scored| ==> scored[i].score > 0
  {
    var scored := Scored(qTokens, qLower, cats);
    forall i | 0 <= i < |scored| ensures scored[i].score > 0 {
      assert scored[i] in scored;
    }
  }

  /** Every matched category is one of the catalogue's. */
  lemma RouteKnown(cats: seq<CategoryMetadata>, qTokens: set<string>, qLower: string)
    ensures forall c :: c in Categories(MatchedScored(Scored(qTokens, qLower, cats))) ==> c in cats
  {
    var scored := Scored(qTokens, qLower, cats);
    var ms := MatchedScored(scored);
    MatchedFromScored(scored);
    forall c | c in Categories(ms) ensures c in cats {
      var i :| 0 <= i < |ms| && Categories(ms)[i] == c;
      assert ms[i] in scored;
    }
  }

  /** Nothing is matched exactly when no category scores. */
  lemma RouteEmptyIff(cats: seq<CategoryMetadata>, qTokens: set<string>, qLower: string)
    ensures MatchedScored(Scored(qTokens, qLower, cats)) == [] <==> forall c :: c in cats ==> Score(qTokens, qLower, c) == 0
  {
    var scored := Scored(qTokens, qLower, cats);
    ScoredPositive(qTokens, qLower, cats);
    MatchedEmptyIff(scored);
    if scored != [] {
      var e := scored[0];
      assert e in scored;
      assert e.item in cats && Score(qTokens, qLower, e.item) > 0;
    }
  }

  // ---------------------------------------------------------------------
  // Loading category metadata
  // ---------------------------------------------------------------------

  /** A row of the categories query; a missing attribute reads as None. */
  datatype CategoryRow = CategoryRow(cid: Option<string>, cname: Option<string>, cdesc: Option<string>)

  /** A row of the question query: category id, question id and the question's covenant type. */
  datatype QuestionRow = QuestionRow(cid: Option<string>, qid: Option<string>, qctype: Option<string>)

  /** A row of the target-field or the target-concept query. */
  datatype TargetRow = TargetRow(cid: Option<string>, target: Option<string>)

  /** The rows of the four metadata queries, in the order the transaction returns them. */
  datatype MetadataRows = MetadataRows(
    categories: seq<CategoryRow>,
    questions: seq<QuestionRow>,
    fields: seq<TargetRow>,
    concepts: seq<TargetRow>)

  /** Python truthiness of an optional string: present and non-empty. */
  predicate Present(o: Option<string>)
  {
    o.Some? && o.value != ""
  }

  /** The category dict: `order` is its insertion order, which `values()` follows. */
  datatype Catalogue = Catalogue(order: seq<string>, cats: map<string, CategoryMetadata>)

  ghost predicate WellFormed(c: Catalogue)
  {
    NoDup(c.order) &&
    (forall k :: k in c.order <==> k in c.cats) &&
    (forall k :: k in c.cats ==> c.cats[k].categoryId == k)
  }

  /** `categories.values()`. */
  function Values(c: Catalogue): (vs: seq<CategoryMetadata>)
    requires WellFormed(c)
    ensures |vs| == |c.order|
    ensures forall i :: 0 <= i < |vs| ==> vs[i] == c.cats[c.order[i]]
  {
    seq(|c.order|, i requires 0 <= i < |c.order| => c.cats[c.order[i]])
  }

  /** The category ids the category rows carry, in row order (repeats included). */
  function CategoryIds(rows: seq<CategoryRow>): (ids: seq<string>)
    ensures forall k :: k in ids <==> exists i :: 0 <= i < |rows| && Present(rows[i].cid) && rows[i].cid.value == k
  {
    if rows == [] then []
    else
      var init := rows[..|rows| - 1];
      var last := rows[|rows| - 1];
      assert forall i :: 0 <= i < |init| ==> rows[i] == init[i];
      CategoryIds(init) + (if Present(last.cid) then [last.cid.value] else [])
  }

  /** The last category row carrying `cid`: a later row overwrites an earlier one in the dict. */
  function LastCategoryRow(rows: seq<CategoryRow>, cid: string): (row: CategoryRow)
    requires cid in CategoryIds(rows)
    ensures Present(row.cid) && row.cid.value == cid
  {
    var init := rows[..|rows| - 1];
    var last := rows[|rows| - 1];
    assert CategoryIds(rows) == CategoryIds(init) + (if Present(last.cid) then [last.cid.value] else []);
    if Present(last.cid) && last.cid.value == cid then last else LastCategoryRow(init, cid)
  }

  /** A category as the first query builds it: RP by default, no questions yet, keywords from name and description. */
  function NewCategory(row: CategoryRow): (c: CategoryMetadata)
    requires Present(row.cid)
    ensures c.categoryId == row.cid.value && c.covenantType == "RP"
    ensures c.questionIds == [] && c.targetFields == [] && c.targetConceptTypes == []
    ensures c.keywords == Tokenize(c.name) + Tokenize(c.description)
  {
    var name := row.cname.GetOr("");
    var description := row.cdesc.GetOr("");
    CategoryMetadata(row.cid.value, name, description, "RP", [], [], [], Tokenize(name) + Tokenize(description))
  }

  /** A question row that attaches a question to `cid`. */
  predicate QuestionFor(r: QuestionRow, cid: string)
  {
    Present(r.cid) && Present(r.qid) && r.cid.value == cid
  }

  /** The question ids of the rows for `cid`, in row order. */
  function QuestionIdsFor(rows: seq<QuestionRow>, cid: string): (qs: seq<string>)
    ensures forall q :: q in qs <==> exists i :: 0 <= i < |rows| && QuestionFor(rows[i], cid) && rows[i].qid.value == q
  {
    if rows == [] then []
    else
      var init := rows[..|rows| - 1];
      var last := rows[|rows| - 1];
      assert forall i :: 0 <= i < |init| ==> rows[i] == init[i];
      QuestionIdsFor(init, cid) + (if QuestionFor(last, cid) then [last.qid.value] else [])
  }

  /** The covenant types of the questions of `cid`; a row without one counts as RP. */
  function CovenantTypesFor(rows: seq<QuestionRow>, cid: string): (ts: set<string>)
    ensures forall t :: t in ts <==> exists i :: 0 <= i < |rows| && QuestionFor(rows[i], cid) && rows[i].qctype.GetOr("RP") == t
  {
    if rows == [] then {}
    else
      var init := rows[..|rows| - 1];
      var last := rows[|rows| - 1];
      assert forall i :: 0 <= i < |init| ==> rows[i] == init[i];
      CovenantTypesFor(init, cid) + (if QuestionFor(last, cid) then {last.qctype.GetOr("RP")} else {})
  }

  /** A category has covenant types to derive from exactly when it has questions. */
  lemma {:induction false} CovenantTypesExistIff(rows: seq<QuestionRow>, cid: string)
    ensures CovenantTypesFor(rows, cid) == {} <==> QuestionIdsFor(rows, cid) == []
  {
    if rows != [] {
      CovenantTypesExistIff(rows[..|rows| - 1], cid);
    }
  }

  /** A category whose questions are all MFN is MFN; all RP, or mixed, is RP. */
  function CovenantOf(types: set<string>): (t: string)
    ensures t == "MFN" <==> types == {"MFN"}
    ensures t == "MFN" || t == "RP"
  {
    if types == {"MFN"} then "MFN" else if types == {"RP"} then "RP" else "RP"
  }

  /** Adds question ids, and the covenant type they imply when there is at least one. */
  function WithQuestions(c: CategoryMetadata, qids: seq<string>, types: set<string>): CategoryMetadata
  {
    c.(questionIds := c.questionIds + qids,
       covenantType := if qids == [] then c.covenantType else CovenantOf(types))
  }

  /** A target row that attaches a field name or concept type to `cid`. */
  predicate TargetFor(r: TargetRow, cid: string)
  {
    Present(r.cid) && Present(r.target) && r.cid.value == cid
  }

  /** The targets of the rows for `cid`, in row order. */
  function TargetsFor(rows: seq<TargetRow>, cid: string): (ts: seq<string>)
    ensures forall t :: t in ts <==> exists i :: 0 <= i < |rows| && TargetFor(rows[i], cid) && rows[i].target.value == t
  {
    if rows == [] then []
    else
      var init := rows[..|rows| - 1];
      var last := rows[|rows| - 1];
      assert forall i :: 0 <= i < |init| ==> rows[i] == init[i];
      TargetsFor(init, cid) + (if TargetFor(last, cid) then [last.target.value] else [])
  }

  /** The tokens of the targets, each read with `_` as a space. */
  function TargetKeywords(targets: seq<string>): set<string>
  {
    if targets == [] then {}
    else TargetKeywords(targets[..|targets| - 1]) + Tokenize(SwapChar(targets[|targets| - 1], '_', ' '))
  }

  /** Every keyword a target contributes is a word of at least three characters that is not a stopword. */
  lemma {:induction false} TargetKeywordsAreKeywords(targets: seq<string>)
    ensures forall k :: k in TargetKeywords(targets) ==> IsWord(k) && IsKeyword(k)
  {
    if targets != [] {
      TargetKeywordsAreKeywords(targets[..|targets| - 1]);
    }
  }

  /** One target row: the target is appended, and its tokens, with `_` read as a space, join the keywords. */
  function AddTarget(c: CategoryMetadata, t: string, concepts: bool): CategoryMetadata
  {
    var c' := if concepts then c.(targetConceptTypes := c.targetConceptTypes + [t])
              else c.(targetFields := c.targetFields + [t]);
    c'.(keywords := c.keywords + Tokenize(SwapChar(t, '_', ' ')))
  }

  /** The targets added one after the other, in order. */
  function WithTargets(c: CategoryMetadata, targets: seq<string>, concepts: bool): CategoryMetadata
  {
    if targets == [] then c
    else AddTarget(WithTargets(c, targets[..|targets| - 1], concepts), targets[|targets| - 1], concepts)
  }

  lemma WithTargetsSnoc(c: CategoryMetadata, targets: seq<string>, t: string, concepts: bool)
    ensures WithTargets(c, targets + [t], concepts) == AddTarget(WithTargets(c, targets, concepts), t, concepts)
  {
    assert (targets + [t])[..|targets + [t]| - 1] == targets;
  }

  /**
   * Adding targets one by one appends them all, in order, to the fields
   * (or the concept types), adds all their tokens to the keywords, and
   * changes nothing else.
   */
  lemma {:induction false} WithTargetsAdds(c: CategoryMetadata, targets: seq<string>, concepts: bool)
    ensures WithTargets(c, targets, concepts) ==
      (if concepts then c.(targetConceptTypes := c.targetConceptTypes + targets)
       else c.(targetFields := c.targetFields + targets)).(keywords := c.keywords + TargetKeywords(targets))
  {
    if targets == [] {
      assert c.targetFields + [] == c.targetFields;
      assert c.targetConceptTypes + [] == c.targetConceptTypes;
      assert c.keywords + {} == c.keywords;
    } else {
      var init := targets[..|targets| - 1];
      var t := targets[|targets| - 1];
      WithTargetsAdds(c, init, concepts);
      assert init + [t] == targets;
      AppendAssoc(c.targetFields, init, [t]);
      AppendAssoc(c.targetConceptTypes, init, [t]);
    }
  }

  /**
   * A category of the loaded catalogue: the new category built from the
   * last category row with its id, after its questions, then its target
   * fields, then its target concept types.
   */
  function Entry(rows: MetadataRows, cid: string): CategoryMetadata
    requires cid in CategoryIds(rows.categories)
  {
    var base := NewCategory(LastCategoryRow(rows.categories, cid));
    var withQuestions := WithQuestions(base, QuestionIdsFor(rows.questions, cid), CovenantTypesFor(rows.questions, cid));
    WithTargets(WithTargets(withQuestions, TargetsFor(rows.fields, cid), false), TargetsFor(rows.concepts, cid), true)
  }

  /**
   * The loaded category field by field: name and description from the last
   * category row with its id; question ids, fields and concept types in row
   * order; the covenant type its questions' types imply; keywords from the
   * name, the description, the fields and the concept types.
   */
  lemma EntryFields(rows: MetadataRows, cid: string)
    requires cid in CategoryIds(rows.categories)
    ensures var row := LastCategoryRow(rows.categories, cid);
            var e := Entry(rows, cid);
            e.categoryId == cid && e.name == row.cname.GetOr("") && e.description == row.cdesc.GetOr("") &&
            e.covenantType == CovenantOf(CovenantTypesFor(rows.questions, cid)) &&
            e.questionIds == QuestionIdsFor(rows.questions, cid) &&
            e.targetFields == TargetsFor(rows.fields, cid) &&
            e.targetConceptTypes == TargetsFor(rows.concepts, cid) &&
            e.keywords == Tokenize(e.name) + Tokenize(e.description) +
                          TargetKeywords(TargetsFor(rows.fields, cid)) + TargetKeywords(TargetsFor(rows.concepts, cid))
  {
    var row := LastCategoryRow(rows.categories, cid);
    var base := NewCategory(row);
    var qids := QuestionIdsFor(rows.questions, cid);
    var types := CovenantTypesFor(rows.questions, cid);
    var fs := TargetsFor(rows.fields, cid);
    var cs := TargetsFor(rows.concepts, cid);
    CovenantTypesExistIff(rows.questions, cid);
    var wq := WithQuestions(base, qids, types);
    assert base.questionIds + qids == qids;
    assert wq == base.(questionIds := qids, covenantType := CovenantOf(types));
    var wf := WithTargets(wq, fs, false);
    WithTargetsAdds(wq, fs, false);
    assert wq.targetFields + fs == fs;
    assert wf == wq.(targetFields := fs, keywords := wq.keywords + TargetKeywords(fs));
    WithTargetsAdds(wf, cs, true);
    assert wf.targetConceptTypes + cs == cs;
    assert Entry(rows, cid) == wf.(targetConceptTypes := cs, keywords := wf.keywords + TargetKeywords(cs));
  }

  /** Every loaded category is stored under its own id. */
  lemma EntryIds(rows: MetadataRows)
    ensures forall k :: k in CategoryIds(rows.categories) ==> Entry(rows, k).categoryId == k
  {
    forall k | k in CategoryIds(rows.categories) ensures Entry(rows, k).categoryId == k {
      EntryFields(rows, k);
    }
  }

  /** What `_load_category_metadata` builds from the query rows. */
  function Loaded(rows: MetadataRows): Catalogue
  {
    var ids := CategoryIds(rows.categories);
    Catalogue(Dedup(ids), map k | k in ids :: Entry(rows, k))
  }

  /** The loaded catalogue is well formed: its order lists exactly its keys, once each, and each entry sits under its own id. */
  lemma LoadedWellFormed(rows: MetadataRows)
    ensures WellFormed(Loaded(rows))
  {
    EntryIds(rows);
  }

  lemma CategoryIdsStep(rows: seq<CategoryRow>, i: nat)
    requires i < |rows|
    ensures CategoryIds(rows[..i + 1]) == CategoryIds(rows[..i]) + (if Present(rows[i].cid) then [rows[i].cid.value] else [])
  {
    assert rows[..i + 1][..i] == rows[..i];
  }

  lemma LastCategoryRowStep(rows: seq<CategoryRow>, i: nat, k: string)
    requires i < |rows| && k in CategoryIds(rows[..i + 1])
    ensures Present(rows[i].cid) && rows[i].cid.value == k ==> LastCategoryRow(rows[..i + 1], k) == rows[i]
    ensures !(Present(rows[i].cid) && rows[i].cid.value == k) ==>
      k in CategoryIds(rows[..i]) && LastCategoryRow(rows[..i + 1], k) == LastCategoryRow(rows[..i], k)
  {
    CategoryIdsStep(rows, i);
    assert rows[..i + 1][..i] == rows[..i];
  }

  /** The first query's loop: one category per row with an id, a later row replacing an earlier one in place. */
  method LoadCategories(rows: seq<CategoryRow>) returns (order: seq<string>, cats: map<string, CategoryMetadata>)
    ensures order == Dedup(CategoryIds(rows))
    ensures forall k :: k in cats <==> k in CategoryIds(rows)
    ensures forall k :: k in cats ==> cats[k] == NewCategory(LastCategoryRow(rows, k))
  {
    order, cats := [], map[];
    for i := 0 to |rows|
      invariant order == Dedup(CategoryIds(rows[..i]))
      invariant forall k :: k in cats <==> k in CategoryIds(rows[..i])
      invariant forall k :: k in cats ==> cats[k] == NewCategory(LastCategoryRow(rows[..i], k))
    {
      CategoryIdsStep(rows, i);
      ghost var ids := CategoryIds(rows[..i]);
      var row := rows[i];
      if Present(row.cid) {
        var cid := row.cid.value;
        DedupSnoc(ids, cid);
        assert CategoryIds(rows[..i + 1]) == ids + [cid];
        if cid !in cats {
          order := order + [cid];
        }
        cats := cats[cid := NewCategory(row)];
      } else {
        assert CategoryIds(rows[..i + 1]) == ids;
      }
      forall k | k in cats ensures cats[k] == NewCategory(LastCategoryRow(rows[..i + 1], k)) {
        LastCategoryRowStep(rows, i, k);
      }
    }
    assert rows[..|rows|] == rows;
  }

  lemma QuestionsStep(rows: seq<QuestionRow>, i: nat, k: string)
    requires i < |rows|
    ensures QuestionIdsFor(rows[..i + 1], k) == QuestionIdsFor(rows[..i], k) + (if QuestionFor(rows[i], k) then [rows[i].qid.value] else [])
    ensures CovenantTypesFor(rows[..i + 1], k) == CovenantTypesFor(rows[..i], k) + (if QuestionFor(rows[i], k) then {rows[i].qctype.GetOr("RP")} else {})
  {
    assert rows[..i + 1][..i] == rows[..i];
  }

  /**
   * The second query's row loop: each question row for a known category
   * adds its id and records its covenant type. Rows for unknown categories
   * are ignored.
   */
  method CollectQuestions(cats: map<string, CategoryMetadata>, rows: seq<QuestionRow>)
    returns (out: map<string, CategoryMetadata>, types: map<string, set<string>>)
    ensures IdsCollected(cats, rows, out) && TypesCollected(cats, rows, types)
  {
    out, types := cats, map[];
    for i := 0 to |rows|
      invariant IdsCollected(cats, rows[..i], out) && TypesCollected(cats, rows[..i], types)
    {
      out := CollectQuestionId(cats, rows, i, out);
      types := CollectQuestionType(cats, rows, i, types);
    }
    assert rows[..|rows|] == rows;
  }

  /** The question ids the row loop has appended after the rows `rows`. */
  ghost predicate IdsCollected(cats: map<string, CategoryMetadata>, rows: seq<QuestionRow>, out: map<string, CategoryMetadata>)
  {
    out.Keys == cats.Keys &&
    forall k :: k in cats ==> out[k] == cats[k].(questionIds := cats[k].questionIds + QuestionIdsFor(rows, k))
  }

  /** The covenant types the row loop has gathered after the rows `rows`: one entry per category with questions. */
  ghost predicate TypesCollected(cats: map<string, CategoryMetadata>, rows: seq<QuestionRow>, types: map<string, set<string>>)
  {
    types.Keys <= cats.Keys &&
    (forall k :: k in cats ==> (k in types <==> QuestionIdsFor(rows, k) != [])) &&
    (forall k :: k in types ==> types[k] == CovenantTypesFor(rows, k))
  }

  /** Row `i` of the row loop, first half: a question of a known category has its id appended. */
  method CollectQuestionId(cats: map<string, CategoryMetadata>, rows: seq<QuestionRow>, i: nat, out: map<string, CategoryMetadata>)
    returns (out': map<string, CategoryMetadata>)
    requires i < |rows| && IdsCollected(cats, rows[..i], out)
    ensures IdsCollected(cats, rows[..i + 1], out')
  {
    var row := rows[i];
    if Present(row.cid) && Present(row.qid) && row.cid.value in out {
      var cid := row.cid.value;
      QuestionsStep(rows, i, cid);
      AppendAssoc(cats[cid].questionIds, QuestionIdsFor(rows[..i], cid), [row.qid.value]);
      out' := out[cid := out[cid].(questionIds := out[cid].questionIds + [row.qid.value])];
    } else {
      out' := out;
    }
    forall k | k in cats
      ensures out'[k] == cats[k].(questionIds := cats[k].questionIds + QuestionIdsFor(rows[..i + 1], k))
    {
      QuestionsStep(rows, i, k);
    }
  }

  /** Row `i` of the row loop, second half: the question's covenant type joins its category's set. */
  method CollectQuestionType(cats: map<string, CategoryMetadata>, rows: seq<QuestionRow>, i: nat, types: map<string, set<string>>)
    returns (types': map<string, set<string>>)
    requires i < |rows| && TypesCollected(cats, rows[..i], types)
    ensures TypesCollected(cats, rows[..i + 1], types')
  {
    var row := rows[i];
    if Present(row.cid) && Present(row.qid) && row.cid.value in cats {
      var cid := row.cid.value;
      types' := types[cid := (if cid in types then types[cid] else {}) + {row.qctype.GetOr("RP")}];
      TypesJoin(cats, rows, i, types, types');
    } else {
      types' := types;
      TypesSkip(cats, rows, i, types);
    }
  }

  /** A question row of a known category adds its covenant type to that category's set, created if new. */
  lemma TypesJoin(cats: map<string, CategoryMetadata>, rows: seq<QuestionRow>, i: nat, types: map<string, set<string>>, types': map<string, set<string>>)
    requires i < |rows| && TypesCollected(cats, rows[..i], types)
    requires Present(rows[i].cid) && Present(rows[i].qid) && rows[i].cid.value in cats
    requires var cid := rows[i].cid.value;
      types' == types[cid := (if cid in types then types[cid] else {}) + {rows[i].qctype.GetOr("RP")}]
    ensures TypesCollected(cats, rows[..i + 1], types')
  {
    var cid := rows[i].cid.value;
    forall k | k in cats
      ensures k in types' <==> QuestionIdsFor(rows[..i + 1], k) != []
      ensures k in types' ==> types'[k] == CovenantTypesFor(rows[..i + 1], k)
    {
      if k != cid {
        assert (k in types' <==> k in types) && (k in types ==> types'[k] == types[k]);
        TypesOther(rows, i, k);
      } else {
        TypesOwn(rows, i, if cid in types then types[cid] else {}, cid in types);
      }
    }
  }

  /** A row for another category changes neither the question ids nor the covenant types of `k`. */
  lemma TypesOther(rows: seq<QuestionRow>, i: nat, k: string)
    requires i < |rows| && !(Present(rows[i].cid) && Present(rows[i].qid) && rows[i].cid.value == k)
    ensures QuestionIdsFor(rows[..i + 1], k) == QuestionIdsFor(rows[..i], k)
    ensures CovenantTypesFor(rows[..i + 1], k) == CovenantTypesFor(rows[..i], k)
  {
    QuestionsStep(rows, i, k);
  }

  /** A question row of category `cid` gives it questions and adds its covenant type to those seen before. */
  lemma TypesOwn(rows: seq<QuestionRow>, i: nat, seen: set<string>, known: bool)
    requires i < |rows| && Present(rows[i].cid) && Present(rows[i].qid)
    requires var cid := rows[i].cid.value;
      (known <==> QuestionIdsFor(rows[..i], cid) != []) && (known ==> seen == CovenantTypesFor(rows[..i], cid))
    ensures var cid := rows[i].cid.value;
      QuestionIdsFor(rows[..i + 1], cid) != [] &&
      (if known then seen else {}) + {rows[i].qctype.GetOr("RP")} == CovenantTypesFor(rows[..i + 1], cid)
  {
    var cid := rows[i].cid.value;
    QuestionsStep(rows, i, cid);
    CovenantTypesExistIff(rows[..i], cid);
    assert QuestionFor(rows[i], cid);
  }

  /** Any other row leaves the covenant types as they were. */
  lemma TypesSkip(cats: map<string, CategoryMetadata>, rows: seq<QuestionRow>, i: nat, types: map<string, set<string>>)
    requires i < |rows| && TypesCollected(cats, rows[..i], types)
    requires !(Present(rows[i].cid) && Present(rows[i].qid) && rows[i].cid.value in cats)
    ensures TypesCollected(cats, rows[..i + 1], types)
  {
    forall k | k in cats
      ensures k in types <==> QuestionIdsFor(rows[..i + 1], k) != []
      ensures k in types ==> types[k] == CovenantTypesFor(rows[..i + 1], k)
    {
      QuestionsStep(rows, i, k);
      assert !QuestionFor(rows[i], k);
    }
  }

  /** The second query's covenant loop: every category with question types takes the covenant type they imply. */
  method ApplyCovenantTypes(cats: map<string, CategoryMetadata>, types: map<string, set<string>>)
    returns (out: map<string, CategoryMetadata>)
    requires types.Keys <= cats.Keys
    ensures out.Keys == cats.Keys
    ensures forall k :: k in cats ==> out[k] == if k in types then cats[k].(covenantType := CovenantOf(types[k])) else cats[k]
  {
    out := cats;
    var pending := types.Keys;
    while pending != {}
      invariant pending <= types.Keys
      invariant out.Keys == cats.Keys
      invariant forall k :: k in cats ==>
        out[k] == if k in types && k !in pending then cats[k].(covenantType := CovenantOf(types[k])) else cats[k]
      decreases |pending|
    {
      var cid :| cid in pending;
      out := out[cid := out[cid].(covenantType := CovenantOf(types[cid]))];
      pending := pending - {cid};
    }
  }

  /** The second query's loops together. */
  method AttachQuestions(cats: map<string, CategoryMetadata>, rows: seq<QuestionRow>)
    returns (out: map<string, CategoryMetadata>)
    ensures out.Keys == cats.Keys
    ensures forall k :: k in cats ==> out[k] == WithQuestions(cats[k], QuestionIdsFor(rows, k), CovenantTypesFor(rows, k))
  {
    var withIds, types := CollectQuestions(cats, rows);
    out := ApplyCovenantTypes(withIds, types);
  }

  lemma TargetsStep(rows: seq<TargetRow>, i: nat, k: string)
    requires i < |rows|
    ensures TargetsFor(rows[..i + 1], k) == TargetsFor(rows[..i], k) + (if TargetFor(rows[i], k) then [rows[i].target.value] else [])
  {
    assert rows[..i + 1][..i] == rows[..i];
  }

  /** The target loop's map after the rows `rows`, row by row. */
  function TargetLoop(cats: map<string, CategoryMetadata>, rows: seq<TargetRow>, concepts: bool): (out: map<string, CategoryMetadata>)
    ensures out.Keys == cats.Keys
  {
    if rows == [] then cats
    else
      var prev := TargetLoop(cats, rows[..|rows| - 1], concepts);
      var row := rows[|rows| - 1];
      if Present(row.cid) && Present(row.target) && row.cid.value in prev then
        prev[row.cid.value := AddTarget(prev[row.cid.value], row.target.value, concepts)]
      else prev
  }

  /** Row by row, each category ends up with all its targets in row order. */
  lemma {:induction false} TargetLoopAttaches(cats: map<string, CategoryMetadata>, rows: seq<TargetRow>, concepts: bool, k: string)
    requires k in cats
    ensures TargetLoop(cats, rows, concepts)[k] == WithTargets(cats[k], TargetsFor(rows, k), concepts)
  {
    if rows == [] {
      assert cats[k].targetFields + [] == cats[k].targetFields;
      assert cats[k].targetConceptTypes + [] == cats[k].targetConceptTypes;
      assert cats[k].keywords + {} == cats[k].keywords;
    } else {
      var n := |rows| - 1;
      TargetLoopAttaches(cats, rows[..n], concepts, k);
      TargetsStep(rows, n, k);
      assert rows[..n + 1] == rows;
      var prev := TargetLoop(cats, rows[..n], concepts);
      if TargetFor(rows[n], k) {
        WithTargetsSnoc(cats[k], TargetsFor(rows[..n], k), rows[n].target.value, concepts);
        assert TargetLoop(cats, rows, concepts)[k] == AddTarget(prev[k], rows[n].target.value, concepts);
      } else {
        assert TargetsFor(rows, k) == TargetsFor(rows[..n], k);
      }
    }
  }

  /** The third and fourth queries' loops: each target row for a known category adds the target and its tokens. */
  method AttachTargets(cats: map<string, CategoryMetadata>, rows: seq<TargetRow>, concepts: bool)
    returns (out: map<string, CategoryMetadata>)
    ensures out.Keys == cats.Keys
    ensures forall k :: k in cats ==> out[k] == WithTargets(cats[k], TargetsFor(rows, k), concepts)
  {
    out := cats;
    for i := 0 to |rows|
      invariant out == TargetLoop(cats, rows[..i], concepts)
    {
      assert rows[..i + 1][..i] == rows[..i];
      var row := rows[i];
      if Present(row.cid) && Present(row.target) && row.cid.value in out {
        var cid := row.cid.value;
        out := out[cid := AddTarget(out[cid], row.target.value, concepts)];
      }
    }
    assert rows[..|rows|] == rows;
    forall k | k in cats
      ensures out[k] == WithTargets(cats[k], TargetsFor(rows, k), concepts)
    {
      TargetLoopAttaches(cats, rows, concepts, k);
    }
  }

  /** A catalogue holding exactly the entries of the loaded categories, in first-row order, is the loaded one. */
  lemma LoadedFrom(rows: MetadataRows, order: seq<string>, m: map<string, CategoryMetadata>)
    requires order == Dedup(CategoryIds(rows.categories))
    requires forall k :: k in m <==> k in CategoryIds(rows.categories)
    requires forall k :: k in m ==> m[k] == Entry(rows, k)
    ensures Catalogue(order, m) == Loaded(rows)
  {
  }

  /** The categories after the four loops, one by one. */
  lemma StagesGiveEntry(rows: MetadataRows, k: string, base: CategoryMetadata, wq: CategoryMetadata, wf: CategoryMetadata, wc: CategoryMetadata)
    requires k in CategoryIds(rows.categories)
    requires base == NewCategory(LastCategoryRow(rows.categories, k))
    requires wq == WithQuestions(base, QuestionIdsFor(rows.questions, k), CovenantTypesFor(rows.questions, k))
    requires wf == WithTargets(wq, TargetsFor(rows.fields, k), false)
    requires wc == WithTargets(wf, TargetsFor(rows.concepts, k), true)
    ensures wc == Entry(rows, k)
  {
  }

  /** `_load_category_metadata` over the rows of its four queries. */
  method LoadCategoryMetadata(rows: MetadataRows) returns (c: Catalogue)
    ensures c == Loaded(rows)
  {
    var order, cats := LoadCategories(rows.categories);
    var withQuestions := AttachQuestions(cats, rows.questions);
    var withFields := AttachTargets(withQuestions, rows.fields, false);
    var withConcepts := AttachTargets(withFields, rows.concepts, true);
    c := Catalogue(order, withConcepts);
    forall k | k in withConcepts ensures withConcepts[k] == Entry(rows, k) {
      StagesGiveEntry(rows, k, cats[k], withQuestions[k], withFields[k], withConcepts[k]);
    }
    LoadedFrom(rows, order, withConcepts);
  }

  // ---------------------------------------------------------------------
  // The router and its cache
  // ---------------------------------------------------------------------

  /**
   * `TopicRouter`: the category catalogue cached with the time it was
   * loaded. `time.time()` is the `now` parameter of each call, and a load
   * is the outcome of the four metadata queries (their rows, or the
   * exception the transaction raised).
   */
  class TopicRouter {
    var cache: Option<Catalogue>
    var cacheTime: real
    const ttl: int

    ghost predicate Valid()
      reads this
    {
      cache.Some? ==> WellFormed(cache.value)
    }

    constructor (ttlSeconds: int)
      ensures Valid() && cache == None && cacheTime == 0.0 && ttl == ttlSeconds
    {
      cache := None;
      cacheTime := 0.0;
      ttl := ttlSeconds;
    }

    /** The cache must be refreshed: there is none, or it is older than the TTL. */
    predicate Expired(now: real)
      reads this
    {
      cache.None? || now - cacheTime > ttl as real
    }

    /**
     * `_get_cached_metadata`: a fresh cache is returned as is; an expired
     * one is reloaded and stamped with `now`; when the reload fails the
     * stale cache is returned if there is one, and the failure is raised
     * otherwise.
     */
    method GetCachedMetadata(now: real, load: Result<MetadataRows>) returns (r: Result<Catalogue>)
      requires Valid()
      modifies this
      ensures Valid()
      ensures !old(Expired(now)) ==> r == Success(old(cache).value) && cache == old(cache) && cacheTime == old(cacheTime)
      ensures old(Expired(now)) && load.Success? ==>
        r == Success(Loaded(load.value)) && cache == Some(Loaded(load.value)) && cacheTime == now
      ensures old(Expired(now)) && load.Failure? ==>
        cache == old(cache) && cacheTime == old(cacheTime) &&
        r == (if old(cache).Some? then Success(old(cache).value) else Failure(load.error))
      ensures r.Success? ==> cache == Some(r.value)
    {
      if Expired(now) {
        match load
        case Success(rows) =>
          var loaded := LoadCategoryMetadata(rows);
          LoadedWellFormed(rows);
          cache := Some(loaded);
          cacheTime := now;
        case Failure(e) =>
          if cache.Some? {
            return Success(cache.value);
          }
          return Failure(e);
      }
      r := Success(cache.value);
    }

    /** `invalidate_cache`: the next access reloads, whatever the clock says. */
    method InvalidateCache()
      modifies this
      ensures Valid() && cache == None && cacheTime == 0.0
      ensures forall now :: Expired(now)
    {
      cache := None;
      cacheTime := 0.0;
    }

    /**
     * `route`: the question is scored against the cached catalogue in its
     * insertion order and the result is assembled from the matches. A
     * failure to obtain the catalogue is raised.
     */
    method Route(question: string, now: real, load: Result<MetadataRows>) returns (r: Result<RouteResult>)
      requires Valid()
      modifies this
      ensures Valid()
      ensures r.Success? ==> cache.Some? && r.value == RouteOver(Values(cache.value), question)
      ensures r.Failure? <==> old(Expired(now)) && load.Failure? && old(cache).None?
      ensures old(Expired(now)) && load.Success? ==> cache == Some(Loaded(load.value)) && cacheTime == now
      ensures !(old(Expired(now)) && load.Success?) ==> cache == old(cache) && cacheTime == old(cacheTime)
    {
      var meta := GetCachedMetadata(now, load);
      if meta.Failure? {
        return Failure(meta.error);
      }
      var cats := Values(meta.value);
      var scored := ScoreCategories(question, cats);
      var matched := Categories(MatchedScored(scored));
      var covenantType := ResolveCovenantType(matched);
      if matched == [] {
        covenantType := "both";
      }
      var qids, fields := Aggregate(matched);
      r := Success(RouteResult(matched, covenantType, qids, fields, 0 < |matched| <= 3));
    }
  }
}

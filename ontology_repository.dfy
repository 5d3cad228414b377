/**
 * The ontology repository: the questions stored in the graph, sorted,
 * grouped by category and joined with one deal's extracted values and
 * provenance. Query rows are inputs; a query that raises is a `Failure`
 * load, which every read turns into an empty result.
 */
module OntologyRepository {
  import opened Wrappers
  import opened PyValues
  import opened Models
  import opened Collections

  // ---------------------------------------------------------------------
  // Questions
  // ---------------------------------------------------------------------

  /** One row of the question fetch; a key the row lacks is None. */
  datatype QuestionFetch = QuestionFetch(
    questionId: Option<string>,
    questionText: Option<string>,
    questionCategory: Option<string>,
    categoryOrder: Option<int>,
    questionOrder: Option<int>,
    targetAttribute: Option<string>,
    answerType: Option<string>)

  /** The question a row describes, with the defaults `data.get` supplies. */
  function QuestionOf(row: QuestionFetch): OntologyQuestion
  {
    OntologyQuestion(
      row.questionId.GetOr(""), row.questionText.GetOr(""), row.questionCategory.GetOr(""),
      row.categoryOrder.GetOr(0), row.questionOrder.GetOr(0), row.targetAttribute.GetOr(""),
      row.answerType.GetOr("string"))
  }

  function QuestionsOf(rows: seq<QuestionFetch>): (qs: seq<OntologyQuestion>)
    ensures |qs| == |rows| && forall i :: 0 <= i < |rows| ==> qs[i] == QuestionOf(rows[i])
  {
    seq(|rows|, i requires 0 <= i < |rows| => QuestionOf(rows[i]))
  }

  /** Questions sort by category order, then by question order. */
  function QuestionKey(q: OntologyQuestion): SortKey
  {
    SortKey(q.categoryOrder, q.questionOrder)
  }

  /** What `get_all_questions` returns for a load: the sorted questions, or [] when the query raised. */
  function AllQuestions(load: Result<seq<QuestionFetch>>): seq<OntologyQuestion>
  {
    match load
    case Failure(_) => []
    case Success(rows) => SortBy(QuestionsOf(rows), QuestionKey)
  }

  /**
   * `get_all_questions`: one question per fetched row, sorted by
   * (category_order, question_order) and otherwise the rows themselves;
   * a failing query gives [] instead of raising.
   */
  method GetAllQuestions(load: Result<seq<QuestionFetch>>) returns (qs: seq<OntologyQuestion>)
    ensures qs == AllQuestions(load)
    ensures load.Failure? ==> qs == []
    ensures load.Success? ==> SortedBy(qs, QuestionKey) && multiset(qs) == multiset(QuestionsOf(load.value))
  {
    match load
    case Failure(_) =>
      return [];
    case Success(rows) =>
      var questions: seq<OntologyQuestion> := [];
      for i := 0 to |rows|
        invariant |questions| == i
        invariant forall k :: 0 <= k < i ==> questions[k] == QuestionOf(rows[k])
      {
        questions := questions + [QuestionOf(rows[i])];
      }
      assert questions == QuestionsOf(rows);
      qs := SortBy(questions, QuestionKey);
  }

  // ---------------------------------------------------------------------
  // Grouping by category
  // ---------------------------------------------------------------------

  /** The category of every question, in order. */
  function CategoriesOf(qs: seq<OntologyQuestion>): (cs: seq<string>)
    ensures |cs| == |qs| && forall i :: 0 <= i < |qs| ==> cs[i] == qs[i].questionCategory
  {
    if qs == [] then [] else CategoriesOf(qs[..|qs| - 1]) + [qs[|qs| - 1].questionCategory]
  }

  /** The categories in order of first appearance: the key order of a dict filled from `qs`. */
  function CategoryOrder(qs: seq<OntologyQuestion>): seq<string>
  {
    Dedup(CategoriesOf(qs))
  }

  /** The questions of category `c`, in their order in `qs`. */
  function InCategory(qs: seq<OntologyQuestion>, c: string): (r: seq<OntologyQuestion>)
    ensures |r| <= |qs|
  {
    if qs == [] then []
    else InCategory(qs[..|qs| - 1], c) + (if qs[|qs| - 1].questionCategory == c then [qs[|qs| - 1]] else [])
  }

  /** A category's bucket holds exactly the questions of that category, and is empty exactly when no question has it. */
  lemma {:induction false} InCategoryMembers(qs: seq<OntologyQuestion>, c: string)
    ensures forall q :: q in InCategory(qs, c) <==> q in qs && q.questionCategory == c
    ensures InCategory(qs, c) == [] <==> c !in CategoriesOf(qs)
    decreases |qs|
  {
    if qs != [] {
      var init := qs[..|qs| - 1];
      InCategoryMembers(init, c);
      assert qs == init + [qs[|qs| - 1]];
      assert CategoriesOf(qs) == CategoriesOf(init) + [qs[|qs| - 1].questionCategory];
    }
  }

  lemma GroupStep(qs: seq<OntologyQuestion>, i: nat)
    requires i < |qs|
    ensures CategoriesOf(qs[..i + 1]) == CategoriesOf(qs[..i]) + [qs[i].questionCategory]
  {
    assert qs[..i + 1][..i] == qs[..i];
  }

  lemma InCategoryStep(qs: seq<OntologyQuestion>, i: nat, c: string)
    requires i < |qs|
    ensures InCategory(qs[..i + 1], c) == InCategory(qs[..i], c) + (if qs[i].questionCategory == c then [qs[i]] else [])
  {
    assert qs[..i + 1][..i] == qs[..i];
  }

  /**
   * `get_questions_by_category`: one bucket per category, in order of first
   * appearance, each holding that category's questions in their sorted
   * order.
   */
  method GetQuestionsByCategory(load: Result<seq<QuestionFetch>>)
    returns (order: seq<string>, byCategory: map<string, seq<OntologyQuestion>>)
    ensures var qs := AllQuestions(load);
      order == CategoryOrder(qs) &&
      (forall c :: c in byCategory <==> c in CategoriesOf(qs)) &&
      (forall c :: c in byCategory ==> byCategory[c] == InCategory(qs, c))
  {
    var qs := GetAllQuestions(load);
    order, byCategory := [], map[];
    for i := 0 to |qs|
      invariant order == Dedup(CategoriesOf(qs[..i]))
      invariant forall c :: c in byCategory <==> c in CategoriesOf(qs[..i])
      invariant forall c :: c in byCategory ==> byCategory[c] == InCategory(qs[..i], c)
    {
      order, byCategory := AddToBucket(qs, i, order, byCategory);
    }
    assert qs[..|qs|] == qs;
  }

  /** One step of the grouping loop: question `i` joins its category's bucket, opening it if new. */
  method AddToBucket(qs: seq<OntologyQuestion>, i: nat, order: seq<string>, byCategory: map<string, seq<OntologyQuestion>>)
    returns (order': seq<string>, byCategory': map<string, seq<OntologyQuestion>>)
    requires i < |qs|
    requires order == Dedup(CategoriesOf(qs[..i]))
    requires forall c :: c in byCategory <==> c in CategoriesOf(qs[..i])
    requires forall c :: c in byCategory ==> byCategory[c] == InCategory(qs[..i], c)
    ensures order' == Dedup(CategoriesOf(qs[..i + 1]))
    ensures forall c :: c in byCategory' <==> c in CategoriesOf(qs[..i + 1])
    ensures forall c :: c in byCategory' ==> byCategory'[c] == InCategory(qs[..i + 1], c)
  {
    GroupStep(qs, i);
    DedupSnoc(CategoriesOf(qs[..i]), qs[i].questionCategory);
    var c := qs[i].questionCategory;
    if c !in byCategory {
      InCategoryMembers(qs[..i], c);
      order' := order + [c];
      byCategory' := byCategory[c := [qs[i]]];
    } else {
      order' := order;
      byCategory' := byCategory[c := byCategory[c] + [qs[i]]];
    }
    forall k | k in byCategory' ensures byCategory'[k] == InCategory(qs[..i + 1], k) {
      InCategoryStep(qs, i, k);
    }
  }

  /** How many questions fall in each of `names`, added up. */
  function TotalCount(names: seq<string>, qs: seq<OntologyQuestion>): nat
  {
    if names == [] then 0 else |InCategory(qs, names[0])| + TotalCount(names[1..], qs)
  }

  lemma {:induction false} TotalCountSnoc(names: seq<string>, qs: seq<OntologyQuestion>, q: OntologyQuestion)
    requires NoDup(names)
    ensures TotalCount(names, qs + [q]) == TotalCount(names, qs) + (if q.questionCategory in names then 1 else 0)
    decreases |names|
  {
    if names != [] {
      assert (qs + [q])[..|qs + [q]| - 1] == qs;
      assert forall j :: 0 <= j < |names[1..]| ==> names[1..][j] == names[j + 1];
      assert names[0] !in names[1..];
      TotalCountSnoc(names[1..], qs, q);
    }
  }

  lemma {:induction false} TotalCountAppend(names: seq<string>, c: string, qs: seq<OntologyQuestion>)
    ensures TotalCount(names + [c], qs) == TotalCount(names, qs) + |InCategory(qs, c)|
    decreases |names|
  {
    if names == [] {
      assert names + [c] == [c];
    } else {
      assert (names + [c])[1..] == names[1..] + [c];
      TotalCountAppend(names[1..], c, qs);
    }
  }

  /** Every question lands in exactly one bucket: the bucket sizes add up to the number of questions. */
  lemma {:induction false} BucketsPartition(qs: seq<OntologyQuestion>)
    ensures TotalCount(CategoryOrder(qs), qs) == |qs|
    decreases |qs|
  {
    if qs != [] {
      var init := qs[..|qs| - 1];
      var q := qs[|qs| - 1];
      var c := q.questionCategory;
      BucketsPartition(init);
      assert qs == init + [q];
      var d := Dedup(CategoriesOf(init));
      DedupSnoc(CategoriesOf(init), c);
      TotalCountSnoc(d, init, q);
      if c !in CategoriesOf(init) {
        TotalCountAppend(d, c, qs);
        InCategoryMembers(init, c);
        assert qs[..|qs| - 1] == init;
        assert InCategory(qs, c) == [q];
        TotalCountSnoc(d + [c], init, q);
        TotalCountAppend(d, c, init);
      }
    }
  }

  // ---------------------------------------------------------------------
  // Category summaries
  // ---------------------------------------------------------------------

  /** One entry of `get_categories`: the name, the order of its first question and its question count. */
  datatype CategoryInfo = CategoryInfo(name: string, order: int, count: nat)

  function InfoKey(info: CategoryInfo): SortKey
  {
    SortKey(info.order, 0)
  }

  function InfoCount(info: CategoryInfo): int
  {
    info.count
  }

  /** The summary of category `c`, which must have questions. */
  function InfoOf(qs: seq<OntologyQuestion>, c: string): CategoryInfo
    requires c in CategoriesOf(qs)
  {
    InCategoryMembers(qs, c);
    CategoryInfo(c, InCategory(qs, c)[0].categoryOrder, |InCategory(qs, c)|)
  }

  /** The summaries of the categories of `qs`, in order of first appearance. */
  function Infos(qs: seq<OntologyQuestion>, names: seq<string>): (r: seq<CategoryInfo>)
    requires forall c :: c in names ==> c in CategoriesOf(qs)
    ensures |r| == |names| && forall k :: 0 <= k < |names| ==> r[k] == InfoOf(qs, names[k])
  {
    seq(|names|, k requires 0 <= k < |names| => InfoOf(qs, names[k]))
  }

  /** What `get_categories` returns over the questions `qs`. */
  function CategorySummaries(qs: seq<OntologyQuestion>): seq<CategoryInfo>
  {
    SortBy(Infos(qs, CategoryOrder(qs)), InfoKey)
  }

  lemma {:induction false} InfosTotal(qs: seq<OntologyQuestion>, names: seq<string>)
    requires forall c :: c in names ==> c in CategoriesOf(qs)
    ensures SumOf(Infos(qs, names), InfoCount) == TotalCount(names, qs)
    decreases |names|
  {
    if names != [] {
      assert Infos(qs, names)[1..] == Infos(qs, names[1..]);
      InfosTotal(qs, names[1..]);
    }
  }

  /** The category counts of `get_categories` add up to the number of questions. */
  lemma CategoryCountsSum(qs: seq<OntologyQuestion>)
    ensures SumOf(CategorySummaries(qs), InfoCount) == |qs|
  {
    var names := CategoryOrder(qs);
    var infos := Infos(qs, names);
    SumOfPermutation(CategorySummaries(qs), infos, InfoCount);
    InfosTotal(qs, names);
    BucketsPartition(qs);
  }

  /**
   * `get_categories` has one entry per category, carrying that category's
   * own name, first order and question count, sorted by order.
   */
  lemma CategorySummariesMembers(qs: seq<OntologyQuestion>)
    ensures SortedBy(CategorySummaries(qs), InfoKey)
    ensures forall e :: e in CategorySummaries(qs) <==> exists c :: c in CategoriesOf(qs) && e == InfoOf(qs, c)
  {
    var names := CategoryOrder(qs);
    var infos := Infos(qs, names);
    var r := CategorySummaries(qs);
    SortBySameMembers(infos, InfoKey);
    assert forall e :: e in r <==> e in infos;
    forall e | e in r ensures exists c :: c in CategoriesOf(qs) && e == InfoOf(qs, c) {
      var k :| 0 <= k < |infos| && infos[k] == e;
      assert names[k] in names;
    }
    forall c | c in CategoriesOf(qs) ensures InfoOf(qs, c) in r {
      var k :| 0 <= k < |names| && names[k] == c;
      assert infos[k] == InfoOf(qs, c);
    }
  }

  /**
   * `get_categories`: the loop creates an entry the first time a category
   * appears and counts every question into it; the entries are then sorted
   * by order.
   */
  method GetCategories(load: Result<seq<QuestionFetch>>) returns (cats: seq<CategoryInfo>)
    ensures cats == CategorySummaries(AllQuestions(load))
  {
    var qs := GetAllQuestions(load);
    var order: seq<string> := [];
    var byName: map<string, CategoryInfo> := map[];
    for i := 0 to |qs|
      invariant order == Dedup(CategoriesOf(qs[..i]))
      invariant forall c :: c in byName <==> c in CategoriesOf(qs[..i])
      invariant forall c :: c in byName ==> byName[c] == InfoOf(qs[..i], c)
    {
      order, byName := CountQuestion(qs, i, order, byName);
    }
    assert qs[..|qs|] == qs;
    var values := ValuesInOrder(order, byName);
    InfosInOrder(qs, order, byName, values);
    cats := SortBy(values, InfoKey);
  }

  /** The dict's values, read in key order, are the summaries of the categories in order of first appearance. */
  lemma InfosInOrder(qs: seq<OntologyQuestion>, order: seq<string>, byName: map<string, CategoryInfo>, values: seq<CategoryInfo>)
    requires order == Dedup(CategoriesOf(qs))
    requires forall c :: c in byName <==> c in CategoriesOf(qs)
    requires forall c :: c in byName ==> byName[c] == InfoOf(qs, c)
    requires |values| == |order| && forall k :: 0 <= k < |order| ==> order[k] in byName && values[k] == byName[order[k]]
    ensures values == Infos(qs, order)
  {
  }

  /** How one more question changes the summary of category `k`. */
  lemma InfoStep(qs: seq<OntologyQuestion>, i: nat, k: string)
    requires i < |qs| && k in CategoriesOf(qs[..i + 1])
    ensures var q := qs[i];
      if k != q.questionCategory then k in CategoriesOf(qs[..i]) && InfoOf(qs[..i + 1], k) == InfoOf(qs[..i], k)
      else if k in CategoriesOf(qs[..i]) then InfoOf(qs[..i + 1], k) == InfoOf(qs[..i], k).(count := InfoOf(qs[..i], k).count + 1)
      else InfoOf(qs[..i + 1], k) == CategoryInfo(k, q.categoryOrder, 1)
  {
    GroupStep(qs, i);
    InCategoryStep(qs, i, k);
    InCategoryMembers(qs[..i], k);
    var before := InCategory(qs[..i], k);
    if k == qs[i].questionCategory && before != [] {
      assert (before + [qs[i]])[0] == before[0];
    }
  }

  /** One step of the counting loop: question `i` is counted into its category's entry, created if new. */
  method CountQuestion(qs: seq<OntologyQuestion>, i: nat, order: seq<string>, byName: map<string, CategoryInfo>)
    returns (order': seq<string>, byName': map<string, CategoryInfo>)
    requires i < |qs|
    requires order == Dedup(CategoriesOf(qs[..i]))
    requires forall c :: c in byName <==> c in CategoriesOf(qs[..i])
    requires forall c :: c in byName ==> byName[c] == InfoOf(qs[..i], c)
    ensures order' == Dedup(CategoriesOf(qs[..i + 1]))
    ensures forall c :: c in byName' <==> c in CategoriesOf(qs[..i + 1])
    ensures forall c :: c in byName' ==> byName'[c] == InfoOf(qs[..i + 1], c)
  {
    GroupStep(qs, i);
    DedupSnoc(CategoriesOf(qs[..i]), qs[i].questionCategory);
    var q := qs[i];
    var c := q.questionCategory;
    order', byName' := order, byName;
    if c !in byName {
      order' := order + [c];
      byName' := byName[c := CategoryInfo(c, q.categoryOrder, 0)];
    }
    ghost var entered := byName';
    byName' := byName'[c := byName'[c].(count := byName'[c].count + 1)];
    InfosStep(qs, i, byName, entered, byName');
  }

  /** The summaries after question `i` is counted into its category's entry, created with count 0 if new. */
  lemma InfosStep(qs: seq<OntologyQuestion>, i: nat, byName: map<string, CategoryInfo>, entered: map<string, CategoryInfo>, byName': map<string, CategoryInfo>)
    requires i < |qs|
    requires forall c :: c in byName <==> c in CategoriesOf(qs[..i])
    requires forall c :: c in byName ==> byName[c] == InfoOf(qs[..i], c)
    requires var c := qs[i].questionCategory;
      entered == if c in byName then byName else byName[c := CategoryInfo(c, qs[i].categoryOrder, 0)]
    requires var c := qs[i].questionCategory;
      c in entered && byName' == entered[c := entered[c].(count := entered[c].count + 1)]
    ensures forall c :: c in byName' <==> c in CategoriesOf(qs[..i + 1])
    ensures forall c :: c in byName' ==> byName'[c] == InfoOf(qs[..i + 1], c)
  {
    GroupStep(qs, i);
    var c := qs[i].questionCategory;
    forall k | k in byName' ensures byName'[k] == InfoOf(qs[..i + 1], k) {
      if k != c {
        assert byName'[k] == byName[k];
      } else if c in byName {
        assert byName'[c] == byName[c].(count := byName[c].count + 1);
      } else {
        assert byName'[c] == CategoryInfo(c, qs[i].categoryOrder, 1);
      }
      InfoStep(qs, i, k);
    }
  }

  // ---------------------------------------------------------------------
  // A deal's primitives and provenance
  // ---------------------------------------------------------------------

  /** The attributes owned by the deal's MFN and RP provisions (empty when the deal has no such provision). */
  datatype ProvisionAttrs = ProvisionAttrs(mfn: seq<(string, Value)>, rp: seq<(string, Value)>)

  /** The primitives dict of a load: the MFN attributes, then the RP ones, written into an empty dict. */
  function DealPrimitives(load: Result<ProvisionAttrs>): map<string, Value>
  {
    match load
    case Failure(_) => map[]
    case Success(attrs) => Updated(Updated(map[], attrs.mfn), attrs.rp)
  }

  /**
   * `_get_deal_primitives`: the MFN provision's attributes, then the RP
   * provision's, into one dict, so an RP value wins over an MFN value of
   * the same name and a later value over an earlier one; a failing query
   * gives {}.
   */
  method GetDealPrimitives(load: Result<ProvisionAttrs>) returns (primitives: map<string, Value>)
    ensures primitives == DealPrimitives(load)
    ensures load.Failure? ==> primitives == map[]
  {
    match load
    case Failure(_) =>
      return map[];
    case Success(attrs) =>
      primitives := map[];
      for i := 0 to |attrs.mfn|
        invariant primitives == Updated(map[], attrs.mfn[..i])
      {
        UpdatedSnoc(map[], attrs.mfn, i);
        primitives := primitives[attrs.mfn[i].0 := attrs.mfn[i].1];
      }
      assert attrs.mfn[..|attrs.mfn|] == attrs.mfn;
      ghost var afterMfn := primitives;
      for i := 0 to |attrs.rp|
        invariant primitives == Updated(afterMfn, attrs.rp[..i])
      {
        UpdatedSnoc(afterMfn, attrs.rp, i);
        primitives := primitives[attrs.rp[i].0 := attrs.rp[i].1];
      }
      assert attrs.rp[..|attrs.rp|] == attrs.rp;
  }

  /** An RP attribute always shadows an MFN attribute of the same name. */
  lemma RpShadowsMfn(attrs: ProvisionAttrs, i: nat)
    requires i < |attrs.rp| && forall j :: i < j < |attrs.rp| ==> attrs.rp[j].0 != attrs.rp[i].0
    ensures DealPrimitives(Success(attrs))[attrs.rp[i].0] == attrs.rp[i].1
  {
  }

  /** One row of the provenance fetch; a key the row lacks is None. */
  datatype ProvenanceFetch = ProvenanceFetch(attributeName: Option<string>, sourceText: Option<string>, sourcePage: Option<int>)

  /** The provenance a row describes: always "high" confidence, no section. */
  function ProvenanceOf(row: ProvenanceFetch): Provenance
  {
    Provenance(row.attributeName.GetOr(""), row.sourceText.GetOr(""), row.sourcePage.GetOr(0), None, "high")
  }

  function ProvenancePairs(rows: seq<ProvenanceFetch>): (ps: seq<(string, Provenance)>)
    ensures |ps| == |rows| && forall i :: 0 <= i < |rows| ==> ps[i] == (rows[i].attributeName.GetOr(""), ProvenanceOf(rows[i]))
  {
    seq(|rows|, i requires 0 <= i < |rows| => (rows[i].attributeName.GetOr(""), ProvenanceOf(rows[i])))
  }

  /** The provenance dict of a load: each row written under its attribute name. */
  function DealProvenance(load: Result<seq<ProvenanceFetch>>): map<string, Provenance>
  {
    match load
    case Failure(_) => map[]
    case Success(rows) => Updated(map[], ProvenancePairs(rows))
  }

  /**
   * `_get_deal_provenance`: one entry per attribute name, the last row for a
   * name winning, every entry under its own attribute name; a failing query
   * gives {}.
   */
  method GetDealProvenance(load: Result<seq<ProvenanceFetch>>) returns (provenance: map<string, Provenance>)
    ensures provenance == DealProvenance(load)
    ensures load.Failure? ==> provenance == map[]
    ensures forall a :: a in provenance ==> provenance[a].attributeName == a && provenance[a].extractionConfidence == "high"
  {
    match load
    case Failure(_) =>
      return map[];
    case Success(rows) =>
      provenance := map[];
      var pairs := ProvenancePairs(rows);
      for i := 0 to |rows|
        invariant provenance == Updated(map[], pairs[..i])
        invariant forall a :: a in provenance ==> provenance[a].attributeName == a && provenance[a].extractionConfidence == "high"
      {
        UpdatedSnoc(map[], pairs, i);
        var name := rows[i].attributeName.GetOr("");
        provenance := provenance[name := ProvenanceOf(rows[i])];
      }
      assert pairs[..|rows|] == pairs;
  }

  // ---------------------------------------------------------------------
  // Questions with answers
  // ---------------------------------------------------------------------

  /** A question with the deal's value for its target attribute and that attribute's provenance. */
  function Answered(q: OntologyQuestion, primitives: map<string, Value>, provenance: map<string, Provenance>): QuestionWithAnswer
  {
    QuestionWithAnswer(q, Get(primitives, q.targetAttribute),
      if q.targetAttribute in provenance then Some(provenance[q.targetAttribute]) else None)
  }

  function AnsweredAll(qs: seq<OntologyQuestion>, primitives: map<string, Value>, provenance: map<string, Provenance>): (r: seq<QuestionWithAnswer>)
    ensures |r| == |qs| && forall i :: 0 <= i < |qs| ==> r[i] == Answered(qs[i], primitives, provenance)
  {
    if qs == [] then []
    else AnsweredAll(qs[..|qs| - 1], primitives, provenance) + [Answered(qs[|qs| - 1], primitives, provenance)]
  }

  /** The browser entry of category `c`: the order of its first question and all its questions, answered. */
  function CategoryEntry(qs: seq<OntologyQuestion>, c: string, primitives: map<string, Value>, provenance: map<string, Provenance>): CategoryWithQuestions
    requires c in CategoriesOf(qs)
  {
    InCategoryMembers(qs, c);
    CategoryWithQuestions(c, InCategory(qs, c)[0].categoryOrder, AnsweredAll(InCategory(qs, c), primitives, provenance))
  }

  function CategoryEntries(qs: seq<OntologyQuestion>, names: seq<string>, primitives: map<string, Value>, provenance: map<string, Provenance>): (r: seq<CategoryWithQuestions>)
    requires forall c :: c in names ==> c in CategoriesOf(qs)
    ensures |r| == |names| && forall k :: 0 <= k < |names| ==> r[k] == CategoryEntry(qs, names[k], primitives, provenance)
  {
    seq(|names|, k requires 0 <= k < |names| => CategoryEntry(qs, names[k], primitives, provenance))
  }

  function CategoryOrderKey(c: CategoryWithQuestions): SortKey
  {
    SortKey(c.categoryOrder, 0)
  }

  /** What `get_questions_with_answers` returns over the questions, primitives and provenance it loaded. */
  function WithAnswers(qs: seq<OntologyQuestion>, primitives: map<string, Value>, provenance: map<string, Provenance>): seq<CategoryWithQuestions>
  {
    SortBy(CategoryEntries(qs, CategoryOrder(qs), primitives, provenance), CategoryOrderKey)
  }

  /**
   * The ontology browser's view is sorted by category order, and every
   * answered question it shows sits under its own category with the deal's
   * value for its target attribute (None when the deal has none) and that
   * attribute's provenance.
   */
  lemma WithAnswersSound(qs: seq<OntologyQuestion>, primitives: map<string, Value>, provenance: map<string, Provenance>)
    ensures var r := WithAnswers(qs, primitives, provenance);
      SortedBy(r, CategoryOrderKey) &&
      (forall cat, qa :: cat in r && qa in cat.questions ==>
        qa.question in qs && qa.question.questionCategory == cat.categoryName &&
        qa == Answered(qa.question, primitives, provenance))
  {
    var names := CategoryOrder(qs);
    var entries := CategoryEntries(qs, names, primitives, provenance);
    var r := WithAnswers(qs, primitives, provenance);
    SortBySameMembers(entries, CategoryOrderKey);
    forall cat, qa | cat in r && qa in cat.questions
      ensures qa.question in qs && qa.question.questionCategory == cat.categoryName
      ensures qa == Answered(qa.question, primitives, provenance)
    {
      EntriesAnswers(qs, names, primitives, provenance, cat, qa);
    }
  }

  /** An answered question of one of the entries is one of that entry's category's questions, answered. */
  lemma EntriesAnswers(
    qs: seq<OntologyQuestion>, names: seq<string>, primitives: map<string, Value>, provenance: map<string, Provenance>,
    cat: CategoryWithQuestions, qa: QuestionWithAnswer)
    requires forall c :: c in names ==> c in CategoriesOf(qs)
    requires cat in CategoryEntries(qs, names, primitives, provenance) && qa in cat.questions
    ensures qa.question in qs && qa.question.questionCategory == cat.categoryName
    ensures qa == Answered(qa.question, primitives, provenance)
  {
    var entries := CategoryEntries(qs, names, primitives, provenance);
    var k :| 0 <= k < |entries| && entries[k] == cat;
    assert names[k] in names;
    EntryAnswers(qs, names[k], primitives, provenance, qa);
  }

  /** An answered question of a category's entry is one of that category's questions, answered. */
  lemma EntryAnswers(qs: seq<OntologyQuestion>, c: string, primitives: map<string, Value>, provenance: map<string, Provenance>, qa: QuestionWithAnswer)
    requires c in CategoriesOf(qs)
    requires qa in CategoryEntry(qs, c, primitives, provenance).questions
    ensures qa.question in qs && qa.question.questionCategory == c
    ensures qa == Answered(qa.question, primitives, provenance)
  {
    InCategoryMembers(qs, c);
    var inCat := InCategory(qs, c);
    var j :| 0 <= j < |inCat| && AnsweredAll(inCat, primitives, provenance)[j] == qa;
    assert inCat[j] in inCat;
  }

  /** Every question of the ontology appears, answered, under its own category in the browser's view. */
  lemma WithAnswersComplete(qs: seq<OntologyQuestion>, primitives: map<string, Value>, provenance: map<string, Provenance>)
    ensures var r := WithAnswers(qs, primitives, provenance);
      forall q :: q in qs ==> exists cat :: cat in r && cat.categoryName == q.questionCategory && Answered(q, primitives, provenance) in cat.questions
  {
    var names := CategoryOrder(qs);
    var entries := CategoryEntries(qs, names, primitives, provenance);
    var r := WithAnswers(qs, primitives, provenance);
    SortBySameMembers(entries, CategoryOrderKey);
    forall q | q in qs
      ensures exists cat :: cat in r && cat.categoryName == q.questionCategory && Answered(q, primitives, provenance) in cat.questions
    {
      var c := q.questionCategory;
      var i :| 0 <= i < |qs| && qs[i] == q;
      assert CategoriesOf(qs)[i] == c;
      assert c in names;
      var k :| 0 <= k < |names| && names[k] == c;
      EntryHolds(qs, q, primitives, provenance);
      var cat := entries[k];
      assert cat in entries;
      assert cat in r && cat.categoryName == c && Answered(q, primitives, provenance) in cat.questions;
    }
  }

  /** A question's category has an entry, and the question is in it, answered. */
  lemma EntryHolds(qs: seq<OntologyQuestion>, q: OntologyQuestion, primitives: map<string, Value>, provenance: map<string, Provenance>)
    requires q in qs
    ensures q.questionCategory in CategoriesOf(qs)
    ensures var e := CategoryEntry(qs, q.questionCategory, primitives, provenance);
      e.categoryName == q.questionCategory && Answered(q, primitives, provenance) in e.questions
  {
    var c := q.questionCategory;
    var i :| 0 <= i < |qs| && qs[i] == q;
    assert CategoriesOf(qs)[i] == c;
    InCategoryMembers(qs, c);
    var inCat := InCategory(qs, c);
    var j :| 0 <= j < |inCat| && inCat[j] == q;
    assert AnsweredAll(inCat, primitives, provenance)[j] == Answered(q, primitives, provenance);
  }

  /**
   * `get_questions_with_answers`: loads the questions, the deal's
   * primitives and its provenance (each empty on failure), then groups the
   * answered questions by category in order of first appearance and sorts
   * the categories by order.
   */
  method GetQuestionsWithAnswers(
    questionsLoad: Result<seq<QuestionFetch>>, primitivesLoad: Result<ProvisionAttrs>, provenanceLoad: Result<seq<ProvenanceFetch>>)
    returns (result: seq<CategoryWithQuestions>)
    ensures result == WithAnswers(AllQuestions(questionsLoad), DealPrimitives(primitivesLoad), DealProvenance(provenanceLoad))
  {
    var qs := GetAllQuestions(questionsLoad);
    var primitives := GetDealPrimitives(primitivesLoad);
    var provenance := GetDealProvenance(provenanceLoad);
    result := GroupAnswered(qs, primitives, provenance);
  }

  /** The grouping loop of `get_questions_with_answers`, then the sort by category order. */
  method GroupAnswered(qs: seq<OntologyQuestion>, primitives: map<string, Value>, provenance: map<string, Provenance>)
    returns (result: seq<CategoryWithQuestions>)
    ensures result == WithAnswers(qs, primitives, provenance)
  {
    var order, byName := CollectAnswered(qs, primitives, provenance);
    var values := ValuesInOrder(order, byName);
    EntriesInOrder(qs, order, byName, values, primitives, provenance);
    result := SortBy(values, CategoryOrderKey);
  }

  /** The grouping loop: one entry per category, in order of first appearance. */
  method CollectAnswered(qs: seq<OntologyQuestion>, primitives: map<string, Value>, provenance: map<string, Provenance>)
    returns (order: seq<string>, byName: map<string, CategoryWithQuestions>)
    ensures order == Dedup(CategoriesOf(qs))
    ensures forall c :: c in byName <==> c in CategoriesOf(qs)
    ensures forall c :: c in byName ==> byName[c] == CategoryEntry(qs, c, primitives, provenance)
  {
    order, byName := [], map[];
    for i := 0 to |qs|
      invariant order == Dedup(CategoriesOf(qs[..i]))
      invariant forall c :: c in byName <==> c in CategoriesOf(qs[..i])
      invariant forall c :: c in byName ==> byName[c] == CategoryEntry(qs[..i], c, primitives, provenance)
    {
      order, byName := AnswerQuestion(qs, i, primitives, provenance, order, byName);
    }
    assert qs[..|qs|] == qs;
  }

  /** A dict's values, read in the order of its keys. */
  function ValuesInOrder<V>(order: seq<string>, byName: map<string, V>): (values: seq<V>)
    requires forall c :: c in order ==> c in byName
    ensures |values| == |order| && forall k :: 0 <= k < |order| ==> values[k] == byName[order[k]]
  {
    seq(|order|, k requires 0 <= k < |order| => byName[order[k]])
  }

  /** The dict's values, read in key order, are the entries of the categories in order of first appearance. */
  lemma EntriesInOrder(
    qs: seq<OntologyQuestion>, order: seq<string>, byName: map<string, CategoryWithQuestions>, values: seq<CategoryWithQuestions>,
    primitives: map<string, Value>, provenance: map<string, Provenance>)
    requires order == Dedup(CategoriesOf(qs))
    requires forall c :: c in byName <==> c in CategoriesOf(qs)
    requires forall c :: c in byName ==> byName[c] == CategoryEntry(qs, c, primitives, provenance)
    requires |values| == |order| && forall k :: 0 <= k < |order| ==> order[k] in byName && values[k] == byName[order[k]]
    ensures values == CategoryEntries(qs, order, primitives, provenance)
  {
  }

  /** One more question leaves the browser entry of another category as it was. */
  lemma EntryOther(qs: seq<OntologyQuestion>, i: nat, k: string, primitives: map<string, Value>, provenance: map<string, Provenance>)
    requires i < |qs| && k in CategoriesOf(qs[..i + 1]) && k != qs[i].questionCategory
    ensures k in CategoriesOf(qs[..i])
    ensures CategoryEntry(qs[..i + 1], k, primitives, provenance) == CategoryEntry(qs[..i], k, primitives, provenance)
  {
    GroupStep(qs, i);
    InCategoryStep(qs, i, k);
  }

  /** One more question of a category seen before is appended, answered, to that category's entry. */
  lemma EntryJoin(qs: seq<OntologyQuestion>, i: nat, primitives: map<string, Value>, provenance: map<string, Provenance>)
    requires i < |qs| && qs[i].questionCategory in CategoriesOf(qs[..i])
    ensures qs[i].questionCategory in CategoriesOf(qs[..i + 1])
    ensures var k := qs[i].questionCategory;
      var prev := CategoryEntry(qs[..i], k, primitives, provenance);
      CategoryEntry(qs[..i + 1], k, primitives, provenance) == prev.(questions := prev.questions + [Answered(qs[i], primitives, provenance)])
  {
    var k := qs[i].questionCategory;
    GroupStep(qs, i);
    InCategoryStep(qs, i, k);
    InCategoryMembers(qs[..i], k);
    var before := InCategory(qs[..i], k);
    var after := InCategory(qs[..i + 1], k);
    assert after[..|before|] == before;
    assert AnsweredAll(after, primitives, provenance) == AnsweredAll(before, primitives, provenance) + [Answered(qs[i], primitives, provenance)];
    assert after[0] == before[0];
  }

  /** The first question of a new category opens that category's entry, holding the question answered. */
  lemma EntryNew(qs: seq<OntologyQuestion>, i: nat, primitives: map<string, Value>, provenance: map<string, Provenance>)
    requires i < |qs| && qs[i].questionCategory !in CategoriesOf(qs[..i])
    ensures qs[i].questionCategory in CategoriesOf(qs[..i + 1])
    ensures CategoryEntry(qs[..i + 1], qs[i].questionCategory, primitives, provenance)
      == CategoryWithQuestions(qs[i].questionCategory, qs[i].categoryOrder, [Answered(qs[i], primitives, provenance)])
  {
    var k := qs[i].questionCategory;
    GroupStep(qs, i);
    InCategoryStep(qs, i, k);
    InCategoryMembers(qs[..i], k);
    assert InCategory(qs[..i + 1], k) == [qs[i]];
  }

  /** The browser entries after question `i`, answered, joins its category's entry, created empty if new. */
  lemma EntriesStep(
    qs: seq<OntologyQuestion>, i: nat, primitives: map<string, Value>, provenance: map<string, Provenance>,
    byName: map<string, CategoryWithQuestions>, entered: map<string, CategoryWithQuestions>, byName': map<string, CategoryWithQuestions>)
    requires i < |qs|
    requires forall c :: c in byName <==> c in CategoriesOf(qs[..i])
    requires forall c :: c in byName ==> byName[c] == CategoryEntry(qs[..i], c, primitives, provenance)
    requires var c := qs[i].questionCategory;
      entered == if c in byName then byName else byName[c := CategoryWithQuestions(c, qs[i].categoryOrder, [])]
    requires var c := qs[i].questionCategory;
      c in entered && byName' == entered[c := entered[c].(questions := entered[c].questions + [Answered(qs[i], primitives, provenance)])]
    ensures forall c :: c in byName' <==> c in CategoriesOf(qs[..i + 1])
    ensures forall c :: c in byName' ==> byName'[c] == CategoryEntry(qs[..i + 1], c, primitives, provenance)
  {
    GroupStep(qs, i);
    var c := qs[i].questionCategory;
    forall k | k in byName' ensures byName'[k] == CategoryEntry(qs[..i + 1], k, primitives, provenance) {
      if k != c {
        assert byName'[k] == byName[k];
        EntryOther(qs, i, k, primitives, provenance);
      } else if c in byName {
        assert byName'[c] == byName[c].(questions := byName[c].questions + [Answered(qs[i], primitives, provenance)]);
        EntryJoin(qs, i, primitives, provenance);
      } else {
        assert byName'[c] == CategoryWithQuestions(c, qs[i].categoryOrder, [Answered(qs[i], primitives, provenance)]);
        EntryNew(qs, i, primitives, provenance);
      }
    }
  }

  /** One step of the browser loop: question `i`, answered, joins its category's entry, created if new. */
  method AnswerQuestion(
    qs: seq<OntologyQuestion>, i: nat, primitives: map<string, Value>, provenance: map<string, Provenance>,
    order: seq<string>, byName: map<string, CategoryWithQuestions>)
    returns (order': seq<string>, byName': map<string, CategoryWithQuestions>)
    requires i < |qs|
    requires order == Dedup(CategoriesOf(qs[..i]))
    requires forall c :: c in byName <==> c in CategoriesOf(qs[..i])
    requires forall c :: c in byName ==> byName[c] == CategoryEntry(qs[..i], c, primitives, provenance)
    ensures order' == Dedup(CategoriesOf(qs[..i + 1]))
    ensures forall c :: c in byName' <==> c in CategoriesOf(qs[..i + 1])
    ensures forall c :: c in byName' ==> byName'[c] == CategoryEntry(qs[..i + 1], c, primitives, provenance)
  {
    GroupStep(qs, i);
    DedupSnoc(CategoriesOf(qs[..i]), qs[i].questionCategory);
    var q := qs[i];
    var c := q.questionCategory;
    order', byName' := order, byName;
    if c !in byName {
      order' := order + [c];
      byName' := byName[c := CategoryWithQuestions(c, q.categoryOrder, [])];
    }
    ghost var entered := byName';
    byName' := byName'[c := byName'[c].(questions := byName'[c].questions + [Answered(q, primitives, provenance)])];
    EntriesStep(qs, i, primitives, provenance, byName, entered, byName');
  }

  // ---------------------------------------------------------------------
  // Attribute mapping
  // ---------------------------------------------------------------------

  function AttributePairs(qs: seq<OntologyQuestion>): (ps: seq<(string, string)>)
    ensures |ps| == |qs| && forall i :: 0 <= i < |qs| ==> ps[i] == (qs[i].targetAttribute, qs[i].questionText)
  {
    seq(|qs|, i requires 0 <= i < |qs| => (qs[i].targetAttribute, qs[i].questionText))
  }

  /**
   * `get_attribute_mapping`: every target attribute of the (sorted)
   * questions maps to a question text, and when several questions share a
   * target attribute the last one in sorted order wins.
   */
  function GetAttributeMapping(load: Result<seq<QuestionFetch>>): (m: map<string, string>)
    ensures var qs := AllQuestions(load);
      (forall a :: a in m <==> exists q :: q in qs && q.targetAttribute == a) &&
      (forall i :: 0 <= i < |qs| && (forall j :: i < j < |qs| ==> qs[j].targetAttribute != qs[i].targetAttribute) ==>
        m[qs[i].targetAttribute] == qs[i].questionText)
    ensures load.Failure? ==> m == map[]
  {
    var qs := AllQuestions(load);
    AttributeMappingKeys(qs);
    Updated(map[], AttributePairs(qs))
  }

  lemma AttributeMappingKeys(qs: seq<OntologyQuestion>)
    ensures forall a :: a in Updated(map[], AttributePairs(qs)) <==> exists q :: q in qs && q.targetAttribute == a
  {
    var m := Updated(map[], AttributePairs(qs));
    forall a | a in m ensures exists q :: q in qs && q.targetAttribute == a {
      var i :| 0 <= i < |qs| && AttributePairs(qs)[i].0 == a;
      assert qs[i] in qs;
    }
    forall q | q in qs ensures q.targetAttribute in m {
      var i :| 0 <= i < |qs| && qs[i] == q;
      assert AttributePairs(qs)[i].0 == q.targetAttribute;
    }
  }
}

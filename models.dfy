/**
 * The plain records of app/schemas/models.py that the repositories and the
 * Q&A engine pass around. They carry no behaviour; datetimes are left out.
 */
module Models {
  import opened Wrappers
  import opened PyValues

  /** One extracted attribute value with where it was found. */
  datatype ExtractedPrimitive = ExtractedPrimitive(
    attributeName: string,
    value: Value,
    sourceText: string,
    sourcePage: int,
    sourceSection: Option<string>,
    confidence: string)

  /** The concepts of one multiselect question that apply, and those that do not. */
  datatype MultiselectAnswer = MultiselectAnswer(
    conceptType: string,
    included: seq<string>,
    excluded: seq<string>,
    sourceText: string,
    sourcePage: int)

  datatype Provenance = Provenance(
    attributeName: string,
    sourceText: string,
    sourcePage: int,
    sourceSection: Option<string>,
    extractionConfidence: string)

  datatype PrimitiveWithProvenance = PrimitiveWithProvenance(
    attributeName: string,
    value: Value,
    provenance: Option<Provenance>)

  datatype OntologyQuestion = OntologyQuestion(
    questionId: string,
    questionText: string,
    questionCategory: string,
    categoryOrder: int,
    questionOrder: int,
    targetAttribute: string,
    answerType: string)

  datatype QuestionWithAnswer = QuestionWithAnswer(
    question: OntologyQuestion,
    answer: Value,
    provenance: Option<Provenance>)

  datatype CategoryWithQuestions = CategoryWithQuestions(
    categoryName: string,
    categoryOrder: int,
    questions: seq<QuestionWithAnswer>)
}

# ValenceV3 core, modelled in Dafny

ValenceV3 is a service for analysing leveraged-finance credit agreements.
It extracts the restricted-payments (RP) and most-favoured-nation (MFN)
covenants of a deal with a language model. It validates the extraction
against the V4 Pydantic record and stores it in a TypeDB graph as baskets,
sources, blockers, sweep tiers and answers to ontology questions. It then
answers questions about deals by routing them to ontology categories and
reading back the stored primitives and provenance.

This project models the deterministic core of that service. One Dafny module
corresponds to each core source file:

- `GraphStorage`: TypeQL escaping and the V4 typed store.
  - The ID schemes and subtype maps of the `_store_*_v4` helpers.
  - The success and error accounting of `store_rp_extraction_v4`.
  - Scalar answers and attribute clauses built from field maps.
  - The prompt's instruction order and the extraction summary.
  - The parsing of the model's reply.
- `ExtractionSchema`: the V4 extraction record. Every Literal is a closed datatype. Defaults and required fields follow the declarations, and validation works from decoded JSON.
- `DealRepository` and `AnswerRepository`: `sanitize_for_typeql`, pattern flags, primitive and provenance writes, answer typing, batch saving and the answer probe order.
- `Extraction`: type hints, prompt field lines, filtering of the model's JSON array and the per-covenant field cache.
- `Routing`: the topic router. It covers tokenising, loading category metadata, scoring, the relative threshold, collecting question IDs and target fields, and the TTL cache.
- `OntologyRepository`, `QAEngine`, `Patterns`, `SegmentIntrospector` and `CategoryNames`: ontology questions and answers, the Q&A engine, pattern reports, and the segment and category-name caches.
- `InitSchema`, `Config`, `PdfParser`, `Ablation` and `Eval`: the schema loader's line scanners and counters, the derived settings, the page text, and the deterministic parts of the evaluation endpoints.

Shared modules:

- `Wrappers`: Option and Result.
- `Text`: Python `str` operations over `seq<char>`.
- `PyValues`: Python values with `isinstance` order.
- `JsonValues`: decoded JSON.
- `Collections`: deduplication and a stable sort.
- `Effects`: the committed subset of individually caught writes.
- `TypeQL`: attribute clauses and string-literal escapes.
- `Models`: plain records.

The database is a log of committed writes. Whether each write fails is set by a failure map from the write's ordinal to the error it raises. Query results, the clock, random ID suffixes, library parsers and the model's replies are all parameters, so every run of the source corresponds to some choice of them.

## Model

| member | source | states |
|---|---|---|
| GraphStorage.Escape | app/services/graph_storage.py:2353-2357 | empty text stays empty; the result is a safe literal body (no raw quote, newline or CR, every backslash starts an escape) |
| GraphStorage.EscapeIsCharwise | app/services/graph_storage.py:2353-2357 | escaping works character by character, so it distributes over concatenation |
| GraphStorage.EachHasNoLineBreak | app/services/graph_storage.py:2353-2357 | escaped text holds no newline and no carriage return |
| GraphStorage.EachRoundTrip | app/services/graph_storage.py:2353-2357 | unescaping escaped text gives back the input with its carriage returns removed |
| GraphStorage.SourceEntityType | app/services/graph_storage.py:797-808 | builder source type map: every listed type names its own entity type; `debt_conversion` and unknown values fall back to `builder_source` |
| GraphStorage.ExceptionEntityType | app/services/graph_storage.py:1358-1367 | blocker exception type map: `required_by_law` and unknown values fall back to `blocker_exception` |
| GraphStorage.SubtypeMapsTotal | app/services/graph_storage.py:797-808 | both subtype maps are total and send exactly the fallback value and unknown values to the supertype |
| GraphStorage.ChildIdsDistinct | app/services/graph_storage.py:794 | source, exception and pathway IDs built from a parent ID and an index differ for different indices |
| GraphStorage.StepWrites | app/services/graph_storage.py:1934-1946 | a component's plan issues at most one write per step |
| GraphStorage.RunSteps | app/services/graph_storage.py:1934-1946 | running a plan commits at most the writes it used and never uses more steps than the plan has |
| GraphStorage.MustPlanOutcome | app/services/graph_storage.py:1934-1946 | a plan of plain writes commits all of them, or stops at the first failing write with its error and exactly the earlier writes committed |
| GraphStorage.Add | app/services/graph_storage.py:483-495 | bumping one counter raises it by `n` and leaves every other counter as it was |
| GraphStorage.ApplyBumps | app/services/graph_storage.py:483-495 | applying bumps never lowers a counter |
| GraphStorage.ComponentFailureAccounting | app/services/graph_storage.py:504-509 | a component whose write fails adds exactly one error and leaves every counter unchanged |
| GraphStorage.RunAllSnoc | app/services/graph_storage.py:503-650 | each component runs on whatever state the components before it left, whatever happened to them |
| GraphStorage.RunAllAccounting | app/services/graph_storage.py:503-650 | over any run of components earlier errors are kept, at most one error is added per component, the provision ID is untouched and committed writes are never undone |
| GraphStorage.SourceSteps | app/services/graph_storage.py:790-856 | corrected store: one required write per builder source, with its mapped entity type, its indexed ID and the `builder_has_source` link |
| GraphStorage.ExceptionSteps | app/services/graph_storage.py:1354-1386 | one required write per blocker exception, with its mapped entity type, its indexed ID and the `blocker_has_exception` link |
| GraphStorage.IpLinkSteps | app/services/graph_storage.py:1340-1346 | one best-effort link per covered IP type, in order |
| GraphStorage.ReallocationSteps | app/services/graph_storage.py:1486-1536 | corrected store: a reallocation issues at most one write, and none when either basket name is unmapped |
| GraphStorage.ValidatedReallocationWrites | app/services/graph_storage.py:1489-1502 | corrected store: a validated reallocation names mapped baskets, so its relation is always written |
| GraphStorage.SweepTierComponents | app/services/graph_storage.py:612-618 | one "Sweep tier" component per tier, writing its sweep tier and counting one |
| GraphStorage.DeMinimisComponents | app/services/graph_storage.py:620-626 | one "De minimis" component per threshold, counting one |
| GraphStorage.ExemptionComponents | app/services/graph_storage.py:628-633 | one component per sweep exemption, linking it and counting nothing |
| GraphStorage.ReallocationComponents | app/services/graph_storage.py:635-641 | corrected store: one "Reallocation" component per reallocation, counting one |
| GraphStorage.PathwayComponents | app/services/graph_storage.py:643-649 | one "Investment pathway" component per pathway with its indexed ID, counting one |
| GraphStorage.GuardedBlock | app/services/graph_storage.py:503-610 | corrected store: the guarded block for a present item carries that item's error label |
| GraphStorage.FailedPrefixStops | app/services/graph_storage.py:1934-1946 | once a prefix of a plan fails, nothing after it runs |
| GraphStorage.TolerantTailKeepsSuccess | app/services/graph_storage.py:1340-1346 | best-effort steps after a successful plan never make it fail |
| GraphStorage.BuilderPartialFailure | app/services/graph_storage.py:503-509 | corrected store: when a builder basket write fails part-way, the basket and earlier sources stay committed and neither the basket nor its sources are counted |
| GraphStorage.JCrewPartialFailure | app/services/graph_storage.py:552-558 | corrected store: the same for the J.Crew blocker and its exceptions; its IP-type links never fail the component |
| GraphStorage.RelationsNeverCross | app/services/graph_storage.py:560-591 | corrected store: across everything the store writes, RP baskets attach only through `provision_has_basket` and RDP baskets only through `provision_has_rdp_basket` |
| GraphStorage.GuardedTitlesDistinct | app/services/graph_storage.py:503-598 | no two guarded blocks share an error label, and none uses a list section's label |
| GraphStorage.GuardedBlocksAttempted | app/services/graph_storage.py:503-598 | corrected store: each guarded block is attempted exactly once when its guard holds (present with `exists` set, or the unsub designation `permitted`) and never otherwise |
| GraphStorage.ListSectionsAttempted | app/services/graph_storage.py:612-649 | corrected store: every sweep tier, de minimis threshold, reallocation and investment pathway is attempted exactly once |
| GraphStorage.StoreAccounting | app/services/graph_storage.py:473-662 | corrected store: counters start at zero; `provision_id` is set exactly when the provision insert succeeds; a failing insert leaves only the top-level error; otherwise the provision write is first and each component adds at most one error |
| GraphStorage.StoreSpec | app/services/graph_storage.py:473-662 | corrected store: writes are only appended after the old log and the provision insert is always attempted; `provision_id` is set exactly when that insert succeeds |
| GraphStorage.NoFailureCommitsAll | app/services/graph_storage.py:503-509 | a component plan with no raising step, run with no failing write, commits every write of the plan in order |
| GraphStorage.CleanComponent | app/services/graph_storage.py:503-509 | a component that does not fail appends its writes to the log, keeps the errors, and adds its bumps to each counter |
| GraphStorage.AsWrittenSourcesRaise | app/services/graph_storage.py:826-827 | line 827 as written, in a builder block whose undeclared read at line 761 is corrected: a basket with sources commits only the basket insert, records one error and counts neither the basket nor its sources (as written, line 761 raises first and nothing of the block commits; see `GraphStorage.AsWrittenSafeBumps`) |
| GraphStorage.BuilderStoresSources | app/services/graph_storage.py:784-786 | corrected: with every write succeeding, the basket insert is followed by one write per source, in order, and the basket and all its sources are counted |
| GraphStorage.AsWrittenBlockerNeverStored | app/services/graph_storage.py:1311-1312 | as written, the J.Crew blocker component raises before its first write: the log, the write ordinal and every counter stay as they were, and one error is recorded |
| GraphStorage.JCrewStoresBlocker | app/services/graph_storage.py:1302-1352 | corrected: with every write succeeding, the blocker insert comes first, then one write per exception and per covered IP type; the blocker and its exceptions are counted |
| GraphStorage.AsWrittenReallocationRaises | app/services/graph_storage.py:1509-1510 | as written, a reallocation between two mapped baskets raises before its write: nothing is written or counted, and one error is recorded |
| GraphStorage.ReallocationStored | app/services/graph_storage.py:1486-1532 | corrected: with every write succeeding, a reallocation between mapped baskets writes its relation between the two basket IDs and is counted |
| GraphStorage.Graph.Execute | app/services/graph_storage.py:1934-1946 | one write either commits and is appended to the log, or fails with the injected error and leaves the log alone |
| GraphStorage.Graph.RunPlan | app/services/graph_storage.py:1934-1946 | running a component's steps has exactly the effect `RunSteps` describes |
| GraphStorage.Graph.StoreRpExtraction | app/services/graph_storage.py:473-662 | corrected store: the results and the new log are those of the store specification, whose accounting `StoreAccounting` states |
| GraphStorage.Graph.RunComponents | app/services/graph_storage.py:503-650 | running components in order has exactly the effect `RunAll` describes |
| GraphStorage.Graph.StoreScalarAnswer | app/services/graph_storage.py:681-746 | one insert of a fresh answer relation; success returns the generated answer ID and logs the write, failure propagates and logs nothing |
| GraphStorage.AsWrittenSafeBumps | app/services/graph_storage.py:503-538 | as written, the builder, ratio, management and tax blocks raise before their first write (they read `default_condition`, `test_date_type`, `eligible_person_scope` and `hypothetical_tax_rate` at lines 761, 872, 946 and 973, which their records do not declare), so at most one basket is ever counted |
| GraphStorage.AsWrittenSkipsLaterBlocks | app/services/graph_storage.py:545 | as written, whenever the provision insert succeeds the last error is the top-level one and the J.Crew blocker, sweep tiers and later sections are never reached |
| GraphStorage.StoreAsWritten | app/services/graph_storage.py:473-545 | as written, the store always ends with an error, and when the provision insert succeeds the last error is the AttributeError of the holdco read |
| GraphStorage.CorrectedStoreCountsBlocker | app/services/graph_storage.py:552-558 | the corrected store, with every write succeeding, counts a present J.Crew blocker |
| GraphStorage.NoFailuresNoErrors | app/services/graph_storage.py:473-662 | with no failing write and no raising step, no component records an error |
| GraphStorage.ComponentsNoRaise | app/services/graph_storage.py:503-649 | in the corrected store no component raises before its first write |
| GraphStorage.AnswerValueAttr | app/services/graph_storage.py:714-723 | the typed clause is chosen bool before int, then float, then str, else `str()`; exactly one of the four names, with the value carried over |
| GraphStorage.ScalarAnswerCounts | app/services/graph_storage.py:712-732 | an answer carries one ID clause, one typed value clause and at most one of each optional clause |
| GraphStorage.ScalarAnswerShape | app/services/graph_storage.py:712-732 | the ID comes first; the source text is cut to 2000 characters before escaping; empty optional values add no clause |
| GraphStorage.BuildAttrsFromData | app/services/graph_storage.py:1682-1701 | fails exactly when a present value cannot be converted; otherwise one clause per present field of a known type, in field order, each literal bounded |
| GraphStorage.RoundHalfEven | app/services/graph_storage.py:1772 | the result is within one half of the value |
| GraphStorage.RdpCount | app/services/graph_storage.py:1791-1800 | at most five, and zero exactly when no RDP basket is present |
| GraphStorage.UnsubPart | app/services/graph_storage.py:1771-1774 | an unsub part appears exactly when the designation is permitted |
| GraphStorage.SummaryParts | app/services/graph_storage.py:1756-1801 | every summary part is non-empty, in the order the source appends them |
| GraphStorage.SummaryEmptyIff | app/services/graph_storage.py:1802 | the summary is "empty" exactly when nothing it reports on is present |
| GraphStorage.Summarize | app/services/graph_storage.py:1756-1802 | the corrected summary is never blank |
| GraphStorage.SummarizeAsWritten | app/services/graph_storage.py:1779 | as written, the summary is a failure with a non-empty error for every extraction |
| GraphStorage.Before | app/services/graph_storage.py:433 | `split(sep)[0]` is a prefix of the text, and all of it when the separator is absent |
| GraphStorage.After | app/services/graph_storage.py:433 | the text after the first separator is a suffix of the input |
| GraphStorage.ParseClaudeResponse | app/services/graph_storage.py:416-467 | no braces gives the "No JSON object found" failure; a success is the validated decoding of the outermost braced slice |
| GraphStorage.DecodeAndValidate | app/services/graph_storage.py:455-466 | a success is the validated decoding of the text |
| GraphStorage.FenceTransparent | app/services/graph_storage.py:432-434 | a reply that wraps an object in a ```json fence after backtick-free prose parses exactly as the object alone |
| GraphStorage.BareObjectDecodedWhole | app/services/graph_storage.py:446-451 | a bare braced object is handed to the decoder whole |
| GraphStorage.InstructionsSnoc | app/services/graph_storage.py:394-401 | appending a row appends its block to the instruction text |
| GraphStorage.PromptOrderShape | app/services/graph_storage.py:394 | the prompt order holds the same rows by non-decreasing priority, a missing one counting 99, and rows of equal priority keep their load order |
| GraphStorage.BuildInstructions | app/services/graph_storage.py:393-401 | the instruction text is the block of every row, heading, prompt and optional section hint, in prompt order |
| DealRepository.Sanitize | app/repositories/deal_repository.py:23-27 | None gives the empty text; the result holds no raw newline, is a closed literal body, and reads back as the input |
| DealRepository.SanitizeIsCharwise | app/repositories/deal_repository.py:27 | the three replacements act character by character, backslash first |
| DealRepository.SanitizeEachRoundTrip | app/repositories/deal_repository.py:27 | the escaped text has no raw newline and reads back as the input, carriage returns included |
| DealRepository.SanitizeEachQuoted | app/repositories/deal_repository.py:27 | the escaped text never closes its string literal early |
| DealRepository.EscapeIsSanitizeWithoutCR | app/services/graph_storage.py:2353-2357 | the graph store's escape is this one followed by deleting carriage returns |
| DealRepository.Compare | app/repositories/deal_repository.py:203-207 | comparing a present value with an int succeeds exactly when the value is a number |
| DealRepository.DetectMfnPatterns | app/repositories/deal_repository.py:195-207 | fails exactly when a present non-numeric sunset or threshold is compared; otherwise the yield-exclusion flag is "OID and floor both explicitly False" and the weak-MFN flag is "sunset under 12 or threshold over 50" |
| DealRepository.DetectPatterns | app/repositories/deal_repository.py:183-221 | the three flags start False and are set from non-empty maps as their specifications say; J.Crew needs unsub and IP transfer True and one of the three weaknesses explicitly False |
| DealRepository.PrimitiveClausesShape | app/repositories/deal_repository.py:259-272 | at most one clause per primitive, none exactly when no value has a supported type, each clause named after its primitive, and every boolean written |
| DealRepository.AttrClauses | app/repositories/deal_repository.py:259-272 | the loop builds exactly the clause list `PrimitiveClauses` specifies |
| DealRepository.ProvenanceOnlyWithText | app/repositories/deal_repository.py:398-429 | every provenance write comes from a primitive with source text |
| DealRepository.ProvenanceForEveryText | app/repositories/deal_repository.py:398-429 | every primitive with source text gets its provenance write |
| DealRepository.AnswerWrites | app/repositories/deal_repository.py:373-389 | one applicability write per included concept of an answer |
| DealRepository.ApplicabilityOnlyIncluded | app/repositories/deal_repository.py:371-396 | every attempted applicability write is for an included concept with status INCLUDED, and one write is attempted per included concept |
| DealRepository.DealStore.ExecuteEach | app/repositories/deal_repository.py:425-429 | each write is attempted in turn; failures are logged and the loop goes on |
| DealRepository.DealStore.StoreProvenance | app/repositories/deal_repository.py:398-429 | one independent write per primitive with source text; the log gains exactly the ones that commit |
| DealRepository.DealStore.StorePrimitives | app/repositories/deal_repository.py:250-303 | no supported clause gives True without writing; otherwise one provision insert under the fixed key, False if it fails, else True after the provenance writes |
| DealRepository.DealStore.StoreConceptApplicabilities | app/repositories/deal_repository.py:360-396 | always True; one independent write per included concept under the provision key of the given type |
| AnswerRepository.AnswerId | app/repositories/answer_repository.py:51 | the answer ID starts with the provision ID and ends with the question ID |
| AnswerRepository.AnswerIdInjective | app/repositories/answer_repository.py:51 | within one provision, distinct questions get distinct answer IDs |
| AnswerRepository.BooleanAnswer | app/repositories/answer_repository.py:54-57 | text is read as a yes/no word ("true", "yes", "1" after lowering), anything else by truthiness |
| AnswerRepository.BooleanAnswerReadsWords | app/repositories/answer_repository.py:54-57 | a non-empty text such as "No" is a false answer, unlike its truthiness |
| AnswerRepository.AnswerEscape | app/repositories/answer_repository.py:62-64 | the corrected string escape: a closed literal body without raw newlines that reads back as the text with newlines turned into spaces |
| AnswerRepository.AnswerAttr | app/repositories/answer_repository.py:53-64 | corrected literals: the clause for each declared answer type; integer and double types fail exactly when `int()` or `float()` would raise |
| AnswerRepository.AsWrittenSourceText | app/repositories/answer_repository.py:67 | as written, the source text is escaped and then cut to 500 characters |
| AnswerRepository.AsWrittenTrailingBackslash | app/repositories/answer_repository.py:62-64 | as written, a value ending in a backslash escapes the closing quote of its literal |
| AnswerRepository.AsWrittenSourceTextCutsEscape | app/repositories/answer_repository.py:67 | as written, a 499-character plain text followed by a quote is cut inside `\"`, leaving a dangling backslash |
| AnswerRepository.SourceTextLiteral | app/repositories/answer_repository.py:67 | the corrected source text: cut to 500 characters and then escaped, so the literal reads back as that prefix |
| AnswerRepository.SectionLiteral | app/repositories/answer_repository.py:68 | corrected literals: the corrected section literal reads back unchanged |
| AnswerRepository.AsWrittenSectionTrailingBackslash | app/repositories/answer_repository.py:68 | as written, a section ending in a backslash gives a literal whose closing quote is escaped |
| AnswerRepository.PlanAnswer | app/repositories/answer_repository.py:51-82 | corrected literals: fails exactly when conversion fails or the source text or section is not a string, with Python's AttributeError text naming the value's type; otherwise the answer write carries the answer ID, the typed clause and literals that read back as the inputs |
| AnswerRepository.InferType | app/repositories/answer_repository.py:119-129 | bool, int and float values get "boolean", "integer" and "double", checked in that order, and anything else "string" |
| AnswerRepository.InferredAnswerKeepsValue | app/repositories/answer_repository.py:119-129 | an inferred type never fails to convert, and the stored literal is the value itself |
| AnswerRepository.EntryWrite | app/repositories/answer_repository.py:116-142 | an entry without a question ID writes nothing; a written entry uses that question's answer ID |
| AnswerRepository.Attempted | app/repositories/answer_repository.py:115-147 | at most one write per entry |
| AnswerRepository.BatchWrites | app/repositories/answer_repository.py:115-147 | a batch attempts at most one write per entry, in entry order |
| AnswerRepository.BatchWritesFromEntries | app/repositories/answer_repository.py:115-147 | every attempted write belongs to an entry with a question ID, under that entry's answer ID |
| AnswerRepository.BareEntryWritten | app/repositories/answer_repository.py:116-142 | an entry with only a question ID and a value is always written |
| AnswerRepository.BareBatchAttemptsAll | app/repositories/answer_repository.py:115-147 | a batch of such entries attempts one write per entry |
| AnswerRepository.FirstHit | app/repositories/answer_repository.py:246-265 | None exactly when no probe hits; otherwise the first row of the first probe that hits |
| AnswerRepository.BooleanProbeFirst | app/repositories/answer_repository.py:246-251 | a boolean hit wins over every other probe |
| AnswerRepository.GetAnswerValue | app/repositories/answer_repository.py:243-265 | the probe loop returns the first hit, or None |
| AnswerRepository.NoQueryReadNoValue | app/repositories/answer_repository.py:243-265 | when every probe read raises, the answer value is None |
| AnswerRepository.AnswerStore.SaveAnswer | app/repositories/answer_repository.py:24-91 | corrected literals: an exception before the write escapes and writes nothing; otherwise the answer ID when the write commits and None when it fails |
| AnswerRepository.AnswerStore.SaveEach | app/repositories/answer_repository.py:115-147 | counts exactly the writes that commit; a failure is logged and the loop goes on |
| AnswerRepository.AnswerStore.SaveAnswersBatch | app/repositories/answer_repository.py:93-147 | corrected literals: the log gains exactly the committed batch writes, and the count is their number, never more than the entries |
| AnswerRepository.NoQueryWriteSavesNothing | app/repositories/answer_repository.py:85-91 | when every write raises, none of a batch is committed |
| Extraction.TypeHint | app/services/extraction.py:250-262 | the eight listed answer types map to their hints; anything unknown is hinted as a string; a hint is one of five words |
| Extraction.CovenantDescription | app/services/extraction.py:198-201 | MFN and RP get their long descriptions; any other covenant type describes itself |
| Extraction.FieldLines | app/services/extraction.py:204-207 | one prompt line per field, in field order |
| Extraction.FieldsSectionLines | app/services/extraction.py:204-209 | when no field name or question holds a newline, the fields section splits back into exactly one line per field |
| Extraction.ValidFields | app/services/extraction.py:273 | the accepted names are exactly the loaded fields' target names |
| Extraction.BuildPrimitive | app/services/extraction.py:298-305 | the primitive keeps the item's name and value; a falsy source text or page becomes "" or 0; a missing confidence becomes "medium" |
| Extraction.ItemOutcome | app/services/extraction.py:289-305 | an item is kept only when it is an object whose name is an accepted field; an object with a falsy name is skipped |
| Extraction.ParseItemsNoneIff | app/services/extraction.py:288-315 | the whole result is discarded exactly when some item raises |
| Extraction.ParseItemsAppend | app/services/extraction.py:288-305 | items are handled independently and in order: after a prefix that does not raise, the rest parses as it would alone |
| Extraction.ParseItemsPrefixNone | app/services/extraction.py:288-315 | once a prefix raises, the whole array does |
| Extraction.ExtractionResponse | app/services/extraction.py:264-315 | no `[` or no `]` gives []; every kept primitive's name is an accepted field |
| Extraction.ExtractionNamesAreFields | app/services/extraction.py:289-296 | each kept primitive comes from an item whose name is a loaded field's target name |
| Extraction.ParseExtractionResponse | app/services/extraction.py:264-315 | the loop returns exactly what `ExtractionResponse` specifies |
| Extraction.ExtractionService.LoadOntologyFields | app/services/extraction.py:60-116 | a cached list is returned as is; without a driver or on a failed query the result is [] and nothing is cached; a successful load is returned and cached |
| Extraction.ExtractionService.ExtractCovenant | app/services/extraction.py:160-189 | no fields or a failed call gives []; otherwise the reply is parsed against the fields; the field cache gains the covenant's fields exactly when they were not cached and the load succeeds, and is otherwise unchanged |
| ExtractionSchema.ConfidenceName | app/schemas/extraction_output_v4.py:21 | every confidence level's name parses back to it |
| ExtractionSchema.ParseConfidence | app/schemas/extraction_output_v4.py:21 | accepts exactly "high", "medium" and "low" |
| ExtractionSchema.SourceTypeName | app/schemas/extraction_output_v4.py:33-43 | every builder source type's name parses back to it |
| ExtractionSchema.ParseSourceType | app/schemas/extraction_output_v4.py:33-43 | accepts exactly the nine listed source types |
| ExtractionSchema.RatioTypeName | app/schemas/extraction_output_v4.py:90-92 | every ratio type's name parses back to it |
| ExtractionSchema.ParseRatioType | app/schemas/extraction_output_v4.py:90-92 | accepts exactly the five listed ratio types |
| ExtractionSchema.ExceptionTypeName | app/schemas/extraction_output_v4.py:186-194 | every blocker exception type's name parses back to it |
| ExtractionSchema.ParseExceptionType | app/schemas/extraction_output_v4.py:186-194 | accepts exactly the seven listed exception types |
| ExtractionSchema.IpTypeName | app/schemas/extraction_output_v4.py:216-219 | every IP type's name parses back to it |
| ExtractionSchema.ParseIpType | app/schemas/extraction_output_v4.py:216-219 | accepts exactly the six listed IP types |
| ExtractionSchema.BoundPartyName | app/schemas/extraction_output_v4.py:220-223 | every bound party's name parses back to it |
| ExtractionSchema.ParseBoundParty | app/schemas/extraction_output_v4.py:220-223 | accepts exactly the five listed parties |
| ExtractionSchema.AppliesToName | app/schemas/extraction_output_v4.py:287 | every sweep scope's name parses back to it |
| ExtractionSchema.ParseAppliesTo | app/schemas/extraction_output_v4.py:287 | accepts exactly the four listed scopes |
| ExtractionSchema.ThresholdTypeName | app/schemas/extraction_output_v4.py:300 | every threshold type's name parses back to it |
| ExtractionSchema.ParseThresholdType | app/schemas/extraction_output_v4.py:300 | accepts exactly "individual" and "annual" |
| ExtractionSchema.ReallocSourceName | app/schemas/extraction_output_v4.py:323-326 | every reallocation source's name parses back to it |
| ExtractionSchema.ParseReallocSource | app/schemas/extraction_output_v4.py:323-326 | accepts exactly the six listed source baskets |
| ExtractionSchema.ReallocTargetName | app/schemas/extraction_output_v4.py:327-329 | every reallocation target's name parses back to it |
| ExtractionSchema.ParseReallocTarget | app/schemas/extraction_output_v4.py:327-329 | accepts exactly the four listed target baskets |
| ExtractionSchema.EnumerationSizes | app/schemas/extraction_output_v4.py:33-43 | the closed enumerations have 3, 9, 5, 7, 6, 5, 4, 2, 6 and 4 values, and each lists its values pairwise distinct |
| ExtractionSchema.SourceOnlyBaskets | app/schemas/extraction_output_v4.py:323-329 | "prepayment" and "intercompany" can only be a reallocation source, and every target is also a valid source |
| ExtractionSchema.OptFloat | app/schemas/extraction_output_v4.py:46-50 | an absent optional float is None |
| ExtractionSchema.ReqFloat | app/schemas/extraction_output_v4.py:278 | an absent required float is rejected |
| ExtractionSchema.Flag | app/schemas/extraction_output_v4.py:49-50 | an absent flag is False |
| ExtractionSchema.OptStr | app/schemas/extraction_output_v4.py:18 | an absent optional string is None |
| ExtractionSchema.OptInt | app/schemas/extraction_output_v4.py:20 | an absent optional int is None |
| ExtractionSchema.StrOr | app/schemas/extraction_output_v4.py:386 | an absent string field takes its default |
| ExtractionSchema.Literal | app/schemas/extraction_output_v4.py:90-92 | a present literal field is accepted exactly when it is a listed string; an absent one takes its default, or is rejected when it has none |
| ExtractionSchema.EachOf | app/schemas/extraction_output_v4.py:216-226 | a list validates exactly when each element does, keeping length and order |
| ExtractionSchema.ListOf | app/schemas/extraction_output_v4.py:216-226 | an absent list is []; a present one keeps its elements' validated values in order |
| ExtractionSchema.OptModel | app/schemas/extraction_output_v4.py:51 | an absent nested model is None; a present non-null one is accepted exactly when it validates |
| ExtractionSchema.ValidateSweepTier | app/schemas/extraction_output_v4.py:273-289 | a tier missing either threshold is rejected |
| ExtractionSchema.ValidateDeMinimisThreshold | app/schemas/extraction_output_v4.py:295-312 | a threshold missing its type or dollar amount is rejected |
| ExtractionSchema.ValidateBasketReallocation | app/schemas/extraction_output_v4.py:318-341 | a reallocation missing either basket is rejected |
| ExtractionSchema.EmptyExtractionValidates | app/schemas/extraction_output_v4.py:347-387 | an empty object validates to the all-defaults record, version "4.0" and confidence "medium" |
| ExtractionSchema.ValidateExtraction | app/schemas/extraction_output_v4.py:347-387 | only a JSON object validates; a missing version defaults to "4.0" and missing reallocations to none |
| ExtractionSchema.ComponentDefaults | app/schemas/extraction_output_v4.py:80-110 | the defaults of the ratio basket, unsub designation, provenance and builder basket |
| ExtractionSchema.SweepTierDefaults | app/schemas/extraction_output_v4.py:273-289 | a sweep tier needs only its two thresholds and defaults to asset sales |
| ExtractionSchema.BuilderSourceTypeAccepted | app/schemas/extraction_output_v4.py:28-51 | a builder source validates exactly when its type is one of the listed values, and keeps that type |
| ExtractionSchema.ExceptionTypeAccepted | app/schemas/extraction_output_v4.py:181-199 | a blocker exception validates exactly when its type is one of the listed values |
| ExtractionSchema.RequiredTypes | app/schemas/extraction_output_v4.py:33 | a builder source or blocker exception without its type is rejected |
| ExtractionSchema.SourcesKeepOrder | app/schemas/extraction_output_v4.py:54-78 | a validated builder basket keeps its sources' validated values in the supplied order |
| Routing.RunLength | app/services/topic_router.py:67 | the longest prefix of word characters: all of it is `[a-z0-9]` and the character after it is not |
| Routing.FindWords | app/services/topic_router.py:67 | every match of `[a-z][a-z0-9]+` is a word: a letter followed by at least one letter or digit |
| Routing.FindWordsOccur | app/services/topic_router.py:67 | every match occurs in the searched text |
| Routing.FindWordsOfWord | app/services/topic_router.py:67 | a text that is one word is matched whole |
| Routing.Keywords | app/services/topic_router.py:68 | the kept words are exactly the matches of at least three characters that are not stopwords |
| Routing.TokensAreKeywords | app/services/topic_router.py:65-68 | every token is a word of at least three characters that is not a stopword |
| Routing.Tokenize | app/services/topic_router.py:65-68 | a text shorter than three characters has no tokens |
| Routing.TokensOccur | app/services/topic_router.py:65-68 | every token occurs in the lower-cased text |
| Routing.TokenizeWord | app/services/topic_router.py:65-68 | a single keyword-shaped word tokenizes to itself and nothing else |
| Routing.ScorePositiveIff | app/services/topic_router.py:242-263 | a category scores exactly when its lower-cased name or one of its keywords occurs in the lower-cased question |
| Routing.Score | app/services/topic_router.py:242-263 | a name mention alone scores at least 10, and no category scores more than 3 per keyword plus 10 |
| Routing.EmptyNameScores | app/services/topic_router.py:251-253 | an empty category name occurs in every question, so it always earns the ten-point phrase bonus |
| Routing.SharedTokenScoresThree | app/services/topic_router.py:246-262 | a question token that is a category keyword earns at least three points |
| Routing.Scored | app/services/topic_router.py:241-263 | the scored list holds each category with a positive score, with that score, and nothing else |
| Routing.ScoreCategories | app/services/topic_router.py:241-263 | the scoring loop builds exactly the scored list |
| Routing.InsertDesc | app/services/topic_router.py:266 | inserting into a non-increasing list keeps it non-increasing and adds exactly the new entry |
| Routing.SortDesc | app/services/topic_router.py:266 | the sort is non-increasing by score and a permutation of its input |
| Routing.InsertDescWithScore | app/services/topic_router.py:266 | inserting into a non-increasing list adds the new entry after every entry of equal score |
| Routing.SortDescStable | app/services/topic_router.py:266 | the sort is stable: the entries of any one score come out in the order they went in |
| Routing.ThresholdIff | app/services/topic_router.py:273-274 | for a positive score, reaching `max(1, top * 0.25)` means four times the score reaches the top score |
| Routing.AtLeast | app/services/topic_router.py:274 | the filter keeps only entries reaching the threshold, all taken from its input |
| Routing.AtLeastKeeps | app/services/topic_router.py:274 | no entry reaching the threshold is dropped |
| Routing.MatchedScored | app/services/topic_router.py:266-277 | the matched entries are in non-increasing score order |
| Routing.SortedSameMembers | app/services/topic_router.py:266 | sorting keeps exactly the entries it was given |
| Routing.SortedHeadIsMax | app/services/topic_router.py:272 | the first sorted entry carries the maximum score |
| Routing.MatchedMembers | app/services/topic_router.py:269-277 | exactly the scored entries with four times their score at least the top score are matched |
| Routing.MatchedEmptyIff | app/services/topic_router.py:269-277 | nothing is matched exactly when nothing scored |
| Routing.ResolveCovenantType | app/services/topic_router.py:326-336 | "rp" exactly when there are matches and all are RP, "mfn" exactly when all are MFN, otherwise "both" |
| Routing.AddUnseen | app/services/topic_router.py:295-303 | the unseen items are appended in order, so the list stays the duplicate-free first-occurrence order and `seen` mirrors it |
| Routing.AllQuestionIds | app/services/topic_router.py:295-298 | the question IDs of the matched categories, concatenated in order |
| Routing.Aggregate | app/services/topic_router.py:290-303 | the aggregation loop yields each question ID and target field once, in first-occurrence order |
| Routing.RouteResultOf | app/services/topic_router.py:279-313 | the result keeps the matches; `is_specific` holds exactly for one to three matches; no match gives "both"; the ID and field lists are duplicate-free and hold exactly the matches' IDs and fields |
| Routing.MatchedFromScored | app/services/topic_router.py:266-274 | every matched entry was a scored entry |
| Routing.RouteMatches | app/services/topic_router.py:241-277 | a category is matched iff it scores and four times its score reaches the best score; matches are in non-increasing order and nothing is matched iff no category scores |
| Routing.CategoryIds | app/services/topic_router.py:132-136 | the IDs of the category rows that carry one, in row order |
| Routing.LastCategoryRow | app/services/topic_router.py:142-148 | the row that wins for an ID carries that ID (a later row replaces an earlier one) |
| Routing.NewCategory | app/services/topic_router.py:137-148 | a new category is RP by default, has no questions or targets yet, and its keywords are the tokens of its name and description |
| Routing.QuestionIdsFor | app/services/topic_router.py:160-166 | the question IDs of the rows for a category, in row order |
| Routing.CovenantTypesFor | app/services/topic_router.py:162-167 | the covenant types of a category's questions, a row without one counting as RP |
| Routing.CovenantTypesExistIff | app/services/topic_router.py:160-170 | a category has covenant types exactly when it has questions |
| Routing.CovenantOf | app/services/topic_router.py:170-178 | MFN exactly when all the category's questions are MFN; otherwise RP |
| Routing.TargetsFor | app/services/topic_router.py:190-196 | the targets of the rows for a category, in row order |
| Routing.TargetKeywordsAreKeywords | app/services/topic_router.py:196 | every keyword a target contributes is a keyword-shaped word |
| Routing.WithTargetsAdds | app/services/topic_router.py:190-214 | adding targets one by one appends them all in order and adds all their tokens to the keywords, changing nothing else |
| Routing.EntryFields | app/services/topic_router.py:116-224 | a loaded category field by field: name and description from its last row, question IDs, fields and concept types in row order, and the covenant type its questions imply |
| Routing.EntryIds | app/services/topic_router.py:142 | every loaded category is stored under its own ID |
| Routing.LoadedWellFormed | app/services/topic_router.py:116-224 | the loaded catalogue is well formed: its order lists exactly its keys, once each, and every entry sits under its own id |
| Routing.LoadCategories | app/services/topic_router.py:132-148 | one category per row with an ID, a later row replacing an earlier one in place, in first-row order |
| Routing.CollectQuestions | app/services/topic_router.py:159-166 | each question row for a known category adds its ID and records its covenant type; rows for unknown categories are ignored |
| Routing.CollectQuestionId | app/services/topic_router.py:163-165 | one question row appends its ID to a known category |
| Routing.CollectQuestionType | app/services/topic_router.py:166 | one question row adds its covenant type to its category's set |
| Routing.ApplyCovenantTypes | app/services/topic_router.py:169-178 | every category with question types takes the covenant type they imply; the others are unchanged |
| Routing.AttachQuestions | app/services/topic_router.py:150-178 | the second query's loops give each category its questions and covenant type |
| Routing.TargetLoop | app/services/topic_router.py:190-214 | the target loop never adds or removes a category |
| Routing.TargetLoopAttaches | app/services/topic_router.py:190-214 | row by row, each category ends with all its targets in row order |
| Routing.AttachTargets | app/services/topic_router.py:190-214 | each target row for a known category adds the target and its tokens |
| Routing.LoadedFrom | app/services/topic_router.py:116-224 | a catalogue holding exactly the loaded entries in first-row order is the loaded one |
| Routing.LoadCategoryMetadata | app/services/topic_router.py:116-224 | the four loops build exactly the loaded catalogue |
| Routing.TopicRouter.GetCachedMetadata | app/services/topic_router.py:90-107 | a fresh cache is returned as is; an expired one is reloaded and stamped with the time; when the reload fails a stale cache is returned and an empty one raises |
| Routing.TopicRouter.InvalidateCache | app/services/topic_router.py:109-114 | the cache is dropped and its time reset, so the next access reloads |
| Routing.TopicRouter.Route | app/services/topic_router.py:228-324 | a success routes the question over the cached catalogue in insertion order; failure happens exactly when the cache is expired, the reload fails and there is no stale cache; an expired cache with a successful reload holds the reloaded catalogue stamped `now`, and in every other case the cache and its time are unchanged |
| OntologyRepository.GetAllQuestions | app/repositories/ontology_repository.py:25-76 | a failing query gives []; otherwise the fetched questions sorted by (category order, question order), a permutation of the rows |
| OntologyRepository.CategoriesOf | app/repositories/ontology_repository.py:84 | the category of every question, in order |
| OntologyRepository.InCategory | app/repositories/ontology_repository.py:83-84 | a category's bucket never holds more questions than there are |
| OntologyRepository.InCategoryMembers | app/repositories/ontology_repository.py:83-84 | a bucket holds exactly the questions of its category, and is empty exactly when no question has it |
| OntologyRepository.GetQuestionsByCategory | app/repositories/ontology_repository.py:78-86 | one bucket per category in order of first appearance, each holding that category's questions in sorted order |
| OntologyRepository.AddToBucket | app/repositories/ontology_repository.py:83-84 | one step of the grouping loop keeps the buckets equal to the grouping of the questions seen so far |
| OntologyRepository.BucketsPartition | app/repositories/ontology_repository.py:78-86 | every question lands in exactly one bucket: the bucket sizes add up to the number of questions |
| OntologyRepository.CategoryCountsSum | app/repositories/ontology_repository.py:88-103 | the category counts add up to the number of questions |
| OntologyRepository.CategorySummariesMembers | app/repositories/ontology_repository.py:88-103 | one entry per category with its name, first order and question count, sorted by order |
| OntologyRepository.GetCategories | app/repositories/ontology_repository.py:88-103 | the counting loop and sort give exactly the category summaries |
| OntologyRepository.CountQuestion | app/repositories/ontology_repository.py:93-100 | one step of the counting loop keeps the entries equal to the summaries of the questions seen so far |
| OntologyRepository.GetDealPrimitives | app/repositories/ontology_repository.py:159-205 | the MFN attributes and then the RP attributes go into one dict; a failing query gives {} |
| OntologyRepository.RpShadowsMfn | app/repositories/ontology_repository.py:191-198 | an RP attribute always shadows an MFN attribute of the same name |
| OntologyRepository.GetDealProvenance | app/repositories/ontology_repository.py:207-245 | one entry per attribute name, the last row winning, each under its own name with confidence "high"; a failing query gives {} |
| OntologyRepository.AnsweredAll | app/repositories/ontology_repository.py:136-150 | every question paired with the deal's value and provenance for its target attribute |
| OntologyRepository.WithAnswersSound | app/repositories/ontology_repository.py:105-157 | the view is sorted by category order, and every question shown sits under its own category with the deal's value for its target |
| OntologyRepository.WithAnswersComplete | app/repositories/ontology_repository.py:105-157 | every question appears, answered, under its own category |
| OntologyRepository.GetQuestionsWithAnswers | app/repositories/ontology_repository.py:105-157 | the view built from the questions, primitives and provenance, each empty when its load fails |
| OntologyRepository.GroupAnswered | app/repositories/ontology_repository.py:120-157 | the grouping loop and sort give exactly the specified view |
| OntologyRepository.CollectAnswered | app/repositories/ontology_repository.py:120-150 | one entry per category in order of first appearance, each with its questions answered |
| OntologyRepository.EntriesInOrder | app/repositories/ontology_repository.py:153-155 | the dict's values, read in key order, are the category entries in order of first appearance |
| OntologyRepository.AnswerQuestion | app/repositories/ontology_repository.py:121-150 | one step of the browser loop keeps the entries equal to those of the questions seen so far |
| OntologyRepository.GetAttributeMapping | app/repositories/ontology_repository.py:247-254 | every target attribute maps to a question text, the last question with that attribute winning; a failing load gives {} |
| OntologyRepository.AttributeMappingKeys | app/repositories/ontology_repository.py:253-254 | the mapping's keys are exactly the questions' target attributes |
| QAEngine.GroupsListMembers | app/services/qa_engine.py:144-221 | an attribute is listed exactly when a keyword group that hits names it; with non-empty groups the list is empty exactly when no group hits |
| QAEngine.IdentifyRelevantAttributes | app/services/qa_engine.py:138-232 | the nine keyword tests and the pattern fallback give exactly the relevant set |
| QAEngine.RelevantMembers | app/services/qa_engine.py:138-232 | an attribute is relevant exactly when a hitting group names it, or when no group hits, it is a pattern flag and the question mentions "pattern" or "risk"; nothing is relevant exactly when neither happens |
| QAEngine.RelevantAttributes | app/services/qa_engine.py:138-232 | a question that mentions patterns or risk always has a relevant attribute; every relevant attribute comes from a hitting keyword group or the pattern flags |
| QAEngine.WeakMfnOnlyByFallback | app/services/qa_engine.py:223-230 | the weak-MFN flag is relevant only through the fallback |
| QAEngine.SelectPrimitives | app/services/qa_engine.py:234-257 | at most one primitive per requested attribute |
| QAEngine.SelectPrimitivesExact | app/services/qa_engine.py:234-257 | every selected primitive is a requested attribute the deal has, with its value and provenance, and every requested attribute the deal has is selected |
| QAEngine.GetPrimitivesForAttributes | app/services/qa_engine.py:234-257 | the loop selects exactly the requested attributes the deal has, from its primitives and provenance |
| QAEngine.FirstFor | app/services/qa_engine.py:285-288 | the first primitive for a name: every earlier primitive has another name; None exactly when there is none |
| QAEngine.RemoveAll | app/services/qa_engine.py:323 | removing every occurrence never lengthens the text |
| QAEngine.RemoveAllAbsent | app/services/qa_engine.py:323 | a pattern whose first character is absent removes nothing |
| QAEngine.SingleFactAnswer | app/services/qa_engine.py:322-323 | a single fact, for a question about neither J.Crew nor a stated sunset, is its line without the bullet; a boolean reads Yes or No |
| QAEngine.JCrewVerdict | app/services/qa_engine.py:284-301 | a J.Crew question opens with "Yes" when the J.Crew flag is truthy, "No" when it is present and falsy, and the "what I found" line when it is absent |
| QAEngine.Engine.AttributeMap | app/services/qa_engine.py:48-53 | the mapping is loaded on first use and kept |
| QAEngine.MappingAfter | app/services/qa_engine.py:48-53 | a cached mapping is used as it is; otherwise its keys are exactly the target attributes of the loaded questions, and a failed load gives an empty mapping |
| QAEngine.Engine.BuildAnswer | app/services/qa_engine.py:259-326 | the composed answer over the fact lines; the mapping is read only when there is a fact |
| QAEngine.Engine.AnswerQuestion | app/services/qa_engine.py:55-96 | no relevant attribute gives the canned low-confidence answer; no data gives the no-data answer; otherwise the composed answer with the selected primitives and confidence "high"; the attribute mapping is loaded only in that last case and is otherwise unchanged |
| QAEngine.GetProvisionType | app/services/qa_engine.py:463-480 | "mfn_provision" exactly for the listed MFN attributes, "rp_provision" for everything else |
| QAEngine.MfnGroupsOnMfnProvision | app/services/qa_engine.py:463-480 | the sunset, threshold, yield and MFN groups name MFN-provision attributes only |
| QAEngine.RpGroupsOnRpProvision | app/services/qa_engine.py:463-480 | the J.Crew, builder, unrestricted-subsidiary, dividend and ratio groups name RP-provision attributes only |
| QAEngine.ParsedQueryProvision | app/services/qa_engine.py:328-373 | every parsed cross-deal query searches the provision that owns its attribute: J.Crew on RP, the rest on MFN |
| QAEngine.ParseCrossDealQuery | app/services/qa_engine.py:328-373 | the five tests in order: J.Crew flag; sunset under the captured number ("less_than"); yield exclusion; no MFN (`mfn_exists` false); has MFN (`mfn_exists` true); None exactly when none of the five holds; the condition is always "equals" or "less_than" |
| QAEngine.KeptDealsExact | app/services/qa_engine.py:433-446 | every kept deal matched, passes the deal filter and came from a row; no row the filter keeps is lost |
| QAEngine.ExecuteCrossDealQuery | app/services/qa_engine.py:375-461 | only "equals" and "less_than" query; a failing read gives nothing; otherwise the total is the first count row (0 without one) and the matching count is the number of kept deals |
| QAEngine.CrossDealQuery | app/services/qa_engine.py:98-136 | the response echoes the question; an unparsed question gets an empty response; a parsed one reports the first count row as the total (0 on a failed read or with no row) and the kept deals as results; a failed read has no results; the matching count is the number of results and never exceeds the rows |
| Patterns.JCrewVerdicts | app/routers/patterns.py:82-122 | never both vulnerable and protected; no row or a failing read is neither; otherwise vulnerable exactly when the first row permits designation and has no blocker, protected exactly when it has a blocker |
| Patterns.ExcludedComponents | app/routers/patterns.py:145-150 | "LIBOR floor" is listed exactly when the floor is falsy and "OID" exactly when the OID is falsy |
| Patterns.YieldExclusionIff | app/routers/patterns.py:125-164 | the exclusion is detected exactly when the first row has both the floor and the OID falsy, a missing one counting as included |
| Patterns.DetectDealPatterns | app/routers/patterns.py:19-79 | the counts are the list lengths; the risk level is "low" exactly with no vulnerability, "high" exactly with a high-severity one, otherwise "medium"; J.Crew adds a vulnerability or else a protection, yield exclusion adds a vulnerability |
| Patterns.Report | app/routers/patterns.py:39-79 | the report body over the two checks, with the same summary guarantees |
| Patterns.DetectWithoutQueryRead | app/routers/patterns.py:93-122 | when both reads raise, the report has no vulnerability and no protection, and its summary is 0, 0, "low" |
| Patterns.CheckJCrewPattern | app/routers/patterns.py:82-122 | never both vulnerable and protected; facts are reported exactly with a vulnerability; a check with neither verdict has no explanation |
| Patterns.CheckYieldExclusion | app/routers/patterns.py:125-164 | facts are reported exactly when the exclusion is detected; a check that detects nothing has no explanation |
| Patterns.RiskLevel | app/routers/patterns.py:71-77 | the risk grade is "low" exactly when there is no vulnerability, "high" exactly when one has high severity, and "medium" exactly when there are vulnerabilities but none of high severity |
| SegmentIntrospector.FieldPairs | app/services/segment_introspector.py:87-91 | at most one pair per segment |
| SegmentIntrospector.FieldPairsMembers | app/services/segment_introspector.py:87-91 | the pairs are exactly the (ID, field) of the segments whose field is truthy |
| SegmentIntrospector.MappingExact | app/services/segment_introspector.py:82-106 | a mapping's keys are exactly the IDs of the segments whose field is truthy, all known IDs, each mapped to the field of a segment with that ID |
| SegmentIntrospector.Mapping | app/services/segment_introspector.py:82-106 | every mapped ID is the ID of a known segment |
| SegmentIntrospector.LastIndexOf | app/services/segment_introspector.py:87-91 | a key that occurs among the pairs has a last occurrence |
| SegmentIntrospector.ValidateReferences | app/services/segment_introspector.py:109-139 | the check is skipped exactly when no segment is loaded; otherwise nothing referenced is missing |
| SegmentIntrospector.SegmentCache.GetSegmentTypes | app/services/segment_introspector.py:11-79 | the cache when there is one; with no driver or a failing query [] and nothing cached; a load is sorted by display order, a permutation of the rows, and cached |
| SegmentIntrospector.SegmentCache.GetRpSegmentMapping | app/services/segment_introspector.py:82-92 | the RP mapping of the segments read through the cache |
| SegmentIntrospector.SegmentCache.GetMfnSegmentMapping | app/services/segment_introspector.py:95-106 | the MFN mapping of the segments read through the cache |
| SegmentIntrospector.SegmentCache.ValidateSegmentReferences | app/services/segment_introspector.py:109-139 | the reference check over the segments read through the cache, which never finds a missing ID; the cache is filled exactly when it was empty, a driver is connected and the load succeeds |
| SegmentIntrospector.SegmentCache.ClearCache | app/services/segment_introspector.py:142-145 | the cache is dropped, so every later read behaves as the first one |
| CategoryNames.NamesFromRows | app/utils/ontology.py:11-55 | with no driver or a failing query the names are {}; otherwise every row's ID is a key, mapped to the name of its last row |
| CategoryNames.NameCache.GetCategoryNames | app/utils/ontology.py:11-55 | a non-empty cache is returned as is; otherwise the names are loaded, and cached only when the load succeeds |
| CategoryNames.NameCache.ResolveCategoryName | app/utils/ontology.py:58-61 | the name resolved against the names read through the cache; the cache is replaced exactly when it was empty, a driver is connected and the load succeeds |
| CategoryNames.EmptyLoadRetried | app/utils/ontology.py:17-18 | after a first read from an empty cache, a non-empty result is what the next read returns, while an empty one is not remembered and the next read loads again |
| InitSchema.DriverAddressScheme | app/scripts/init_schema.py:58-70 | the driver address always carries an http:// or https:// scheme: one already there is kept, otherwise "https://" is prefixed, and prefixing again changes nothing |
| InitSchema.SignificantLinesExact | app/scripts/init_schema.py:76-80 | a line is kept exactly when its stripped form is non-empty and does not start with "#"; nothing is added |
| InitSchema.LoadTqlFile | app/scripts/init_schema.py:73-81 | the cleaned file is the significant lines, unchanged and in order, joined by newlines |
| InitSchema.MixedRunWellFormed | app/scripts/init_schema.py:97-124 | while the scan is inside a match block the statement being built is non-empty and starts with a match line |
| InitSchema.MixedStepWellFormed | app/scripts/init_schema.py:97-124 | one line keeps the scan well formed; a match line always enters a match block, and inside one the insert block no longer grows |
| InitSchema.MixedStep | app/scripts/init_schema.py:97-123 | a blank line changes nothing; the finished statements and the bulk insert lines only grow at their end |
| InitSchema.MixedStatements | app/scripts/init_schema.py:125-126 | after a well-formed scan, every flushed statement starts with its match line |
| InitSchema.MatchStatementsStartWithMatch | app/scripts/init_schema.py:112-126 | every match-insert statement is non-empty and starts with its match line |
| InitSchema.MatchBlockAbsorbs | app/scripts/init_schema.py:102-106 | once a match block is open, every later insert line goes into its statement and the insert block is final |
| InitSchema.MixedRunSplit | app/scripts/init_schema.py:97-124 | scanning a + b is scanning b from the state left by a |
| InitSchema.NoInsertAfterMatch | app/scripts/init_schema.py:102-110 | after the first match line the insert block never grows |
| InitSchema.MixedSeesMatch | app/scripts/init_schema.py:112-118 | a file with a match line ends the scan inside a match block |
| InitSchema.LeadingLinesDropped | app/scripts/init_schema.py:120-123 | lines before the first insert or match line are dropped |
| InitSchema.SplitMixed | app/scripts/init_schema.py:84-126 | the insert lines and match-insert statements the line scan collects |
| InitSchema.MultiRunWellFormed | app/scripts/init_schema.py:185-193 | the statements collected so far plus the one being built are the stripped significant lines read so far |
| InitSchema.MultiStepShape | app/scripts/init_schema.py:189-193 | every finished statement is non-empty and every one after the first starts with "insert" |
| InitSchema.MultiStepLines | app/scripts/init_schema.py:185-193 | a line adds exactly its stripped form, when significant, to the lines collected |
| InitSchema.MultiStep | app/scripts/init_schema.py:185-193 | a blank line changes nothing; the finished statements only grow at their end; a significant line ends the statement being built |
| InitSchema.MultiStatementsExact | app/scripts/init_schema.py:182-195 | the statements concatenated are exactly the stripped significant lines; each is non-empty, each after the first starts with "insert", and no inner line does |
| InitSchema.SplitMultiInsert | app/scripts/init_schema.py:179-195 | the statements the line scan collects, each joined by newlines |
| InitSchema.CountsPartition | app/scripts/init_schema.py:146-166 | every statement is counted exactly once as created, skipped or failed |
| InitSchema.RunStatements | app/scripts/init_schema.py:146-165 | the counters are the numbers of committed, duplicate and failed statements, adding up to the statement count |
| InitSchema.LoadMixedTqlFile | app/scripts/init_schema.py:84-166 | the insert block runs exactly when there are insert lines and is reported inserted, existing or failed; the created, skipped and failed counters are each the number of match-insert statements classified so ("unique" also counting as a duplicate), and add up to the statement count |
| InitSchema.LoadMultiInsertFile | app/scripts/init_schema.py:169-217 | the created (loaded), skipped and failed counters are each the number of statements classified so, with only "already" or "duplicate" errors counting as skipped, and add up to the statement count |
| InitSchema.VerifyCounts | app/scripts/init_schema.py:337-358 | all checks are ok exactly when every count query succeeds and reaches its minimum |
| Config.CorsOriginsShape | app/config.py:30-33 | one origin per comma plus one, each stripped and free of commas; a value with no comma is one origin |
| Config.CorsOriginsList | app/config.py:30-33 | there is always at least one origin, and no origin holds a comma |
| Config.NormalizedTypedbAddress | app/config.py:35-51 | the address with "https://" then "http://" dropped when it starts with them, cut at the first "/" |
| Config.NormalizedShape | app/config.py:35-51 | the normalised address holds no "/", is the scheme-free address up to its first "/", leaves a plain host:port alone, and is idempotent |
| PdfParser.GetFullText | pdf_parser.py:62-73 | the newline-join of a "[PAGE n]" marker and the text of each page, in order |
| PdfParser.FullTextSnoc | pdf_parser.py:68-73 | adding a page appends a newline and that page's block |
| PdfParser.EveryPageInFullText | pdf_parser.py:62-73 | every page's marked block occurs in the full text |
| PdfParser.FirstMatch | pdf_parser.py:117-130 | the first page at or after a start index that matches, or the end when none does |
| PdfParser.DefinitionPagesShape | pdf_parser.py:104-135 | no definition pages exactly when no page opens Section 1.01; otherwise the run of pages from the first such page |
| PdfParser.DefinitionPages | pdf_parser.py:104-135 | never more pages than the document; a non-empty run starts at a page that opens Section 1.01 |
| PdfParser.DefinitionPagesUpTo | pdf_parser.py:117-130 | the definition pages run from the first opening page through the first page from there that mentions Section 1.02, or to the end |
| PdfParser.ExtractDefinitionsSection | pdf_parser.py:104-135 | None when no page opens the definitions; otherwise the marked definition pages joined by newlines |
| PdfParser.SectionText | pdf_parser.py:97-98 | a section excerpt has at most 5000 characters |
| PdfParser.FindSection | pdf_parser.py:75-102 | None exactly when no page holds the section; otherwise the first page that holds it, with the text from its heading, at most 5000 characters |
| Ablation.StripTrailingFence | app/routers/ablation.py:92-93 | dropping a closing fence leaves a prefix of the text |
| Ablation.FencedObjectRoundTrip | app/routers/ablation.py:88-98 | the docstring's promise: an object wrapped in a ```json fence comes back as the object alone, and a bare object comes back unchanged |
| Ablation.StripJsonFences | app/routers/ablation.py:88-98 | cleaning never makes the reply longer; what it strips is stated by `Ablation.FencedObjectRoundTrip` |
| Ablation.CutToBracesShape | app/routers/ablation.py:94-98 | with a brace missing the text is unchanged; otherwise the result is a slice of the text running from its first "{" to its last "}" |
| Ablation.ClosingFenceRemoved | app/routers/ablation.py:92-93 | a closing fence is removed: at least three characters go |
| Ablation.ReasoningParseIff | app/routers/ablation.py:101-115 | the response parses exactly when the fence-stripped text decodes to an object with "reasoning" and "answer" and the reasoning validates; otherwise the original text is kept |
| Ablation.ParseReasoningResponse | app/routers/ablation.py:101-115 | a failed parse gives the original reply text back; a successful one needs the cleaned reply to decode |
| Ablation.CheckRawText | app/routers/ablation.py:555-578 | the pre-flight passes exactly when the file exists with at least 1000 characters, and then yields its text |
| Ablation.QuestionsToRun | app/routers/ablation.py:584-587 | a prefix of the questions: all of them for None or 0, the first n for a positive n, and Python's negative slice otherwise |
| Ablation.AllFoundMembers | app/routers/ablation.py:601-608 | an interaction is collected for a format exactly when some question found it in that format |
| Ablation.AddItems | app/routers/ablation.py:607-608 | the set grows by exactly the items |
| Ablation.CollectInteractions | app/routers/ablation.py:597-608 | the three sets are the interactions found per format across all questions |
| Ablation.HasLeast | app/routers/ablation.py:610-618 | a non-empty set of strings has a least element, so it can be sorted |
| Ablation.SortedStrings | app/routers/ablation.py:610-618 | the sorted list holds exactly the set's strings, strictly ascending |
| Ablation.InteractionBuckets | app/routers/ablation.py:597-618 | the buckets are S-F-R, (S|F)-R and S&F&R, each sorted; the first lies in the second and the third is disjoint from the second |
| Eval.StripEmptyIff | app/routers/eval.py:162 | the stripped text is empty exactly when the text is all whitespace |
| Eval.RpUniverseTextIff | app/routers/eval.py:148-168 | the universe text is read exactly when the file exists and holds a non-space character, and then it is the file unchanged |
| Eval.RpUniverseText | app/routers/eval.py:148-168 | a missing file fails; a loaded text is the file content and is not blank |
| Eval.GeneratedQuestionsShape | app/routers/eval.py:210-220 | a missing bracket fails; success yields a non-empty-source prefix of the decoded list of at most num_questions items |
| Eval.GenerateQuestions | app/routers/eval.py:210-220 | never more questions than asked for, and at least one when one is asked for |
| Eval.ValenceAnswerStripped | app/routers/eval.py:237-249 | the answer loses everything from the evidence marker on and never contains it; an answer without the marker is kept; a pipeline error becomes "[Pipeline error: ...]" |
| Eval.ValenceAnswer | app/routers/eval.py:237-249 | a pipeline answer is never longer than the answer; an error is reported with its message whole inside "[Pipeline error: ...]" |
| Eval.CompareAnswers | app/routers/eval.py:268-285 | a missing brace gives the parse-failed fallback; any other non-fallback verdict is the decoded brace span |
| Eval.FallbackScore | app/routers/eval.py:272-285 | the fallback verdict scores 12 |
| Eval.QuestionScore | app/routers/eval.py:333-335 | a score exists only for an object verdict, and a verdict with no dimensions scores 12 |
| Eval.ScoreWithinTwenty | app/routers/eval.py:333-336 | a verdict on the 1-5 scale scores between 4 and 20 |
| Eval.ScoreVerdicts | app/routers/eval.py:321-339 | the totals exist exactly when every verdict can be summed; then the total is the sum of the scores and the maximum 20 per question |
| Eval.TotalWithinMax | app/routers/eval.py:333-339 | on the 1-5 scale the total lies between 4 and 20 per question |
| Eval.Percent | app/routers/eval.py:353 | the percentage lies between 0 and 100 when the total is within the maximum |
| DealRepository.DealStore.Execute | app/repositories/deal_repository.py:241-248 | one write transaction either commits and is appended to the log, or raises the injected error and leaves the log alone; every attempt is counted |
| AnswerRepository.AnswerStore.Execute | app/repositories/answer_repository.py:85-91 | one write either commits and is appended to the log, or raises the injected error and leaves the log alone; every attempt is counted |
| QAEngine.Engine.constructor | app/services/qa_engine.py:36-46 | a new engine has no attribute mapping loaded yet |
| Extraction.ExtractionService.constructor | app/services/extraction.py:49-58 | a new service starts with an empty field cache |
| Routing.TopicRouter.constructor | app/services/topic_router.py:78-86 | a new router has no cache, cache time 0 and the given TTL |
| SegmentIntrospector.SegmentCache.constructor | app/services/segment_introspector.py:8 | the segment cache starts empty |
| CategoryNames.NameCache.constructor | app/utils/ontology.py:8 | the category name cache starts as {} |
| Collections.SortByStable | app/services/segment_introspector.py:70 | sorting on a key is stable: the elements of one key come out in the order they went in, as Python's sort promises |

## Left out

- TypeDB I/O: the driver, sessions and transactions (`app/services/typedb_client.py`, `_execute_query`) are a log plus a failure map. Read queries are their returned rows, or a `Failure`. The TypeQL text itself is not modelled; writes are kept as structured records.
- `query_read` and `query_write`: the client class in `app/services/typedb_client.py` defines neither, so as written every call to them raises AttributeError (see the Findings row for that file). The repositories and the pattern checks are modelled for a client that has them; the lemmas `Patterns.DetectWithoutQueryRead`, `AnswerRepository.NoQueryReadNoValue` and `AnswerRepository.NoQueryWriteSavesNothing` state what happens as written, where every such read or write fails.
- Language-model calls, in extraction, the Q&A engine, ablation and eval, are not made. Their replies are string inputs. The literal prompt texts, judge prompts and `app/prompts/reasoning.py` are not part of this model.
- `json.loads`, Pydantic `model_validate`/`model_dump` and `re` are parameters: a `Decoder`, a `Validator`, and predicates. This affects the section-heading and Section 1.01/1.02 patterns in `PdfParser` and the sunset pattern in `QAEngine.ParseCrossDealQuery`. The `ExtractionSchema` validators follow the declared fields, but not Pydantic's coercion rules beyond those declarations.
- `float(...)`/`int(...)` on strings are the `parseFloat`/`parseInt` parameters.
- Float rendering follows the positional form of `str(float)`. Exponent notation is not modelled.
- uuid suffixes, `datetime.utcnow()` and `time.time()` are parameters or left out of the records.
- `str.lower`, `str.upper`, `str.strip` and the tokenizer's character classes are ASCII only.
- Concurrency: async endpoints and `asyncio.gather` in the ablation run are modelled as sequential calls.
- `list(set(...))` in `_identify_relevant_attributes` has no defined order. `QAEngine.IdentifyRelevantAttributes` returns the set, and `QAEngine.Engine.AnswerQuestion` takes the order it is iterated in as a `listing` parameter, required only to list each member of that set once.
- `Eval.Percent`: the percentage is not rounded to one decimal, and `elapsed` timing is left out.
- `_avg_scores` in the ablation summary (float rounding) and the ablation/eval report writing are not modelled.
- `pdf_parser.extract_pages` and `get_page_count` go through PyMuPDF. The pages are an input.
- `init_database` orchestration, meaning the order in which the schema and seed files are loaded and logged, is not modelled. Its pieces are: `InitSchema.LoadTqlFile`, `InitSchema.LoadMixedTqlFile`, `InitSchema.LoadMultiInsertFile` and `InitSchema.VerifyCounts`.
- The Patterns endpoints `get_jcrew_vulnerable_deals`, `get_strong_protection_deals` and `get_pattern_summary` are not modelled. They map the rows of a graph query one-for-one into entries and count them, with no decision logic.
- The topic router's convenience wrappers `detect_covenant_type`, `get_relevant_field_names` and `get_all_categories` are not modelled separately; they are projections of `Routing.TopicRouter.Route` and `Routing.TopicRouter.GetCachedMetadata`. `_safe_get_value` is the row lookup of the metadata loads.
- `str(item)` of ablation interaction items: the items are strings already.
- `AnswerRepository.AnswerStore.SaveEach`: the batch plans every write first and then attempts them in order. The source interleaves planning and writing, but planning has no effect on the store, so the committed writes and the count are the same.
- Deal reads, creation and deletion in `app/repositories/deal_repository.py` are plain queries and are not modelled.
- `app/schemas/models.py` records are datatypes without datetimes.

- Ablation.StripJsonFences: its own contract is only the length bound; that a fenced or bare object comes back as the object is stated by the lemma `Ablation.FencedObjectRoundTrip`, which ranges over the object inside the fence.
- GraphStorage.SourceSteps: models the corrected source write. As written, `_store_builder_source_v4` raises on `not_otherwise_applied` before its insert (Findings row for graph_storage.py:827).
- GraphStorage.ReallocationSteps: models the corrected reallocation write. As written, `_store_reallocation_v4` raises on `reduces_source_basket` before its insert whenever both baskets are mapped (Findings row for graph_storage.py:1510).
- GraphStorage.ValidatedReallocationWrites: holds for the corrected reallocation write only; as written the write is never reached (graph_storage.py:1510).
- GraphStorage.ReallocationComponents: the components carry the corrected reallocation steps, not the as-written raise of graph_storage.py:1510.
- GraphStorage.GuardedBlock: the blocks carry the corrected builder, ratio, management, tax, builder-source and J.Crew steps, not the as-written raises of graph_storage.py:761, 872, 946, 973, 827 and 1312.
- GraphStorage.BuilderPartialFailure: states the corrected builder block, whose basket and sources can be written; as written the block raises at graph_storage.py:761 before its basket insert, so nothing of it commits, and with line 761 corrected a basket with sources would still fail at its first source (graph_storage.py:827).
- GraphStorage.JCrewPartialFailure: states the corrected J.Crew block; as written the blocker always raises before its insert (graph_storage.py:1312).
- GraphStorage.RelationsNeverCross: ranges over the writes of the corrected store.
- GraphStorage.GuardedBlocksAttempted: counts attempts in the corrected store; as written no block after the holdco read is attempted (graph_storage.py:545).
- GraphStorage.ListSectionsAttempted: counts attempts in the corrected store; as written the list sections are never reached (graph_storage.py:545).
- GraphStorage.StoreSpec: is the corrected store of the Findings rows for graph_storage.py:545, 761/872/946/973, 827, 1312 and 1510, not the code as written; `GraphStorage.StoreAsWritten` is the code as written.
- GraphStorage.StoreAccounting: states the accounting of the corrected store (`GraphStorage.StoreSpec`), not of the code as written.
- GraphStorage.Graph.StoreRpExtraction: runs the corrected store; the as-written store is `GraphStorage.StoreAsWritten`.
- GraphStorage.CorrectedStoreCountsBlocker: relies on both the graph_storage.py:545 and the graph_storage.py:1312 corrections.
- AnswerRepository.AnswerAttr: builds the corrected string literal (backslashes escaped first), not the quotes-only escape of answer_repository.py:63 (Findings row for lines 62-64).
- AnswerRepository.SectionLiteral: builds the corrected section literal, not the quotes-only escape of answer_repository.py:68 (Findings row for that line).
- AnswerRepository.PlanAnswer: builds the corrected literals of answer_repository.py:63, 67 and 68 (Findings rows for those lines).
- AnswerRepository.AnswerStore.SaveAnswer: writes the corrected literals, and assumes a client with `query_write` (Findings rows for answer_repository.py:62-68 and typedb_client.py).
- AnswerRepository.AnswerStore.SaveAnswersBatch: writes the corrected literals, and assumes a client with `query_write` (same Findings rows).

## Findings

| source | as written | input that shows it | evidently intended | confidence | as-written member | corrected member |
|---|---|---|---|---|---|---|
| app/repositories/answer_repository.py:62-64 | a string answer escapes `"` but not backslashes | the value `C:\`: its trailing backslash escapes the literal's closing quote | escape backslashes first, as `sanitize_for_typeql` does | not executed | AnswerRepository.AsWrittenTrailingBackslash | AnswerRepository.AnswerEscape |
| app/repositories/answer_repository.py:67 | the source text is cut to 500 characters after escaping | 499 plain characters followed by `"`: the cut falls inside `\"` and leaves a dangling backslash | cut to 500 characters first, then escape | not executed | AnswerRepository.AsWrittenSourceTextCutsEscape | AnswerRepository.SourceTextLiteral |
| app/services/graph_storage.py:545 | `store_rp_extraction_v4` reads `holdco_overhead_basket` and other fields that `RPExtractionV4` does not declare | any extraction whose provision insert succeeds: the AttributeError reaches the top-level handler, and the J.Crew blocker, sweep tiers and later sections are never stored | read every component through a record that declares it (as `GraphStorage.StoreRecord` does), store it with the corrected helpers of the rows for lines 761/872/946/973, 827, 1312 and 1510, and count each stored one | not executed | GraphStorage.AsWrittenSkipsLaterBlocks | GraphStorage.CorrectedStoreCountsBlocker |
| app/repositories/answer_repository.py:68 | the section is escaped for `"` only: backslashes are not escaped and newlines are kept | the section `Section 6.06\`: its trailing backslash escapes the literal's closing quote | escape backslashes first, as `sanitize_for_typeql` does | not executed | AnswerRepository.AsWrittenSectionTrailingBackslash | AnswerRepository.SectionLiteral |
| app/services/graph_storage.py:827 | `_store_builder_source_v4` reads `source.not_otherwise_applied`, which `BuilderSource` does not declare | a builder basket with one source, in a builder block whose line 761 is corrected: the basket insert commits, the source raises AttributeError, and neither is counted (as written, line 761 raises first and nothing of the block commits) | build the source's attributes from its declared fields only and write it | not executed | GraphStorage.AsWrittenSourcesRaise | GraphStorage.BuilderStoresSources |
| app/services/graph_storage.py:761 | the builder, ratio, management and tax helpers read `default_condition` (line 761), `test_date_type` (872), `eligible_person_scope` (946) and `hypothetical_tax_rate` (973), none declared by its record | any extraction with an existing builder, ratio, management or tax basket: the block raises before its insert, records one error and stores and counts nothing | build each basket's attributes from its record's declared fields only and write it | not executed | GraphStorage.AsWrittenSafeBumps | GraphStorage.BuilderStoresSources, GraphStorage.StoreSpec |
| app/services/graph_storage.py:1312 | `_store_jcrew_blocker_v4` reads `blocker.covers_exclusive_licensing`, which `JCrewBlocker` does not declare | any present J.Crew blocker: it raises before its insert and is never stored | build the blocker's attributes from its declared fields only and write it | not executed | GraphStorage.AsWrittenBlockerNeverStored | GraphStorage.JCrewStoresBlocker |
| app/services/graph_storage.py:1510 | `_store_reallocation_v4` reads `realloc.reduces_source_basket`, which `BasketReallocation` does not declare | a reallocation from `builder` to `rdp`: it raises before its insert and is never stored | build the relation's attributes from its declared fields only and write it | not executed | GraphStorage.AsWrittenReallocationRaises | GraphStorage.ReallocationStored |
| app/services/typedb_client.py:15-130 | `TypeDBClient` defines no `query_read` and no `query_write`, yet the pattern checks and the answer repository call them | any deal: both pattern reads raise and are caught, so the report is empty and "low" risk whatever the graph holds | give the client `query_read` and `query_write` over its read and write transactions | not executed | Patterns.DetectWithoutQueryRead | Patterns.DetectDealPatterns |
| app/services/graph_storage.py:1779 | `summarize_extraction` reads the same undeclared field | every extraction raises AttributeError | summarise the declared components only | not executed | GraphStorage.SummarizeAsWritten | GraphStorage.SummaryEmptyIff |

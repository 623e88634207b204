# QuerySmith's analysis pipeline, modelled and proved in Dafny

QuerySmith turns a SQL Server showplan document into an operator tree, runs deterministic rules over it, lets an
untrusted local model explain the findings, and serves all of that through a small web API over two lock-guarded
slots. This project models that pipeline and proves what each stage keeps. Python's `ValueError` is a `Result`,
`None` is an `Option`; a dataclass is a datatype; a store, a shared counter, a shared list or a cursor is a class;
a loop that fills a list or a dictionary is a method with a loop, proved equal to a specification function whose own
properties are lemmas.

| file | what it holds |
|---|---|
| `Wrappers`, `Sequences`, `Text`, `Sorting`, `Xml` | optional values, list laws, Python string operations, the stable sort, XML elements |
| `PlanIr`, `OperatorMap`, `PlanXmlToIr` | the plan representation, the lookup tables, what each part of a showplan document means |
| `PlanTree`, `PlanAdapter` | document order, nesting, numbering and ids; `parse_plan_xml` with its loops and its recursive descent |
| `PlanScope` | when an operator's object and predicates are its own, and when a nested child's |
| `RulesEngine`, `IndexScript` | the Tier 0 rules and their order; the printed index script and a reader for it |
| `Showplan`, `PlanReading`, `PlanContents` | a second, independent reading of a showplan with every name written out; the adapter's reading is the same; what a built plan holds |
| `Pipeline`, `FindingsByRule`, `PlanProperties` | adapter and rules together against a direct scan of the document; each rule by its id and severity; facts about every plan |
| `PlanSummaries` | ranking of operators and the plan summary |
| `ModelResponse`, `NarrationEngine`, `FixEngine` | merging untrusted JSON by finding index; narration; fix proposals |
| `ModelAnswers` | what narration and proposal show, by the keys and entries of the response's JSON |
| `OdbcString`, `PlanCapture` | connection strings and a reader for them; live capture |
| `WebApp`, `WebSerial`, `WebFreshness` | requests as interleaved steps; requests one at a time; when a cached result outlives its connection |
| `WebHistory`, `WebHandlers` | which publish the cache holds, which report a fix answers for, which statements were sent; the stores and handlers |

Foreign code appears as parameters: `float()` is any function from strings to optional reals (`None` is
`ValueError`), the XML reader is any function from strings to optional documents, number and list formatting are any
functions to strings, the two SQL validators are any predicates on strings, and how the database server and the model
answer is given with each request, errors that nothing catches included. Every theorem holds for all of them.

## What is proved

* **Tree.** The adapter's two nested recursions keep every `RelOp` once, in document order (`WalkIsDocumentOrder`) and
  nested as in the document (`NestingIsTheDocuments`), whatever wrapper elements lie between. The method with the
  shared counter and the shared warning list computes that tree, and fails exactly when some number it reads does not
  parse (`BuildOperatorTree`, `ParsePlanXml`).
* **Ids.** They are distinct exactly when the stated `NodeId`s are and none is a number the counter hands out
  (`IdsDistinctExactly`).
* **Scope.** An operator's wrapper holds its child `RelOp`s, so an operator can report a child's object and predicates.
  `ObjectIsOwnExactly` and `TextsAreOwnExactly` say exactly when it reports its own; `JoinReportsChild` is a join that
  reports both of the scan under it and has neither itself.
* **Reading.** `Showplan` reads a document with its tags, attributes, operator names and thresholds written out and
  shares none of the adapter's tables or readers. The detail element, the lookup mark, the object, the predicates, the
  threads' figures, the classification, the warnings and the columns of a missing index come out the same both ways,
  so a plan is in every field what the document says (`DetailMeaning`, `OperatorsOfPlan`, `StatementOfPlan`).
* **Pipeline.** For every document the findings, texts and index scripts included, are those of a direct scan of the
  document, in order of severity (`PipelineExact`). `SkewsReported`, `ScansReported`, `LookupsReported` and
  `ParallelismReported` say of each rule, by its id, which `RelOp`s it reports and how severely, both ways.
* **Summary.** The selection is the top of the ranking whatever the listing order. Where subtree costs fall, every
  `RelOp` above a selected one is selected (`RelOpAncestorsSelected`).
* **Narration and fixes.** `NarrationShows`, `OverviewShows` and `ProposalShows` say, both ways, which text under which
  key of which entry is shown. The merge uses the earliest usable entry per index. Narration and proposal are determined
  by what is merged, both ways (`SameNarrationExactly`, `ProposedAlikeExactly`), and ignore the order of a response's
  entries exactly when the entries that count never contradict each other (`ResponseOrderExactly`,
  `ProposalOrderExactly`).
* **Web.** Every interleaving of requests is safe (`EveryRunSafe`), and what is cached, reported and answered for are
  always all the findings and the summary of one captured document (`EveryPairIsADocuments`). Whether a cached result stays with the connection
  it came from is settled exactly, for whole runs of interleaved requests (`OwnedRunsExactly`, `FreshRunsExactly`) and
  for series of requests handled one at a time (`SerialRunsOwnedExactly`), by guards on single steps: a publish over
  another connection than the query's, an accepted connect to elsewhere while something is cached, a disconnect half
  done. Three runs show the failures happen. The cache holds the pair of the latest publish not cleared since, and
  a fix answers for the report of that publish (`CacheIsLatest`, `FixAnswersLatestReport`). No interleaving executes
  anything but a query that was asked and validated, between the two commands that switch the showplan on and off
  (`OnlyValidatedQueriesRun`).
* **Capture.** Whatever fails, a connection is closed last and everything is done inside it, over any number of
  captures (`CapturePlanXml`, `CapturesAreBracketed`).
* **Printers.** A connection string and an index script are read back exactly under stated conditions on the names
  in them, both directions.

Where the code and its comments differ the code is followed.

* `web/app.py:246-248` says a disconnect keeps a cached result from outliving its connection. A query that a
  disconnect overtakes between its analysis and its caching escapes that: the result ends up cached while disconnected
  (`LatePublishHappens`), or, if a connect to elsewhere comes first, cached over the other connection
  (`ForeignPublishHappens`). And a connect never clears the cache, so even one request at a time a connect to
  elsewhere keeps the result of the connection it replaces (`SerialReconnectOrphans`). `OwnedRunsExactly` and
  `SerialRunsOwnedExactly` give the exact conditions; under them a fix request works on a result of the current
  connection (`FixesUseCurrentConnection`).
* `narration/plan_summary.py:58` says missing cost shares rank last. They rank as -1.0, so a stated share below that
  comes after them: `NullsLastFails` is a plan where it does, and `NullsLastExactly` says for every list of operators
  exactly when none does.
* "First occurrence wins" in the two merge engines means the first *usable* occurrence.
* `isinstance(True, int)` holds in Python, so JSON booleans act as the indices 0 and 1.
* An empty `NodeId` counts as missing.

## Model

| member | source | states |
|---|---|---|
| PlanTree.DirectRelOpsCoverAll | src/querysmith/adapters/sqlserver/plan_xml_to_ir.py:176-187 | the descent through wrappers yields only `RelOp`s, and their subtrees hold all `RelOp`s of the whole subtree in document order |
| PlanTree.DirectRelOpsShrink | src/querysmith/adapters/sqlserver/plan_xml_to_ir.py:176-187 | a direct child spans strictly less of the document than its parent, so the mutual descent terminates |
| PlanAdapter.CollectDirectRelOps | src/querysmith/adapters/sqlserver/plan_xml_to_ir.py:176-187 | the loop over an element's children computes the nearest `RelOp`s |
| PlanTree.WalkIsDocumentOrder | src/querysmith/adapters/sqlserver/plan_xml_to_ir.py:131-173 | the preorder walk of the built tree is, node for node, the document-order list of `RelOp`s with their ids |
| PlanTree.NestingIsTheDocuments | src/querysmith/adapters/sqlserver/plan_xml_to_ir.py:131-187 | the i-th operator is the tree of the i-th `RelOp`, and the operators under it are, in place, those of the `RelOp`s under that `RelOp` |
| PlanTree.RelOpSegment | src/querysmith/adapters/sqlserver/plan_xml_to_ir.py:176-187 | in document order the `RelOp`s under a `RelOp` follow it in one stretch |
| PlanTree.IdAt | src/querysmith/adapters/sqlserver/plan_xml_to_ir.py:132 | the i-th `RelOp` keeps its non-empty `NodeId`, else it gets the counter's start plus the number of id-less `RelOp`s before it |
| Text.DecimalReadsBack | src/querysmith/adapters/sqlserver/plan_xml_to_ir.py:132 | a counter's decimal has only digits and stands for that number |
| PlanTree.IdsDistinctExactly | src/querysmith/adapters/sqlserver/plan_xml_to_ir.py:76-78 | ids are pairwise distinct if and only if the stated ones are and none is a decimal the counter draws |
| PlanAdapter.BuildOperatorTree | src/querysmith/adapters/sqlserver/plan_xml_to_ir.py:131-173 | succeeds iff every number in the subtree parses; result, counter and warning list are those of the flat document-order reading |
| PlanReading.DetailMeaning | src/querysmith/adapters/sqlserver/plan_xml_to_ir.py:190-194 | the detail element is the first child whose tag is none of OutputList, RunTimeInformation, Warnings and RelOp, and is missing iff every child's is |
| PlanReading.LookupAgrees | src/querysmith/adapters/sqlserver/plan_xml_to_ir.py:136-137 | an operator is marked as a lookup iff its detail element says `Lookup="1"` |
| PlanReading.ObjectAgrees | src/querysmith/adapters/sqlserver/plan_xml_to_ir.py:231-241 | the object is the first Object under the detail element, its names without brackets |
| PlanReading.PredicatesAgree | src/querysmith/adapters/sqlserver/plan_xml_to_ir.py:244-252 | the predicates are the ScalarString texts of the ScalarOperators under the detail element, each once, empty ones left out |
| PlanReading.TypeAgrees | src/querysmith/adapters/sqlserver/plan_xml_to_ir.py:197-206 | the operator type by physical and logical operator and lookup mark, case by case |
| PlanReading.OperatorAgrees | src/querysmith/adapters/sqlserver/plan_xml_to_ir.py:131-173 | every field of a built operator is what the document says of its RelOp |
| PlanContents.OperatorsOfPlan | src/querysmith/adapters/sqlserver/plan_xml_to_ir.py:51-173 | a plan's operators are the document's RelOps in order, each in every field as the document has it, the grant on the root alone |
| PlanAdapter.BuildChildren | src/querysmith/adapters/sqlserver/plan_xml_to_ir.py:149-152 | children are built one after another on the shared counter and list |
| PlanAdapter.SumActualRows | src/querysmith/adapters/sqlserver/plan_xml_to_ir.py:301-311 | the sum of the present ActualRows, None if there are none, an error iff one does not parse |
| PlanXmlToIr.LongestThread | src/querysmith/adapters/sqlserver/plan_xml_to_ir.py:314-322 | the duration is some thread's, none is longer, and it is missing iff all are |
| PlanAdapter.ExtractPredicates | src/querysmith/adapters/sqlserver/plan_xml_to_ir.py:244-252 | the loop computes the predicate texts |
| PlanXmlToIr.ScalarTextsMeaning | src/querysmith/adapters/sqlserver/plan_xml_to_ir.py:244-252 | the texts are exactly the non-empty ones, without repetition, by first occurrence |
| PlanScope.ScopedSplits | src/querysmith/adapters/sqlserver/plan_xml_to_ir.py:190-252 | what lies under a wrapper splits, in order, into the operator's own elements and those at or below the nearest `RelOp`s |
| PlanScope.ObjectIsOwnExactly | src/querysmith/adapters/sqlserver/plan_xml_to_ir.py:231-241 | the reported object is the operator's own iff there is none, or the first is outside nested `RelOp`s, or the first own one bears the same names |
| PlanScope.TextsAreOwnExactly | src/querysmith/adapters/sqlserver/plan_xml_to_ir.py:244-252 | the reported predicates are the operator's own, in their order, iff every nested non-empty text also occurs among its own and own texts are still met in the same order |
| PlanScope.JoinReportsChild | src/querysmith/adapters/sqlserver/plan_xml_to_ir.py:131-173 | a join `RelOp` without object and predicates of its own gets those of the scan under it |
| PlanAdapter.ExtractWarnings | src/querysmith/adapters/sqlserver/plan_xml_to_ir.py:255-264 | one warning per child of the first Warnings element, tagged with the operator's id |
| PlanAdapter.ColumnsByUsage | src/querysmith/adapters/sqlserver/plan_xml_to_ir.py:281-288 | the dictionary holds the three usages, each with the columns of its last group |
| PlanXmlToIr.LastGroupCounts | src/querysmith/adapters/sqlserver/plan_xml_to_ir.py:281-288 | a later group of one usage replaces an earlier one; without any the list is empty |
| PlanReading.IndexAgrees | src/querysmith/adapters/sqlserver/plan_xml_to_ir.py:273-298 | EQUALITY, INEQUALITY and INCLUDE columns fill the list of that usage, for the bracketless table |
| PlanAdapter.ExtractMissingIndexes | src/querysmith/adapters/sqlserver/plan_xml_to_ir.py:273-298 | all missing indexes of all groups in order, an error iff an impact does not parse |
| PlanXmlToIr.BracketsRestoredExactly | src/querysmith/adapters/sqlserver/plan_xml_to_ir.py:344-345 | stripping is idempotent; a bracketed name comes back iff its body has no bracket at either end |
| PlanAdapter.ParsePlanXml | src/querysmith/adapters/sqlserver/plan_xml_to_ir.py:51-128 | succeeds iff the three elements exist and every number read parses, and then returns the plan of the document |
| PlanContents.PlansOfWhichDocuments | src/querysmith/adapters/sqlserver/plan_xml_to_ir.py:65-80 | a document gives a plan iff its three parts are there and each attribute read as a number, named one by one, parses |
| PlanContents.StatementOfPlan | src/querysmith/adapters/sqlserver/plan_xml_to_ir.py:89-128 | text, type, cost, duration, rows, missing indexes and meta data of a plan, from the document and the options |
| PlanContents.TruncateMeaning | src/querysmith/adapters/sqlserver/plan_xml_to_ir.py:83-119 | a grant or a row count is the nearest whole number towards zero |
| OperatorMap.JoinClassesAgree | src/querysmith/adapters/sqlserver/operator_map.py:8-43 | each join operator type goes with its join type, both ways |
| OperatorMap.AccessClassesAgree | src/querysmith/adapters/sqlserver/plan_xml_to_ir.py:197-228 | how operator type and access type, from separate tables, constrain each other |
| PlanProperties.WalkOfPlan | src/querysmith/adapters/sqlserver/plan_xml_to_ir.py:80-87 | a finished plan's walk is the document's `RelOp`s, with the memory grant on the root alone |
| PlanProperties.PlanCoherent | src/querysmith/adapters/sqlserver/plan_xml_to_ir.py:197-228 | every operator of every built plan has agreeing type, join type and access type |
| RulesEngine.PromoteAdapterWarnings | src/querysmith/rules/engine.py:82-94 | one finding per warning, in order |
| RulesEngine.CheckLargeScans | src/querysmith/rules/engine.py:97-121 | the findings of the scan rule over the walk |
| RulesEngine.CheckCardinalitySkew | src/querysmith/rules/engine.py:124-145 | the findings of the skew rule over the walk |
| RulesEngine.CheckBookmarkLookups | src/querysmith/rules/engine.py:148-163 | the findings of the key-lookup rule over the walk |
| RulesEngine.CheckMissingIndexes | src/querysmith/rules/engine.py:189-213 | one suggestion with its script per missing index |
| RulesEngine.SortIsBySeverity | src/querysmith/rules/engine.py:71-73 | the stable sort is the critical, then warning, then info subsequence, each in its original order |
| RulesEngine.BySeverityPermutes | src/querysmith/rules/engine.py:63-73 | ordering loses, adds and changes nothing |
| RulesEngine.Evaluate | src/querysmith/rules/engine.py:63-73 | the rules in order, then severity order |
| Pipeline.RatioMeaning | src/querysmith/rules/engine.py:29-31 | a ratio at a threshold, stated as a comparison of the two row counts, for estimates of either sign |
| Pipeline.PipelineExact | src/querysmith/rules/engine.py:63-227 | for every document the findings, with rule ids, severities, texts and scripts written out, are those of a direct scan of the document, stably ordered by severity |
| FindingsByRule.SkewsReported | src/querysmith/rules/engine.py:124-145 | a cardinality_skew finding of a severity is about an id iff that is Warning and a RelOp with the id has estimate and rows tenfold apart |
| FindingsByRule.ScansReported | src/querysmith/rules/engine.py:97-121 | a large_table_scan finding is about an id iff a RelOp with the id is a scan of the rows that go with the severity: Critical from 100000, Warning from 10000 |
| FindingsByRule.LookupsReported | src/querysmith/rules/engine.py:148-163 | a non_covering_key_lookup finding is about an id iff it is a Warning and a RelOp with the id is a marked lookup of one of the three operators |
| FindingsByRule.ParallelismReported | src/querysmith/rules/engine.py:216-227 | parallelism_used is reported iff the root says `Parallel="1"`, as Info, about the root |
| FindingsByRule.MostSevereFirst | src/querysmith/rules/engine.py:71-73 | no finding comes after a less severe one |
| PlanProperties.SpillsReported | src/querysmith/rules/engine.py:82-94 | with distinct ids: spill flag, spill warning with that id, and critical spill finding for that id are equivalent |
| PlanProperties.ScanOrLookup | src/querysmith/rules/engine.py:97-163 | no operator of any plan satisfies both the large-scan and the key-lookup rule |
| PlanProperties.NeverScanAndLookup | src/querysmith/rules/engine.py:97-163 | so with distinct ids no id gets both a large-scan and a key-lookup finding |
| PlanProperties.FixOnlyForIndexes | src/querysmith/rules/engine.py:189-213 | a finding carries a Tier 0 fix iff it is a missing-index suggestion |
| PlanProperties.ScriptsFollowIndexes | src/querysmith/rules/engine.py:189-213 | the findings' scripts are those of the plan's missing indexes, one each, by impact class and in the plan's order |
| IndexScript.MissingIndexScript | src/querysmith/rules/engine.py:166-186 | the line-by-line construction prints the script text |
| IndexScript.ScriptTextExactly | src/querysmith/rules/engine.py:166-186 | the script, character by character, for any table, keys and included columns |
| IndexScript.ScriptReadsBackExactly | src/querysmith/rules/engine.py:166-186 | index name, table, keys and included columns are read back from the script iff no name holds `]` |
| PlanSummaries.TopOperators | src/querysmith/narration/plan_summary.py:57-68 | for a limit of 0 or more: the right size, in rank order, and nothing left out beats anything selected |
| PlanSummaries.RankOrder | src/querysmith/narration/plan_summary.py:57-68 | larger share first, then longer duration, then smaller id, missing figures at -1.0 |
| PlanSummaries.SummaryShows | src/querysmith/narration/plan_summary.py:21-89 | every field of a summary: the plan's figures, the operator count, text cut at 4000 characters, and the eight top operators highlighted as they are |
| PlanSummaries.SelectionIsOrderFree | src/querysmith/narration/plan_summary.py:57-68 | listing the operators in another order changes no selected rank and, if ids identify operators, no selected operator |
| PlanSummaries.PlanIdsIdentify | src/querysmith/narration/plan_summary.py:57-68 | distinct ids identify a plan's operators, so its selection is independent of their listing |
| Sorting.SortStable | src/querysmith/narration/plan_summary.py:68 | sorting keeps the order of elements that tie with one another |
| PlanSummaries.NullsLastExactly | src/querysmith/narration/plan_summary.py:57-68 | operators without a cost share rank last iff every stated share is above -1.0, or at -1.0 and ahead on duration, on id or, in a full tie, by place |
| PlanSummaries.NullsLastFails | src/querysmith/narration/plan_summary.py:57-68 | a plan whose ranking puts an operator without a share before one with a share of -2.0 |
| PlanSummaries.CostShares | src/querysmith/adapters/sqlserver/plan_xml_to_ir.py:331-334 | every operator's share times the statement's cost is its subtree cost; it is missing iff either is missing or the statement's is 0 |
| PlanSummaries.ParentSelected | src/querysmith/narration/plan_summary.py:57-68 | with strictly falling subtree costs and a positive total, a selected operator's parent is selected |
| PlanSummaries.AncestorsSelected | src/querysmith/narration/plan_summary.py:57-68 | so is every operator on the way up to the root |
| PlanSummaries.RelOpAncestorsSelected | src/querysmith/narration/plan_summary.py:57-68 | the same of the document: with costs falling in it, every `RelOp` above a selected one is selected |
| ModelResponse.EarliestIsFirst | src/querysmith/narration/engine.py:120-157 | a finding's text is that of the first usable entry carrying its index |
| ModelResponse.EarliestIsSound | src/querysmith/narration/engine.py:130-136 | merged texts are non-blank, stripped, in range and accepted |
| ModelResponse.OrderIrrelevantExactly | src/querysmith/narration/engine.py:120-157 | every permutation of the entries merges alike iff usable entries for one index agree |
| ModelResponse.JunkIgnored | src/querysmith/narration/engine.py:125-135 | unusable entries anywhere, in any number, change nothing |
| NarrationEngine.ExtractTexts | src/querysmith/narration/engine.py:120-157 | the dictionary-building loop holds, per index, the earliest usable text |
| NarrationEngine.GetNarration | src/querysmith/narration/engine.py:42-117 | the narration is the one the findings and the response determine; an error of the model call that is no OllamaClientError passes through |
| ModelAnswers.NarrationShows | src/querysmith/narration/engine.py:69-161 | finding i shows t from the model iff the first entry with that finding_index and a non-blank "explanation" says t; else summary and detail; likewise "suggested_fix" where Tier 0 has none |
| ModelAnswers.OverviewShows | src/querysmith/narration/engine.py:97-101 | the overview is the model's t iff "overview" is a string that strips to the non-empty t |
| ModelAnswers.OverviewFallsBack | src/querysmith/narration/engine.py:164-172 | else the findings are counted by severity for the named object or the statement |
| ModelAnswers.DegradedReasons | src/querysmith/narration/engine.py:58-67 | a degraded narration gives the client's error or invalid_response_shape as its reason |
| Text.StripTakesEnds | src/querysmith/narration/engine.py:98-136 | a strip takes only characters of its kind, from the two ends, and all of them there |
| NarrationEngine.FindingsAreAuthoritative | src/querysmith/narration/engine.py:72-95 | no response changes number, order, identity or Tier 0 fix of the findings |
| NarrationEngine.SameNarrationExactly | src/querysmith/narration/engine.py:69-117 | two responses give one narration iff overview, explanations and the fixes of findings without a Tier 0 fix come to the same |
| NarrationEngine.ResponseOrderIrrelevant | src/querysmith/narration/engine.py:69-95 | the whole narration ignores order and repetition of non-contradicting entries |
| NarrationEngine.ResponseOrderExactly | src/querysmith/narration/engine.py:69-95 | every permutation of the entries gives the same narration iff usable explanations, and usable fixes for findings without a Tier 0 fix, never contradict each other |
| NarrationEngine.OneEntryPerFinding | src/querysmith/narration/engine.py:69-95 | with one usable entry per finding every order of the entries gives the same narration |
| NarrationEngine.ResponseJunkIrrelevant | src/querysmith/narration/engine.py:125-135 | the whole narration ignores entries that give neither an explanation nor a fix that counts |
| NarrationEngine.EntriesDoNotInterfere | src/querysmith/narration/engine.py:72-95 | a finding's narration depends only on it and on the entries whose `finding_index` names it |
| NarrationEngine.DegradedExactly | src/querysmith/narration/engine.py:97-108 | degraded iff no usable overview and no usable explanation, and then and only then with a reason |
| FixEngine.ExtractField | src/querysmith/narration/fix_engine.py:83-109 | per index the earliest validated text; a rejected entry leaves its index open |
| FixEngine.ProposeFixes | src/querysmith/narration/fix_engine.py:32-80 | the proposal is the one findings, response and validators determine; an error of the model call that is no OllamaClientError passes through |
| ModelAnswers.ProposalShows | src/querysmith/narration/fix_engine.py:55-109 | a fix is in the proposal iff Tier 0 has none there and its texts, at least one, are what the first validated "rewritten_query" and "index_script" for its index say |
| ModelAnswers.ProposalDegraded | src/querysmith/narration/fix_engine.py:44-80 | degraded iff the answer is no JSON object, with that reason |
| FixEngine.ProposalSound | src/querysmith/narration/fix_engine.py:55-109 | indices increase strictly and are in range, never at a Tier 0 fix, and every kept text was validated |
| FixEngine.ProposalComplete | src/querysmith/narration/fix_engine.py:58-69 | a fix for index i is proposed iff Tier 0 has none and some entry offers a validated text |
| FixEngine.PlanFixGating | src/querysmith/narration/fix_engine.py:58-69 | over a plan's own findings: iff the finding is no missing-index suggestion and a validated text is offered |
| FixEngine.ProposedAlikeExactly | src/querysmith/narration/fix_engine.py:55-69 | the proposed fixes are the same iff both fields merge alike for the findings without a Tier 0 fix |
| FixEngine.ProposalOrderIrrelevant | src/querysmith/narration/fix_engine.py:83-109 | the proposal ignores order and repetition of non-contradicting entries |
| FixEngine.ProposalOrderExactly | src/querysmith/narration/fix_engine.py:55-109 | every permutation of the entries gives the same proposal iff validated texts for findings without a Tier 0 fix never contradict each other |
| FixEngine.OneOfferPerFinding | src/querysmith/narration/fix_engine.py:83-109 | with one validated entry per open finding every order of the entries gives the same proposal |
| FixEngine.ProposalJunkIrrelevant | src/querysmith/narration/fix_engine.py:83-109 | the proposal ignores entries that offer nothing validated for a finding without a Tier 0 fix |
| FixEngine.OffersDoNotInterfere | src/querysmith/narration/fix_engine.py:55-69 | the fix proposed for a finding depends only on it and on the entries whose `finding_index` names it |
| OdbcString.EscapedReadsBack | src/querysmith/db/connection.py:24-28 | every escaped value is read back, whatever it contains |
| OdbcString.BracedExactly | src/querysmith/db/connection.py:42 | an unescaped braced driver is read back iff it has no closing brace |
| OdbcString.PlainExactly | src/querysmith/db/connection.py:42 | a bare server or database is read back iff it has no semicolon and does not open with a brace |
| OdbcString.ConnectionStringReadsBackExactly | src/querysmith/db/connection.py:31-45 | for every user and password all six settings are read back iff driver, server and database are so |
| OdbcString.CredentialsAreDistinguished | src/querysmith/db/connection.py:31-45 | different credentials give different strings, with no condition on the other settings |
| PlanCapture.FindShowplanXml | src/querysmith/db/capture.py:79-91 | terminates and returns the first showplan, None iff no set has one and no step failed, and fetches and advances no further than that |
| PlanCapture.VisitsExactly | src/querysmith/db/capture.py:79-91 | each set before the first showplan or failing row is fetched if it has columns and passed over; that one is fetched, and nothing is asked for after it |
| PlanCapture.ShowplanMeaning | src/querysmith/db/capture.py:79-91 | a result set is a showplan iff its first row is one text that begins with `<ShowPlanXML` after leading space |
| PlanCapture.StatementSends | src/querysmith/db/capture.py:24-50 | the query, stripped and closed by a semicolon of its own or an added one, stands between SET STATISTICS XML ON and OFF |
| PlanCapture.CapturesAreBracketed | src/querysmith/db/capture.py:27-76 | a capture opens one connection iff the query validates and the server lets it, first of all, closes it last, and executes, once and iff there is a cursor, the query between SET STATISTICS XML ON and OFF, and nothing else |
| PlanCapture.CapturePlanXml | src/querysmith/db/capture.py:27-76 | the server sees exactly those events on every path, so any series of captures stays inside its connections' lifetimes; each outcome iff its cause |
| WebApp.StepKeepsSafe | src/querysmith/web/app.py:186-321 | any step of any request keeps safety |
| WebApp.EveryRunSafe | src/querysmith/web/app.py:186-321 | in every interleaving stored and held connections were verified, and cached results, reports and fix answers come from single published queries |
| WebApp.AnalysedPair | src/querysmith/web/app.py:289-303 | what a query caches are all findings and the summary of its document, field by field |
| WebApp.FixAnswersAreCoherent | src/querysmith/web/app.py:312-321 | a fix answer is computed from the summary and all the findings of one captured document over a verified connection's database, with all indices valid and no Tier 0 fix overridden |
| WebSerial.AloneIsARun | src/querysmith/web/app.py:186-321 | a request handled without interruption is one of the interleavings |
| WebSerial.SeriesIsARun | src/querysmith/web/app.py:186-321 | a whole series of requests handled one after another is a run from the initial state, with the same slots and replies |
| WebSerial.ParsedQueryAlone | src/querysmith/web/app.py:273-310 | a successful query caches all findings and the summary of its document as those of the current connection, and reports them or, if the model call raises, answers 500 with them cached all the same |
| WebSerial.FailedQueryAlone | src/querysmith/web/app.py:282-299 | a rejected, failed or unparsable query leaves both slots alone |
| WebSerial.QueryReplies | src/querysmith/web/app.py:282-310 | 422, 502 or 500 with nothing cached, by what the validator, the server and the document do; otherwise the pair of the first showplan is cached and, unless the model call raises, reported with its narration |
| WebSerial.ConnectAlone | src/querysmith/web/app.py:186-224 | an accepted connect stores its connection; a refused one answers 400, any other error 500, with nothing changed |
| WebSerial.StatusAlone | src/querysmith/web/app.py:226-238 | the status tells the stored connection, and answers 500 when a disconnect comes between its two looks |
| WebSerial.SerialRunsFresh | src/querysmith/web/app.py:240-249 | requests one after another never leave a cached result while disconnected |
| WebSerial.SerialRunsOwnedExactly | src/querysmith/web/app.py:186-249 | one after another, requests keep the cached result with its connection throughout iff no accepted connect goes elsewhere while something is cached |
| WebFreshness.FreshRunsExactly | src/querysmith/web/app.py:240-303 | an interleaved run holds a cached result while disconnected only in the middle of a disconnect iff each publish while disconnected is in the middle of one |
| WebFreshness.OwnedRunsExactly | src/querysmith/web/app.py:186-303 | an interleaved run keeps the cached result with its connection, except in the middle of a disconnect, iff each publish over another connection and each connect elsewhere with something cached is in the middle of one |
| WebFreshness.FixesUseCurrentConnection | src/querysmith/web/app.py:312-321 | under that condition a fix request begun outside a disconnect works on a published result of the current connection |
| WebFreshness.SmallestCapture | src/querysmith/db/capture.py:27-91 | a validated query, and an answer of the server, that are captured as the document of the runs below |
| WebFreshness.LatePublishHappens | src/querysmith/web/app.py:246-249 | a run that ends disconnected with a cached result and no disconnect under way |
| WebFreshness.ForeignPublishHappens | src/querysmith/web/app.py:246-249 | a run that ends connected to b with a's result cached, though a was disconnected, and no disconnect under way |
| WebFreshness.SerialReconnectOrphans | src/querysmith/web/app.py:186-224 | connect, query, connect elsewhere, one at a time, ends with the old connection's result cached |
| WebHistory.CacheIsLatest | src/querysmith/web/last_result.py:35-52 | in every run the cache holds the pair of the latest publish that no disconnect has cleared since, and is empty iff there is none |
| WebHistory.FixAnswersLatestReport | src/querysmith/web/app.py:312-321 | a fix answers for the pair that the latest publish before its look at the cache reports, and is refused with 409 iff there is none or it has been cleared |
| WebHistory.EveryPairIsADocuments | src/querysmith/web/app.py:273-321 | in every run, every published pair is all findings and the summary of a document captured for a query some request asked, over a connection some accepted request asked for; reports and fix answers are about such pairs as they are |
| WebHistory.OnlyValidatedQueriesRun | src/querysmith/db/capture.py:27-76 | in every run each capture is one connection, opened first and closed last, and executes once and only a query that some request asked and the validator accepts, between SET STATISTICS XML ON and OFF |
| WebHandlers.CreateConnection | src/querysmith/web/app.py:186-224 | slots and reply are those of the connect request run alone |
| WebHandlers.GetConnection | src/querysmith/web/app.py:226-238 | slots and reply are those of the status request run alone |
| WebHandlers.DeleteConnection | src/querysmith/web/app.py:240-249 | both slots are empty, as after the disconnect request run alone |
| WebHandlers.RunQuery | src/querysmith/web/app.py:273-310 | capture, adapter, rules, summary and narration together do what the query request run alone does, on the slots, in the reply and on the database server |
| WebHandlers.ProposeFix | src/querysmith/web/app.py:312-321 | slots and reply are those of the fix request run alone |

## Left out

- PlanAdapter.ParsePlanXml: numbers are reals, so NaN, infinities and rounding of IEEE doubles are not modelled, and all ValueErrors are one error without its text.
- OdbcString.ConnectionStringReadsBackExactly: the reader takes a value as braced only if the brace is its first character; spaces before a brace are not skipped.
- PlanCapture.FindShowplanXml: the cursor's rows after the first are not modelled, and the driver's errors are given by where they occur, not by their text.
- WebFreshness.OwnedRunsExactly: a connection is its parameters; reconnecting with the same ones counts as the same connection.
- WebApp.EveryRunSafe: the lock of each store is modelled by making each access one indivisible step.
- Operators, findings and narrations are values: object identity and aliasing between the cached list and the one a report is built from are not modelled; no code changes them after they are built.
- XML text, comments, processing instructions, namespaces and syntax errors: documents are element trees of one namespace.
- SQL parsing in `db/query_safety.py` and `db/catalog.py`: the validators are arbitrary predicates that return their input unchanged.
- `GET /api/views`, its catalogue query and the command-line front end: they read the session or run the same pipeline and add no state.
- Prompt construction, report formatting, the browser code and the wording of numbers and lists inside findings.
- `redact`, an identity in the source, and the capture timestamp.
- Response models that copy fields for JSON: replies hold the values they are built from.

# Test dataset generator core, modelled in Dafny

The system turns a requirements document into a labelled test dataset for a
support bot, a doctor booking bot or an operator-quality checker. An LLM does
the creative work. Around it sits a deterministic core, which this project
models and proves properties of:

- **Records** (`TestCaseModel`, `DatasetExampleModel`, `EvidenceModel`, `PolicyModel`, `UseCaseModel`).
  Each record type is a datatype with a validity predicate and a constructor that either builds the record or fails:
  - ids carry the prefixes `uc_`, `pol_`, `tc_` and `ex_`;
  - a test case has two or three variation axes;
  - an example has at least three criteria and at least one `pol_` policy id;
  - evidence line ranges are well formed;
  - an example's target message index points at an operator message.
- **Extraction checks** (`MarkdownParser`, `FuzzyMatcher`, `EvidenceValidator`):
  - numbered document lines;
  - the line-ending and trailing-blank normalisation;
  - verifying that an evidence quote matches the cited lines.
- **Variations** (`VariationRouter`):
  - the axis tables per case;
  - zipping the pairwise combinations into dicts;
  - padding them up to a minimum count;
  - choosing the two or three dominant axes of each dict (`_select_variation_axes`).
- **Format adapters** (`FormatAdapters`, `SingleTurnQa`, `OperatorCorrections`):
  - the dispatch table;
  - how each adapter builds an example around the LLM's answer;
  - each adapter's own `validate_format`;
  - the prompt fragments built from policies and parameters.
- **The orchestrator** (`Orchestrator`, `FrameworkTier`, `OrchestratorPrompts`) runs three tiers:
  1. the format adapters run over every format and variation;
  2. while the minimum is not reached, the LLM routes to framework generators (only DeepEval can contribute);
  3. while still short, the direct OpenAI fallback (`Fallback`) is asked for exactly the shortfall.
- **Engine record adapters** (`DeepevalAdapter`, `RagasAdapter`, `GiskardAdapter`, with shared rules in `EngineRecords`).
  They map foreign records to test cases and examples.
- **Checks after generation** (`Coverage`, `IntegrityChecker`, `Report`, `QualityReport`):
  - coverage rules;
  - the two referential integrity checks;
  - the validation report accumulator;
  - the dataset quality summary.
- **Source tagging** (`SourceClassifier`): the heuristic rules that tag a support_bot example's source.

Every call to the outside world is a parameter of the model:
- LLM answers;
- uuids;
- `AllPairs`;
- the DeepEval generator;
- the temporary file's path.

`Base`, `Text` and `Values` hold shared helpers:
- Result and Option;
- Python string functions;
- Python's dynamic values and ordered dicts.

Where the code and its design documentation disagree, the model follows the code:

- **Failing adapters still count.** The orchestrator appends each test case before its adapter is called. A failed adapter call therefore leaves a test case without an example, and that test case still counts toward the minimum. `Orchestrator.TierAloneSuffices` shows that the adapter tier alone can be the whole result, without a single example.
- **Ragas and Giskard never contribute.** Their invocations always fail. One calls `.to_pandas()` on a DataFrame. The other passes keyword arguments the generator does not accept.
- **Only the first format gets real axes.** `_variation_axes` is popped from the variation dicts that all formats share, so every format after the first gets the axes `["default", "default"]`.
- **Some docstring examples fail.** The examples in `coverage.py`, `integrity_checker.py` and `orchestrator.py` build `UseCase` and `Policy` records with empty evidence, which their validators reject.

## Model

| member | source | states |
|---|---|---|
| TestCaseModel.MakeTestCase | src/dataset_generator/models/test_case.py:6-56 | Construction succeeds exactly when the id has `tc_`, the use case id has `uc_` and there are two or three axes. The record then holds exactly the given fields and is valid. |
| TestCaseModel.MakeTestCaseList | src/dataset_generator/models/test_case.py:59-62 | A list is accepted exactly when every item is valid, and it is kept as given. |
| EvidenceModel.MakeEvidence | src/dataset_generator/models/evidence.py:7-35 | Accepted exactly when `line_start >= 1`, the quote is not blank and `line_end >= line_start`. The accepted record keeps its four fields. |
| EvidenceModel.ValidIffAccepted | src/dataset_generator/models/evidence.py:20-35 | A record is valid exactly when rebuilding it from its own fields gives it back. |
| EvidenceModel.WhitespaceQuoteRejected | src/dataset_generator/models/evidence.py:20-26 | A quote made only of whitespace is refused, whatever its length. |
| PolicyModel.ParsePolicyType | src/dataset_generator/models/policy.py:8-20 | A type name that parses prints back as the same string. |
| PolicyModel.ParsePolicyTypeName | src/dataset_generator/models/policy.py:8-20 | Every one of the five policy types parses back from its own name. |
| PolicyModel.MakePolicy | src/dataset_generator/models/policy.py:11-53 | Accepted exactly when the id has `pol_`, the type is one of the five, and there is at least one evidence item with every item valid. The fields are kept and `case` defaults to "". An empty statement is filled from the description. |
| PolicyModel.MakePolicyList | src/dataset_generator/models/policy.py:56-59 | A list is accepted exactly when every policy is valid, and it is kept as given. |
| UseCaseModel.MakeUseCase | src/dataset_generator/models/use_case.py:8-35 | Accepted exactly when the id has `uc_` and there is at least one evidence item with every item valid. The fields are kept. |
| UseCaseModel.MakeUseCaseList | src/dataset_generator/models/use_case.py:38-41 | A list is accepted exactly when every use case is valid, and it is kept as given. |
| UseCaseModel.UseCaseListKeepsDuplicates | src/dataset_generator/models/use_case.py:38-41 | The list imposes no uniqueness: the same valid use case twice is accepted. |
| Report.ValidationResult.constructor | src/dataset_generator/validation/report.py:12-17 | A new report has no errors, warnings, counts or formats, and is valid. |
| Report.ValidationResult.AddError | src/dataset_generator/validation/report.py:24-26 | The message is appended to the errors and the report is no longer valid. Nothing else changes. |
| Report.ValidationResult.AddWarning | src/dataset_generator/validation/report.py:28-30 | The message is appended to the warnings. Validity and every other field are unchanged. |
| Report.ValidationResult.SetCount | src/dataset_generator/validation/report.py:32-34 | The count under `key` becomes `val`, replacing any earlier value. Nothing else changes. |
| MarkdownParser.ParseMarkdownWithLines | src/dataset_generator/extraction/markdown_parser.py:21-50 | The text has no `\r` and is left unchanged when it had none. There is at least one line, no line holds `\n` or `\r`, and joining the lines with `\n` gives the text back. |
| MarkdownParser.NumberedTextLines | src/dataset_generator/extraction/markdown_parser.py:53-70 | The numbered text has exactly one line per document line, and line `k` is `"<k+1>: "` followed by document line `k + 1`. |
| FuzzyMatcher.TrimLines | src/dataset_generator/utils/fuzzy_matcher.py:11 | Every line loses its trailing whitespace and no line is added or lost. |
| FuzzyMatcher.NewlinesHaveNoCR | src/dataset_generator/utils/fuzzy_matcher.py:10 | After the line-ending step no `\r` remains. |
| FuzzyMatcher.NewlinesFixed | src/dataset_generator/utils/fuzzy_matcher.py:10 | Text without `\r` is unchanged by the line-ending step. |
| FuzzyMatcher.TrimmedLinesClean | src/dataset_generator/utils/fuzzy_matcher.py:10-11 | No trimmed line holds `\n` or `\r`. |
| FuzzyMatcher.NormalizedShape | src/dataset_generator/utils/fuzzy_matcher.py:4-11 | The normalised text has no `\r`, splits back into the trimmed lines, and no line of it ends in whitespace. |
| FuzzyMatcher.LineOfJoinHasNoChar | src/dataset_generator/utils/fuzzy_matcher.py:11 | A character absent from the joined text is absent from every line. |
| FuzzyMatcher.NormalizeIdempotent | src/dataset_generator/utils/fuzzy_matcher.py:4-11 | Normalising twice gives the same text as normalising once. |
| FuzzyMatcher.NormalizeKeepsLineCount | src/dataset_generator/utils/fuzzy_matcher.py:4-11 | Normalisation keeps the number of lines. |
| EvidenceValidator.VerdictMeaning | src/dataset_generator/extraction/evidence_validator.py:7-63 | A start line below 1 and an end line past the document are refused first. Otherwise the quote is accepted exactly when its normalised form equals the normalised cited lines. An acceptance carries "" and a refusal a non-empty message. |
| EvidenceValidator.QuoteSeenOnlyNormalized | src/dataset_generator/extraction/evidence_validator.py:45-56 | Two quotes with the same normalised form get the same verdict, so trailing blanks and CR/CRLF endings do not matter. |
| EvidenceValidator.OwnLinesAccepted | src/dataset_generator/extraction/evidence_validator.py:41-56 | Quoting the cited lines verbatim, or in normalised form, is always accepted when the bounds are in range. |
| EvidenceValidator.OwnerCounts | src/dataset_generator/extraction/evidence_validator.py:89-96 | Within one item, every evidence entry is counted exactly once, either as valid or as one error line. |
| EvidenceValidator.AllCounts | src/dataset_generator/extraction/evidence_validator.py:86-96 | The valid count plus the number of error lines equals the total number of evidence entries across all items. |
| EvidenceValidator.OwnerStep | src/dataset_generator/extraction/evidence_validator.py:89-96 | Each further entry adds its own verdict to the counts. A refused entry adds the line `"<id> evidence[<i>]: <message>"`. |
| EvidenceValidator.ValidateOwnerEvidence | src/dataset_generator/extraction/evidence_validator.py:89-96 | The inner loop returns exactly the reference valid count and error lines for one item. |
| EvidenceValidator.ValidateAllEvidence | src/dataset_generator/extraction/evidence_validator.py:66-98 | The loop returns the reference counts and errors. The invalid count equals the number of errors, and valid plus invalid equals the total evidence count. |
| DatasetExampleModel.ParseRole | src/dataset_generator/models/dataset_example.py:10-12 | An accepted role prints back as the same string. |
| DatasetExampleModel.ParseRoleName | src/dataset_generator/models/dataset_example.py:10-12 | Each of the four roles parses back from its own name. |
| DatasetExampleModel.MakeMessage | src/dataset_generator/models/dataset_example.py:7-13 | Accepted exactly when the role is one of the four literals. The role and the content are kept. |
| DatasetExampleModel.MakeInputData | src/dataset_generator/models/dataset_example.py:16-44 | Accepted exactly when there is at least one message and any target index is in range and names an operator message. The fields are kept. |
| DatasetExampleModel.TargetMustBeOperator | src/dataset_generator/models/dataset_example.py:37-43 | A target index that names a message not from the operator is refused. |
| DatasetExampleModel.FirstUnprefixed | src/dataset_generator/models/dataset_example.py:127-131 | The reported id is the first one without `pol_`, and every id before it has the prefix. |
| DatasetExampleModel.MakeExample | src/dataset_generator/models/dataset_example.py:47-132 | Accepted exactly when the id prefixes `ex_`, `uc_` and `tc_` hold, there are at least three criteria, and there is at least one policy id with every id starting `pol_`. The fields are kept. |
| DeepevalAdapter.EvolutionAxes | src/dataset_generator/generation/adapters/deepeval_adapter.py:65-79 | Every evolution type gets two or three axes. |
| DeepevalAdapter.AxesByEvolution | src/dataset_generator/generation/adapters/deepeval_adapter.py:65-76 | Each of the five branches of the evolution-type table gets its own axes, and any other value gets the three default axes. |
| DeepevalAdapter.ContextDescription | src/dataset_generator/generation/adapters/deepeval_adapter.py:55-59 | A non-empty list context gives a prefix of its first item of at most 200 characters. Otherwise the input gives the description, or the generic sentence when the input is empty. |
| DeepevalAdapter.AdaptGoldenToTestCase | src/dataset_generator/generation/adapters/deepeval_adapter.py:17-112 | A record is produced exactly when the use case id has `uc_`. It is valid and carries the `tc_<uc><index:03>` id, the name, the description, the evolution axes and the generator metadata. |
| DeepevalAdapter.ExampleCriteria | src/dataset_generator/generation/adapters/deepeval_adapter.py:173-195 | Every evolution type gets four criteria, including `policy_compliance`. |
| DeepevalAdapter.ExampleMetadataKeepsOwnKeys | src/dataset_generator/generation/adapters/deepeval_adapter.py:215-226 | `generator`, `evolution_type` and `context_count` keep the adapter's values. Every other key of the golden's metadata is copied unchanged. |
| DeepevalAdapter.AdaptGoldenToExample | src/dataset_generator/generation/adapters/deepeval_adapter.py:115-259 | An example is produced exactly when the `uc_` and `tc_` prefixes hold and the chosen policy ids are all prefixed with `pol_`. Empty ids count as `pol_unknown`. The main path keeps the input, the answer, the criteria and the metadata. When no ids were chosen, the minimal record of the `except` branch is used. |
| DeepevalAdapter.ScrapedIdsNeverFail | src/dataset_generator/generation/adapters/deepeval_adapter.py:197-213 | Without given policy ids, only the id prefixes can fail, and the example carries the ids scraped from the context. |
| DeepevalAdapter.DocumentedTestCase | src/dataset_generator/generation/adapters/deepeval_adapter.py:32-42 | The docstring's golden gives a `tc_` test case tagged `deepeval` with the reasoning axes. |
| DeepevalAdapter.DocumentedExample | src/dataset_generator/generation/adapters/deepeval_adapter.py:138-151 | The docstring's golden gives an `ex_` example tagged `deepeval` with at least three criteria. |
| EngineRecords.EngineTestCaseId | src/dataset_generator/generation/adapters/ragas_adapter.py:38 | Every adapter test-case id starts with `tc_`. |
| EngineRecords.EngineExampleId | src/dataset_generator/generation/adapters/ragas_adapter.py:139 | Every adapter example id starts with `ex_`. |
| EngineRecords.EngineIdsInjective | src/dataset_generator/generation/adapters/ragas_adapter.py:38-139 | Within one use case, different indices give different test-case ids and different example ids. |
| EngineRecords.FalsyIsShort | src/dataset_generator/generation/adapters/ragas_adapter.py:42-43 | A falsy value prints in at most five characters, so it never triggers the 80-character cut. |
| EngineRecords.EngineNameShape | src/dataset_generator/generation/adapters/ragas_adapter.py:40-44 | A falsy question gives "Test case N". A short truthy one is kept whole. A longer one is cut at its last space within 80 characters and gets "...". |
| EngineRecords.QuestionDescription | src/dataset_generator/generation/adapters/ragas_adapter.py:51 | A truthy question gives a prefix of its text of at most 200 characters. |
| EngineRecords.AnswerDescription | src/dataset_generator/generation/adapters/ragas_adapter.py:46-51 | It fails exactly on a list answer of two or more items, where `pd.notna(x) and x` raises. Otherwise a present, truthy answer gives a prefix of its text of at most 200 characters, and the question decides for any other answer. |
| EngineRecords.AnswerText | src/dataset_generator/generation/adapters/ragas_adapter.py:146-152 | It fails exactly on a list answer of two or more items, where `pd.isna(x) or not x` raises. Otherwise a missing, NaN or falsy answer becomes "" and any other answer its `str`. |
| EngineRecords.OrValue | src/dataset_generator/generation/adapters/ragas_adapter.py:57 | Python's `x or y` on two lookups: a truthy first value wins, otherwise the second. A missing key counts as `None`. |
| EngineRecords.ScrapedPolicyIdsSpec | src/dataset_generator/generation/adapters/ragas_adapter.py:185-202 | The scraped ids are never empty, all start with `pol_` and hold no repeat. They are exactly the `pol_\w+` references found in the string contexts, or `pol_unknown` alone when there is none. |
| EngineRecords.OrUnknown | src/dataset_generator/generation/adapters/ragas_adapter.py:250 | `policy_ids or ["pol_unknown"]` is never empty. |
| EngineRecords.MergeMissingKeys | src/dataset_generator/generation/adapters/ragas_adapter.py:215-219 | The merge loop gives exactly the reference merge. |
| EngineRecords.MergeMissingSpec | src/dataset_generator/generation/adapters/ragas_adapter.py:215-219 | The merge keeps every existing key and its value. It adds exactly the missing keys, each with the first value the extra metadata holds for it. |
| EngineRecords.WithRowMetadataSpec | src/dataset_generator/generation/adapters/ragas_adapter.py:215-219 | The adapter's own keys keep their values, a missing row key is added with its value, and a row without dict metadata changes nothing. |
| EngineRecords.MinimalTestCase | src/dataset_generator/generation/adapters/ragas_adapter.py:98-108 | The fallback test case of the `except` branch can itself be built exactly when the use case id has `uc_`. |
| EngineRecords.MinimalExample | src/dataset_generator/generation/adapters/ragas_adapter.py:238-252 | The fallback example can be built exactly when the `uc_` and `tc_` prefixes hold and the ids (or `pol_unknown`) all start with `pol_`. It carries an empty user turn, the three generic criteria and the `adaptation_error` metadata. |
| RagasAdapter.EvolutionType | src/dataset_generator/generation/adapters/ragas_adapter.py:55-61 | A truthy metadata `evolution_type` wins, then a truthy metadata `synthesizer_name`. Otherwise the row's own `evolution_type`, then `synthesizer_name`, then "unknown". |
| RagasAdapter.EvolutionAxes | src/dataset_generator/generation/adapters/ragas_adapter.py:63-72 | Always two axes, chosen by the first substring test that holds on the lower-cased type: reasoning/abstract, then multi/specific, then simple/single. |
| RagasAdapter.EvolutionCriteria | src/dataset_generator/generation/adapters/ragas_adapter.py:162-183 | Four criteria for reasoning or multi-context types and three otherwise, always with `policy_compliance`. |
| RagasAdapter.SpecificBeatsSingle | src/dataset_generator/generation/adapters/ragas_adapter.py:63-72 | Ragas' own `single_hop_specific_query_synthesizer` gets the multi-context axes and criteria, because "specific" is tested before "single". |
| RagasAdapter.AdaptRowToTestCase | src/dataset_generator/generation/adapters/ragas_adapter.py:18-108 | A record is produced exactly when the use case id has `uc_`. It is valid and carries the engine id. When the ground truth does not raise, it also carries the name, the description from the ground truth or the question, the evolution axes and the adapter metadata. A list ground truth of two or more items raises, so the minimal test case comes back instead, with its error text. |
| RagasAdapter.AdaptRowToExample | src/dataset_generator/generation/adapters/ragas_adapter.py:111-252 | An example is produced exactly when the prefixes hold and the policy ids in use (or `pol_unknown`) all start with `pol_`. The main path keeps the question, the cleaned answer, the criteria and the merged metadata. Otherwise the minimal record is used. A list ground truth of two or more items raises before the contexts are scanned, so the minimal example carries the caller's policy ids, or `pol_unknown`. |
| RagasAdapter.NanGroundTruth | src/dataset_generator/generation/adapters/ragas_adapter.py:146-152 | A NaN ground truth gives an empty expected output, and the test case's description falls back to the question. |
| RagasAdapter.OwnKeysKept | src/dataset_generator/generation/adapters/ragas_adapter.py:215-219 | The row's metadata never replaces `generator`, `evolution_type` or `contexts_used`. |
| GiskardAdapter.QuestionAxes | src/dataset_generator/generation/adapters/giskard_adapter.py:58-67 | Always two axes: complex/multi first, then simple/direct, then conversational, then the knowledge-base defaults. |
| GiskardAdapter.QuestionCriteria | src/dataset_generator/generation/adapters/giskard_adapter.py:154-174 | Four criteria for complex types and three otherwise, always with `policy_compliance`. Conversational is tested right after complex. |
| GiskardAdapter.SimpleConversationalTests | src/dataset_generator/generation/adapters/giskard_adapter.py:58-64 | "simple_conversational" passes the simple and the conversational tests and fails the complex one. |
| GiskardAdapter.SimpleConversationalSplit | src/dataset_generator/generation/adapters/giskard_adapter.py:58-174 | The two tables test in different orders, so a "simple_conversational" question gets the simple axes but the conversational criteria. |
| GiskardAdapter.ContextPreview | src/dataset_generator/generation/adapters/giskard_adapter.py:69-71 | The preview is at most 200 characters and is a prefix of a truthy reference context. |
| GiskardAdapter.AdaptRowToTestCase | src/dataset_generator/generation/adapters/giskard_adapter.py:18-103 | A record is produced exactly when the use case id has `uc_`. It is valid with the engine id. When the reference answer does not raise, it also carries the name, the description from the reference answer or the question, the axes and the adapter metadata. A list reference answer of two or more items raises, so the minimal test case comes back instead. |
| GiskardAdapter.AdaptRowToExample | src/dataset_generator/generation/adapters/giskard_adapter.py:106-241 | An example is produced exactly when the prefixes hold and the policy ids in use (or `pol_unknown`) all start with `pol_`. The main path keeps the question, the cleaned answer, the criteria and the merged metadata. Otherwise the minimal record is used. A list reference answer of two or more items raises before the context is scanned, so the minimal example carries the caller's policy ids, or `pol_unknown`. |
| GiskardAdapter.NonStringContextIsUnknown | src/dataset_generator/generation/adapters/giskard_adapter.py:176-191 | A reference context that is not a string yields `pol_unknown` alone. |
| GiskardAdapter.GeneratorKept | src/dataset_generator/generation/adapters/giskard_adapter.py:204-208 | The row's metadata never replaces the `giskard` generator tag. |
| FormatAdapters.FormatName | src/dataset_generator/generation/format_adapters/__init__.py:39-43 | Every adapter's format name is one of the registry's three keys. |
| FormatAdapters.FormatNameInjective | src/dataset_generator/generation/format_adapters/__init__.py:39-43 | Different adapters have different format names, in both directions. |
| FormatAdapters.GetAdapterForFormat | src/dataset_generator/generation/format_adapters/__init__.py:21-51 | An adapter is found exactly for the three registered names. It handles that format and carries the given case. Any other name gives the "Unknown format … Supported formats: […]" error. |
| FormatAdapters.LookupRoundTrip | src/dataset_generator/generation/format_adapters/__init__.py:45-51 | Looking up an adapter's own format name with its case gives that adapter back. |
| FormatAdapters.ValidateFormat | src/dataset_generator/generation/format_adapters/base.py:39-49 | An empty error list means the example carries the adapter's format. There are at most four errors. |
| FormatAdapters.GeneratedExamplePasses | src/dataset_generator/generation/format_adapters/base.py:14-49 | Whatever an adapter generates is a valid example of the adapter's format, case, use case and test case, and it passes that adapter's own format check. |
| FormatAdapters.FailedCallFails | src/dataset_generator/generation/format_adapters/base.py:14-37 | A failed LLM call, or an answer of another adapter's schema, gives no example. |
| FormatAdapters.ValidForOneFormatOnly | src/dataset_generator/generation/format_adapters/base.py:39-58 | An example passes the format checks of at most one kind of adapter. |
| SingleTurnQa.PolicyLines | src/dataset_generator/generation/format_adapters/single_turn_qa.py:222-227 | One prompt line per policy. |
| SingleTurnQa.FormatPoliciesText | src/dataset_generator/generation/format_adapters/single_turn_qa.py:210-229 | The loop gives the reference policy text: the "No specific policies provided." sentence for none, otherwise the lines joined with `\n`. |
| SingleTurnQa.GetSingleLine | src/dataset_generator/generation/format_adapters/single_turn_qa.py:224-226 | A lookup in a dict without line breaks, or its default, prints without a line break. |
| SingleTurnQa.PolicyLineSingle | src/dataset_generator/generation/format_adapters/single_turn_qa.py:224-227 | A policy dict without line breaks gives a single-line prompt line. |
| SingleTurnQa.OneLinePerPolicy | src/dataset_generator/generation/format_adapters/single_turn_qa.py:219-229 | When no value holds a line break, the text splits back into exactly one line per policy, in order, each starting with "- ". |
| SingleTurnQa.MissingPolicyFields | src/dataset_generator/generation/format_adapters/single_turn_qa.py:224-227 | A dict without any of the four keys prints "- pol_unknown (unknown): ". |
| SingleTurnQa.StatementFallsBack | src/dataset_generator/generation/format_adapters/single_turn_qa.py:226 | An empty or missing statement is replaced by the description. |
| SingleTurnQa.ParameterLines | src/dataset_generator/generation/format_adapters/single_turn_qa.py:243-245 | Line `i` is "- key: value" for entry `i`. |
| SingleTurnQa.FormatParametersText | src/dataset_generator/generation/format_adapters/single_turn_qa.py:231-247 | The loop gives the reference parameter text: the default-scenario sentence for none, otherwise the lines joined with `\n`. |
| SingleTurnQa.OneLinePerParameter | src/dataset_generator/generation/format_adapters/single_turn_qa.py:240-247 | When no key or value holds a line break, the text splits back into one line per entry, in order. |
| SingleTurnQa.LeadingPolicyNames | src/dataset_generator/generation/format_adapters/single_turn_qa.py:207 | The summary names at most the first three policies. |
| SingleTurnQa.SummaryUsesFirstThree | src/dataset_generator/generation/format_adapters/single_turn_qa.py:194-208 | Policies after the third do not change the use-case summary. |
| SingleTurnQa.ExampleId | src/dataset_generator/generation/format_adapters/single_turn_qa.py:249-263 | Every generated example id starts with `ex_`. |
| SingleTurnQa.ExampleIdOfTestCase | src/dataset_generator/generation/format_adapters/single_turn_qa.py:258-263 | For `tc_<rest>` the id is `ex_<rest>_<first 8 uuid characters>`, twelve characters longer than `rest`. |
| SingleTurnQa.GenerateExample | src/dataset_generator/generation/format_adapters/single_turn_qa.py:43-147 | An example is produced exactly when the call parsed, the answer meets the schema's minimum lengths, and the `uc_`, `tc_` and `pol_` prefixes hold. It is valid, passes the format check and carries the answer's message, response, criteria, policy ids and the adapter metadata. |
| SingleTurnQa.ValidateFormat | src/dataset_generator/generation/format_adapters/single_turn_qa.py:149-184 | There are no errors exactly when the format is single_turn_qa and there is one user message with no target index. There are at most four messages. |
| SingleTurnQa.TwoFailedChecks | src/dataset_generator/generation/format_adapters/single_turn_qa.py:166-182 | Two messages plus a stray target index fail exactly two checks. |
| OperatorCorrections.ErrorLine | src/dataset_generator/generation/format_adapters/operator_corrections.py:249-276 | Every error instruction is rendered as a prompt bullet starting with "- ". |
| OperatorCorrections.ErrorInstructionItems | src/dataset_generator/generation/format_adapters/operator_corrections.py:237-276 | One instruction per error parameter at an error level, in a fixed order, then the length instruction ("medium" by default), which is always last. Caps and medical terms appear exactly when their parameters ask for them. |
| OperatorCorrections.ErrorInstructionLines | src/dataset_generator/generation/format_adapters/operator_corrections.py:237-281 | Line `i` renders instruction `i`. |
| OperatorCorrections.GenericErrorsUnreachable | src/dataset_generator/generation/format_adapters/operator_corrections.py:278-281 | Because the length line is always added, the generic fallback sentence is never produced. The instructions are the joined bullets. |
| OperatorCorrections.DefaultParametersGiveLengthOnly | src/dataset_generator/generation/format_adapters/operator_corrections.py:237-281 | With none of the parameters set, only "- Message length: medium" remains. |
| OperatorCorrections.NeutralValuesAddNothing | src/dataset_generator/generation/format_adapters/operator_corrections.py:249-270 | The neutral values "none", False and "absent" add no instruction. |
| OperatorCorrections.AllErrorsMixed | src/dataset_generator/generation/format_adapters/operator_corrections.py:249-276 | When every error parameter is at an error level, all five instructions appear in the source's order. |
| OperatorCorrections.ContextInstructionItems | src/dataset_generator/generation/format_adapters/operator_corrections.py:504-526 | There is a tone instruction exactly for a frustrated or angry customer. The escalation instruction appears exactly when `escalation_needed` is "yes". |
| OperatorCorrections.StandardDialogExactly | src/dataset_generator/generation/format_adapters/operator_corrections.py:526-531 | A calm customer with no escalation gives "Standard customer support dialog". Otherwise the text is the joined bullets. |
| OperatorCorrections.GenerateSingleUtterance | src/dataset_generator/generation/format_adapters/operator_corrections.py:63-169 | An example is produced exactly when the call parsed, the answer meets the schema's minimum lengths, and the id prefixes hold. It is one operator message targeted at index 0, is valid and passes its format check, and carries the answer's correction, criteria and policy ids. |
| OperatorCorrections.ValidateSingleUtterance | src/dataset_generator/generation/format_adapters/operator_corrections.py:171-206 | There are no errors exactly when the format matches, there is one operator message and the target index is 0. There are at most four errors. |
| OperatorCorrections.QaShapeIsNotUtterance | src/dataset_generator/generation/format_adapters/operator_corrections.py:195-204 | A single_turn_qa-shaped example fails exactly the role check and the target check. |
| OperatorCorrections.ConvertMessage | src/dataset_generator/generation/format_adapters/operator_corrections.py:406-409 | A dict turn converts exactly when its role and content are strings and the role is one of the four. The converted message keeps both. |
| OperatorCorrections.AllWellFormedSpec | src/dataset_generator/generation/format_adapters/operator_corrections.py:406-409 | The front-to-back check holds exactly when every turn is well formed. |
| OperatorCorrections.ConvertMessages | src/dataset_generator/generation/format_adapters/operator_corrections.py:406-409 | The list comprehension succeeds exactly when every turn converts, and it keeps the number of turns. |
| OperatorCorrections.ConvertMessagesAt | src/dataset_generator/generation/format_adapters/operator_corrections.py:406-409 | Converted turn `i` is the conversion of turn `i` and keeps its role. |
| OperatorCorrections.DialogExample | src/dataset_generator/generation/format_adapters/operator_corrections.py:414-435 | A dialog example exists exactly when the last turn is the operator's, the criteria and policy ids meet their minimums and the prefixes hold. It targets the last turn and passes the dialog format check. |
| OperatorCorrections.AcceptableTurnsConvert | src/dataset_generator/generation/format_adapters/operator_corrections.py:406-423 | The turns are acceptable exactly when they all convert and the last converted turn is the operator's. |
| OperatorCorrections.GenerateDialog | src/dataset_generator/generation/format_adapters/operator_corrections.py:314-435 | An example is produced exactly when the call parsed, the schema holds, every turn converts, the last turn is the operator's, and the prefixes hold. It is then the dialog example over the converted turns. |
| OperatorCorrections.GeneratedDialogPasses | src/dataset_generator/generation/format_adapters/operator_corrections.py:414-473 | Every generated dialog is valid, passes its own format check and targets its last turn. |
| OperatorCorrections.UserLastTurnRejected | src/dataset_generator/generation/format_adapters/operator_corrections.py:418-423 | A dialog that the LLM ends with a user turn never yields an example. |
| OperatorCorrections.ValidateDialog | src/dataset_generator/generation/format_adapters/operator_corrections.py:437-473 | There are no errors exactly when the format matches, there are at least two messages, the last is the operator's, and the target index names it. There are at most four errors. |
| OperatorCorrections.UtteranceIsNotDialog | src/dataset_generator/generation/format_adapters/operator_corrections.py:449-459 | A valid single-utterance example fails the dialog check, first on its format. |
| Fallback.DefaultFormats | src/dataset_generator/generation/fallback.py:66-70 | Given formats are kept. Otherwise operator_quality gets the two correction formats and every other case gets single_turn_qa. |
| Fallback.FormatSections | src/dataset_generator/generation/fallback.py:280-317 | The prompt carries an instruction block exactly for each requested format among the three known ones, at most three blocks. |
| Fallback.ParamsToMap | src/dataset_generator/generation/fallback.py:121 | The reply's JSON object becomes a dict with exactly its keys. |
| Fallback.FallbackMetadata | src/dataset_generator/generation/fallback.py:118-122 | Every key of the reply's metadata wins. `generator` is "openai_fallback" and `model` is the model unless the reply overrides them. |
| Fallback.FallbackTestCase | src/dataset_generator/generation/fallback.py:106-124 | An entry becomes a test case exactly when its id (or the default `tc_<uc><i:03>`) has `tc_`, the use case id has `uc_` and the axes (default tone, complexity) number two or three. Every missing field takes its default. |
| Fallback.BuildTestCases | src/dataset_generator/generation/fallback.py:105-124 | The loop returns the reference collection of the entries, numbered from 1. The first failing entry's error stops it. |
| Fallback.MessagesFrom | src/dataset_generator/generation/fallback.py:129-133 | Every message entry becomes a message with role "user" and content "" by default. Any invalid role fails the whole list. |
| Fallback.TargetIndex | src/dataset_generator/generation/fallback.py:139-145 | A given target is kept. A missing one becomes 0 for single_utterance_correction, the last index for dialog_last_turn_correction, and stays absent otherwise. |
| Fallback.FallbackExampleFields | src/dataset_generator/generation/fallback.py:127-168 | An example is never built without test cases. A built one is valid and carries the entry's fields or their defaults. Without a `test_case_id` it refers to the test case at its own position, or the last one. |
| Fallback.BuildExamples | src/dataset_generator/generation/fallback.py:127-168 | The loop returns the reference collection of the example entries. The first failing entry's error stops it. |
| Fallback.FallbackGeneration | src/dataset_generator/generation/fallback.py:60-179 | Every failure, including a missing or unparsable reply, is reported with the prefix "OpenAI fallback generation failed: ". |
| Fallback.GenerateWithOpenAiFallback | src/dataset_generator/generation/fallback.py:17-179 | The method returns exactly the reference result of the whole call. |
| Fallback.TestCasesValid | src/dataset_generator/generation/fallback.py:105-124 | When the test cases build, there is one per entry, each valid and of the given use case. |
| Fallback.ExamplesValid | src/dataset_generator/generation/fallback.py:127-168 | When the examples build, there is one per entry, each valid and of the given case. |
| Fallback.OneRecordPerEntry | src/dataset_generator/generation/fallback.py:101-175 | A successful call returns exactly one record per reply entry, whatever number was asked for, and every record is valid. |
| Fallback.ExamplesNeedTestCases | src/dataset_generator/generation/fallback.py:152-154 | A reply with examples but no test cases always fails, because the default test case id is evaluated eagerly. |
| Fallback.ExampleTestCaseClamped | src/dataset_generator/generation/fallback.py:152-154 | An example without `test_case_id` refers to test case `i` when there are at least `i`, and otherwise to the last one. |
| IntegrityChecker.CollectTestCaseErrors | src/dataset_generator/validation/integrity_checker.py:54-59 | Check 1 gives one error per test case whose use case id names no use case, in order. |
| IntegrityChecker.CollectExampleUseCaseErrors | src/dataset_generator/validation/integrity_checker.py:61-66 | Check 2 gives one error per example whose use case id names no use case, in order. |
| IntegrityChecker.CollectExampleTestCaseErrors | src/dataset_generator/validation/integrity_checker.py:68-73 | Check 3 gives one error per example whose test case id names no test case, in order. |
| IntegrityChecker.CollectPolicyErrors | src/dataset_generator/validation/integrity_checker.py:75-81 | Check 4, the nested loop, gives one error per (example, policy id) pair whose id names no policy, in order. |
| IntegrityChecker.CheckIntegrity | src/dataset_generator/validation/integrity_checker.py:9-83 | The result is the four checks' errors, run in the source's order. |
| IntegrityChecker.IntegrityCleanIff | src/dataset_generator/validation/integrity_checker.py:47-83 | There is no error exactly when every test case and example names an existing use case, every example an existing test case, and every policy id an existing policy. |
| IntegrityChecker.OneBrokenTestCaseReference | src/dataset_generator/validation/integrity_checker.py:69-73 | Starting from a set with no error, pointing one example at a missing test case id gives exactly one error, naming that example and that id. |
| IntegrityChecker.ExistenceImpliesPrefixCheck | src/dataset_generator/validation/integrity_checker.py:23-25 | When the policies are valid and this check finds nothing, the prefix-only check of the coverage module finds nothing either. |
| IntegrityChecker.PrefixCheckIsWeaker | src/dataset_generator/validation/integrity_checker.py:23-25 | The converse fails: a well-formed `pol_missing` that names no policy passes the prefix check but not this one. |
| QualityReport.DuplicatesBeyondDistinct | src/dataset_generator/generation/quality_report.py:202-203 | `duplicated().sum()` counts exactly the entries beyond the distinct values: duplicates plus distinct equals the number of rows. |
| QualityReport.CountsAreOccurrences | src/dataset_generator/generation/quality_report.py:205-208 | `value_counts()` has an entry exactly for each value present, holding its number of occurrences. |
| QualityReport.MapSumRemove | src/dataset_generator/generation/quality_report.py:205-208 | Summing a distribution does not depend on which key is taken first. |
| QualityReport.CountsSumToLength | src/dataset_generator/generation/quality_report.py:205-208 | A distribution's counts add up to the number of rows. |
| QualityReport.PlaceholderCount | src/dataset_generator/generation/quality_report.py:214-222 | The placeholder count never exceeds the number of rows. |
| QualityReport.Column | src/dataset_generator/generation/quality_report.py:175-193 | A column holds one cell per row, in row order. |
| QualityReport.GenerateQualityReport | src/dataset_generator/generation/quality_report.py:152-273 | The loop builds one row per example and returns the summary of that table. |
| QualityReport.CountedKeysSpec | src/dataset_generator/generation/quality_report.py:208 | `value_counts` counts every generator cell that is neither `None` nor NaN, under a non-boolean key. Those cells and the missing ones make up the column. |
| QualityReport.SummaryFacts | src/dataset_generator/generation/quality_report.py:199-273 | A non-empty table's summary fails exactly when a generator is a list. Otherwise duplicates are the rows beyond the distinct input texts. The case and format distributions sum to the row count. The generator distribution sums to the rows whose generator is neither `None` nor NaN, and it has no missing or boolean key. Placeholders are at most the rows. |
| QualityReport.NoneGeneratorNotCounted | src/dataset_generator/generation/quality_report.py:208 | A `None` generator gets no entry in the generator distribution. |
| QualityReport.SumAtLeast | src/dataset_generator/generation/quality_report.py:210-211 | A column whose cells are all at least `m` sums to at least `m` times its length. |
| QualityReport.ValidExamplesNoCriteriaWarning | src/dataset_generator/generation/quality_report.py:242-243 | Validated examples have at least three criteria each, so the low-average warning never appears for them. |
| SourceClassifier.SourceName | src/dataset_generator/generation/source_classifier.py:14-16 | Every source type prints as one of the three literals. |
| SourceClassifier.SourceNameInjective | src/dataset_generator/generation/source_classifier.py:14-16 | Different source types print differently, in both directions. |
| SourceClassifier.AdversarialIsCorner | src/dataset_generator/generation/source_classifier.py:59-63 | An adversarial parameter of profanity, injection or garbage gives `corner` whatever the LLM would say. |
| SourceClassifier.FaqKeywordIsParaphrase | src/dataset_generator/generation/source_classifier.py:65-73 | A FAQ keyword in the description, with no adversarial parameter or "none", gives `faq_paraphrase` whatever the LLM would say. |
| SourceClassifier.LlmDecidesOtherwise | src/dataset_generator/generation/source_classifier.py:75-131 | When neither heuristic applies, the LLM's answer is used, and a failed call gives `tickets`. |
| SourceClassifier.OtherAdversarialGoesToLlm | src/dataset_generator/generation/source_classifier.py:60-73 | A truthy adversarial value that is neither a listed attack nor "none" blocks the FAQ shortcut, so the LLM decides. |
| SourceClassifier.DocumentedExamples | src/dataset_generator/generation/source_classifier.py:47-51 | The two docstring examples give `corner` and `faq_paraphrase`. |
| VariationRouter.UnknownCaseUsesSupportBot | src/dataset_generator/generation/variation_router.py:65-70 | A case with no table of its own is none of the three known cases, and it gets the support_bot axes. |
| VariationRouter.AxisNames | src/dataset_generator/generation/variation_router.py:74 | The axis names are the table's keys, one per axis and in order. |
| VariationRouter.TablesWellFormed | src/dataset_generator/generation/variation_router.py:10-34 | Every table a case can get has distinct axis names and non-empty value lists without repeats. |
| VariationRouter.TableSizes | src/dataset_generator/generation/variation_router.py:10-34 | The support_bot table has 96 distinct combinations and the operator_quality table has 324. |
| VariationRouter.Prefixed | src/dataset_generator/generation/variation_router.py:99-101 | Each tail gets the one entry put in front of it, and nothing else changes. |
| VariationRouter.ExtendLength | src/dataset_generator/generation/variation_router.py:99-101 | Choosing one value for the first axis and any tail gives values times tails combinations. |
| VariationRouter.ProductLength | src/dataset_generator/generation/variation_router.py:99-101 | The full product of the table has exactly the domain size of combinations. |
| VariationRouter.ExtendMember | src/dataset_generator/generation/variation_router.py:99-101 | A combination is in the extension exactly when its first entry has one of the axis values and its tail is a known tail. |
| VariationRouter.InDomainCons | src/dataset_generator/generation/variation_router.py:99-101 | A dict is in the domain exactly when its first entry is in the first axis and the rest is in the other axes. |
| VariationRouter.ProductMember | src/dataset_generator/generation/variation_router.py:99-101 | The product holds exactly the dicts that `random.choice` over each axis can draw, in both directions. |
| VariationRouter.ExtendDistinct | src/dataset_generator/generation/variation_router.py:99-101 | Extending distinct tails by distinct values gives no repeated combination. |
| VariationRouter.ProductDistinct | src/dataset_generator/generation/variation_router.py:99-101 | With no repeated value in any axis, the product has no repeated combination. |
| VariationRouter.MissingCombination | src/dataset_generator/generation/variation_router.py:98-104 | While fewer combinations are held than exist, some drawable combination is not yet held. |
| VariationRouter.DistinctCombinationsBounded | src/dataset_generator/generation/variation_router.py:98-104 | Distinct combinations over the domains never exceed the domain size. When they reach it, every drawable combination is among them. |
| VariationRouter.NonDefaultMember | src/dataset_generator/generation/variation_router.py:150-153 | An axis is chosen exactly when some entry has that key, the key has a default, and the value differs from it. |
| VariationRouter.NonDefaultAreKeys | src/dataset_generator/generation/variation_router.py:150-153 | Every chosen axis is a key of the dict. |
| VariationRouter.NonDefaultDistinct | src/dataset_generator/generation/variation_router.py:150-153 | A dict without repeated keys yields no repeated non-default axis. |
| VariationRouter.AppendMissingMember | src/dataset_generator/generation/variation_router.py:192-194 | An item is in the result exactly when it was already there or is in the added list. The original list is kept as a prefix. |
| VariationRouter.AppendMissingIsFilter | src/dataset_generator/generation/variation_router.py:187-194 | For a list without repeats, the second loop appends exactly the items not already present, in order. |
| VariationRouter.SelectAxesShape | src/dataset_generator/generation/variation_router.py:124-198 | At most three axes are selected, and each is a key of the dict. |
| VariationRouter.SelectKeepsTwoOrThree | src/dataset_generator/generation/variation_router.py:155-157 | Two or three non-default axes are returned as they are. An axis is returned exactly when its value differs from its default. |
| VariationRouter.SelectByPriority | src/dataset_generator/generation/variation_router.py:173-196 | With more than three non-default axes, the result is the first three of: the priority axes among them in priority order, then the rest in key order. |
| VariationRouter.SelectPadded | src/dataset_generator/generation/variation_router.py:159-171 | With fewer than two non-default axes, those come first. When both padding axes are keys, exactly two axes are returned. |
| VariationRouter.SelectTwoOrThree | src/dataset_generator/generation/variation_router.py:124-198 | A dict without repeated keys that holds both padding axes always gets two or three axes, as the docstring promises. |
| VariationRouter.FullTablesSelectTwoOrThree | src/dataset_generator/generation/variation_router.py:124-198 | For support_bot and operator_quality, every dict keyed by the table's axes gets two or three axes. |
| VariationRouter.AppendMissingLength | src/dataset_generator/generation/variation_router.py:187-194 | The sorted list is never shorter than the priority hits. It covers the whole list when the hits are drawn from it. |
| VariationRouter.AppendMissingBounded | src/dataset_generator/generation/variation_router.py:187-194 | When the hits are drawn from a list without repeats, the sorted list is at least as long as that list. |
| VariationRouter.SelectNoneWhenUnpaddable | src/dataset_generator/generation/variation_router.py:159-171 | With no non-default axis and no padding axis among the keys, nothing is selected. |
| VariationRouter.SupportBotLacksPaddingAxes | src/dataset_generator/generation/variation_router.py:164-165 | A dict keyed by the support_bot table has neither operator_quality padding axis. |
| VariationRouter.DoctorBookingCanSelectNone | src/dataset_generator/generation/variation_router.py:160-171 | A doctor_booking or unknown-case dict with every value at its default gets no axes at all. This falls short of the docstring's two or three. |
| VariationRouter.ZipCombinations | src/dataset_generator/generation/variation_router.py:78-84 | Succeeds exactly when no pairwise combination is shorter than the axis list, and then gives one dict per combination, in order. |
| VariationRouter.PadCombinations | src/dataset_generator/generation/variation_router.py:91-104 | The pairwise dicts are kept as a prefix. The list is padded up to the target with combinations drawn from the domains, each different from every earlier one. |
| VariationRouter.EnrichAt | src/dataset_generator/generation/variation_router.py:108-116 | Enrichment keeps the length, and entry i is combination i with its selected axes. |
| VariationRouter.EnrichAll | src/dataset_generator/generation/variation_router.py:108-116 | The loop builds exactly the enriched list. |
| VariationRouter.GenerateVariations | src/dataset_generator/generation/variation_router.py:37-121 | Succeeds exactly when AllPairs succeeds with combinations that fit. The result is then the pairwise dicts padded to min_test_cases (capped at the domain size), each with its selected axes. |
| VariationRouter.PaddingReachesMinimum | src/dataset_generator/generation/variation_router.py:91-104 | Padding never drops a pairwise dict, and it reaches min_test_cases whenever that many combinations exist. |
| VariationRouter.PaddedAreNew | src/dataset_generator/generation/variation_router.py:102-104 | A padded combination differs from every earlier one, the pairwise ones included. |
| VariationRouter.EnrichedDict | src/dataset_generator/generation/variation_router.py:113-115 | Each returned dict is its combination plus exactly one more key, `_variation_axes`, which no axis name shadows. |
| VariationRouter.PaddedKeyed | src/dataset_generator/generation/variation_router.py:78-104 | Every combination, pairwise or drawn, is keyed by the table's axis names. |
| VariationRouter.VariationAxesCount | src/dataset_generator/generation/variation_router.py:106-116 | For support_bot and operator_quality, every variation carries two or three axes. |
| VariationRouter.AsWrittenPaddingNeverExits | src/dataset_generator/generation/variation_router.py:98-104 | Uncapped, with min_test_cases above the domain size, the loop condition stays true. Once every combination is held, each iteration changes nothing. |
| VariationRouter.AsWrittenPadStepKeepsDistinct | src/dataset_generator/generation/variation_router.py:102-104 | An uncapped iteration keeps the list free of repeats and adds at most one entry. |
| VariationRouter.AsWrittenSupportBot97 | src/dataset_generator/generation/variation_router.py:10-17 | support_bot has 96 combinations, so min_test_cases 97 never terminates. |
| VariationRouter.CollectNonDefaultAxes | src/dataset_generator/generation/variation_router.py:149-153 | The loop collects exactly the non-default axes, in key order. |
| VariationRouter.PadStep | src/dataset_generator/generation/variation_router.py:167-169 | The test the padding loop makes is the candidate test, and the filter grows by the tested axis when it passes. |
| VariationRouter.PadBreak | src/dataset_generator/generation/variation_router.py:170-171 | On `break`, the axes taken are the first ones of the candidate filter. |
| VariationRouter.PadWithDefaultAxes | src/dataset_generator/generation/variation_router.py:160-171 | The padding step adds the candidate padding axes after the chosen ones, until there are two. |
| VariationRouter.SortByPriority | src/dataset_generator/generation/variation_router.py:174-196 | The two sorting loops give the priority hits followed by the missing axes, cut to three. |
| VariationRouter.SelectVariationAxes | src/dataset_generator/generation/variation_router.py:124-198 | The method computes exactly the specified selection. |
| Coverage.CollectAxesWarnings | src/dataset_generator/generation/coverage.py:67-74 | The loop gives one warning per test case whose axis count is outside 2 to 3, in order, and no other warning. |
| Coverage.CollectCriteriaWarnings | src/dataset_generator/generation/coverage.py:76-83 | The loop gives one warning per example with fewer criteria than the minimum, in order. |
| Coverage.CollectPolicyCountWarnings | src/dataset_generator/generation/coverage.py:85-92 | The loop gives one warning per example with fewer policy ids than the minimum, in order. |
| Coverage.EnforceCoverage | src/dataset_generator/generation/coverage.py:14-120 | Fails exactly when there are fewer test cases than the minimum, with the source's message. Otherwise both lists come back unchanged, with the axis, criteria, policy-count, orphan and unknown-reference warnings in that order. |
| Coverage.NoWarningsIff | src/dataset_generator/generation/coverage.py:54-120 | There is no warning exactly when every count rule holds and the test case ids equal the ids the examples reference. |
| Coverage.ValidatedRecordsOnlyReferenceWarnings | src/dataset_generator/generation/coverage.py:67-92 | On records that passed their own validation, with the default minimums or lower, only the two reference checks can warn, as the comments claim. |
| Coverage.CollectTestCaseUseCaseIssues | src/dataset_generator/generation/coverage.py:161-166 | One issue per test case whose use case id is unknown, in order. |
| Coverage.CollectExampleTestCaseIssues | src/dataset_generator/generation/coverage.py:168-173 | One issue per example whose test case id is unknown, in order. |
| Coverage.CollectExampleUseCaseIssues | src/dataset_generator/generation/coverage.py:175-180 | One issue per example whose use case id is unknown, in order. |
| Coverage.CollectPolicyPrefixIssues | src/dataset_generator/generation/coverage.py:182-189 | The nested loops give one issue per policy id without the `pol_` prefix, example by example. |
| Coverage.CheckReferentialIntegrity | src/dataset_generator/generation/coverage.py:123-199 | The issues are the four checks' issues, concatenated in the source's order. |
| Coverage.ReferentialCleanIff | src/dataset_generator/generation/coverage.py:155-199 | There is no issue exactly when every reference resolves and every policy id has the `pol_` prefix. |
| OrchestratorPrompts.AppendEvidence | src/dataset_generator/generation/orchestrator.py:301-304 | The inner loop appends one `- quote` line per evidence item, in order. |
| OrchestratorPrompts.AppendSection | src/dataset_generator/generation/orchestrator.py:298-305 | One policy adds its heading, type, description and, when it has evidence, the evidence block, then the separator. |
| OrchestratorPrompts.BuildPolicyDocument | src/dataset_generator/generation/orchestrator.py:296-305 | The content is the header followed by one section per policy, in order. |
| OrchestratorPrompts.DocumentHasEverySection | src/dataset_generator/generation/orchestrator.py:296-305 | The document starts with the header and contains the section of every policy. |
| OrchestratorPrompts.SummaryLine | src/dataset_generator/generation/orchestrator.py:408-411 | A summary line starts with `- ` and the policy id. |
| OrchestratorPrompts.SummaryLines | src/dataset_generator/generation/orchestrator.py:406-409 | Only the first five policies are summarised. |
| OrchestratorPrompts.BuildPolicyText | src/dataset_generator/generation/orchestrator.py:405-413 | The loop gives the joined summaries of the first five policies, plus a count line for the rest when there are more than five. |
| OrchestratorPrompts.PolicyTextSeesFirstFive | src/dataset_generator/generation/orchestrator.py:405-413 | Two policy lists of the same length that agree on their first five give the same prompt text. |
| FrameworkTier.DeepevalArguments | src/dataset_generator/generation/orchestrator.py:448-451 | A missing argument takes its default: the temporary document, 10 goldens, and expected outputs on. A given goldens count is passed through, as is the model. |
| FrameworkTier.PolicyIds | src/dataset_generator/generation/orchestrator.py:465 | One id per policy, in order. |
| FrameworkTier.DeepevalGolden | src/dataset_generator/generation/orchestrator.py:467-474 | Adapting one golden succeeds exactly when the use case id has `uc_` and the policy ids (or `pol_unknown`) all have `pol_`. It then gives a valid deepeval test case numbered k+1 and a valid example pointing at it. |
| FrameworkTier.DeepevalErrorSticks | src/dataset_generator/generation/orchestrator.py:467-476 | Once a golden fails, the batch keeps that error whatever follows. |
| FrameworkTier.DeepevalShape | src/dataset_generator/generation/orchestrator.py:467-476 | A successful batch holds, at every position, the pair its golden adapts to, one test case and one example per golden. |
| FrameworkTier.DeepevalOkIff | src/dataset_generator/generation/orchestrator.py:467-476 | A batch succeeds exactly when every golden in it adapts. |
| FrameworkTier.DeepevalOkExactly | src/dataset_generator/generation/orchestrator.py:440-476 | A DeepEval batch succeeds exactly when it is empty or the use case and policy ids have their prefixes. |
| FrameworkTier.AdaptGoldens | src/dataset_generator/generation/orchestrator.py:462-476 | The loop computes exactly the batch result, stopping at the first failure. |
| FrameworkTier.InvokeDeepeval | src/dataset_generator/generation/orchestrator.py:440-476 | The policy ids are read once and every golden is adapted with them. |
| FrameworkTier.ToolCallResult | src/dataset_generator/generation/orchestrator.py:235-249 | A ragas or giskard call always fails. A name that matches no generator adds nothing. |
| FrameworkTier.RunToolCalls | src/dataset_generator/generation/orchestrator.py:233-252 | Each call's records are appended in order, and a failing call is skipped. |
| FrameworkTier.AppendFromDeepeval | src/dataset_generator/generation/orchestrator.py:240-241 | Appending two sets of DeepEval pairs keeps every pair aligned. |
| FrameworkTier.DeepevalInvocationYields | src/dataset_generator/generation/orchestrator.py:440-476 | Every batch the DeepEval invocation returns is made of valid DeepEval pairs. |
| FrameworkTier.ToolCallsFromDeepeval | src/dataset_generator/generation/orchestrator.py:233-252 | Whatever the tool calls collect is made of DeepEval pairs. |
| FrameworkTier.OnlyDeepevalContributes | src/dataset_generator/generation/orchestrator.py:209-260 | Whatever the framework tier adds is one valid, deepeval-tagged test case per example, each example pointing at its test case. |
| Orchestrator.TestCaseId | src/dataset_generator/generation/orchestrator.py:136 | Every tier test case id starts with `tc_`. |
| Orchestrator.TestCaseIdInjective | src/dataset_generator/generation/orchestrator.py:136 | Within one use case, two known formats' test case ids are equal exactly when the format and the variation number are the same. |
| Orchestrator.KnownFormatsDifferAt7 | src/dataset_generator/generation/format_adapters/__init__.py:21-51 | The three supported format names are longer than seven characters and differ in their eighth. |
| Orchestrator.TestCaseAxes | src/dataset_generator/generation/orchestrator.py:145 | The axes given to the test case always number two or three. Two or more popped axes are cut to three, one is padded with two `default`, none gives two `default`. |
| Orchestrator.PopAxes | src/dataset_generator/generation/orchestrator.py:133 | The popped dict has no `_variation_axes` entry and keeps its parameters. The axes are the entry's value, or empty when it was already gone. |
| Orchestrator.FirstUserContent | src/dataset_generator/generation/orchestrator.py:169-173 | Without a user message the content is empty. |
| Orchestrator.FirstUserContentAt | src/dataset_generator/generation/orchestrator.py:169-173 | The content is that of the first message whose role is user. |
| Orchestrator.FindUserContent | src/dataset_generator/generation/orchestrator.py:169-173 | The loop returns the content of the first user message, or the empty string. |
| Orchestrator.SourceTagKeepsMetadata | src/dataset_generator/generation/orchestrator.py:175-184 | The `source` tag is the classification of the first user message. Every other metadata key and every other field is kept. |
| Orchestrator.AdapterExamplesPass | src/dataset_generator/generation/orchestrator.py:154-161 | Every example the format adapters return is valid, passes its adapter's check and carries the given ids and its format. |
| Orchestrator.TierExamplePasses | src/dataset_generator/generation/orchestrator.py:154-189 | The example step succeeds exactly when the adapter does. Its example keeps the adapter's input and id, gets the case and, for support_bot, the source, and still passes the format check at line 187. |
| Orchestrator.VariationStep | src/dataset_generator/generation/orchestrator.py:131-195 | One iteration keeps the number of variation dicts. |
| Orchestrator.VariationStepEffect | src/dataset_generator/generation/orchestrator.py:131-195 | The pop happens first. With a `uc_` id exactly one test case with the source's fields is appended, else nothing is. At most one example is appended, the adapter's for that test case. |
| Orchestrator.VariationsKeepCount | src/dataset_generator/generation/orchestrator.py:130-195 | The inner loop keeps the number of variation dicts. |
| Orchestrator.RunVariation | src/dataset_generator/generation/orchestrator.py:131-195 | The loop body computes exactly one specified iteration. |
| Orchestrator.RunFormat | src/dataset_generator/generation/orchestrator.py:130-195 | The inner loop runs the iteration over every variation, in order. |
| Orchestrator.RunFormatAt | src/dataset_generator/generation/orchestrator.py:122-199 | A format without an adapter is skipped, and a known one runs the inner loop. |
| Orchestrator.RunAdapterTier | src/dataset_generator/generation/orchestrator.py:122-199 | The outer loop runs every format in order, from empty accumulators. |
| Orchestrator.VariationsPop | src/dataset_generator/generation/orchestrator.py:133 | After n iterations the first n dicts have lost their entry and keep their parameters. The rest are untouched. |
| Orchestrator.VariationsGrow | src/dataset_generator/generation/orchestrator.py:139-150 | The inner loop adds one test case per variation with a `uc_` id and none otherwise, and only appends. |
| Orchestrator.VariationsDefaultAxes | src/dataset_generator/generation/orchestrator.py:133-145 | On dicts already popped, every new test case gets the axes `["default", "default"]`. |
| Orchestrator.VariationStepWellFormed | src/dataset_generator/generation/orchestrator.py:131-195 | One iteration keeps the tier invariant: valid test cases of the use case, and passing examples that point at a collected test case. |
| Orchestrator.StepTestCasesOk | src/dataset_generator/generation/orchestrator.py:139-150 | One iteration keeps every test case valid, of the use case and tagged `format_adapter`. |
| Orchestrator.StepExamplesOk | src/dataset_generator/generation/orchestrator.py:152-191 | One iteration keeps every example passing and pointing at a collected test case. |
| Orchestrator.VariationsWellFormed | src/dataset_generator/generation/orchestrator.py:130-195 | The inner loop keeps the tier invariant. |
| Orchestrator.FormatsWellFormed | src/dataset_generator/generation/orchestrator.py:122-199 | The outer loop keeps the tier invariant. |
| Orchestrator.KnownFormatCount | src/dataset_generator/generation/orchestrator.py:122-127 | No more formats have an adapter than are listed. |
| Orchestrator.TierSizeIsProduct | src/dataset_generator/generation/orchestrator.py:122-150 | The tier's test case count is the number of known formats times the number of variations. |
| Orchestrator.FormatStepShape | src/dataset_generator/generation/orchestrator.py:122-199 | One format keeps the tier's shape invariant. |
| Orchestrator.KnownFormatStepShape | src/dataset_generator/generation/orchestrator.py:125-195 | A known format adds one test case per variation, pops every dict, and gives default axes after the first known format. |
| Orchestrator.FormatsShape | src/dataset_generator/generation/orchestrator.py:122-199 | The shape invariant holds after every prefix of the formats. |
| Orchestrator.AdapterTierShape | src/dataset_generator/generation/orchestrator.py:122-199 | The tier has one test case per variation and known format with a `uc_` id, none otherwise, whatever the adapters answer. The parameters are kept, and every test case after the first known format's has the default axes. |
| Orchestrator.AdapterTierWellFormed | src/dataset_generator/generation/orchestrator.py:122-201 | With the format adapters, every test case is valid and of the use case, there are no more examples than test cases, and every example passes its check and points at a collected test case. |
| Orchestrator.FrameworkStep | src/dataset_generator/generation/orchestrator.py:209-260 | The framework tier runs only while short of the minimum, and it only appends. |
| Orchestrator.FallbackFor | src/dataset_generator/generation/orchestrator.py:553-582 | The fallback fails only with the fallback's message, and it succeeds only when the LLM answered. |
| Orchestrator.FinalFallback | src/dataset_generator/generation/orchestrator.py:262-269 | Once the minimum is reached, nothing changes. Otherwise the fallback's records are appended, and its failure is the only failure. |
| Orchestrator.AfterTier | src/dataset_generator/generation/orchestrator.py:209-276 | The adapter tier's records come first in the result, and they are the whole result when they reach the minimum. Any failure is the fallback's. |
| Orchestrator.Orchestration | src/dataset_generator/generation/orchestrator.py:110-276 | A failure of the whole run always comes from the fallback. |
| Orchestrator.OrchestrateGeneration | src/dataset_generator/generation/orchestrator.py:36-276 | The variations succeed exactly when AllPairs does with combinations that fit, and they are then the padded and enriched combinations. The result is the specified run of the three tiers. |
| Orchestrator.RunFallback | src/dataset_generator/generation/orchestrator.py:553-582 | The method computes exactly the fallback-only result. |
| Orchestrator.RunAfterTier | src/dataset_generator/generation/orchestrator.py:209-276 | Steps 3 and 4 compute exactly the specified result. |
| Orchestrator.RunFramework | src/dataset_generator/generation/orchestrator.py:214-260 | The framework step computes exactly the framework tier's records, and none without a routing answer. |
| Orchestrator.RunFinalFallback | src/dataset_generator/generation/orchestrator.py:262-269 | The final step computes exactly the specified final fallback. |
| Orchestrator.AppendValid | src/dataset_generator/generation/orchestrator.py:268-269 | Appending valid records to valid records keeps them valid. |
| Orchestrator.FallbackValid | src/dataset_generator/generation/orchestrator.py:553-582 | The fallback's records are valid, with one test case per entry of its reply. |
| Orchestrator.FrameworkValid | src/dataset_generator/generation/orchestrator.py:233-252 | The framework tier's records are valid and of the use case. |
| Orchestrator.FrameworkStepValid | src/dataset_generator/generation/orchestrator.py:209-260 | Step 3 keeps valid records valid. |
| Orchestrator.FinalFallbackValid | src/dataset_generator/generation/orchestrator.py:262-269 | Step 4 keeps valid records valid. |
| Orchestrator.AfterTierValid | src/dataset_generator/generation/orchestrator.py:209-276 | Steps 3 and 4 keep valid records valid. |
| Orchestrator.TierValid | src/dataset_generator/generation/orchestrator.py:122-201 | The adapter tier's records are valid and of the use case. |
| Orchestrator.OrchestrationValid | src/dataset_generator/generation/orchestrator.py:36-276 | Whichever tiers produced them, the returned test cases are valid and of the use case, and the examples are valid. |
| Orchestrator.ReachesMinimum | src/dataset_generator/generation/orchestrator.py:209-276 | A successful run has at least min_test_cases test cases when the fallback LLM returns as many as it is asked for. |
| Orchestrator.AfterTierReachesMinimum | src/dataset_generator/generation/orchestrator.py:262-269 | After step 4 the minimum is reached, under the same assumption about the fallback LLM. |
| Orchestrator.TierAloneSuffices | src/dataset_generator/generation/orchestrator.py:209-276 | With a `uc_` id, a known format and at least min_test_cases variations, the result is the adapter tier alone, even when every adapter call fails and no example is produced. |

## Left out

- **External calls.** LLM calls, uuid generation, `random.choice`, `AllPairs` and the DeepEval, Ragas and Giskard generators are oracle parameters. They can return any value of the response type or fail. `llm_client.py`, `case_detector.py` and the `generators/` modules are not part of this model.
- **Prompt text.** Prompt wording (`_build_system_prompt`, `_build_tool_definitions`, the extractor prompts) is not modelled. `policy_extractor.py` and `use_case_extractor.py` are not part of this model beyond the records they return.
- **Files and side effects.**
  - The temporary policy file is modelled by its content only. Writing it and unlinking it are left out.
  - The HTML quality report and all file reading and writing are left out. `file_writer.py`, `validator.py`, `pipeline.py`, `cli.py`, `langfuse_client.py` and `run_manifest.py` are not part of this model.
  - Logging is left out. `validate_format` in the orchestrator only logs, so the model drops its result. `Orchestrator.TierExamplePasses` proves it would be empty.
- **Floats.** These values are left out:
  - the quality report's averages, percentages and score;
  - the Ragas reasoning ratio and fuzzy match scores;
  - the classifier's confidence.

  The average criteria warning is kept as the integer comparison sum < 3 × count. NaN appears only as a marker value for empty pandas cells.
- **Lowercasing.** `Text.Lower` lowercases ASCII letters only. Python lowercases every Unicode letter.
- **`\w`.** It is modelled as ASCII letters, digits, `_` and the Cyrillic block.
- **Policy id order.** The engine adapters deduplicate policy ids with `list(set(...))`, whose order depends on hashing. The model keeps first occurrences, in order, and its contracts state only set-level facts about that list.
- **Oracle keys.** The adapter's answers, uuids and classifications are keyed by format position and variation number. Repeated formats therefore share answers.
- **Records produced.**
  - `Orchestrator.TestCaseIdInjective` covers distinct known formats only. A format listed twice gives the same ids twice.
  - The model's `TestCase` has only the six declared fields. The `case`, `parameters` and `policy_ids` the orchestrator passes are dropped, as the record type ignores unknown fields.
  - Every DeepEval example is given the case `support_bot` and the format `single_turn_qa`, as the adapter's defaults do.
- **Error messages.**
  - Error texts are fixed strings, not the exact Pydantic messages.
  - `seed`, `document_path` and the policy dicts passed to adapters are used only in prompts and LLM requests, so they are not modelled.
- **Orchestrator.OrchestrateGeneration:**
  - It takes the example producer as a parameter. The validity lemmas (`Orchestrator.OrchestrationValid`) are stated for the format adapters' producer, `Orchestrator.AdapterExamples`.
  - The variations are passed to the tiers as values. Python mutates the dicts in place.
  - It runs the corrected, capped padding (`VariationRouter.PadCombinations`, see "## Findings"). `orchestrate_generation` as written never returns once `min_test_cases` exceeds the number of combinations: 96 for support_bot and doctor_booking, 324 for operator_quality.
- **Orchestrator.ReachesMinimum:** this holds only under the premise `FallbackHonours`, which assumes the fallback LLM returns at least as many test cases as it is asked for. The code itself never checks this.
- **`repr`.** `Values.Repr` and `Values.ReprParams` always put single quotes around a string and never escape anything. Python's `repr` switches to double quotes when the string holds a `'`, and escapes `\n`, backslashes and non-printable characters. Only the prompt text and error messages built from them are affected.
- **Empty list answers.** On an empty list cell, `pd.notna(x)` is an empty array. NumPy before 2.2 takes its truth value as false, with a warning, and later versions raise. `EngineRecords.AnswerDescription` and `EngineRecords.AnswerText` follow the older behaviour and treat the cell as a falsy answer.
- **QualityReport.GenerateQualityReport:** `value_counts` merges `True` with `1` and `False` with `0` and shows the key that came first. The model's key is always the integer.
- **JSON parsing.** Malformed JSON from the LLM appears only as a failed or `None` answer. Field types inside an answer are taken as given.

## Findings

| source | as written | input that shows it | evidently intended | confidence | as-written member | corrected member |
|---|---|---|---|---|---|---|
| src/dataset_generator/generation/variation_router.py:98-104 | The padding loop runs until there are `min_test_cases` distinct combinations, with no bound. Once every combination over the axis domains is present, each draw is a duplicate, so the loop never exits. | `generate_variations("support_bot", "", [], min_test_cases=97)`: the support_bot table has only 96 combinations | pad up to `min(min_test_cases, number of combinations)` | not executed | VariationRouter.AsWrittenPaddingNeverExits | VariationRouter.PadCombinations |

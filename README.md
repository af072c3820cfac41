# ACIP-Dialogue validators in Dafny

This project models the two validators of the `acip-dialogue` package of ACIP-Dialogue.

- **Compliance checker.** It scores a conversation against the five layers of
  the ACIP-Dialogue protocol (the Human-AI Dialogue Protocol): trust &
  transparency, emotional boundary, collaboration, ethics and privacy.
- **Conversation analyzer.** It summarises a conversation: role counts, recurring
  patterns, emotional-dependency risk, sensitive data, ethical concerns and
  quality metrics.

A conversation is a sequence of `ConversationMessage(role, content)`. The shared
types are in `types.dfy` (module `Types`).

## How the model is built

**Compliance checker** (`compliance_checker.dfy`, module `ComplianceChecker`).

- The source is imperative: each layer check pushes issues and lowers a running
  score. Each layer check with a loop is a `method`. Each method is proved equal
  to a specification function: `CollaborationReport`, `EthicsReport`,
  `PrivacyReport`, `EmotionalBoundaryReport` or `ComplianceFor`.
- Lemmas state what those functions promise.
- `checkTrustTransparency` has no loop, so it is a function.
- The emotional-boundary check keeps a queue of pending user messages.
  `recordMissingBoundary` is a closure over that queue, the issue list and the
  score. Here it is the method `RecordMissingBoundary`, with the queue passed in
  and out.
- The scan is proved against a per-position reference definition. A user
  message `q` is warned about exactly when:
  - it matches a dependency or romantic pattern, and
  - the first run of assistant messages after `q` contains no boundary phrase,
    or no assistant message follows `q`.
- Every regular-expression list of the source (`dependencyPatterns`,
  `boundaryPatterns`, the privacy patterns, and so on) is one opaque
  `string -> bool` field of `ComplianceRules`. The test "does any pattern in the
  list match" is that field.

**Conversation analyzer** (`conversation_analyzer.dfy`, module `ConversationAnalyzer`).

- The pattern lists are fields of `AnalyzerRules`:
  - the boolean tests are `string -> bool`;
  - the global find-all loops of `detectSensitiveData` are `string -> seq<Span>`
    finders that return the `[index, index + length)` spans `RegExp.exec` would
    report.
- Where the source is plain, the model is concrete:
  - the `?` test;
  - the emotional-word substring search over the lower-cased text;
  - the structure test `\n\n|\n-|\n\d\.`;
  - the 100-character example truncation;
  - all the score constants and thresholds.
- `detectSensitiveData` is a method with the source's nested loops.
  `detectPatterns`, `assessDependencyRisk` and `detectEthicalConcerns` are
  methods that mirror their step-by-step construction. Each is proved equal to
  its specification function.

## Model

| member | source | states |
|---|---|---|
| Types.WithRole | packages/acip-dialogue/src/validators/compliance-checker.ts:293 | filtering by role keeps exactly the messages of that role (a message is in the result iff it is in the conversation with that role), each kept message has the role, and the result never grows |
| Types.WithRolePrefixGrows | packages/acip-dialogue/src/validators/compliance-checker.ts:418 | the role filter of a prefix is a prefix of the role filter of the whole conversation |
| Types.RoleCountsPartition | packages/acip-dialogue/src/validators/conversation-analyzer.ts:23-28 | user, assistant and system counts add up to the message count |
| ComplianceChecker.MaxZero | packages/acip-dialogue/src/validators/compliance-checker.ts:159 | `Math.max(0, score)` is non-negative, at least the score, and either the score or 0 |
| ComplianceChecker.PenalizedScore | packages/acip-dialogue/src/validators/compliance-checker.ts:304-320 | a score of 1 lowered by a fixed penalty per issue and clamped at 0 lies in [0,1], and is 1 exactly when there are no issues |
| Types.AnyMatchExists | packages/acip-dialogue/src/validators/compliance-checker.ts:217-219 | `some` over messages holds iff some message's content matches |
| ComplianceChecker.CheckTrustTransparency | packages/acip-dialogue/src/validators/compliance-checker.ts:99-163 | with no assistant message the report is clean (score 1). Lenient strictness never reports. At most one issue, raised exactly when the first assistant message has no identity disclosure under moderate or strict strictness; its severity and text follow the strictness. The score is 1 minus 0.3 (strict) or 0.15 per issue and lies in [0,1] |
| ComplianceChecker.TrustDependsOnlyOnFirstAssistant | packages/acip-dialogue/src/validators/compliance-checker.ts:115-136 | two conversations whose first assistant messages agree get the same trust issues and score |
| ComplianceChecker.TrustScoreMonotone | packages/acip-dialogue/src/validators/compliance-checker.ts:116-134 | the trust score under strict is at most the score under moderate, which is at most the score under lenient |
| ComplianceChecker.UserIndexIsFilteredLength | packages/acip-dialogue/src/validators/compliance-checker.ts:210-254 | the running `userIndex` at position q is the number of user messages before q |
| ComplianceChecker.EmotionalBoundaryReport | packages/acip-dialogue/src/validators/compliance-checker.ts:271-279 | the emotional-boundary score lies in [0,1] and is 1 exactly when no warning is raised |
| ComplianceChecker.ExpectedWarningsSplit | packages/acip-dialogue/src/validators/compliance-checker.ts:239-271 | the warnings of a stretch of the conversation are the warnings of its two halves, concatenated |
| ComplianceChecker.RecordMissingBoundary | packages/acip-dialogue/src/validators/compliance-checker.ts:212-237 | the queue ends empty. Every pending message gets a warning, in order, exactly when no response in the run matches a boundary pattern. The score drops by 0.2 per added warning |
| ComplianceChecker.CollectAssistantRun | packages/acip-dialogue/src/validators/compliance-checker.ts:262-267 | collects the maximal run of consecutive assistant messages from i, ending at `RunEnd` |
| ComplianceChecker.RunFlushMatchesReference | packages/acip-dialogue/src/validators/compliance-checker.ts:262-270 | flushing the queue at an assistant run yields exactly the reference warnings up to the run's end |
| ComplianceChecker.FinalFlushMatchesReference | packages/acip-dialogue/src/validators/compliance-checker.ts:273 | the closing `recordMissingBoundary([])` warns exactly the reference warnings for trailing unanswered messages |
| ComplianceChecker.HandleAssistantRun | packages/acip-dialogue/src/validators/compliance-checker.ts:262-270 | one assistant-run step of the scan. It moves to the run's end, keeps the user index, empties the queue and brings the issues to the reference warnings so far |
| ComplianceChecker.CheckEmotionalBoundary | packages/acip-dialogue/src/validators/compliance-checker.ts:168-280 | the scan with its pending queue returns exactly `EmotionalBoundaryReport`, the per-position reference definition |
| ComplianceChecker.FinishBoundaryScan | packages/acip-dialogue/src/validators/compliance-checker.ts:273-279 | the final flush and `Math.max` produce the reference report |
| ComplianceChecker.WarningsComeFromFlagged | packages/acip-dialogue/src/validators/compliance-checker.ts:221-231 | every boundary warning belongs to a flagged user message and carries that message's user index |
| ComplianceChecker.FlaggedIsWarned | packages/acip-dialogue/src/validators/compliance-checker.ts:221-231 | every flagged user message gets its warning |
| ComplianceChecker.TrailingTriggerIsWarned | packages/acip-dialogue/src/validators/compliance-checker.ts:273 | a dependency or romantic user message with no assistant reply after it is always warned about |
| ComplianceChecker.BoundaryAnsweredExample | packages/acip-dialogue/src/validators/compliance-checker.ts:217-221 | a boundary phrase in the reply clears the pending dependency message: clean report, score 1 |
| ComplianceChecker.BoundaryMissedExample | packages/acip-dialogue/src/validators/compliance-checker.ts:222-232 | a reply without a boundary phrase leaves exactly one warning, at user index 1, and a score of 0.8 |
| ComplianceChecker.HitIndicesIncreasing | packages/acip-dialogue/src/validators/compliance-checker.ts:304-320 | the per-message issue indices come out strictly increasing |
| ComplianceChecker.HitIndicesComplete | packages/acip-dialogue/src/validators/compliance-checker.ts:304-320 | every matching message's index is among the hits |
| ComplianceChecker.IssueAtIff | packages/acip-dialogue/src/validators/compliance-checker.ts:304-320 | an issue at index i is reported iff message i matches |
| ComplianceChecker.CollaborationReport | packages/acip-dialogue/src/validators/compliance-checker.ts:285-345 | the collaboration score lies in [0,1] and is 1 exactly when there are no issues. Every issue is an info-level collaboration issue |
| ComplianceChecker.OverconfidentIssueIff | packages/acip-dialogue/src/validators/compliance-checker.ts:304-320 | assistant message i gets an overconfidence issue iff it matches an overconfident pattern |
| ComplianceChecker.CheckCollaboration | packages/acip-dialogue/src/validators/compliance-checker.ts:285-345 | the loop returns exactly `CollaborationReport`, including the reasoning suggestion for conversations longer than 4 messages |
| ComplianceChecker.EthicsReport | packages/acip-dialogue/src/validators/compliance-checker.ts:350-405 | the ethics score lies in [0,1] and is 1 exactly when there are no issues. No suggestions. Every issue is an info-level ethics issue |
| ComplianceChecker.RefusalIssueIff | packages/acip-dialogue/src/validators/compliance-checker.ts:378-398 | assistant message i gets an issue iff it refuses and gives no explanation |
| ComplianceChecker.CheckEthics | packages/acip-dialogue/src/validators/compliance-checker.ts:350-405 | the loop returns exactly `EthicsReport` |
| ComplianceChecker.PrivacyDetectors | packages/acip-dialogue/src/validators/compliance-checker.ts:421-429 | there are four detectors; their names and order (SSN, Credit Card, ID Number, Password) come from the definition, which copies the source table |
| ComplianceChecker.PrivacyReport | packages/acip-dialogue/src/validators/compliance-checker.ts:410-452 | the privacy score lies in [0,1] and is 1 exactly when there are no issues. No suggestions. At most four times as many issues as user messages. Every issue is a warning-level privacy issue whose index points at a user message |
| ComplianceChecker.PrivacyIssueIff | packages/acip-dialogue/src/validators/compliance-checker.ts:431-445 | user message i gets a privacy issue naming detector k iff detector k matches it |
| ComplianceChecker.CheckPrivacy | packages/acip-dialogue/src/validators/compliance-checker.ts:410-452 | the nested loops return exactly `PrivacyReport` |
| ComplianceChecker.LayerReports | packages/acip-dialogue/src/validators/compliance-checker.ts:38-70 | the layer map has an entry for each of the five layers |
| ComplianceChecker.LayerReportsAt | packages/acip-dialogue/src/validators/compliance-checker.ts:38-70 | a layer holds its checker's report when it is selected, and the neutral report (score 1) otherwise |
| ComplianceChecker.OverallScoreBounds | packages/acip-dialogue/src/validators/compliance-checker.ts:73-77 | the average of scores in [0,1] is in [0,1] (an empty selection averages to 1) |
| ComplianceChecker.LayerScoresInUnitInterval | packages/acip-dialogue/src/validators/compliance-checker.ts:73-77 | every selected layer's score is in [0,1] |
| ComplianceChecker.Assemble | packages/acip-dialogue/src/validators/compliance-checker.ts:73-93 | compliant iff the overall score reaches the threshold for the strictness. The issues are the five layers' issues, in layer order. An empty selection scores 1 |
| ComplianceChecker.ComplianceFor | packages/acip-dialogue/src/validators/compliance-checker.ts:24-94 | the overall score is in [0,1]. Compliant iff the score reaches 0.9, 0.7 or 0.5 for strict, moderate or lenient. All five layers are present, and unselected layers are neutral. The issues are the concatenated layer issues. The timestamp is `now` |
| ComplianceChecker.CheckLayer | packages/acip-dialogue/src/validators/compliance-checker.ts:47-70 | one `if (layersToCheck.includes(...))` step returns the selected report and appends its issues |
| ComplianceChecker.CheckCompliance | packages/acip-dialogue/src/validators/compliance-checker.ts:24-94 | the method returns exactly `ComplianceFor` |
| ComplianceChecker.EmptySelectionIsCompliant | packages/acip-dialogue/src/validators/compliance-checker.ts:38-77 | with no layers selected the report is compliant, scores 1 and has no issues |
| ComplianceChecker.SingleLayerScore | packages/acip-dialogue/src/validators/compliance-checker.ts:47-77 | with one layer selected, the overall score is that layer's score |
| ComplianceChecker.SumMonotone | packages/acip-dialogue/src/validators/compliance-checker.ts:73-76 | a pointwise lower list of scores sums lower |
| ComplianceChecker.OverallScoreMonotone | packages/acip-dialogue/src/validators/compliance-checker.ts:73-77 | pointwise lower layer scores give a lower overall score |
| ComplianceChecker.StricterScoresNoHigher | packages/acip-dialogue/src/validators/compliance-checker.ts:28-77 | for the same selection, a stricter strictness never raises the overall score |
| ComplianceChecker.CompliantUnderLaxerStrictness | packages/acip-dialogue/src/validators/compliance-checker.ts:80-85 | a conversation compliant under a stricter strictness is compliant under a laxer one |
| ComplianceChecker.SelectionOrderIrrelevant | packages/acip-dialogue/src/validators/compliance-checker.ts:47-90 | two selections with the same layers, in any order and with any repeats, give the same layer map and issues |
| ComplianceChecker.PasswordIsReported | packages/acip-dialogue/src/validators/compliance-checker.ts:426-442 | a user message "My password is abc123", checked on the privacy layer, yields a Password issue at user index 0 and a score below 1 |
| ConversationAnalyzer.Matching | packages/acip-dialogue/src/validators/conversation-analyzer.ts:55-57 | filter-then-map keeps only contents that pass the test, keeps the content of every passing message, and never grows |
| ConversationAnalyzer.MatchingNonEmpty | packages/acip-dialogue/src/validators/conversation-analyzer.ts:55-59 | filtering by a test is non-empty iff some message passes it |
| ConversationAnalyzer.MatchingCount | packages/acip-dialogue/src/validators/conversation-analyzer.ts:55-62 | the number of kept contents, the reported frequency, is the count of passing messages |
| ConversationAnalyzer.CountWhereExtremes | packages/acip-dialogue/src/validators/conversation-analyzer.ts:346-350 | the count of passing messages equals the total iff all pass, and is 0 iff none pass |
| ConversationAnalyzer.AnyMatchIsPositiveCount | packages/acip-dialogue/src/validators/conversation-analyzer.ts:375-377 | `some` holds iff the count of passing messages is positive |
| ConversationAnalyzer.Truncate | packages/acip-dialogue/src/validators/conversation-analyzer.ts:71-86 | `slice(0, 100)` is the prefix of exactly min(100, length) characters |
| ConversationAnalyzer.Take | packages/acip-dialogue/src/validators/conversation-analyzer.ts:63-92 | `slice(0, n)` on examples is the prefix of exactly min(n, length) elements |
| ConversationAnalyzer.Entry | packages/acip-dialogue/src/validators/conversation-analyzer.ts:59-64 | a pattern entry is emitted iff some message matched, and its frequency is the number of matches |
| ConversationAnalyzer.PatternsFor | packages/acip-dialogue/src/validators/conversation-analyzer.ts:50-97 | at most three patterns are reported |
| ConversationAnalyzer.PatternEntriesGood | packages/acip-dialogue/src/validators/conversation-analyzer.ts:54-94 | each reported pattern has a positive frequency and at most as many examples as matches: at most 3 for questions, and at most 2 for the other kinds, each of those at most 100 characters |
| ConversationAnalyzer.PatternKindsOrdered | packages/acip-dialogue/src/validators/conversation-analyzer.ts:54-94 | patterns come in the order questions, code discussion, emotional expression, each at most once |
| ConversationAnalyzer.QuestionsReported | packages/acip-dialogue/src/validators/conversation-analyzer.ts:54-65 | a questions pattern is reported iff some user message contains `?` |
| ConversationAnalyzer.QuestionExamplesAreQuestions | packages/acip-dialogue/src/validators/conversation-analyzer.ts:55-63 | every questions example contains `?` |
| ConversationAnalyzer.DetectPatterns | packages/acip-dialogue/src/validators/conversation-analyzer.ts:50-97 | the step-by-step construction returns exactly `PatternsFor` |
| ConversationAnalyzer.FrequencyBand | packages/acip-dialogue/src/validators/conversation-analyzer.ts:112-117 | concerning iff more than 20 user messages, normal iff at most 10 |
| ConversationAnalyzer.LowerCase | packages/acip-dialogue/src/validators/conversation-analyzer.ts:136 | lower-casing keeps the length, leaves no upper-case ASCII letter, turns each upper-case letter into its lower-case partner and keeps every other character |
| ConversationAnalyzer.LowerCaseIdempotent | packages/acip-dialogue/src/validators/conversation-analyzer.ts:136 | lower-casing an already lower-cased text changes nothing |
| ConversationAnalyzer.ContainsIff | packages/acip-dialogue/src/validators/conversation-analyzer.ts:136 | `includes` holds iff the word occurs at some position |
| ConversationAnalyzer.EmotionalCount | packages/acip-dialogue/src/validators/conversation-analyzer.ts:120-137 | at most 13 emotional words are counted |
| ConversationAnalyzer.IntensityBand | packages/acip-dialogue/src/validators/conversation-analyzer.ts:138-143 | concerning iff more than 5 words, appropriate iff at most 2 |
| ConversationAnalyzer.RiskScore | packages/acip-dialogue/src/validators/conversation-analyzer.ts:179-186 | the risk score is at most 12, and at most 4 plus the points of the language flags that are set |
| ConversationAnalyzer.RiskLevelMonotone | packages/acip-dialogue/src/validators/conversation-analyzer.ts:188-195 | a higher risk score never gives a lower risk level |
| ConversationAnalyzer.HighRiskNeedsLanguage | packages/acip-dialogue/src/validators/conversation-analyzer.ts:179-195 | high or critical risk needs isolation, romantic or anxiety language; critical needs isolation or romantic language |
| ConversationAnalyzer.RomanticIsolatedHeavyUseIsCritical | packages/acip-dialogue/src/validators/conversation-analyzer.ts:112-195 | more than 20 user messages with romantic and isolation language is critical risk |
| ConversationAnalyzer.LowerCaseAppend | packages/acip-dialogue/src/validators/conversation-analyzer.ts:106-136 | lower-casing distributes over concatenation |
| ConversationAnalyzer.ContainsInJoin | packages/acip-dialogue/src/validators/conversation-analyzer.ts:106-136 | a word found in one user message is found in the joined content |
| ConversationAnalyzer.EmotionalWordIsCounted | packages/acip-dialogue/src/validators/conversation-analyzer.ts:106-137 | an emotional word in any user message makes the emotional count positive |
| ConversationAnalyzer.AssessDependencyRisk | packages/acip-dialogue/src/validators/conversation-analyzer.ts:102-205 | the step-by-step risk score returns exactly `DependencyFor` |
| ConversationAnalyzer.SensitivePatterns | packages/acip-dialogue/src/validators/conversation-analyzer.ts:215-226 | seven patterns, in source order, with their categories |
| ConversationAnalyzer.SpanLocations | packages/acip-dialogue/src/validators/conversation-analyzer.ts:233-239 | each match becomes one location with the match's start, end and the pattern's category |
| ConversationAnalyzer.Dedup | packages/acip-dialogue/src/validators/conversation-analyzer.ts:243 | `[...new Set(...)]` keeps exactly the same elements, without duplicates |
| ConversationAnalyzer.DedupFirstOccurrence | packages/acip-dialogue/src/validators/conversation-analyzer.ts:243 | `[...new Set(...)]` keeps first-occurrence order: an element listed before another occurs in the input before every occurrence of the other |
| ConversationAnalyzer.SensitiveFor | packages/acip-dialogue/src/validators/conversation-analyzer.ts:210-250 | detected iff some category was found. Categories have no duplicates and are exactly the categories of the locations |
| ConversationAnalyzer.SensitiveCategoriesInFirstOccurrenceOrder | packages/acip-dialogue/src/validators/conversation-analyzer.ts:228-247 | a category reported before another is found at a location earlier than every location of the other category |
| ConversationAnalyzer.LocationCategories | packages/acip-dialogue/src/validators/conversation-analyzer.ts:228-241 | a category no pattern carries never appears among the locations |
| ConversationAnalyzer.NeverBiometricOrSexual | packages/acip-dialogue/src/validators/conversation-analyzer.ts:215-226 | the biometric and sexual categories are never reported |
| ConversationAnalyzer.PatternLocationsOrdered | packages/acip-dialogue/src/validators/conversation-analyzer.ts:233-239 | the locations of one pattern are in bounds and in increasing, non-overlapping order |
| ConversationAnalyzer.MessageLocationsInBounds | packages/acip-dialogue/src/validators/conversation-analyzer.ts:228-241 | every location lies within its message |
| ConversationAnalyzer.DetectSensitiveData | packages/acip-dialogue/src/validators/conversation-analyzer.ts:210-250 | the nested loops return exactly `SensitiveFor` |
| ConversationAnalyzer.ConcernsFor | packages/acip-dialogue/src/validators/conversation-analyzer.ts:255-311 | at most three concerns, in the order harm, deception, illegal. Harm is critical, the others high |
| ConversationAnalyzer.ConcernIff | packages/acip-dialogue/src/validators/conversation-analyzer.ts:263-308 | each concern is raised iff its patterns match the user content |
| ConversationAnalyzer.DetectEthicalConcerns | packages/acip-dialogue/src/validators/conversation-analyzer.ts:255-311 | the step-by-step construction returns exactly `ConcernsFor` of the joined user content |
| ConversationAnalyzer.RatioInUnitInterval | packages/acip-dialogue/src/validators/conversation-analyzer.ts:349-369 | a count over a larger total is in [0,1] |
| ConversationAnalyzer.BoundaryRate | packages/acip-dialogue/src/validators/conversation-analyzer.ts:368-369 | the boundary maintenance rate lies in [0,1] and is 1 when no boundary was needed |
| ConversationAnalyzer.Helpfulness | packages/acip-dialogue/src/validators/conversation-analyzer.ts:372-381 | the helpfulness estimate lies in [0.25,1] and is at least 0.5 when some answer is structured |
| ConversationAnalyzer.QualityFor | packages/acip-dialogue/src/validators/conversation-analyzer.ts:316-389 | all zeros without an assistant message. The identity rate is 0 or 1, and 1 iff some assistant message discloses. The uncertainty and boundary rates are in [0,1]. The boundary rate is 1 when no user message needs a boundary. Helpfulness is in [0.25,1] |
| ConversationAnalyzer.RatioExtremes | packages/acip-dialogue/src/validators/conversation-analyzer.ts:346-350 | a ratio c/n is 1 iff c = n and 0 iff c = 0 |
| ConversationAnalyzer.UncertaintyRateExtremes | packages/acip-dialogue/src/validators/conversation-analyzer.ts:346-350 | the uncertainty rate is 1 iff every assistant message expresses uncertainty, and 0 iff none does |
| ConversationAnalyzer.StructureLiftsHelpfulness | packages/acip-dialogue/src/validators/conversation-analyzer.ts:372-381 | structured assistant content lifts helpfulness to at least 0.5 |
| ConversationAnalyzer.NumberedListIsStructure | packages/acip-dialogue/src/validators/conversation-analyzer.ts:375-377 | a newline followed by "1." counts as structure |
| ConversationAnalyzer.AnalysisFor | packages/acip-dialogue/src/validators/conversation-analyzer.ts:20-45 | the message count is the conversation length, and the three role counts add up to it |
| ConversationAnalyzer.AnalyzeConversation | packages/acip-dialogue/src/validators/conversation-analyzer.ts:20-45 | the method, calling the sensitive-data method and the other analyses, returns exactly `AnalysisFor` |

## Left out

- Regular expressions are not interpreted.
  - Every pattern list is an opaque predicate or span finder, supplied in the rules value.
  - Flags such as `/i`, word boundaries and CJK alternatives are therefore not modelled.
  - The finder properties (non-empty, in bounds, increasing spans) are assumed only as lemma preconditions (`ValidFinder`).
- Scores are exact `real`s, not IEEE doubles. Rounding in `1.0 - 0.1 - 0.1 …` and in the averages is not modelled.
- Strings are `seq<char>`, not UTF-16 code units. `slice(0, 100)` and `length` may differ from the source on surrogate pairs.
- ConversationAnalyzer.LowerCase: maps ASCII `A`–`Z` only, while `toLowerCase` also folds non-ASCII letters.
- `timestamp: new Date()` is replaced by the integer parameter `now`, because clocks are not modelled.
- Message timestamps and metadata are not modelled: none of the modelled code reads them.
- Roles are the closed set user/assistant/system. The source's `message.role !== 'assistant'` branch for other roles is covered by `System`.
- The `strictness` argument of the emotional-boundary, collaboration, ethics and privacy checks is dropped, because those checks never read it.
- `avgMessageLength` in `assessDependencyRisk` is computed but never used, so it is not modelled.
- The prompt templates, the type declarations and the package's index files contain no logic and are not part of this model.

# ExtensionLab: a verified model of its evidence pipeline

ExtensionLab analyses browser extensions, runs tests against them in a sandbox
and lets a model explain the results. This project models, in Dafny 4.11, the
parts of it in which many steps have to fit together, and proves what they
promise:

- **Event streams.** Two views read server-sent events (section 9.2 of the WHATWG
  HTML Standard, the subset of blocks, first `id:` line and first `data:` line)
  in arbitrary chunks. `EventStream` is the block structure of a text,
  `RunEvents` and `RunResume` the automated-run view with resumption against the
  server's log, `EventFeed` the tester view with its merged lists.
- **AI evidence.** `AIContext`, `ContextSource`, `ContextBudget` and `ContextBuild`
  build the sanitized context: focus first, shaped per feature, cut to a byte budget,
  indexed. `ContextReaders` says which field of which record each part of it is,
  `ContextAssembly` when building fails, `ContextShapes` what each feature keeps,
  `ContextTrims` and `LastTrim` what each trim does, `ContextText` that the byte measure
  is the length of the JSON text, and `ContextGuarantees` what a built context promises.
  `Schema` and `TestSuggestions` validate what the model answers; `OutputFields` and
  `SuggestionRules` say when they accept and what comes out, field by field.
  `NoInvention` joins the two.
- **AI requests.** `Gate` bounds provider calls in flight, `Quota` is the
  reservation store, `Service` the two-step protocol of one request over any
  interleaving of many, with faults; `ServiceSteps` says how each step can end and what
  it then leaves, `ServiceSafety` holds its invariant,
  `ServiceGuarantees`, `ServiceCharging` and `ServiceCache` what follows for slots,
  charges and the cache; `AIService` is the process as a class.
- **Three smaller pieces.** `SimpleYaml` (the line parser of the configuration
  checker; `YamlParts` says how it reads a line), `Timeline` (the merged session timeline, over `Sorting`) and
  `Deletion` (account deletion against a failing payment provider).

`Seqs`, `JsText`, `Json`, `AIErrors` and `AIOutput` are shared vocabulary, and
`TextLaws` says what its text operations do.

Code that updates things step by step is modelled by classes and loops that are
proved equal to specification functions; the lemmas then speak of those functions
and hold over whole runs. Rules that a loop and its specification share are stated a
second time, outright, and proved to be met exactly.

## How values are modelled

- A string is a sequence of Unicode scalar values, and lengths count those, where
  JavaScript counts UTF-16 units.
- Numbers are reals; NaN and the infinities are one value, `NonFinite`, where the
  code tests for them. Objects have distinct keys, in insertion order.
- Redaction, URL policy, selector and danger patterns, `toLowerCase`,
  `localeCompare`, number printing, `Number(text)`, JSON parsing of events and of
  model text, and the context hash are function parameters. Nothing is assumed of
  them, except that `Number` reads back decimal digits (resumption), that no
  two differing contexts of the run at hand collide in the hash (cache hits), that
  `localeCompare` is a total preorder (the order of files) and that a printed number is
  as long as the host says (the byte measure); each is stated where it is used. In
  particular redaction and truncation are not assumed to shorten anything.
- An exception is a result value. A fault of the database, the prompt builder or
  the provider is a parameter of the step it can hit.

## Where the code and its own documentation differ

The model follows the code; each point is stated as a lemma.

- `runAIFeature` is described as charging for validated, delivered answers only
  (`lib/ai/service.ts:27-29`). Storing the answer can fail after the charge: the
  caller gets an error and has paid (`ServiceGuarantees.ErrorYetCharged`).
- Settling a reservation "for a resource" takes the newest reservation of any
  kind (exactly when it takes the right one: `Quota.SettlesOwnExactly`), so an
  interactive session can consume the reservation of an AI answer about it
  (`Quota.WrongReservationConsumed`), even of one that then times out
  (`ServiceCharging.TimeoutChargedByOthers`). That consumed reservations are those
  of validated answers holds throughout a run exactly when no outside step does so
  (`ServiceCharging.RunPaysExactly`).
- `validateSuggestedTest` is described as never throwing. It throws exactly for a
  candidate that meets every rule and has evidence that is not a list
  (`TestSuggestions.RaisesExactly`).
- The run view leaves the block loop at "done", not the chunk loop: a later chunk
  is still processed (`RunEvents.ReadingContinuesAfterDone`). Chunking is
  irrelevant exactly when no "done" comes early (`RunEvents.ChunkIndependence`).
  The repository's own server closes the stream right after "done"
  (`app/api/tests/[runId]/events/stream/route.ts:79-80`), so it does not send such
  a text.
- The last trim can make a context longer, by one byte for each message that is one
  character over and loses two one-byte characters to the three-byte ellipsis
  (`LastTrim.EighthTrimCanGrow`, exactly when: `LastTrim.EighthTrimExactly`).
- The tester view's network list forgets ids it has evicted, so an entry can come
  back (`EventFeed.EvictedRequestComesBack`, exactly when:
  `EventFeed.NetworkWindowExactly`).
- The configuration parser looks a list's key up by the text of its first item
  line, and finds the wrong key when an earlier list has that item
  (`SimpleYaml.RoundTripsExactly`, `SimpleYaml.SecondListDisplaced`).
- Under the period-end policy a provider without that capability is asked nothing,
  and the subscription is still counted as cancelled
  (`Deletion.CountedButRunning`, exactly when: `Deletion.SettledMeansEnded`).

## Model

| member | source | states |
|---|---|---|
| EventStream.RenderSplit | components/tester/AutomatedTestRunView.tsx:144-145 | putting the blocks and the unfinished rest back together gives the text |
| EventStream.SplitUnique | components/tester/AutomatedTestRunView.tsx:144-145 | the split is the only decomposition into blank-line-free blocks and a rest without a blank line |
| EventStream.BlocksAreBlocks | components/tester/AutomatedTestRunView.tsx:144-145 | no block reaches over a blank line |
| EventStream.RestHasNoBlank | components/tester/AutomatedTestRunView.tsx:144-145 | what is kept for the next chunk holds no complete block |
| EventStream.SplitResume | components/tester/AutomatedTestRunView.tsx:143-145 | splitting the kept rest plus the next chunk continues the split of the whole |
| EventStream.CompletedIsChunkIndependent | components/tester/TesterApp.tsx:156-162 | the blocks completed chunk by chunk are those of the whole text, from any buffer state |
| EventStream.ChunkIndependence | components/tester/TesterApp.tsx:156-162 | every way of cutting a text into chunks completes the same blocks |
| RunEvents.FirstLineWith | components/tester/AutomatedTestRunView.tsx:148-149 | of a block's lines the first with the prefix counts |
| RunEvents.RunView.ConsumeBlocks | components/tester/AutomatedTestRunView.tsx:146-168 | one chunk's blocks act like the specified steps up to the first "done" |
| RunEvents.RunView.ReadConnection | components/tester/AutomatedTestRunView.tsx:129-169 | a connection leaves the state of stepping through its processed blocks |
| RunEvents.RunView.Connect | components/tester/AutomatedTestRunView.tsx:128-176 | reconnecting until "done" or refusal leaves the reader's specified state |
| RunEvents.ChunksUpToDone | components/tester/AutomatedTestRunView.tsx:140-168 | up to the first "done" the blocks processed are those of the whole text, for every chunking |
| RunEvents.ProcessedWhole | components/tester/AutomatedTestRunView.tsx:140-168 | a text delivered whole is processed up to its first "done" |
| RunEvents.ChunkIndependence | components/tester/AutomatedTestRunView.tsx:140-168 | all chunkings of a text process the same blocks exactly when no "done" comes before the last block |
| RunEvents.ReadingContinuesAfterDone | components/tester/AutomatedTestRunView.tsx:140-168 | for every "done" block followed by another block, two chunkings process different blocks |
| RunResume.EventBlock | app/api/tests/[runId]/events/stream/route.ts:45-49 | the frame the server sends for an event is one block, read back as its id and payload |
| RunResume.ReplayIsSuffix | app/api/tests/[runId]/events/stream/route.ts:70-74 | the rows after the last id seen are exactly the unread suffix of the log |
| RunResume.CutIsPrefix | components/tester/AutomatedTestRunView.tsx:140-145 | however a connection is cut, what arrives whole is a prefix of the frames sent |
| RunResume.FramesKeepSync | components/tester/AutomatedTestRunView.tsx:146-168 | consuming frames keeps the reader on a prefix of the log, its last id the largest consumed |
| RunResume.SessionKeepsSync | components/tester/AutomatedTestRunView.tsx:129-169 | so does one dropped or complete connection |
| RunResume.ResumeNeverLosesEvents | components/tester/AutomatedTestRunView.tsx:122-176 | over any sequence of dropped connections and chunkings the id-bearing events consumed up to "done" are a prefix of the server's log, none lost, repeated or reordered, and the last id never decreases |
| RunResume.ReaderFollowsSessions | components/tester/AutomatedTestRunView.tsx:122-176 | the real reader equals that account until "done", and only adds to it afterwards |
| RunResume.SessionsKeepWindow | components/tester/AutomatedTestRunView.tsx:167 | over any connections and notices the event list is the last 200 payloads taken, "done" apart, and the id-bearing frames among them are what was consumed |
| RunResume.RunViewShowsLogPrefix | components/tester/AutomatedTestRunView.tsx:122-176 | a fresh view without a "done" so far holds a prefix of the log, whatever notices came between, and lists the last 200 payloads of the frames of which exactly that prefix carries ids |
| RunResume.ShownWithoutNotices | app/api/tests/[runId]/events/stream/route.ts:62-85 | where "done" is the only notice, the payloads listed are those of the log rows |
| EventFeed.Feed.MergeEvents | components/tester/TesterApp.tsx:63-72 | the event list is the last 500 of the first occurrences of everything delivered |
| EventFeed.Feed.MergeNetwork | components/tester/TesterApp.tsx:73-97 | the network list is the fold of the bounded, id-checked insertions over everything delivered |
| EventFeed.EntryFields | components/tester/TesterApp.tsx:74-93 | exactly a network event with metadata becomes an entry, which holds the event's id and time and each metadata field, or what stands in for it |
| EventFeed.Feed.AddEvents | components/tester/TesterApp.tsx:63-98 | both lists stay functions of the whole delivery history |
| EventFeed.Feed.ReadStream | components/tester/TesterApp.tsx:144-174 | reading a stream delivers the readable events of its completed blocks, in order |
| EventFeed.Feed.ReadChunk | components/tester/TesterApp.tsx:157-173 | one chunk delivers the events of its complete blocks and keeps the rest |
| EventFeed.StreamIsChunkIndependent | components/tester/TesterApp.tsx:144-174 | what a stream delivers depends on its text only |
| EventFeed.ListsFirstArrivals | components/tester/TesterApp.tsx:63-72 | what the event list is a window of holds, of each id delivered, the first event, in order of arrival, and nothing else |
| EventFeed.EvictedNeverReturns | components/tester/TesterApp.tsx:63-72 | an event that has left the list never returns, however deliveries are batched |
| EventFeed.NetworkStaysDistinct | components/tester/TesterApp.tsx:73-97 | the network list has at most 200 entries with distinct ids |
| EventFeed.NetworkWindowExactly | components/tester/TesterApp.tsx:73-97 | it stays the last 200 of its history exactly as long as no evicted id is delivered again |
| EventFeed.EvictedRequestComesBack | components/tester/TesterApp.tsx:73-97 | after any more than 200 requests the first is off the list, and delivered again it is back on it |
| Gate.AcquireKeepsConsistent | lib/ai/limits.ts:20-29 | acquiring keeps the counters exact and both limits |
| Gate.ReleaseIsExact | lib/ai/limits.ts:32-39 | a first release takes exactly one off: neither the clamp at zero nor the default count takes effect |
| Gate.ReleaseKeepsConsistent | lib/ai/limits.ts:32-39 | releasing keeps the counters exact, and releasing twice is releasing once |
| Gate.EveryRunIsConsistent | lib/ai/limits.ts:13-41 | for every sequence of calls the global counter equals the sum of the map and the slots held, the map has no zero entry, and both limits hold |
| Gate.EmptyWhenNothingHeld | lib/ai/limits.ts:13-41 | with every slot released the gate is back to its initial counters |
| Gate.ConcurrencyGate.AcquireSlot | lib/ai/limits.ts:20-41 | the in-place counters follow the specified acquire; a refusal changes nothing |
| Gate.ConcurrencyGate.ReleaseSlot | lib/ai/limits.ts:32-39 | so do they for release, any number of times |
| AIContext.TruncateTwice | lib/ai/context.ts:60-63 | cutting to a wide and then a narrow bound is cutting to the narrow one |
| AIContext.BuildEvidenceIndex | lib/ai/context.ts:516-533 | the push loops build the specified index |
| AIContext.AddSourceFiles | lib/ai/context.ts:523-527 | so does the loop over the findings' source files |
| AIContext.IndexNamesExactly | lib/ai/context.ts:516-533 | a reference is in the index if and only if it names an item of the context with the context's own label, or a report section |
| AIContext.SourceFilesDistinct | lib/ai/context.ts:523-527 | a source file is added at most once, and only if no file has its path |
| ContextReaders.RecordsAre | lib/ai/context.ts:345-371 | issues and permissions are taken from the report before the analysis, results from the run before the report, diagnostics from the run's list before its results, events and requests from the run alone |
| ContextReaders.FindingsRead | lib/ai/context.ts:191-223 | the first four hundred identified issues and then diagnostics, each field of each finding being the named field of its record, redacted and cut to its own limit |
| ContextReaders.TestsRead | lib/ai/context.ts:225-258 | the same for test results, with their steps, assertions, evidence, errors and warnings in their numbers |
| ContextReaders.EventsRead | lib/ai/context.ts:260-273 | the last sixty events about failures, numbered from one, field by field |
| ContextReaders.RequestsRead | lib/ai/context.ts:275-288 | the last forty requests without an answer or answered with an error, numbered from one, field by field |
| ContextReaders.PermissionsRead | lib/ai/context.ts:140-159 | at most forty, from the categorized list where there is one, otherwise names and then host patterns; only a host pattern can be broad |
| ContextReaders.FilesRead | lib/ai/context.ts:170-180 | the first sixty of the files' paths in order of group and locale |
| ContextSource.BuildPermissions | lib/ai/context.ts:140-159 | the two loops build the specified permissions |
| ContextSource.StaticFindingsFrom | lib/ai/context.ts:191-204 | every static finding is the image of a stored issue |
| ContextSource.DiagnosticFindingsFrom | lib/ai/context.ts:206-223 | every diagnostic finding is the image of a stored diagnostic |
| ContextSource.TestsFrom | lib/ai/context.ts:225-258 | every test is the image of a stored result |
| ContextSource.EventsFrom | lib/ai/context.ts:260-273 | every event is the image of a stored log event |
| ContextSource.RequestsFrom | lib/ai/context.ts:275-288 | every network entry is the image of a stored request |
| ContextSource.PermissionsFrom | lib/ai/context.ts:140-159 | every permission is the image of a stored permission |
| ContextSource.FilesFrom | lib/ai/context.ts:170-180 | every path listed is the image of a stored file |
| ContextText.MeasureIsLength | lib/ai/context.ts:485-487 | the measure is the number of UTF-8 bytes of the context's JSON text with a zero byte count |
| ContextText.PrintLength | lib/ai/context.ts:485-487 | the same of any value with ASCII keys, undefined members left out |
| ContextBudget.FitToBudget | lib/ai/context.ts:490-514 | the loop over the trims returns the specified fit, of trims that `ContextTrims` pins one by one |
| ContextBudget.FewestTrims | lib/ai/context.ts:509-513 | the fit applies the shortest prefix of the eight trims that comes within budget, or all eight |
| ContextBudget.TruncatedExactly | lib/ai/context.ts:509-513 | the fit sets the truncation flag exactly when the input was over budget |
| ContextBudget.TrimCuts | lib/ai/context.ts:494-508 | every trim leaves order-preserving subsequences of shortened items |
| ContextBudget.TrimsCut | lib/ai/context.ts:494-513 | so does any prefix of them |
| ContextBudget.TrimShrinks | lib/ai/context.ts:485-501 | the first seven trims never lengthen the serialized context |
| ContextTrims.FirstTrim | lib/ai/context.ts:495 | the first trim keeps the first twenty files and nothing else changes |
| ContextTrims.SecondTrim | lib/ai/context.ts:496 | the second keeps the last ten requests and twenty events |
| ContextTrims.ThirdTrim | lib/ai/context.ts:497 | the third empties the steps and evidence of every test but the focused one, which stays as it is |
| ContextTrims.FourthTrim | lib/ai/context.ts:498 | the fourth keeps the first twelve findings and the focused one |
| ContextTrims.FifthTrim | lib/ai/context.ts:499 | the fifth keeps the first eight tests and the focused one |
| ContextTrims.SixthTrim | lib/ai/context.ts:500 | the sixth drops all requests and keeps the last eight events and the first eight files |
| ContextTrims.SeventhTrim | lib/ai/context.ts:501 | the seventh keeps the first four findings and three tests, and the focused ones |
| ContextTrims.LastTrimShortens | lib/ai/context.ts:502-507 | the eighth cuts every message to 400 characters and every list to its number, and nothing else changes |
| ContextTrims.LeadingMember | lib/ai/context.ts:498-501 | an item is kept exactly when it is focused or stands before the given position |
| ContextTrims.FocusedUnchanged | lib/ai/context.ts:494-513 | through the first seven trims focused findings and tests stay as they are |
| LastTrim.TruncationGrows | lib/ai/context.ts:505-506 | shortening a text saves the bytes of what it cuts less three, and adds one byte exactly when the text is one character over and the two characters replaced take one byte each |
| LastTrim.EighthTrimExactly | lib/ai/context.ts:502-507 | the last trim changes a context's bytes by one per such message less the bytes it saves: it lengthens the context exactly when there are more of the former, and never by more than their number |
| LastTrim.NoOverlongNoGrowth | lib/ai/context.ts:502-507 | without such a message the last trim never lengthens a context |
| LastTrim.EighthTrimCanGrow | lib/ai/context.ts:502-507 | a context of such messages with nothing to drop grows by one byte for each |
| ContextAssembly.UnshapedFocusFirst | lib/ai/context.ts:361-369 | forty findings and thirty-two tests, the requested ones first, each group in stored order |
| ContextAssembly.UnshapedExtension | lib/ai/context.ts:346-356 | the extension's texts in 160, 40 and 16 characters, twenty features, its permissions and files |
| ContextAssembly.UnshapedFocus | lib/ai/context.ts:373-376 | requested ids as they are and the question in 500 characters, empty ones left out |
| ContextAssembly.BuildFailsExactly | lib/ai/context.ts:378-407 | building is refused exactly for an unknown focus, a missing one, or a fitted context that with its index is over budget |
| ContextAssembly.RefsAre | lib/ai/context.ts:516-533 | kind, id and label of the reference to each sort of item |
| ContextShapes.FindingShape | lib/ai/context.ts:433-443 | explaining a finding keeps it whole and first, up to twelve others in brief, the tests it names whole, no events and no requests |
| ContextShapes.NoFindingNoShape | lib/ai/context.ts:433-434 | and fails exactly without it |
| ContextShapes.TestShape | lib/ai/context.ts:444-454 | explaining a test failure keeps the test whole and first and the others in brief, the findings about it whole and eight others in brief, twenty events and ten requests |
| ContextShapes.NoTestNoShape | lib/ai/context.ts:444-445 | and fails exactly without it |
| ContextShapes.ErrorShape | lib/ai/context.ts:455-463 | analysing an error keeps failed, erroneous, timed-out and warned tests whole and first and the others in brief, diagnostics whole and six static findings in brief |
| ContextShapes.SuggestionShape | lib/ai/context.ts:464-471 | suggesting tests takes everything in brief, ten events and ten requests |
| ContextShapes.ReportShape | lib/ai/context.ts:472-481 | a report's summary or question takes findings with messages of 400 characters, tests in brief, fifteen events and ten requests |
| ContextBuild.Build | lib/ai/context.ts:345-408 | the assembly returns the specified context, or the specified refusal; `ContextAssembly` and `ContextShapes` say outright which |
| ContextBuild.PrioritizedFirst | lib/ai/context.ts:185-189 | focused items come first |
| ContextBuild.FindingSurvivesShape | lib/ai/context.ts:411-483 | shaping keeps the focused finding for all six features |
| ContextBuild.TestSurvivesShape | lib/ai/context.ts:411-483 | for every feature but explaining a finding, a test with the focused id is still there after shaping; whole or in brief as `ContextShapes` says |
| ContextBuild.FindingSurvivesTrims | lib/ai/context.ts:494-513 | no trim drops the focused finding |
| ContextBuild.TestSurvivesTrims | lib/ai/context.ts:494-513 | no trim drops the focused test |
| ContextGuarantees.AssembledFrom | lib/ai/context.ts:378-407 | a successful assembly is the indexed form of some number of trims of the shaped context, within the budget, with the focus found |
| ContextGuarantees.BytesWithinBudget | lib/ai/context.ts:402-407 | a built context reports its own measure, and it is within the budget |
| ContextGuarantees.MeasureIgnoresBytes | lib/ai/context.ts:485-487 | the measure does not depend on the byte count it reports |
| ContextGuarantees.TruncationReported | lib/ai/context.ts:400-401 | a built context says it is truncated exactly when its shaped form was over budget |
| ContextGuarantees.IndexIsComplete | lib/ai/context.ts:402 | a built context's index lists exactly the items that survived |
| ContextGuarantees.FocusFindingRetained | lib/ai/context.ts:359-408 | a requested finding is in the findings and in the index, whatever the feature and the budget |
| ContextGuarantees.FocusTestRetained | lib/ai/context.ts:359-408 | a requested test is in the tests and in the index, except when a finding is explained |
| ContextGuarantees.NothingInvented | lib/ai/context.ts:345-533 | every entry of the index descends from a stored record through prioritizing, shaping and trimming |
| OutputFields.ExplanationAccepted | lib/ai/schema.ts:121-136 | for the three explaining features an answer is accepted as `o` if and only if every field of `o` is the bounded clean form of its own key, required texts not empty, required lists present |
| OutputFields.SummaryAccepted | lib/ai/schema.ts:138-151 | the same for a report's summary |
| OutputFields.AnswerAccepted | lib/ai/schema.ts:153-164 | the same for a question, with a boolean `outOfScope` |
| OutputFields.SuggestionsAccepted | lib/ai/schema.ts:172-208 | the same for suggestions, whose tests and refusals are where judging the first sixteen candidates leads |
| OutputFields.ExplanationRefused | lib/ai/schema.ts:121-136 | an explanation is refused exactly for a flaw, and for the first in the order of its fields |
| OutputFields.SummaryRefused | lib/ai/schema.ts:138-151 | the same for a summary |
| OutputFields.AnswerRefused | lib/ai/schema.ts:153-164 | the same for an answer |
| OutputFields.SuggestionsRefused | lib/ai/schema.ts:172-208 | the same for suggestions, a candidate that raises coming before the other fields |
| OutputFields.TextFieldExactly | lib/ai/schema.ts:39-49 | a required text is the redacted, squeezed text under its key, not empty, cut to its bound |
| OutputFields.ListFieldExactly | lib/ai/schema.ts:51-67 | a list field holds the usable texts in front of the first non-text or up to its bound |
| OutputFields.CitationResolvesExactly | lib/ai/schema.ts:86-91 | a citation resolves to the first index entry of its kind and id, if its kind is one of the eight |
| OutputFields.EvidenceFieldExactly | lib/ai/schema.ts:80-98 | the evidence is what the citations mean, without repeats, the first twelve |
| OutputFields.SiftExactly | lib/ai/schema.ts:177-199 | the candidate loop ends well with exactly what judging candidate by candidate leads to, at the eighth test or the last candidate |
| TextLaws.SquashSpread | lib/ai/schema.ts:46 | squeezing a text leaves its words, one blank apart |
| Schema.CollectTexts | lib/ai/schema.ts:51-67 | the list loop answers the specified texts, or the violation |
| Schema.TextsAreBounded | lib/ai/schema.ts:51-67 | every text kept is non-empty, bounded, and the cleaned form of an item |
| Schema.KeyTextInjective | lib/ai/schema.ts:92-93 | on the allowed kinds the string key tells apart what kind and id tell apart |
| Schema.CollectEvidence | lib/ai/schema.ts:80-98 | the evidence loop returns the first twelve distinct citations that resolve |
| Schema.EvidenceTakesFirsts | lib/ai/schema.ts:80-98 | those are, of each kind and id that resolve, the first citation in order; twelve at most, and all if there are no more |
| Schema.EvidenceIsIndexed | lib/ai/schema.ts:80-98 | every validated citation is the index's own entry |
| Schema.EvidenceIdempotent | lib/ai/schema.ts:80-98 | validating validated evidence again changes nothing |
| Schema.ValidateEvidence | lib/ai/schema.ts:80-98 | absent evidence is empty, anything but a list is a violation |
| Schema.SiftCandidates | lib/ai/schema.ts:177-199 | the candidate loop keeps first ids, refuses the rest, and stops at eight or at a violation |
| Schema.KeepsFirstAccepted | lib/ai/schema.ts:188-194 | the tests kept are the first accepted of each id, in order |
| Schema.SuggestionAccounting | lib/ai/schema.ts:172-208 | every consumed candidate lands in exactly one list, ids are distinct, at most eight are kept, and the final cut of the refused drops nothing |
| Schema.OutputCitesContext | lib/ai/schema.ts:210-228 | every reference of every answer that is accepted, for each feature, is an entry of the context's index |
| SuggestionRules.AcceptedExactly | lib/ai/test-suggestions.ts:202-255 | a candidate is accepted as `t` if and only if it meets every rule and `t` is what it becomes, field by field; a running sum of its waits ends within the timeout |
| SuggestionRules.WaitsRefusedExactly | lib/ai/test-suggestions.ts:224-225 | a candidate with its head and every step in order is refused for its waits exactly when their running sum ends above the timeout |
| SuggestionRules.StepExactly | lib/ai/test-suggestions.ts:105-161 | a step is accepted as `s` if and only if it meets the rules for its action and `s` holds its trimmed, redacted, rounded values |
| SuggestionRules.CheckExactly | lib/ai/test-suggestions.ts:163-199 | the same for an assertion |
| SuggestionRules.UrlExactly | lib/ai/test-suggestions.ts:141-156 | a URL may be opened exactly when it is the test page or the policy passes it as https |
| TestSuggestions.ValidateStep | lib/ai/test-suggestions.ts:105-161 | a step is accepted exactly when it meets the declared rules, and becomes its image; otherwise the first broken rule is named |
| TestSuggestions.ValidateCheck | lib/ai/test-suggestions.ts:163-199 | the same for an assertion |
| TestSuggestions.CollectSteps | lib/ai/test-suggestions.ts:218-223 | the loop over the steps returns all images or the first reason |
| TestSuggestions.CollectChecks | lib/ai/test-suggestions.ts:229-234 | the same for assertions |
| TestSuggestions.ValidateSteps | lib/ai/test-suggestions.ts:215-225 | the steps are taken exactly when their number, each of them and the running sum of their waits are within the rules; otherwise the first broken rule is named |
| TestSuggestions.ValidateChecks | lib/ai/test-suggestions.ts:227-234 | the same for the assertions |
| TestSuggestions.StepsTakenExactly | lib/ai/test-suggestions.ts:218-223 | a step list is taken exactly when each step is acceptable |
| TestSuggestions.ChecksTakenExactly | lib/ai/test-suggestions.ts:229-234 | the same for assertions |
| TestSuggestions.ValidateTest | lib/ai/test-suggestions.ts:202-255 | the whole validator gives the specified verdict |
| TestSuggestions.RaisesExactly | lib/ai/test-suggestions.ts:201-255 | it accepts and it throws exactly when said, against its "never throws" |
| TestSuggestions.AcceptedIsSafe | lib/ai/test-suggestions.ts:202-255 | a running sum of an accepted test's waits ends within its timeout, the timeout in 1000 to 10000 ms, and every step and assertion obeys the engine's rules |
| TestSuggestions.ValidatorCitesIndex | lib/ai/test-suggestions.ts:252 | accepted tests cite the index only |
| NoInvention.AnswersCiteRecords | lib/ai/service.ts:83-138 | every reference of a validated answer names an item of the final context under its own label, and that item descends from a stored record |
| Quota.Latest | lib/db/repositories/quota.ts:90-96 | the reservation found for a resource is its newest, of any kind |
| Quota.ReserveCommits | lib/db/repositories/quota.ts:57-81 | reserving adds one to what its user has committed, and nothing else |
| Quota.ConsumeCommits | lib/db/repositories/quota.ts:99-111 | consuming turns reserved into used, once |
| Quota.ReleaseCommits | lib/db/repositories/quota.ts:114-119 | releasing gives one unit back, once, and cannot undo a consumption |
| Quota.ReserveWithinPlans | lib/billing/entitlements.ts:227-238 | a reservation made under the plan check never takes its user over the limit |
| Quota.SettlesOwnExactly | lib/db/repositories/quota.ts:121-129 | settling for a resource settles a given reservation of it exactly when no newer one, of any kind, was made for it |
| Quota.WrongReservationConsumed | lib/db/repositories/quota.ts:126-129 | so in any ledger a browser session consumes the reservation of a later answer about it and leaves its own open |
| Service.FindStored | lib/db/repositories/ai.ts:23-36 | a hit has the looked-up key and has not expired; a miss means there is none |
| ServiceSteps.AnsweredExactly | lib/ai/service.ts:133-162 | a waiting call is answered with `o` if and only if the reply is a text, neither blank nor too long, that parses and validates to `o`, and the charge can be written; the answer is lost exactly when storing it fails |
| ServiceSteps.AnswerEffects | lib/ai/service.ts:144-167 | an answer consumes its own reservation, charges its user once, gives up the slot and with retention adds exactly its own entry to the cache |
| ServiceSteps.RefusalEffects | lib/ai/service.ts:134-173 | any other reply ends with the code of its kind, gives slot and reservation back, and stores and charges nothing |
| ServiceSteps.CachedExactly | lib/ai/service.ts:95-103 | a start is answered from the cache exactly when results are kept and the newest entry for this user, target and context that has not expired holds that answer |
| ServiceSteps.SuspendedExactly | lib/ai/service.ts:79-131 | a start waits for the provider exactly when nothing refuses it, and then holds one new reservation and one new slot |
| ServiceSteps.FailureCode | lib/ai/service.ts:79-131 | otherwise it fails with the code of the first stage that refuses |
| ServiceSteps.OutsideExactly | lib/db/repositories/quota.ts:57-142 | other work reserves what it asks for, an AI request only where the plan has one left; a sweep gives an open reservation back |
| ServiceSafety.EnterKeepsInv | lib/ai/service.ts:105-131 | reserving, taking a slot and building the prompt keep the invariant, whichever fails |
| ServiceSafety.FinishKeepsInv | lib/ai/service.ts:133-167 | so do validation, charge, storing and the `finally`, whichever fails |
| ServiceSafety.ElsewhereKeepsInv | lib/db/repositories/quota.ts:121-142 | so does the rest of the system settling or sweeping reservations |
| ServiceSafety.EveryRunIsSafe | lib/ai/service.ts:50-174 | the invariant holds after every interleaving of starts, replies, faults and outside work |
| ServiceGuarantees.SlotsAreWaitingCalls | lib/ai/service.ts:105-167 | in every reachable state held slots and calls waiting for the provider are in bijection, per user and in all, within both limits |
| ServiceGuarantees.OpenReservationsAreAwaited | lib/ai/service.ts:105-167 | every open reservation of this process belongs to its own waiting call, unless its release could not be written |
| ServiceCharging.StepSparesExactly | lib/db/repositories/quota.ts:121-142 | given that every waiting call's reservation is open, a step leaves it so exactly when it settles none that a call is waiting on |
| ServiceCharging.RunSparesExactly | lib/ai/service.ts:105-167 | over every run waiting calls' reservations stay open throughout exactly when every outside step spares them |
| ServiceCharging.ReservationsAreWaitingCalls | lib/ai/service.ts:105-167 | in such runs this process's open reservations are exactly those of waiting calls, and those whose release could not be written |
| ServiceGuarantees.QuietMeansEmpty | lib/ai/service.ts:162-167 | once no call waits, whichever stage threw, no slot is held and only unwritable releases are still open |
| ServiceGuarantees.ReplySettlesOwnReservation | lib/ai/service.ts:133-167 | a reply that is acceptable, a short enough text that parses and validates, consumes its own open reservation exactly once; any other ending charges nothing and gives it back |
| ServiceCharging.RunPaysExactly | lib/ai/service.ts:133-167 | over every run the consumed reservations of this process are at every moment exactly those of validated answers, exactly when outside steps settle no awaited reservation and consume none of ours |
| ServiceCharging.AnswersPayOnce | lib/ai/service.ts:133-167 | in such runs a call's own reservation is consumed if and only if its output was validated |
| ServiceCharging.AwaitedReservationConsumed | lib/db/repositories/quota.ts:126-129 | from any state, work that settles by resource right after a call starts to wait consumes the waiting call's reservation |
| ServiceCharging.TimeoutChargedByOthers | lib/db/repositories/quota.ts:126-129 | a run in which a call that times out is charged that way |
| ServiceGuarantees.ErrorYetCharged | lib/ai/service.ts:144-164 | a caller gets an error and is charged exactly when storing a validated answer fails after the charge |
| ServiceGuarantees.StartNeverCharges | lib/ai/service.ts:79-131 | starting never charges, a cache hit changes nothing, a failed start leaves its reservation released |
| ServiceCharging.ChargedMeansValidated | lib/ai/service.ts:133-145 | over every run, whatever the rest of the system does, a consumed reservation of this process was consumed either by an outside step or for its own call's validated output, never both |
| ServiceGuarantees.QuotaIsNeverExceeded | lib/ai/service.ts:105-106 | over every run used plus reserved stays within the plan, and usage equals consumed reservations |
| ServiceCache.HitWasValidated | lib/ai/service.ts:85-103 | a hit is the answer of an earlier call of the same user about the same target, validated against a context with the current hash; if no call's differing context has that hash, it is the current context, byte count aside |
| ServiceCache.HitCitesCurrentRecords | lib/ai/service.ts:95-103 | then whatever a hit cites is in the current context and descends from the current request's records |
| ServiceCache.AnswerCitesOwnRecords | lib/ai/service.ts:133-161 | the same for a fresh answer |
| AIService.Process.Start | lib/ai/service.ts:79-106 | the in-place stores follow the specified first step |
| AIService.Process.Enter | lib/ai/service.ts:105-131 | the reservation and what follows it up to the provider call do too |
| AIService.Process.Hold | lib/ai/service.ts:107-131 | the inner try up to the provider call does too |
| AIService.Process.Launch | lib/ai/service.ts:110-131 | a prompt that throws gives back slot and reservation, otherwise the call is suspended |
| AIService.Process.Conclude | lib/ai/service.ts:133-164 | so does everything from the reply to the `catch`, and it ends in an answer exactly for an acceptable reply that can be charged |
| AIService.Process.Resume | lib/ai/service.ts:133-167 | and the slot is released on every path |
| SimpleYaml.ParseSimpleYaml | scripts/validate-extensionlab-config.js:11-45 | the line loop returns the specified configuration |
| YamlParts.ScalarExactly | scripts/validate-extensionlab-config.js:37-41 | a scalar is a truth value, the empty list, its number, or its text without quotes, whichever comes first |
| YamlParts.StripQuotesExactly | scripts/validate-extensionlab-config.js:41 | one quote is taken off each end that has one |
| YamlParts.LinesEndWhereSaid | scripts/validate-extensionlab-config.js:12 | the lines with their ends, a line feed or a return and a line feed, make up the text |
| YamlParts.ItemExactly | scripts/validate-extensionlab-config.js:20 | an item line has a dash and a blank, indented by at most two, and something after |
| YamlParts.PlainExactly | scripts/validate-extensionlab-config.js:23 | a line is a candidate header exactly when its first solid character is no dash |
| YamlParts.CutAtColonExactly | scripts/validate-extensionlab-config.js:24 | a header is cut at the first colon with only the rest of its line after it |
| SimpleYaml.ScalarStep | scripts/validate-extensionlab-config.js:30-42 | a `key: text` line stores the scalar under its key |
| SimpleYaml.AfterItems | scripts/validate-extensionlab-config.js:20-29 | a header and its item lines store the items under the first item's owner |
| SimpleYaml.OwnerIsFirstList | scripts/validate-extensionlab-config.js:22-25 | the key found for an item line is that of the first list with the item |
| SimpleYaml.ParsePrinted | scripts/validate-extensionlab-config.js:11-45 | parsing a printed configuration stores every value at its target |
| SimpleYaml.RoundTripsExactly | scripts/validate-extensionlab-config.js:11-45 | a printed flat configuration is read back exactly when no list starts with an item of an earlier list |
| SimpleYaml.DisplacedList | scripts/validate-extensionlab-config.js:22-25 | otherwise the later list takes the earlier one's place |
| SimpleYaml.SecondListDisplaced | scripts/validate-extensionlab-config.js:22-25 | two concrete lists for which that happens |
| Sorting.SortFilter | components/interactive/panels.tsx:436 | selecting and stable sorting commute |
| Sorting.SortIsUnique | components/interactive/panels.tsx:436 | sorted with ties kept determines the arrangement |
| Timeline.BuildTimeline | components/interactive/panels.tsx:400-437 | the push loops and the sort return the stable sort of the three inputs |
| Timeline.ShowsEveryEntry | components/interactive/panels.tsx:406-435 | one item is pushed for every entry, in the order of the sources, with the entry's own time, message, id and severity |
| Timeline.TimelineIsStableSort | components/interactive/panels.tsx:436 | the timeline is a permutation in time order that keeps the pushed order of ties, and the only such list |
| Timeline.TiesOrderBySource | components/interactive/panels.tsx:400-437 | ties order session, console, network |
| Timeline.SourcesKeepTheirOrder | components/interactive/panels.tsx:400-437 | a source already in time order appears as an unchanged subsequence |
| Deletion.SettledMeansEnded | lib/account/deletion.ts:61-107 | after settling, every open subscription of the provider has ended exactly when the provider can honour the policy or all had ended before |
| Deletion.CountedButRunning | lib/account/deletion.ts:86-91 | a running subscription that is counted as cancelled |
| Deletion.NoSubscriptionOutlivesItsAccount | lib/account/deletion.ts:31-44 | the user's rows go only after that |
| Deletion.JobsStopExactly | lib/account/deletion.ts:32-36 | once the subscriptions are settled every active job is stopped, and no other, and before that none; a completed deletion leaves no rows |
| Deletion.FailureKeepsTheAccount | lib/account/deletion.ts:92-104 | a failed deletion leaves rows and blobs untouched, and nothing ended is revived |
| Deletion.RetryCompletes | lib/account/deletion.ts:31-107 | after any failed attempt a retry without faults completes |
| Deletion.BlobsAreAccountedFor | lib/account/deletion.ts:46-58 | blobs deleted plus failed equal the keys collected, and exactly the failing ones remain |
| Deletion.SettlesWithoutFaults | lib/account/deletion.ts:74-106 | without faults the loop finishes from whatever an earlier attempt left |
| Deletion.AccountDeletion.CancelOne | lib/account/deletion.ts:79-92 | one row's calls follow the specification, whichever call throws |
| Deletion.AccountDeletion.CancelSubscriptions | lib/account/deletion.ts:61-107 | so does the loop |
| Deletion.AccountDeletion.DeleteAccount | lib/account/deletion.ts:31-59 | so does the whole deletion |

## Left out

- EventFeed.Feed.AddEvents: each state updater is taken to run once, so React's double invocation in development is not captured.
- RunResume.ResumeNeverLosesEvents: chunks are decoded text; a UTF-8 sequence cut by a chunk boundary is the decoder's business. The server's log only grows, with increasing ids and one-line payloads; the retry delay, `setInfo` and `refresh` are not modelled.
- ServiceCache.HitWasValidated: a run starts with an empty cache, so hits on results stored by another process are not covered; the JSON round trip of a stored result is taken to be the identity, and equal creation times count in insertion order.
- ServiceGuarantees.QuotaIsNeverExceeded: one usage period and one plan per user; period changes, plan changes and deleted old rows are not modelled.
- ServiceGuarantees.ReplySettlesOwnReservation: a call of the stores either takes effect or throws without effect.
- Service.FindStored: a lookup that throws is a fault of the start step.
- TestSuggestions.ValidateTest: reasons are constructors, not the English sentences; the deployment's limits are the defaults.
- Schema.OutputCitesContext: extracting the JSON object from the model's text is a function parameter.
- ContextBuild.Build: scores, run summary, manifest features and file count are carried as extracted; a null element inside a stored event or request list, which makes the code throw, is read as an element without fields.
- ContextReaders.PermissionsRead: a host pattern that is not a text is never broad; the code tests its string form.
- Deletion.BlobsAreAccountedFor: whether deleting a blob fails depends on its key only.
- SimpleYaml.ParseSimpleYaml: the keys "__proto__" and the like, which JavaScript objects treat specially, and the order of an object's keys.
- `validateConfig`, `categorizePermissions`, `useWindowed`: one-branch checks and slices that would add only easy members.
- `withTimeout`, abort signals, logging, metrics, envelopes and prompts: they do not change what is proved.
- Redaction rules, URL and selector policies, SQL, the job queue, the sandbox and the providers: function parameters, small stores or faults.

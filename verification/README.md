# Models of the BoThesis runtime

BoThesis answers questions over a tenant's documents: an agent loop samples a
model, runs tools and streams a cited answer, while connectors keep a vector
index of the documents up to date.  This project models the parts of that system
that keep state over unbounded runs, and proves what each of them keeps.
`dafny verify dfyconfig.toml` checks all of it.

Code that works by changing things in place is a class or a loop here, proved
against a specification function; what the system promises is then proved about
that function.  Concurrent code is a state machine over the steps of its threads,
and a theorem about it holds for every interleaving.

## Modules

| file | what it models |
|---|---|
| `CitationParser`, `CutIndependence` | the parser that turns `[[cite:ref]]` into citations while text is still streaming, and exactly when the way the text is cut into deltas cannot be seen |
| `CitationProjection`, `StreamTheory` | the rewriting of one response stream: `[n]` markers, annotations that bracket them, run-scoped numbering |
| `Protocol`, `ReducerModel`, `Reducer`, `ReducerTheory` | the reducer that rebuilds a response from its events, in flat tables updated in place, and the per-index meaning of a stream it is proved against |
| `StreamedItems` | what the reduced items say, told from the events alone |
| `StreamPipeline`, `MessageStream` | one sampling request from end to end: provider events, projection, reducer, stored message |
| `ProviderStreams`, `InterleavedParts` | which event lists the pipeline handles, and what each part reads when items and parts are streamed side by side |
| `Configuration`, `ContextSelection`, `HistoryWindow` | which tool interactions and which earlier messages the model sees |
| `ToolOrchestration`, `TurnLoop`, `ToolProgress` | one batch of tool calls, the turn loop with its budgets, and progress forwarding while tools run |
| `ItemForest`, `SessionLineage` | the row triggers on items and access sessions |
| `Connections` | integration connections against the sources that depend on them |
| `ConnectorPipeline`, `ItemIndex`, `PromptBudget` | change application, the derived vector index, and the exact prompt budget |
| `ArtifactHistory` | revisions of generated documents across an object store and a database, with crashes |
| `Crawler` | the concurrent crawler: work queue, visited set, barrier, sentinels |
| `Prelude` | shared vocabulary |

## What the models found

- **Cutting a stream.** The parser is not independent of the cut for every text
  (`UnsafeExample`).  It is exactly for the texts that meet `CutSafe`, a condition on
  the text alone (`CutIndependentIffCutSafe`).  The length limit acts on what is held:
  a marker of 257 characters is still handled like shorter ones, because only its
  proper prefixes have to be held.
- **Raw markers without a delta.**  The projection opens a page with the first text delta.  A
  provider that sends its text only in the done events has it stored as it wrote it, internal
  markers included (`PageIffDelta`, `WithoutDeltasStoredRaw`); for one message the stored part
  reads as intended exactly when there was a delta or no text at all
  (`StoredMessageReadsTheIntendedText`).
- **A later opening replaces the identity.**  `response.queued` and `response.in_progress` carry
  a whole response, and `_open` takes it without the fallback that `_settle` has
  (`IdentityKeptIff`, `AlwaysIdentifiedIff`, `LaterOpeningForgets`).  The shipped adapter stamps the
  prompt's predecessor on every response (`backend/bothesis/agent/transports/responses_adapter.py:528`),
  so its openings repeat it.
- **"The latest tool output is always retained"** is what the documentation of
  `_selected_input_items` says (`backend/bothesis/agent/context_manager.py:189-191`).  Native content that
  a tool returns is recorded behind the output as a message
  (`backend/bothesis/agent/turn.py:92-96`), is admitted first, and can push the output out
  (`LatestOutputCanBeDropped`).  `LatestOutputKeptIff` gives the exact condition.
- **The tool-call budget counts reports, not executions.**  A handler that itself
  reports an outcome such as `invalid_arguments` runs without being charged
  (`UnchargedLaunch`); a batch is charged for all it launched exactly when no handler did
  (`Counted`, `ChargedIsCounted`).  No handler of the repository reports one of the five
  outcomes, which are written only in `backend/bothesis/agent/tools/core/orchestrator.py`; without
  such reports a turn launches at most `max_tool_calls` calls (`LaunchesWithinBudget`).
- **A hosted call can be kept without its result.**  The scan skips the calls of excluded
  outputs only for function calls.  `HostedCallKeptIff` and `HostedPairTogetherIff` give the
  exact condition; `HostedCallCanStayAlone` is such a history.
- **The sampling-request limit cannot be reached** under a configuration that
  `__post_init__` accepts (`RunTurn`), and the unknown-tool refusal cannot happen
  (`UnknownToolIsUnreachable`), because the router only exposes registered tools.
- **The item trigger looks upwards only.**  It is exact for insertions and moves
  (`PlacementIsExact`); changing the tenant or the type of an item with children passes it
  and is sound exactly when the children tolerate the change (`TriggerIsExact`,
  `TenantChangeIsNotChecked`).
- **Point ids** join tenant, item and index with colons.  They are injective among tenants
  without a colon, and two addresses collide exactly when `PointNamesCollideIff` says.
- **Ready does not mean usable.**  An operator may resume a paused source of a disconnected
  connection (`ReadyDoesNotMeanUsable`).  That is the only way: `ReadyUsableIff` and, over whole
  runs, `RunReadyUsableIff` say that ready sources have usable connections exactly as long as no
  source is resumed while its connection needs authorization.
- **Reading strips ids.**  Indexed content reads back exactly when ids carry no outer white space,
  no chunk is blank, and the source is known (`ReadsBackIff`, `RecordsReadBackIff`).
- **The cut branch of a preview is never taken** for revisions this service wrote: the limit they
  passed when written is the limit of the preview (`Content`).
- **A cut excerpt need not be the last line.**  An excerpt cut in front of an `&` can leave up to
  three characters of the budget, which the next label then takes (`LinesAreExcerpts`, `CutLineIsFollowed`).
- A revision updates the storage key and the size of its item, but not its MIME type, which
  stays that of the first revision (`Sound` in `ArtifactHistory`).

## Model

| member | source | states |
|---|---|---|
| CitationParser.ProcessCitationBuffer | backend/bothesis/agent/citation_stream.py:240-281 | the loop over the remaining buffer emits and holds exactly what the recursive parse of the buffer prescribes |
| CitationParser.ShownPlain | backend/bothesis/agent/citation_stream.py:245-252 | text without an opening is shown as it is; only a trailing bracket waits |
| CitationParser.ShownOpen | backend/bothesis/agent/citation_stream.py:253-264 | an unclosed candidate is held as a whole while it may become a marker, and otherwise shown as a whole |
| CitationParser.ShownClosed | backend/bothesis/agent/citation_stream.py:265-281 | a closed candidate is one unit, whatever follows it |
| CutIndependence.CutIndependentIffCutSafe | backend/bothesis/agent/citation_stream.py:107-131 | every way of cutting a text into deltas shows the same symbols after the flush if and only if the text is cut-safe |
| CutIndependence.EveryCut | backend/bothesis/agent/citation_stream.py:124-131 | for a cut-safe text, any number of cuts gives what one delta gives |
| CutIndependence.OneCut | backend/bothesis/agent/citation_stream.py:124-131 | for a cut-safe text, holding a suffix back and parsing it with the next delta shows what parsing all at once shows |
| CutIndependence.TellingCut | backend/bothesis/agent/citation_stream.py:258-264 | every text that is not cut-safe has a cut that shows something else |
| CutIndependence.GroundedMarker | backend/bothesis/agent/citation_stream.py:269-279 | a marker becomes a citation exactly when its reference was issued and is spelled safely, and is dropped otherwise |
| CutIndependence.OtherMarkerIsProse | backend/bothesis/agent/citation_stream.py:265-281 | any other closed `[[...]]` is shown as it is |
| CutIndependence.StreamingShowsTheIntendedText | backend/bothesis/agent/citation_stream.py:240-281 | for prose and well-formed markers every cut shows the prose and one citation per grounded marker, and nothing else |
| CutIndependence.UnsafeExample | backend/bothesis/agent/citation_stream.py:258-264 | a concrete text whose two cuts read differently |
| CitationProjection.CitationReferences.Number | backend/bothesis/agent/models/__init__.py:116-124 | the number lies between 1 and the count, belongs to this reference alone, and no other reference's number changes |
| CitationProjection.CitationProjection.CitationEvents | backend/bothesis/agent/citation_stream.py:133-167 | one marker delta and one annotation that starts where the text ended and ends behind the marker |
| CitationProjection.CitationProjection.Push | backend/bothesis/agent/citation_stream.py:124-131 | the held suffix replaces the buffer, and exactly the grounded references are remembered as used |
| CitationProjection.CitationProjection.Delta | backend/bothesis/agent/citation_stream.py:93-105 | the loop over the fragments forwards what showing them one after the other forwards, and the references that count as used are exactly those shown as citations and annotated |
| CitationProjection.CitationProjection.FlushText | backend/bothesis/agent/citation_stream.py:107-122 | whatever is still held is forwarded as one delta, and the buffer is gone |
| CitationProjection.CitationProjection.Merged | backend/bothesis/agent/citation_stream.py:182-189 | the given annotations followed by those of the page they do not contain |
| CitationProjection.CitationProjection.RewriteContent | backend/bothesis/agent/citation_stream.py:169-180 | exactly the text parts that streamed are replaced by their pages |
| CitationProjection.CitationProjection.ProjectEvent | backend/bothesis/agent/citation_stream.py:53-91 | the in-place tables and the forwarded events are those of the projection function, for every event |
| CitationProjection.NumberedOk | backend/bothesis/agent/models/__init__.py:116-124 | numbers stay between 1 and their count, distinct, and unchanged once given |
| Prelude.DecimalReads | backend/bothesis/agent/citation_stream.py:146-147 | the digits shown in a marker stand for its number |
| StreamTheory.ProjectKeepsLocated | backend/bothesis/agent/citation_stream.py:133-167 | after every event each annotation brackets exactly its own `[n]` and the ranges are disjoint and increasing |
| StreamTheory.StreamReads | backend/bothesis/agent/citation_stream.py:93-122 | the settled page is the symbol-by-symbol reading of what the stream shows |
| StreamTheory.SettledPageIgnoresTheCut | backend/bothesis/agent/citation_stream.py:93-131 | text and annotations of a settled part do not depend on how the model's text was cut |
| StreamTheory.SettledPageReadsTheIntendedText | backend/bothesis/agent/citation_stream.py:93-131 | a well-formed text settles as its prose with `[n]` and an annotation for every grounded marker |
| Reducer.ResponseReducer.AppendText | backend/bothesis/agent/reducer.py:308-317 | of all slots only the addressed one changes, and it becomes the reference slot with the delta appended to one accumulator, its part created if missing |
| Reducer.ResponseReducer.SetText | backend/bothesis/agent/reducer.py:319-328 | of all slots only the addressed one changes, and it becomes the reference slot with one accumulator replaced |
| Reducer.ResponseReducer.AddAnnotation | backend/bothesis/agent/reducer.py:330-341 | of all slots only the addressed one changes, and it becomes the reference slot with the annotation at its index, or at the end when the index is too large |
| Reducer.ResponseReducer.PlacePart | backend/bothesis/agent/reducer.py:280-295 | a part replaces the text only when it carries some, and only adds annotations that are new |
| Reducer.ResponseReducer.PlaceSummaryPart | backend/bothesis/agent/reducer.py:297-306 | of all slots only the addressed one changes; its summary part is placed and its text replaced only when the part carries some |
| Reducer.ResponseReducer.Seed | backend/bothesis/agent/reducer.py:255-278 | an item's own content is adopted in order, at its own index only |
| Reducer.ResponseReducer.PlaceItem | backend/bothesis/agent/reducer.py:247-253 | the placed slot is the reference slot, no other slot moves, and the view is current again |
| Reducer.ResponseReducer.Rebuild | backend/bothesis/agent/reducer.py:349-416 | rebuilding one item makes every item equal to the view of its slot (what that view says is told by StreamedItems.ItemsShowWhatWasSaid) |
| Reducer.ResponseReducer.Open | backend/bothesis/agent/reducer.py:187-190 | every item of the opening response is placed at its own index |
| Reducer.ResponseReducer.PlaceMissing | backend/bothesis/agent/reducer.py:195-197 | a terminal snapshot only fills indices that streamed nothing |
| Reducer.ResponseReducer.ResolvePhases | backend/bothesis/agent/reducer.py:222-240 | exactly the assistant messages without a phase get one, in the item and in its shell |
| Reducer.ResponseReducer.Settle | backend/bothesis/agent/reducer.py:192-211 | placing what is missing, the envelope, and filling phases are together one step of the reference |
| Reducer.ResponseReducer.Apply | backend/bothesis/agent/reducer.py:85-183 | every event moves every slot as the reference prescribes and the items stay their views; over whole streams StreamedItems tells the items from the events |
| ReducerModel.ViewOfPhased | backend/bothesis/agent/reducer.py:233-240 | filling the phase of a shell fills the phase of the item it stands for and nothing else |
| ReducerTheory.ApplyAll | backend/bothesis/agent/reducer.py:85-183 | after any sequence of item events every slot is the fold of the sequence |
| ReducerTheory.FoldIsLocal | backend/bothesis/agent/reducer.py:101-183 | the slot of an index is the fold of only the events addressed to it |
| ReducerTheory.InterleavingIndependent | backend/bothesis/agent/reducer.py:74-78 | two streams with the same events per index leave the same items, however they are interleaved |
| ReducerTheory.SettleDetermined | backend/bothesis/agent/reducer.py:192-245 | settling equal responses with the same snapshot leaves the same items |
| ReducerTheory.SnapshotKeepsStreamedItem | backend/bothesis/agent/reducer.py:192-211 | a terminal snapshot never replaces a streamed item; at most a missing phase is filled |
| ReducerTheory.IdentityKeptIff | backend/bothesis/agent/reducer.py:187-220 | one event keeps the response's id and predecessor if and only if a later opening repeats both, or a settled snapshot repeats them or leaves them out |
| ReducerTheory.AlwaysIdentifiedIff | backend/bothesis/agent/reducer.py:187-220 | over any stream, later openings included, an opened response keeps its identity at every moment if and only if every event keeps it |
| ReducerTheory.LaterOpeningForgets | backend/bothesis/agent/reducer.py:187-210 | a later opening without the predecessor forgets it where a settled snapshot would not |
| ReducerTheory.LastLifecycleDecides | backend/bothesis/agent/reducer.py:187-220 | for every stream the last lifecycle event decides the status, whatever item events follow; without one the envelope is as it was |
| ReducerTheory.EnvelopeMeans | backend/bothesis/agent/reducer.py:192-220 | a settled snapshot is completed from what was opened, field by field; an error changes status and error alone |
| ReducerTheory.SameViewSameItem | backend/bothesis/agent/reducer.py:349-416 | slots that agree on what can be seen stand for the same item |
| ReducerTheory.DeltasAdd | backend/bothesis/agent/reducer.py:107-180 | two deltas in a row are their concatenation, for every kind of delta |
| ReducerTheory.SplittingADelta | backend/bothesis/agent/reducer.py:308-317 | splitting one delta anywhere in a stream leaves every slot as it was |
| ReducerTheory.RepeatedText | backend/bothesis/agent/reducer.py:319-328 | a done event that repeats the streamed text changes nothing visible |
| ReducerTheory.RepeatedPart | backend/bothesis/agent/reducer.py:280-295 | a part event that repeats the part changes nothing visible |
| ReducerTheory.RepeatedItem | backend/bothesis/agent/reducer.py:255-278 | a final item of any kind that repeats what was streamed for it replaces the item's own fields and nothing else |
| ReducerTheory.RepeatedEvent | backend/bothesis/agent/reducer.py:107-183 | every kind of done event (text, refusal, reasoning, part, summary, arguments, item) that repeats what was streamed changes nothing visible but an item's own fields |
| StreamedItems.ItemsShowWhatWasSaid | backend/bothesis/agent/reducer.py:242-416 | for every list of events up to settlement, told from the events: exactly the indices at which an item was put have one; it has the constructor, id, role, phase, name, call id, kind, payload and encrypted content of the item put last, with its status or the one the event implies; arguments, texts and summaries are the last whole value followed by the later deltas; parts stand in index order with their kinds and annotations |
| StreamedItems.Reduce | backend/bothesis/agent/reducer.py:85-183 | the same of the items of a new reducer that is given the events |
| StreamedItems.ReduceResponse | backend/bothesis/agent/reducer.py:192-240 | the same of a settled response: streamed items, the snapshot's items where nothing was streamed, and a phase for every assistant message, commentary exactly when some item is a function call |
| StreamPipeline.PageIsForwarded | backend/bothesis/agent/citation_stream.py:93-122 | a page grows by exactly the text forwarded for it |
| StreamPipeline.PageIffDelta | backend/bothesis/agent/citation_stream.py:53-105 | a part has a page exactly when a text delta of it was projected |
| StreamPipeline.WithoutPageForwardedRaw | backend/bothesis/agent/citation_stream.py:60-91 | a part without a page is forwarded as the provider wrote it, and its text-done event is emptied |
| StreamPipeline.EventAgrees | backend/bothesis/agent/turn.py:234-239 | after any well-timed event the reducer's parts hold the projection's pages |
| StreamPipeline.StreamAgrees | backend/bothesis/agent/turn.py:234-239 | over every disciplined stream: parts hold pages, pages are the concatenation of the forwarded deltas, annotations bracket their markers |
| StreamPipeline.SettledPartIsForwarded | backend/bothesis/agent/turn.py:234-239 | the settled part is the concatenation of the text a client was sent, with located annotations |
| StreamPipeline.RunSamplingRequest | backend/bothesis/agent/turn.py:224-240 | the loop that projects and reduces leaves the pages and slots of the two reference functions and yields what was reduced |
| MessageStream.DeltasDisciplined | backend/bothesis/agent/citation_stream.py:93-105 | text deltas of an announced part are always well timed |
| MessageStream.StoredMessageReadsTheIntendedText | backend/bothesis/agent/turn.py:234-239 | a well-formed message, its text cut in any way, is stored as one text part; the part reads as intended if and only if the text came in at least one delta or the done events carry none, and otherwise it is their raw text |
| ProviderStreams.ShapeIsPerItem | backend/bothesis/agent/turn.py:234-239 | whether a list of events has the required shape at an output index depends only on what it says about that index, not on the interleaving |
| ProviderStreams.MessageInShape | backend/bothesis/agent/turn.py:234-239 | the events of a message with one text part have the shape |
| ProviderStreams.ShapedIsDisciplined | backend/bothesis/agent/turn.py:234-239 | a condition on the event list alone (items added empty, one kind per part, no provider annotations in text) implies the discipline of StreamAgrees for any interleaving of items and parts |
| ProviderStreams.ShapedPartIsForwarded | backend/bothesis/agent/turn.py:234-239 | in every stream of that shape a part that streamed text holds the concatenation of the text forwarded for it, with located annotations |
| InterleavedParts.PageReadsItsOwn | backend/bothesis/agent/citation_stream.py:93-131 | whatever is streamed in between, a page reads what the part's own text events show, numbered as the stream numbers its references |
| InterleavedParts.InterleavedPartReadsTheIntendedText | backend/bothesis/agent/turn.py:234-239 | in a stream of many items and parts a well-formed text that came in at least one delta is stored as its prose with `[n]` and annotations |
| InterleavedParts.MessagesSideBySide | backend/bothesis/agent/turn.py:234-239 | messages streamed side by side, in any interleaving, are each stored as they read by themselves, but for the numbers; WithoutDeltasStoredRaw says what happens without a delta |
| InterleavedParts.WithoutDeltasStoredRaw | backend/bothesis/agent/citation_stream.py:60-91 | an item without any text delta is stored from the provider's own events |
| ContextSelection.MatchingCall | backend/bothesis/agent/context_manager.py:294-305 | the last call with the id, and none behind it |
| ContextSelection.PrecedingReasoning | backend/bothesis/agent/context_manager.py:308-321 | the nearest reasoning item before the call with no output between; without one, every earlier reasoning item has an output between it and the call |
| ContextSelection.InteractionIs | backend/bothesis/agent/context_manager.py:202-221 | the unit of an output is the output, the last call with its id, and the nearest reasoning before that call with no output between |
| ContextSelection.InteractionWeighs | backend/bothesis/agent/context_manager.py:202-221 | a unit costs the sizes of what it takes |
| ContextSelection.SelectedInputItems | backend/bothesis/agent/context_manager.py:184-233 | the untouched initial items followed by the items the backward scan selects |
| ContextSelection.KeptInOrder | backend/bothesis/agent/context_manager.py:233-233 | the kept items are exactly the selected ones, in their order |
| ContextSelection.SelectionIsClosed | backend/bothesis/agent/context_manager.py:202-232 | in a well-formed history a function call is kept exactly when its output is, and a kept output keeps its call and reasoning |
| ContextSelection.HostedCallKeptIff | backend/bothesis/agent/context_manager.py:202-232 | a hosted call is kept exactly when its result fits as it is visited, or the call alone fits when it is |
| ContextSelection.HostedPairTogetherIff | backend/bothesis/agent/context_manager.py:202-232 | a hosted call and its result are kept or dropped together exactly when the result fits as it is visited or the call alone does not |
| ContextSelection.HostedCallCanStayAlone | backend/bothesis/agent/context_manager.py:222-224 | a history with a 12,000-character budget in which a hosted call is kept without its result |
| ContextSelection.SelectionIsBounded | backend/bothesis/agent/context_manager.py:201-232 | the kept items weigh at most the budget, or the last unit alone |
| ContextSelection.OutputKeptIff | backend/bothesis/agent/context_manager.py:202-232 | any tool output is kept exactly when it is the very last item, or its interaction fits into what the later items leave |
| ContextSelection.LatestOutputKeptIff | backend/bothesis/agent/context_manager.py:187-192 | the exact condition under which the latest tool output is retained |
| ContextSelection.LatestOutputCanBeDropped | backend/bothesis/agent/context_manager.py:187-192 | a history whose latest tool output is dropped |
| HistoryWindow.LongestSuffix | backend/bothesis/agent/context_manager.py:55-65 | the longest suffix within the character limit that does not start with an assistant message |
| HistoryWindow.Window | backend/bothesis/agent/context_manager.py:49-76 | a window of the history itself: over the last messages that are not blank, with their roles and stripped contents |
| HistoryWindow.WindowMeans | backend/bothesis/agent/context_manager.py:49-76 | in plain terms: the longest suffix of those messages whose contents fit and which the user opens, its last messages recent, and one more where the cut would part a question from its answer |
| HistoryWindow.CandidatesAreThose | backend/bothesis/agent/context_manager.py:50-54 | the candidates are, in order, exactly the messages of the last places whose content is not blank, each with its role and its stripped content |
| HistoryWindow.WindowIsBounded | backend/bothesis/agent/context_manager.py:49-76 | both limits hold, and the recent part exceeds its own by at most one message |
| HistoryWindow.WindowIsUnique | backend/bothesis/agent/context_manager.py:49-76 | the history determines the window, through its candidates |
| HistoryWindow.DropAssistants | backend/bothesis/agent/context_manager.py:90-91 | the suffix behind the leading assistant messages: all that is dropped is from the assistant, and what is left does not start so |
| HistoryWindow.RelevantWindow | backend/bothesis/agent/context_manager.py:78-94 | the relevant older messages without leading assistant messages, and the recent part unchanged |
| HistoryWindow.RelevanceKeepsOrderAndBudget | backend/bothesis/agent/context_manager.py:78-94 | of the older messages exactly those that share a term stay, from the first such message of the user on, in order and within the same budget |
| Prelude.StripIsStripped | backend/bothesis/agent/context_manager.py:51-53 | stripping cuts off white space at both ends and nothing else |
| Prelude.StrippedIsUnique | backend/bothesis/agent/context_manager.py:51-53 | there is one such middle of a text |
| ToolOrchestration.Exposed | backend/bothesis/agent/tools/core/router.py:15-31 | exactly the registered, allowed, direct tools whose sandbox is available |
| ToolOrchestration.ExposedMeans | backend/bothesis/agent/tools/core/router.py:15-31 | exposed is registered, on the allow-list if there is one, direct, and not in want of a sandbox |
| ToolOrchestration.ExposedInOrder | backend/bothesis/agent/tools/core/router.py:15-31 | the exposed tools keep the order of registration |
| ToolOrchestration.EmptyAllowListExposesNothing | backend/bothesis/agent/tools/core/router.py:23-31 | an empty allow-list exposes no tool |
| ToolOrchestration.RefusalMeans | backend/bothesis/agent/tools/core/orchestrator.py:62-83 | each refusal, and running, is characterised by the call, the registry, the remembered signatures and the budget |
| ToolOrchestration.SignatureIsExact | backend/bothesis/agent/tools/core/orchestrator.py:210-211 | for names without a colon two requests have one signature exactly when name and arguments agree |
| ToolOrchestration.DuplicateIff | backend/bothesis/agent/tools/core/orchestrator.py:77-85 | over the log of a turn, told by names and arguments: an acceptable call is refused as a duplicate exactly when the same tool was executed with the same arguments, earlier in the turn or in the batch, and runs exactly when it is new and within the budget |
| ToolOrchestration.DuplicateIffAnyName | backend/bothesis/agent/tools/core/orchestrator.py:77-85 | the same for any names, when no arguments text is a proper end of another |
| ToolOrchestration.UnknownToolIsUnreachable | backend/bothesis/agent/tools/core/orchestrator.py:67-73 | a call that passed the exposure check is never unknown |
| ToolOrchestration.ScreenIsScreening | backend/bothesis/agent/tools/core/orchestrator.py:60-95 | the launched calls are exposed, accepted, new in the turn, pairwise different and at most as many as remain |
| ToolOrchestration.ChargedIsCounted | backend/bothesis/agent/tools/core/orchestrator.py:152-152 | the charged count is the number of launched calls whose handler did not report an unexecuted outcome |
| ToolOrchestration.ExecutedIsCount | backend/bothesis/agent/tools/core/orchestrator.py:152-152 | the charge of a batch is the number of its outputs with an executed outcome |
| ToolOrchestration.ChargedIsCount | backend/bothesis/agent/tools/core/orchestrator.py:152-152 | the charge of a turn is the number of its executions with an executed outcome |
| ToolOrchestration.Counted | backend/bothesis/agent/tools/core/orchestrator.py:28-30 | all launched calls are charged exactly when no handler reported an unexecuted outcome |
| ToolOrchestration.UnchargedLaunch | backend/bothesis/agent/tools/core/orchestrator.py:152-152 | a call that runs without being charged |
| ToolOrchestration.Execute | backend/bothesis/agent/tools/core/orchestrator.py:46-153 | one observation per call, in call order, whatever order the calls finish in; signatures, charge and log are those of the screening, which DuplicateIff tells by names and arguments |
| ToolOrchestration.BatchKeepsLog | backend/bothesis/agent/tools/core/orchestrator.py:77-84 | over a turn no exact request is executed twice |
| TurnLoop.StepToolsNeedBudget | backend/bothesis/agent/session.py:158-173 | a step exposes exactly the allowed tools while both budgets last, and none afterwards |
| TurnLoop.RunCalls | backend/bothesis/agent/turn.py:77-90 | charging a batch keeps the executed calls within the limit |
| TurnLoop.RunTools | backend/bothesis/agent/turn.py:75-102 | one tool round adds one output per call, in call order, and keeps every budget |
| TurnLoop.RunTurn | backend/bothesis/agent/turn.py:38-109 | the turn ends as its last response says, never by the sampling limit; every budget holds; each request is built from the one before, its response and its outputs |
| TurnLoop.EndingMeans | backend/bothesis/agent/turn.py:63-109 | how a turn ends, told by its last response: missing, not completed, asking for tools, with an answer, or without |
| TurnLoop.LaunchesWithinBudget | backend/bothesis/agent/session.py:158-173 | a turn's charge equals its launches exactly when no handler reported an unexecuted outcome, and then at most `max_tool_calls` calls are launched |
| TurnLoop.RoundIsPaired | backend/bothesis/agent/turn.py:92-96 | recording a tool round keeps calls and outputs paired |
| TurnLoop.EveryRequestIsPaired | backend/bothesis/agent/turn.py:47-102 | every request of a turn is built from a history in which calls and outputs pair up |
| TurnLoop.RequestsArePaired | backend/bothesis/agent/context_manager.py:184-233 | what the model is sent contains a function call exactly with its output |
| ToolProgress.RunConserves | backend/bothesis/agent/turn.py:123-160 | in every interleaving, what was reported is what was yielded, held and queued, in that order |
| ToolProgress.RunReports | backend/bothesis/agent/turn.py:123-140 | what counts as reported is exactly what the tools report in the run, in order |
| ToolProgress.DeliveredExactlyOnce | backend/bothesis/agent/turn.py:142-155 | when the batch is delivered, every update a tool reported was yielded before it, once and in order |
| ToolProgress.ShownIsAPrefix | backend/bothesis/agent/turn.py:142-150 | at any moment the client saw a prefix of what was reported |
| ToolProgress.ConsumerNeverStuck | backend/bothesis/agent/turn.py:142-155 | once the tools are done the consumer can always go on |
| ToolProgress.WorkRunsOut | backend/bothesis/agent/turn.py:142-155 | once the tools are done only finitely many steps are left |
| ItemForest.TriggerIsExact | backend/bothesis/db/models.py:1309-1350 | an accepted row keeps the hierarchy sound exactly when its children tolerate it, and every sound row below a live parent is accepted |
| ItemForest.PlacementIsExact | backend/bothesis/db/models.py:1309-1350 | for insertions and moves the trigger accepts exactly what keeps the hierarchy sound below a live parent |
| ItemForest.TenantChangeIsNotChecked | backend/bothesis/db/models.py:1346-1350 | an accepted change of tenant that breaks a child's link |
| ItemForest.AncestryIsSound | backend/bothesis/db/models.py:1316-1329 | above an item there is one tenant, only collections above a collection, and a root collection at the end |
| ItemForest.AncestryHasNoRepeats | backend/bothesis/db/models.py:1330-1340 | the recursive ancestry query visits no item twice |
| ItemForest.StatementMeans | backend/bothesis/db/models.py:1309-1350 | a statement changes at most its own row, and of that only what it is for |
| ItemForest.ItemTable.AncestryHas | backend/bothesis/db/models.py:1330-1340 | the query terminates and finds exactly the item's ancestors |
| ItemForest.ItemTable.ValidateItemParent | backend/bothesis/db/models.py:1309-1345 | the procedure's checks, in their order, decide the specification |
| ItemForest.ItemTable.Place | backend/bothesis/db/models.py:1309-1350 | a guarded write takes effect exactly when the hierarchy stays sound below a live parent |
| ItemForest.ItemTable.Run | backend/bothesis/db/models.py:1309-1350 | every statement leaves a sound hierarchy and exactly the table it describes |
| ItemForest.ItemTable.RunAll | backend/bothesis/db/models.py:1309-1350 | every run of statements leaves a sound hierarchy and the table of the statements that succeed |
| SessionLineage.LinkIsExact | backend/bothesis/db/models.py:1590-1613 | one more link keeps a lineage sound exactly when the trigger accepts it |
| SessionLineage.TriggerIsExact | backend/bothesis/db/models.py:1559-1617 | a row with sound columns is stored exactly when every lineage stays sound: guests first in one tenant, then one user, tenants changing only by a switch |
| SessionLineage.AtMostOneUpgrade | backend/bothesis/db/models.py:1596-1600 | a lineage contains at most one identity upgrade, and one exactly when it goes from guest to user |
| SessionLineage.GuestsThenOneUser | backend/bothesis/db/models.py:1590-1613 | a sound lineage told by its rows: guests of one tenant, then sessions of one user, the first of which upgrades the guest; every other link rotates a token or switches the user's tenant |
| SessionLineage.ChecksMean | backend/bothesis/db/models.py:201-211 | what the columns of a guest and of a user session are |
| SessionLineage.AccessSessions.Validate | backend/bothesis/db/models.py:1559-1617 | in a sound table the branches let a row through exactly when its columns are right, a guest's tenant is public, its identity belongs to its user, and every lineage stays sound |
| SessionLineage.AccessSessions.Insert | backend/bothesis/db/models.py:1619-1623 | whatever is inserted, every lineage stays sound |
| Connections.RefreshFindsNobodyWaiting | backend/bothesis/services/integration_connections.py:803-853 | a refresh that connects without restoring sources finds no source waiting |
| Connections.ErrorsKeepConsistent | backend/bothesis/services/integration_lifecycle.py:468-472 | an attempt that ends as unavailable never leaves a waiting source behind a connection that claims to be usable |
| Connections.CredentialsUsableIff | backend/bothesis/services/integration_connections.py:803-867 | exactly when stored credentials can be used, when a new grant is needed and with which status, when neither can be said, and what a refresh changes |
| Connections.ValidationSucceedsIff | backend/bothesis/services/integration_connections.py:472-511 | a validation succeeds exactly when credentials can be used, the configuration is valid and the provider is reached; it then connects and wakes exactly the live waiting sources |
| Connections.ListingSucceedsIff | backend/bothesis/services/integration_connections.py:515-560 | a listing succeeds exactly when an account offers the resource, credentials can be used and the provider answers |
| Connections.GrantsMean | backend/bothesis/services/integration_connections.py:281-470 | what authorizing, disconnecting and deleting commit, field by field |
| Connections.AttemptsMean | backend/bothesis/services/integration_connections.py:472-511 | what a validation that fails commits: its status and waiting sources, an error, or nothing |
| Connections.RunningMeans | backend/bothesis/services/integration_connections.py:803-853 | a source run changes nothing but what a refresh changes, and exactly when it runs |
| Connections.SourcesMean | backend/bothesis/services/ingestion_sources.py:242-275 | what updating, deleting and failing a source commit, and that nothing else changes |
| Connections.CreationMeans | backend/bothesis/services/ingestion_sources.py:70-145 | a new source waits exactly when its connection must be authorized first |
| Connections.StepKeepsConsistent | backend/bothesis/services/integration_connections.py:281-511 | every operation keeps sources waiting only on connections that need authorization or cannot refresh |
| Connections.ConnectedMeansNobodyWaits | backend/bothesis/services/integration_connections.py:281-511 | after any run no live source of a connected connection waits on it |
| Connections.AttemptsChangeNoSource | backend/bothesis/services/integration_lifecycle.py:449-472 | attempts on a connection that needs authorization change no source |
| Connections.ReconnectRestores | backend/bothesis/services/integration_connections.py:409-449 | disconnecting, any attempts, and authorizing again leave every source as restoring the earlier ones would |
| Connections.ReconnectRestoresIff | backend/bothesis/services/integration_connections.py:409-449 | for every kind of authentication: disconnecting, any attempts, and authorizing again return a source to its status exactly when it was not already waiting |
| Connections.ReconnectRestoresAll | backend/bothesis/services/integration_connections.py:409-449 | from a connected connection of any kind they return every source |
| Connections.ReadyUsableIff | backend/bothesis/services/ingestion_sources.py:242-253 | one operation keeps every ready source on a usable connection unless it makes a source ready while the connection needs authorization, and only then does it not |
| Connections.RunReadyUsableIff | backend/bothesis/services/integration_connections.py:281-511 | over any run every ready source has a usable connection if and only if no operation of the run is such an early resumption |
| Connections.ReadyDoesNotMeanUsable | backend/bothesis/services/ingestion_sources.py:242-253 | a reachable ready source whose connection needs authorization |
| Connections.IntegrationService.SuspendSources | backend/bothesis/services/integration_connections.py:914-922 | exactly the live ready sources start waiting |
| Connections.IntegrationService.RestoreSources | backend/bothesis/services/integration_connections.py:924-928 | exactly the live waiting sources become ready |
| Connections.IntegrationService.UseCredentials | backend/bothesis/services/integration_connections.py:803-867 | credentials are used only when configured, present and accepted; otherwise the connection is as before and sources stay consistent with it |
| Connections.IntegrationService.Validate | backend/bothesis/services/integration_connections.py:472-511 | success leaves a connected connection with no source waiting; failure leaves every source as it was; consistency is kept |
| Connections.IntegrationService.ListAccountResources | backend/bothesis/services/integration_connections.py:515-560 | listing succeeds only for an authorized account and an offered resource, reports a refused grant as a status that needs authorization, and changes no source |
| Connections.IntegrationService.RecordHealth | backend/bothesis/services/integration_connections.py:869-893 | after a health record of a live connection that then needs authorization no live source is ready on it; consistency is kept for such a status |
| Connections.IntegrationService.FinishAttempt | backend/bothesis/services/integration_lifecycle.py:449-472 | after a failed attempt the connection is the earlier one but for its status, and the sources are the earlier ones or those suspended |
| Connections.IntegrationService.Perform | backend/bothesis/services/integration_connections.py:281-511 | every operation commits exactly its step and keeps the invariant |
| ConnectorPipeline.DeduplicateChanges | backend/bothesis/connector/pipeline.py:289-295 | the last change of every item, in the order of those last changes |
| ConnectorPipeline.DeduplicationIsUnique | backend/bothesis/connector/pipeline.py:289-295 | there is only one such list |
| ConnectorPipeline.Load | backend/bothesis/connector/pipeline.py:230-247 | a change is loaded only as a document of its own item and of this connector's source |
| ConnectorPipeline.CheckChunks | backend/bothesis/connector/pipeline.py:249-271 | chunks are accepted exactly when they belong to the item, repeat no id or index, and are missing only for an image |
| ConnectorPipeline.ConnectorPipeline.ApplyUpserts | backend/bothesis/connector/pipeline.py:177-198 | loading in batches and writing one by one is applying the changes in order |
| ConnectorPipeline.ConnectorPipeline.RunScope | backend/bothesis/connector/pipeline.py:128-228 | failures, counters and written chunks are those of the changes, told by what the world answers (Reports, Succeeded, Counts); the checkpoint advances exactly when nothing failed |
| ConnectorPipeline.RunAccounts | backend/bothesis/connector/pipeline.py:155-198 | every change is in the sink or reported, other items are untouched, and the counters account for all changes |
| ConnectorPipeline.RunReports | backend/bothesis/connector/pipeline.py:155-198 | a failure is reported for a change exactly when its deletion raised, or its loading, chunking or writing failed or counted below zero, with that operation; the counters are the numbers of the changes that succeeded and the sum of their counts |
| ConnectorPipeline.RunLeaves | backend/bothesis/connector/pipeline.py:155-198 | whatever fails, the sink holds of every changed item exactly what its change leaves of it |
| ConnectorPipeline.ReplayIsLatest | backend/bothesis/connector/pipeline.py:289-295 | replaying the raw changes is decided, item by item, by the last one |
| ConnectorPipeline.RunRefinesReplay | backend/bothesis/connector/pipeline.py:128-228 | a run without failures leaves the sink as replaying the raw changes in order would |
| ConnectorPipeline.RerunRefinesReplay | backend/bothesis/connector/pipeline.py:104-109 | retry safety: after any number of runs with any failures, a rerun without one leaves the sink as replaying the raw changes would have left it before the first |
| ItemIndex.PointNamesCollideIff | backend/bothesis/document_index/payload.py:121-135 | exactly when two addresses share a point id |
| ItemIndex.PointNamesInjective | backend/bothesis/document_index/payload.py:121-135 | among tenants without a colon a point id belongs to one tenant, item and index |
| ItemIndex.ColonInTenantCollides | backend/bothesis/document_index/payload.py:121-135 | two addresses that share a point id |
| ItemIndex.TombstoneRepresents | backend/bothesis/document_index/_qdrant.py:217-237 | tombstoning removes exactly one item's live content |
| ItemIndex.ReplaceRepresents | backend/bothesis/document_index/_qdrant.py:105-140 | replacing makes the new records, and only them, the item's live content, also when there are fewer |
| ItemIndex.RunRefines | backend/bothesis/document_index/_qdrant.py:105-140 | after any run of replacements and removals the live points are the latest content of every item |
| ItemIndex.Contextual | backend/bothesis/document_index/contextualization.py:49-66 | the evidence text stands unchanged at the end of the contextual text |
| ItemIndex.ContextKeepsEvidence | backend/bothesis/document_index/contextualization.py:62-66 | context never makes evidence blank |
| ItemIndex.ReadsBackIff | backend/bothesis/document_index/payload.py:158-224 | a payload reads back as its own chunk exactly when its ids carry no outer white space and its text and source are complete |
| ItemIndex.NormalisePoints | backend/bothesis/document_index/index.py:197-206 | unreadable points and repeated chunk ids are skipped, the rest kept in order |
| ItemIndex.ReadReturnsLatest | backend/bothesis/document_index/index.py:124-150 | reading an item returns the latest content of the collection, and of the chunk asked for, each chunk once, with id, position and exact text, in order of position |
| ItemIndex.QueryOfMeans | backend/bothesis/document_index/index.py:124-150 | which arguments are refused, and that each of the others is asked for stripped |
| ItemIndex.RecordsReadBackIff | backend/bothesis/document_index/payload.py:158-224 | all records of an item read back exactly when its id and chunk ids carry no outer white space, no chunk is blank, and its source is known: what ReadReturnsLatest asks for, as a condition on the indexed chunks |
| ItemIndex.IndexedContentReadsBack | backend/bothesis/document_index/index.py:57-150 | the round trip: after indexing, and any run of writes to other items, reading returns exactly the indexed chunks in order of position |
| ItemIndex.ItemIndex.EmbedAll | backend/bothesis/document_index/index.py:73-82 | for any batch size vector and text stay aligned |
| ItemIndex.ItemIndex.IndexItemContent | backend/bothesis/document_index/index.py:57-90 | the item's content becomes exactly the given chunks, or nothing changes |
| ItemIndex.ItemIndex.RemoveItemContent | backend/bothesis/document_index/index.py:152-163 | exactly one item's content is removed, or a blank argument is refused |
| ItemIndex.ItemIndex.GetItemContent | backend/bothesis/document_index/index.py:124-150 | blank arguments and limits below one are refused, an item without content reads as empty, and a page below the limit reads as the latest selected content |
| PromptBudget.EscapeIsPerCharacter | backend/bothesis/__init__.py:70-72 | the three replacements never escape what an earlier one wrote |
| PromptBudget.LengthIsExact | backend/bothesis/document_index/contextualization.py:194-197 | the counting function is the length of the escaped text |
| PromptBudget.PromptTextPrefix | backend/bothesis/document_index/contextualization.py:200-208 | the longest prefix whose escaped length fits the budget |
| PromptBudget.LongestPrefixIsUnique | backend/bothesis/document_index/contextualization.py:200-208 | there is only one such prefix |
| PromptBudget.DocumentContext | backend/bothesis/document_index/contextualization.py:141-191 | the escaped context has at most 12,000 characters; chunks are dropped only when the budget is spent |
| PromptBudget.LinesAreExcerpts | backend/bothesis/document_index/contextualization.py:180-191 | each line is the label and the first 2,000 characters of its excerpt, in order, cut short only when at most three characters of the budget are left behind it |
| PromptBudget.CutLineIsFollowed | backend/bothesis/document_index/contextualization.py:180-191 | an excerpt that is cut although a line follows |
| PromptBudget.JoinedInOrder | backend/bothesis/document_index/contextualization.py:191-191 | the lines are joined in their order by line breaks |
| ArtifactHistory.RevisionKeyInjective | backend/bothesis/services/artifact.py:773-774 | a storage key belongs to one tenant, item and revision, whatever the file is called |
| ArtifactHistory.UnusedKeyKeepsSound | backend/bothesis/services/artifact.py:549-559 | writing the object of a revision that is not committed leaves every history sound |
| ArtifactHistory.KeysDistinct | backend/bothesis/services/artifact.py:773-774 | the keys of all committed revisions are pairwise distinct |
| ArtifactHistory.CommittedBytesSurvive | backend/bothesis/services/artifact.py:499-547 | a committed revision reads back as committed after any later calls and crashes |
| ArtifactHistory.ArtifactService.Create | backend/bothesis/services/artifact.py:424-497 | a document starts with revision 1 or, after a crash, not at all, and no earlier history changes |
| ArtifactHistory.ArtifactService.AddRevision | backend/bothesis/services/artifact.py:499-547 | the next number is committed and the item points at it, or nothing is; earlier revisions stay |
| ArtifactHistory.ArtifactService.ConversationItem | backend/bothesis/services/artifact.py:284-322 | the document a conversation keeps under a file name, exactly when there is one |
| ArtifactHistory.ArtifactService.RecordGenerated | backend/bothesis/services/artifact.py:157-211 | a finished write within the size limit revises the one live document of that name, or starts one; anything else changes nothing |
| ArtifactHistory.RecordingKeeps | backend/bothesis/services/artifact.py:157-211 | one write moves what is kept under every name as the ledger of finished writes says |
| ArtifactHistory.ArtifactService.SoftDelete | backend/bothesis/services/item.py:730-739 | a deletion hides one document and loses no revision |
| ArtifactHistory.ArtifactService.RunAll | backend/bothesis/services/artifact.py:157-547 | after any run of writes and deletions with crashes in between, every committed revision is there, and each conversation keeps under each name exactly the finished writes since the last deletion, in order |
| ArtifactHistory.ArtifactService.Content | backend/bothesis/services/artifact.py:396-420 | a revision of a live document previews as the decoded text it was committed with, never truncated and never missing, and a deleted document is not found |
| ArtifactHistory.ArtifactService.ModelText | backend/bothesis/services/artifact.py:613-637 | a text is cut exactly when it is longer than the limit, and a binary revision is named instead |
| Crawler.ProcessedAtMostOnce | backend/script/ute_lib.py:231-243 | under every interleaving a URL is taken from the queue at most once |
| Crawler.BarrierIsSafe | backend/script/ute_lib.py:656-658 | once `join` has returned everything visited was processed and no worker can enqueue again |
| Crawler.EverythingFoundIsProcessed | backend/script/ute_lib.py:231-243 | once `join` has returned, the normalised form of every seed and of every link a worker found is visited and processed exactly once, and nothing else is |
| Crawler.OneSentinelEach | backend/script/ute_lib.py:660-665 | every worker takes exactly one sentinel, and none is left |
| Crawler.NeverStuck | backend/script/ute_lib.py:605-665 | with at least one worker some thread can always go on, without finding another link |
| Crawler.CrawlEnds | backend/script/ute_lib.py:605-665 | when only finitely many URLs can be found, the number of steps that change anything is bounded under every interleaving |
| Crawler.StepKeepsInv | backend/script/ute_lib.py:605-628 | every step of every thread keeps each URL accounted for once and the queue's counter exact |

## Left out

- `_item_ids` and `output_index_of` of the reducer: a first-writer-wins lookup beside the modelled state.
- Item kinds the reducer keeps verbatim are one constructor, and a status of `None` that a provider sends on an item is the absence of a status.
- `str.isalnum`, `str.strip` and case folding: the characters they accept are parameters.
- The fields of an annotation beyond its range, reference and number, which come from retrieval metadata.
- Provider annotations inside a streamed text part, and streams that put text, refusal and reasoning into one part: the agreement theorem's discipline excludes them.
- `StreamPipeline.RunSamplingRequest`: takes the provider's events as a list that settles with its last event; retries, traces and timings are not modelled.
- JSON sizes and term matching in context selection: a natural number per item and a predicate on messages.
- The resources, instructions and execution capability of a step, and the sandbox.
- Cancellation of a turn, of its tools or of a progress consumer, and tools that fail outside their own result.
- Hard deletion of items and concurrent transactions on one hierarchy: soft deletion and single statements are modelled.
- Updates of access sessions: rows are inserted, and a session is known by its position.
- Connection creation, permissions, display names, configuration, audit records, schedules, and races between an attempt and its health record: an operation and its health record are one step.
- `Connections.IntegrationService.Perform`: models one connection with its sources; authorizing an account finds or creates the connection outside this model.
- Connection operations that fail for want of an encryption key: they roll back and change nothing.
- Connector discovery, hierarchy content and the text of failures.
- `ItemIndex.ItemIndex.GetItemContent`: the page the store answers with, and which page a limit cuts, are the store's choice; the schema-version filter is left out because one version writes all points.
- Search, ranking, sparse vectors, retries and the payload fields that are only copied.
- Canonical JSON objects are taken to be no proper ends of each other, where tool names may contain a colon.
- `uuid5` is taken to be injective, UUIDs to contain neither slash nor colon, and a new UUID to be new.
- A crash between tombstone and upsert of a replaced item.
- The order in which `_document_context` ranks its candidates: the budget holds for every order.
- `ArtifactHistory.ArtifactService.RecordGenerated`: models calls one after the other; two first writes of one file name at the same time can create two documents.
- Publishing artifacts, the documents shown to the model, download links and access checks; file names are those `_output_name` returns.
- HTTP, rate limiting, parsing and uploads of the crawler, and an interrupted `join`.

# Philovoid core, modelled in Dafny

Philovoid is a browser chat client for philosophical inquiry, backed by a hosted language model.
This project models its core logic:

- the main conversation (`hooks/useChat.ts`): the stored log, prompt assembly with retrieved
  documents, the streamed reply folded into the log, and error handling;
- the timed ritual motor (`hooks/useRitualMotor.ts`);
- the knowledge library's folder view (`components/KnowledgeExplorer.tsx`): grouping, sorting,
  folder order, the sort toggle and open folders;
- the knowledge panel (`components/KnowledgePanel.tsx`): uploading and classifying documents,
  enabling and selecting them, and the synthesis window with its regeneration and follow-up
  conversation;
- the model gateway (`services/geminiService.ts`): history shaping, session options, document
  rendering, prompt templates and the API-key check;
- the constant tables and texts (`constants.ts`) and the records of `types.ts`.

Each file is one module:

| file | module | what it holds |
|---|---|---|
| `wrappers.dfy` | `Wrappers` | `Option`, `Result` |
| `seqs.dfy` | `Seqs` | `filter` and `sort` over sequences |
| `strings.dfy` | `Strings` | `join`, `+=`, `replace`, `trim`, text comparison |
| `types.dfy` | `Types` | the records of `types.ts` |
| `constants.dfy` | `Constants` | `constants.ts` |
| `stream.dfy` | `StreamReducer` | a streamed answer and the folds shared by the three consumers |
| `gemini_service.dfy` | `GeminiService` | `services/geminiService.ts` |
| `use_chat.dfy` | `UseChat` | `hooks/useChat.ts`, with class `ChatStore` |
| `ritual_motor.dfy` | `RitualMotor` | `hooks/useRitualMotor.ts`, with class `StageMotor` |
| `knowledge_explorer.dfy` | `KnowledgeExplorer` | `components/KnowledgeExplorer.tsx` |
| `knowledge_panel.dfy` | `KnowledgePanel` | `components/KnowledgePanel.tsx`, with class `Panel` |

Hook state that handlers update becomes the fields of a class, and each handler becomes a method.
This applies to the chat log and its loading flag, the motor's index, stage and timer, and the
panel's ten pieces of state. Each streaming `for await` loop becomes a `while` loop over the chunks.
Its invariant ties the shown text to the concatenation of the chunks so far. The motor's timer is
a pending-delay field, and method `Fire` is the timeout callback. The pure parts become functions:
grouping, comparator, prompt templates, request shapes and the submit guard.

The network, storage, clocks and id generation are parameters:

- A model answer is a `Stream`: the chunks it yields, then either a normal end or a thrown value.
- The API key is an `Option<string>`.
- A classification reply is `None` when the call or the parsing of its JSON fails.
- The stored chat log is `None` when storage holds nothing usable.
- Ids and timestamps are passed in.

A service call returns the request it would send, and `Delivered` turns a failed key check into a
throw before any chunk. A request carries its prompt as a `Prompt` value: the verbatim text, or
the template and the values that fill it. `GeminiService.PromptText` expands a `Prompt` to the
text sent.

## Model

| member | source | states |
|---|---|---|
| Seqs.Filter | hooks/useChat.ts:54 | `filter` keeps exactly the elements satisfying the predicate, and nothing else |
| Seqs.FilterAppend | services/geminiService.ts:66-67 | filtering distributes over concatenation, so kept elements stay in input order |
| Seqs.FilterLength | services/geminiService.ts:66-67 | the filtered sequence is as long as the count of elements satisfying the predicate |
| Seqs.FilterKeepsAll | components/KnowledgePanel.tsx:259 | a filter that keeps every element returns the sequence unchanged |
| Seqs.InsertSorted | components/KnowledgeExplorer.tsx:39-49 | under a total preorder, inserting into a sorted sequence keeps it sorted |
| Seqs.Sort | components/KnowledgeExplorer.tsx:39-49 | `sort` with a consistent comparator returns a permutation (same multiset) that is sorted |
| Strings.JoinAppend | hooks/useChat.ts:57-59 | joining two non-empty runs puts exactly one separator between their joins |
| Strings.ConcatAppend | hooks/useChat.ts:65-67 | repeated `+=` over two runs of chunks is the concatenation of their texts |
| Strings.ReplaceFirstAt | services/geminiService.ts:121 | `replace` with a string pattern rewrites only the first occurrence: prefix, replacement, rest |
| Strings.ReplaceFirstSlot | services/geminiService.ts:166 | when the placeholder's first character does not occur before it, `replace` fills exactly that slot |
| Strings.TrimSpec | components/KnowledgePanel.tsx:54 | `trim` returns a contiguous middle of the text, removing only whitespace, and neither end is whitespace |
| Strings.TrimEmpty | components/KnowledgePanel.tsx:286 | a text trims to empty exactly when all of it is whitespace (the blank-focus test) |
| Strings.LexCompareAntisymmetric | components/KnowledgeExplorer.tsx:42 | comparing names in the other order negates the result |
| Strings.LexCompareZero | components/KnowledgeExplorer.tsx:101 | two names compare equal exactly when they are the same text |
| Strings.LexCompareTransitive | components/KnowledgeExplorer.tsx:42 | name order is transitive |
| Constants.BulletListLines | constants.ts:37-51 | each section of the system instruction is its items, each after "- ", all but the first on a new line |
| Constants.RitualStageTable | constants.ts:79-85 | the stage table has five stages with durations 23, 37, 61, 42, 10 seconds (all positive), and a cycle lasts 173 s |
| StreamReducer.ErrorMessage | hooks/useChat.ts:75 | an `Error` shows its own message; any other thrown value shows "An unknown error occurred" |
| StreamReducer.Delivered | services/geminiService.ts:99-101 | a failed key check surfaces as a throw before any chunk; otherwise the consumer sees the model's stream |
| StreamReducer.ReplaceLast | hooks/useChat.ts:68-71 | the `index === prev.length - 1` map keeps every entry but the last and puts the new one last |
| StreamReducer.ReplaceLastOf | hooks/useChat.ts:78-81 | replacing the last entry of `base + [m]` gives `base + [m']` |
| StreamReducer.WithLastContent | hooks/useChat.ts:68-71 | `{ ...msg, content }` on the last entry changes its content only, keeping its id and sender |
| StreamReducer.AccumulateStep | hooks/useChat.ts:65-67 | after chunk `i` the accumulated text is the text after `i` chunks extended by chunk `i` |
| GeminiService.AsContents | services/geminiService.ts:230-234 | each follow-up message becomes one API turn in order, with the same text, and is `user` exactly when the sender is the user |
| GeminiService.ChatHistory | services/geminiService.ts:66-71 | the session history has one turn per user or model message that is not a pending placeholder, and no turn is a placeholder |
| GeminiService.ChatHistoryMembers | services/geminiService.ts:66-71 | every qualifying message is in the history, and every history turn comes from a qualifying message |
| GeminiService.ChatHistoryAppend | services/geminiService.ts:66-71 | history shaping keeps log order: the history of `a + b` is the history of `a` followed by that of `b` |
| GeminiService.SessionRequest | services/geminiService.ts:73-89 | the pro model and the 32768 thinking budget exactly in deep-thought mode; the full system instruction exactly when the turn is not document-grounded |
| GeminiService.StreamResponse | services/geminiService.ts:92-114 | throws "API key not found. Please ensure…" exactly when the key is missing or empty; otherwise sends the session request |
| GeminiService.DocumentBlock | services/geminiService.ts:162-164 | a document's block starts with its start marker and ends with its end marker, both naming it |
| GeminiService.DocumentBlocks | services/geminiService.ts:162-164 | one block per document, in the order given |
| GeminiService.DocumentContentAppend | services/geminiService.ts:162-164 | two runs of documents render as their renderings separated by one blank line |
| GeminiService.DocumentBlockAt | services/geminiService.ts:162-164 | every document's block appears in the rendering, after exactly the earlier documents' rendering and before the later ones' |
| GeminiService.AnalysisExcerpt | services/geminiService.ts:121 | `substring(0, 20000)`: the first 20000 elements of the text (code points here), or the whole text when shorter |
| GeminiService.PlaceholderOccursOnce | services/geminiService.ts:121 | a placeholder occurs in a template exactly at its slot when the text around it has no brace |
| GeminiService.AnalysisPlaceholderOnce | constants.ts:53-66 | the classification template holds its document placeholder exactly once (given its prose has no brace) |
| GeminiService.AnalysisPromptLayout | services/geminiService.ts:121 | given instructions without a brace, the classification prompt is the instructions, the document's excerpt, then the closing quotes |
| GeminiService.SynthesisPromptLayout | services/geminiService.ts:162-166 | given instructions without a brace, the synthesis prompt is the instructions, the rendered documents, then the closing quotes |
| GeminiService.FillFocusThenDocuments | services/geminiService.ts:198-200 | documents substituted before the focus still land in their own slot, and the focus fills its slot whatever the documents contain |
| GeminiService.RefinedSynthesisPromptLayout | services/geminiService.ts:194-200 | given instruction texts without a brace, the refinement prompt carries the focus and the rendered documents in their slots |
| GeminiService.FillContextThenQuestion | services/geminiService.ts:236-238 | when the document does not contain `{QUESTION}` (and the text between the slots has no brace), the document and the question each land in their own slot |
| GeminiService.FollowUpQuestionCaptured | services/geminiService.ts:236-238 | a document containing `{QUESTION}` (with no brace before it) captures the question in its first copy, and the question slot keeps its placeholder |
| GeminiService.FollowUpPromptLayout | services/geminiService.ts:236-238 | given instructions without a brace, and a document not containing `{QUESTION}`, the follow-up prompt is the instructions, the document, the middle text, the question, then the closing quotes |
| GeminiService.FollowUpPromptCaptured | services/geminiService.ts:236-238 | given instructions without a brace, a document holding `{QUESTION}` with no brace before it gets the question in place of that copy, and the prompt keeps the bare placeholder where the question belongs |
| GeminiService.StreamSynthesis | services/geminiService.ts:155-184 | throws "API key not found." exactly without a key; otherwise one pro-model generation with the thinking budget over the synthesis of the given files |
| GeminiService.StreamRefinedSynthesis | services/geminiService.ts:186-218 | as the synthesis, over the refinement prompt for the files and the focus |
| GeminiService.StreamFollowUp | services/geminiService.ts:221-255 | throws exactly without a key; otherwise a flash-model chat with no system instruction and no thinking budget, the whole unfiltered history and the follow-up prompt |
| GeminiService.AnalysisRequest | services/geminiService.ts:121-141 | classification uses the pro model, asks for the JSON schema, and sends the classification prompt of the content |
| GeminiService.AnalyzeDocument | services/geminiService.ts:116-153 | throws only when the key is missing; a usable reply is returned as is; any later failure yields folder "Uncategorized" with tag "analysis-failed" |
| UseChat.LoadHistory | hooks/useChat.ts:16-29 | the start-up log is never empty: a stored non-empty log is kept, otherwise the initial system message alone |
| UseChat.EnabledFiles | hooks/useChat.ts:54 | a file is used exactly when it is enabled and its content is not empty |
| UseChat.AssemblePrompt | hooks/useChat.ts:53-62 | a turn is document-grounded exactly when some file is usable; otherwise the prompt is sent unchanged; grounded, it is instruction, context block and question |
| UseChat.RagPromptEndsWithQuestion | hooks/useChat.ts:61 | whether grounded or not, the text sent ends with the user's question, verbatim |
| UseChat.RetrievedDocumentLayout | hooks/useChat.ts:57-61 | every usable document appears as its own block, after the earlier usable documents and before the later ones |
| UseChat.ContextBudgetUnenforced | constants.ts:87 | the 30000-character budget is not applied: one usable 30001-character document gives a longer prompt |
| UseChat.ReplySlot | hooks/useChat.ts:65-82 | the reply slot keeps its id, becomes a System message exactly when the stream threw, and is an AI message otherwise |
| UseChat.AfterSend | hooks/useChat.ts:46-50 | a turn appends exactly two messages: the question as a User message, then the settled reply slot |
| UseChat.MissingKeyTurn | hooks/useChat.ts:74-82 | without a key the reply slot is the System notice "Error: Could not reach the void. API key not found…", whatever the model would have said |
| UseChat.TurnHistory | hooks/useChat.ts:48-50 | a turn's question and reply enter the next history exactly when each qualifies on its own |
| UseChat.FailedTurnHistory | hooks/useChat.ts:74-82 | after a failed turn the next history gains the question only: the error notice and any chunks that arrived are not resent |
| UseChat.AnsweredTurnShape | hooks/useChat.ts:65-73 | with a key and a stream that ends normally, the log gains the question and the answer text |
| UseChat.AnsweredTurnHistory | hooks/useChat.ts:65-73 | an answered turn enters the next history as the question then the whole answer |
| UseChat.ChatStore.constructor | hooks/useChat.ts:16-31 | the hook starts idle with the loaded log |
| UseChat.ChatStore.SendMessage | hooks/useChat.ts:41-86 | ignored while loading; otherwise the log becomes `AfterSend` of the old log, loading ends cleared, and the request sent is the session request for the assembled prompt over the old log |
| UseChat.ChatStore.ConsumeStream | hooks/useChat.ts:65-82 | the streaming loop and its catch leave the placeholder as the settled reply slot and everything before it unchanged |
| UseChat.ChatStore.AddSystemMessage | hooks/useChat.ts:88-91 | appends one System message and changes nothing else |
| UseChat.ChatStore.ClearMessages | hooks/useChat.ts:93-96 | the log becomes the initial message alone |
| RitualMotor.ActivationsIncrease | hooks/useRitualMotor.ts:22 | each activation comes strictly later than the previous one |
| RitualMotor.ActivationSchedule | hooks/useRitualMotor.ts:12-23 | from a start, the stages show in table order at 0, 23, 60, 121 and 163 s, and the first stage returns at 173 s |
| RitualMotor.ActivationPeriodic | hooks/useRitualMotor.ts:16 | five activations later the same stage shows, one 173-second cycle later |
| RitualMotor.NextIndex | hooks/useRitualMotor.ts:16 | advancing the index modulo the table size agrees with counting activations |
| RitualMotor.RunningStep | hooks/useRitualMotor.ts:12-23 | firing the timer of a running motor leaves it running after one more activation, with index, stage, clock and timer in step |
| RitualMotor.StageMotor.constructor | hooks/useRitualMotor.ts:7-10 | the motor starts idle at index 0 with no stage and no timer |
| RitualMotor.StageMotor.NextStage | hooks/useRitualMotor.ts:12-23 | shows the indexed stage, advances the index cyclically, and the one pending timer waits for that stage's duration in milliseconds |
| RitualMotor.StageMotor.StartRitual | hooks/useRitualMotor.ts:25-30 | ignored while running; otherwise running from stage 0 with index 1 and a timer for the first stage's duration (23 000 ms) |
| RitualMotor.StageMotor.Fire | hooks/useRitualMotor.ts:22 | the timeout shows the next stage in the cycle at its scheduled time and keeps the running invariant |
| RitualMotor.StageMotor.StopRitual | hooks/useRitualMotor.ts:32-40 | the motor ends idle with no stage and no timer; the index is kept |
| RitualMotor.StageMotor.Teardown | hooks/useRitualMotor.ts:42-48 | unmounting cancels the timer and changes nothing else |
| RitualMotor.FirstCycle | hooks/useRitualMotor.ts:12-30 | a start then five timeouts show the table in order and then the first stage again, at 0, 23, 60, 121, 163 and 173 s |
| KnowledgeExplorer.FolderKey | components/KnowledgeExplorer.tsx:30 | a file is listed under its folder, or under "Uncategorized" when the folder is empty; never under an empty name |
| KnowledgeExplorer.ComparatorLaws | components/KnowledgeExplorer.tsx:39-49 | descending is the exact negation of ascending, and every comparator is antisymmetric |
| KnowledgeExplorer.OrderIsTotalPreorder | components/KnowledgeExplorer.tsx:39-49 | every key and direction orders all files, transitively: the sort gets a consistent comparator |
| KnowledgeExplorer.SortFiles | components/KnowledgeExplorer.tsx:39-49 | a sorted group is a permutation of the group, and every file precedes every later one under the config |
| KnowledgeExplorer.NewestFirst | components/KnowledgeExplorer.tsx:43-44 | sorted by date ascending, a group lists its newest file first |
| KnowledgeExplorer.EnabledFirst | components/KnowledgeExplorer.tsx:45-46 | by status ascending, enabled files come before disabled ones; descending, the reverse |
| KnowledgeExplorer.FilesIn | components/KnowledgeExplorer.tsx:29-36 | a group holds exactly the files whose folder key is its name |
| KnowledgeExplorer.FilesInStep | components/KnowledgeExplorer.tsx:34 | one more file extends only its own group, at the end |
| KnowledgeExplorer.FolderKeysStep | components/KnowledgeExplorer.tsx:31-33 | one more file adds its folder key to the group names |
| KnowledgeExplorer.Push | components/KnowledgeExplorer.tsx:31-34 | the reducer step throws exactly when the folder has no array and its name is inherited from `Object.prototype`; otherwise it creates the array on first use and pushes the file last |
| KnowledgeExplorer.PushedStep | components/KnowledgeExplorer.tsx:29-36 | the reducer step takes the groups of the first `i` files to the groups of the first `i + 1` |
| KnowledgeExplorer.GroupFiles | components/KnowledgeExplorer.tsx:29-36 | the `reduce` throws exactly when some folder key is an `Object.prototype` member name; otherwise it yields one group per folder key, holding that folder's files in upload order |
| KnowledgeExplorer.SortGroups | components/KnowledgeExplorer.tsx:38-50 | every group is sorted with the config's comparator, and no group is added or lost |
| KnowledgeExplorer.SortedAndGrouped | components/KnowledgeExplorer.tsx:28-52 | the memo throws exactly when the grouping does; otherwise it maps each folder key to that folder's files, sorted under the config |
| KnowledgeExplorer.GroupingPartitions | components/KnowledgeExplorer.tsx:29-36 | each file is in exactly one group, before and after sorting under any config: the one for its folder key |
| KnowledgeExplorer.GroupSizeStep | components/KnowledgeExplorer.tsx:29-36 | one more file makes exactly the groups named by its key one larger |
| KnowledgeExplorer.GroupSizesSum | components/KnowledgeExplorer.tsx:29-36 | over distinct names covering every folder key, the group sizes add up to the number of files |
| KnowledgeExplorer.InsertName | components/KnowledgeExplorer.tsx:101 | inserting a name adds exactly that name |
| KnowledgeExplorer.InsertNameAscending | components/KnowledgeExplorer.tsx:101 | inserting a new name keeps the list strictly ascending |
| KnowledgeExplorer.FolderOrder | components/KnowledgeExplorer.tsx:101 | `Object.keys(...).sort()` lists exactly the group names, strictly ascending |
| KnowledgeExplorer.AscendingDistinct | components/KnowledgeExplorer.tsx:101 | strictly ascending names are distinct |
| KnowledgeExplorer.FolderListing | components/KnowledgeExplorer.tsx:101-108 | the view has a listing exactly when the grouping does not throw; then it lists the folder names in ascending order, each with its sorted group, and the groups hold every file exactly once between them |
| KnowledgeExplorer.NextSortConfig | components/KnowledgeExplorer.tsx:54-61 | choosing the current key flips the direction; choosing another key selects it ascending |
| KnowledgeExplorer.SortChangeTwice | components/KnowledgeExplorer.tsx:54-61 | choosing the current key twice restores the config; choosing a new key twice leaves it descending |
| KnowledgeExplorer.ToggleFolder | components/KnowledgeExplorer.tsx:63-65 | the named folder's open state flips (an absent flag reads as closed) and every other folder's flag is kept |
| KnowledgeExplorer.ToggleFolderTwice | components/KnowledgeExplorer.tsx:63-65 | toggling a folder twice leaves every folder as open as it was |
| KnowledgePanel.ProcessUpload | components/KnowledgePanel.tsx:216-229 | a file is added exactly when it can be read and the key is present, enabled, with its name, content, id, time and classification (or the fallback classification) |
| KnowledgePanel.ProcessedUploads | components/KnowledgePanel.tsx:215-230 | a batch adds at most one entry per file, all enabled |
| KnowledgePanel.UploadsAppend | components/KnowledgePanel.tsx:215-230 | a failure skips only its own file: a batch adds what its parts add, in order |
| KnowledgePanel.UploadsAllAdded | components/KnowledgePanel.tsx:215-230 | with a key and every file readable, each file becomes exactly one entry, in order |
| KnowledgePanel.UploadsWithoutKey | components/KnowledgePanel.tsx:215-230 | without a key every classification throws and a batch adds nothing |
| KnowledgePanel.ToggleEnabled | components/KnowledgePanel.tsx:243-245 | `enabled` flips on the files with the id; everything else is unchanged |
| KnowledgePanel.ToggleEnabledTwice | components/KnowledgePanel.tsx:243-245 | toggling a file twice restores the library |
| KnowledgePanel.ToggleSelection | components/KnowledgePanel.tsx:247-251 | the id becomes selected exactly when it was not; every other id keeps its selection |
| KnowledgePanel.ToggleSelectionTwice | components/KnowledgePanel.tsx:247-251 | toggling an id twice restores which ids are selected |
| KnowledgePanel.SelectedFiles | components/KnowledgePanel.tsx:259 | a library file is synthesised exactly when its id is selected |
| KnowledgePanel.SelectAll | components/KnowledgePanel.tsx:259 | selecting every file synthesises the library in library order |
| KnowledgePanel.SynthesisOutcome | components/KnowledgePanel.tsx:269-281 | the document is the concatenated chunks, or, after a throw, the error prefix and the error's message alone |
| KnowledgePanel.FollowUpSlot | components/KnowledgePanel.tsx:311-327 | the follow-up reply stays an AI message with "Error: " and the message after a throw, "..." when no chunk came, the chunks otherwise |
| KnowledgePanel.FollowUpErrorResent | components/KnowledgePanel.tsx:305-327 | a failed follow-up's error notice is sent back to the model as a model turn with the next question |
| KnowledgePanel.FollowUpSubmit | components/KnowledgePanel.tsx:52-59 | a question is sent exactly when it is not blank and no answer is pending; it is sent trimmed and the box cleared; otherwise nothing changes |
| KnowledgePanel.SubmittedQuestion | components/KnowledgePanel.tsx:52-59 | a sent question is a slice of the input with only whitespace cut away, non-empty, with no whitespace at either end |
| KnowledgePanel.Panel.constructor | components/KnowledgePanel.tsx:189-203 | the panel starts with the given library, no selection, an empty closed window and no operation running |
| KnowledgePanel.Panel.HandleFileChange | components/KnowledgePanel.tsx:206-237 | no selection changes nothing; otherwise the processed uploads are appended after the library and analysing ends cleared |
| KnowledgePanel.Panel.HandleToggleFileEnable | components/KnowledgePanel.tsx:243-245 | only the library changes, to its toggled form |
| KnowledgePanel.Panel.HandleToggleFileSelect | components/KnowledgePanel.tsx:247-251 | only the selection changes, to its toggled form |
| KnowledgePanel.Panel.HandleClearKnowledge | components/KnowledgePanel.tsx:253-256 | library and selection are emptied together, so nothing is selected |
| KnowledgePanel.Panel.StreamIntoSynthesis | components/KnowledgePanel.tsx:269-281 | the streaming loop and its catch leave the synthesis outcome as the document and change nothing else |
| KnowledgePanel.Panel.HandleSynthesize | components/KnowledgePanel.tsx:258-282 | nothing without a selection; otherwise the window opens with follow-ups and focus cleared, and the document is the outcome of the synthesis of the selected files |
| KnowledgePanel.Panel.HandleRegenerate | components/KnowledgePanel.tsx:284-303 | nothing without a selection or with a blank focus; otherwise only the document changes, to the outcome of the refined synthesis |
| KnowledgePanel.Panel.StreamIntoFollowUps | components/KnowledgePanel.tsx:311-327 | the loop and its catch leave the placeholder as the settled follow-up slot and everything before it unchanged |
| KnowledgePanel.Panel.HandleSendFollowUp | components/KnowledgePanel.tsx:305-331 | the question and its settled reply are appended; the request's history is every earlier follow-up plus the question, over the current document |

## Left out

- Network calls, the model's answers, local storage, `crypto.randomUUID`, `Date.now` and file
  reading are parameters (`Stream`, `Option` replies, ids, timestamps, `Upload.text`). JSON
  parsing is not modelled: a stored log or a classification reply either arrives as a value or is
  `None`.
- The `useEffect` that saves the chat log to storage on every change is not modelled. It writes
  to storage and changes no state the model holds.
- React's scheduling is not modelled: batched updates, stale closures and handlers interleaving
  at `await`. Each handler runs atomically to the end of its stream. The `isLoading` guard of
  `sendMessage` is modelled, but between atomic calls it is always clear.
- The presentation components, `App.tsx` and the koan table are not part of this model. The
  library (`files`) is owned by the app and handed to the panel. Here it is a field of the panel.
- KnowledgeExplorer.SortFiles: `localeCompare` is approximated by character-code order
  (`LexCompare`), and the stability of `Array.prototype.sort` is not stated.
- KnowledgeExplorer.SortedAndGrouped: the groups are sorted as values, not in place inside the
  shared record, so aliasing of the memoised object is not captured.
- KnowledgeExplorer.FolderOrder: names are compared by code point rather than UTF-16 code unit.
  The two orders differ only for characters outside the Basic Multilingual Plane.
- Strings.ReplaceFirst: `$`-patterns in a replacement string (`$&`, `$1`, …) are not
  interpreted. Document text or a focus containing `$` would be expanded by JavaScript.
- GeminiService.SynthesisPromptLayout: holds on the condition that the template's instruction
  text has no `{`. The prose is a plain literal without braces, but that fact about its hundreds
  of characters is left as the lemma's hypothesis.
- GeminiService.AnalysisPlaceholderOnce: states the single placeholder only on the condition that
  the classification instructions have no `{`, for the same reason.
- GeminiService.AnalysisPromptLayout: states the layout only on the condition that the
  classification instructions have no `{`, for the same reason.
- GeminiService.RefinedSynthesisPromptLayout: states the layout only on the condition that the two
  instruction texts around the focus slot have no `{`, for the same reason.
- GeminiService.FollowUpPromptLayout: states the layout only on the condition that the follow-up
  instructions have no `{`, for the same reason. The document must not contain `{QUESTION}`;
  `GeminiService.FollowUpPromptCaptured` states what happens when it does.
- GeminiService.AnalysisExcerpt: a JavaScript string is a sequence of UTF-16 code units, and
  `substring(0, 20000)` counts those. The model counts code points, so for text outside the Basic
  Multilingual Plane the excerpt here is longer than the one sent, and the real cut can split a
  surrogate pair.
- KnowledgeExplorer.GroupFiles: the throw is modelled as `None`. The error's message and React's
  error boundary are not modelled. The inherited names are those of `Object.prototype` in current
  engines.
- GeminiService.AnalyzeDocument: a reply that parses but has extra keys or the wrong shape is not
  modelled. The spread `...metadata` then copies whatever keys the reply has.
- RitualMotor.StageMotor.Teardown: unmounting only cancels the timer; the component's state is
  discarded with it and is not modelled further.
- The timer's wall-clock behaviour is modelled as a pending delay plus `Fire`. Drift and
  throttling of `setTimeout` are not modelled.

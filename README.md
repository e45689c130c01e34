# Agentic honeypot core, modelled in Dafny

The modelled system is a scam-baiting agent. A session is one conversation with a
suspected scammer. For each message the agent does the following:

- It loads or creates the session document in the `active_sessions` collection.
- It asks a language model whether the message is a scam. Once it is, the verdict is
  locked in together with a persona.
- It merges the intelligence found in the message into the stored `extracted_data`.
- It lets a small planner track one extraction target at a time. Each target (UPI handle,
  bank account, link, ...) has three attempts before it is given up.
- It generates a reply in character. It checks the reply and regenerates it once if
  the safety check fails.
- It appends the turn to the history and files a report once every priority target is
  terminal.

A regular-expression layer (`RegexSpy`) pulls UPI handles, bank accounts, IFSC codes,
phone numbers, links, e-mail addresses and scam keywords out of raw text. A background
job asks the model for identifiers of other kinds.

## Modules

| File | Module | Contents |
|---|---|---|
| `wrappers.dfy` | `Wrappers` | `Option` and `Result`. |
| `strings.dfy` | `Strings` | The Python string operations the core relies on. These are `strip`, `upper`/`lower`, `in`, `split` and `replace(" ", "_")`. |
| `regex_spy.dfy` | `RegexSpy` | Each pattern as a `findall` scanner that follows the backtracking matcher. Every scanner has a soundness lemma: each result has its pattern's shape, and each occurs in the text (for phone, a shape lemma on the capture group only). Completeness is proved for three patterns. Bank accounts get an exact characterisation. UPI handles and links are found when they start the text or follow a character the match cannot run through. IFSC gets an iff on whether anything is found. E-mail and phone have no completeness lemma. Also the keyword filter and `extract_intelligence`. |
| `regex_spy_examples.dfy` | `RegexSpyExamples` | The sample messages of the repository's tests and simulation, and what the scanners yield on them. |
| `llm.dfy` | `Llm` | How the language-model answers are interpreted, and the message list sent for a reply. |
| `session.dfy` | `Session` | The session document, its initial value, and the in-memory copy a turn works on (class `SessionState`). |
| `intel.dfy` | `Intel` | `_update_intelligence` as specification functions, with its lemmas. It covers normalisation, routing to `$addToSet`, the local merge and the mirror invariant between store and copy. |
| `planner.dfy` | `Planner` | The strategic planner. |
| `brain.dfy` | `Brain` | Class `AgentBrain`. It owns the session store (`map<string, SessionDoc>`) and a ghost log of every external call. It also holds `TurnOutcome`, the functional specification one turn is proved against. |

## How calls into other services are modelled

Every answer from the language model, the random persona choice and the focus
target are parameters of the turn (`Brain.TurnAnswers`):

- A completion is `Some(text)`.
- A call that raised an exception is `None`.

Every request and database write is logged as an `Event`, in order. This includes the
request for the turn's findings (`ExtractInformation`). Its answer is `TurnAnswers.intel`. A background task
is logged as scheduled (`ScheduleExtraction`). Running it is the separate method
`RunBackgroundExtraction`.

## Model

| member | source | states |
|---|---|---|
| Session.LookupAbsent | app/agent/brain.py:261 | `d.get(k)` is `None` exactly when no item has key `k`. |
| Session.InitialTargets | app/agent/brain.py:49-57 | The seven targets (upi, bank_account, url, ip, phone, ifsc, email) all start not initialised with 3 iterations. |
| Session.InitialData | app/agent/brain.py:59-62 | Every standard list starts empty, and no dynamic records exist. |
| Session.NewSessionDoc | app/agent/brain.py:39-64 | A new session is ACTIVE and not confirmed, with the default persona, no focus and an empty history. It has all seven targets, the seven standard lists, and no "ip" list. |
| Session.LocalOf | app/agent/brain.py:261-263 | The turn's copy holds the same keys and records, with each list read as the set of its values. |
| Session.SessionState.FromDoc | app/agent/brain.py:17-68 | The loaded dictionary is a copy of the stored document. |
| Strings.StripIsInfix | app/agent/llm.py:79 | `strip()` yields an infix of the text with no whitespace at either end, and cuts only whitespace around it. |
| Strings.StripKeepsWord | app/agent/llm.py:32-33 | Stripping never changes whether a word without whitespace at its ends occurs. |
| Strings.UpperStrip | app/agent/llm.py:32 | `strip().upper()` equals `upper().strip()`. |
| RegexSpy.ExtractIntelligence | app/utils/regex_spy.py:33-52 | Empty text gives the empty dictionary, and any other text gives all seven fields. |
| RegexSpy.UpiScanSound | app/utils/regex_spy.py:8 | Every UPI match has the form local-part `@` word and occurs in the text. |
| RegexSpy.UpiScanComplete | app/utils/regex_spy.py:8 | A handle that starts the text, or follows a character the pattern cannot consume, is found. |
| RegexSpy.BankScanSound | app/utils/regex_spy.py:12 | Every bank-account match is 9 to 18 digits and occurs in the text. |
| RegexSpy.BankScanExact | app/utils/regex_spy.py:12 | A string is found exactly when it is the match at some position, with word boundaries on both sides. |
| RegexSpy.IfscScanSound | app/utils/regex_spy.py:15 | Every IFSC match is four capitals, a `0` and six capitals or digits, and occurs in the text. |
| RegexSpy.IfscFoundIff | app/utils/regex_spy.py:15 | Some IFSC code is found exactly when the text holds one somewhere. |
| RegexSpy.PhoneScanGroups | app/utils/regex_spy.py:18-45 | `findall` on the phone pattern yields only the country-code group: "", "91", "+91", or one of those followed by a separator. |
| RegexSpy.UrlScanSound | app/utils/regex_spy.py:21 | Every link starts with `http://` or `https://`, has at least one character after it, holds no whitespace and occurs in the text. |
| RegexSpy.UrlScanComplete | app/utils/regex_spy.py:21 | A link at the start of the text or after whitespace is found. |
| RegexSpy.EmailScanSound | app/utils/regex_spy.py:24 | Every e-mail match is local-part `@` domain `.` suffix and occurs in the text. |
| RegexSpy.KeywordsInSpec | app/utils/regex_spy.py:48-51 | A keyword is kept exactly when its lower-case form occurs in the lowered text. The kept keywords come in vocabulary order, with no duplicates from a duplicate-free vocabulary. |
| RegexSpy.SuspiciousKeywordsSpec | app/utils/regex_spy.py:27-51 | The same facts for the twelve listed keywords, on any non-empty text. |
| RegexSpy.ExtractedShapes | app/utils/regex_spy.py:41-47 | Each field of the result holds only values of its pattern's shape, taken from the text. Phone entries are country-code groups. |
| RegexSpyExamples.KycSampleYieldsHandle | tests/verify_extraction.py:14-18 | The KYC sample message yields the UPI handle `ram123@okhdfc`. |
| RegexSpyExamples.PhoneFieldHoldsGroup | tests/verify_extraction.py:14-21 | The phone field of `+919876543210` is `["+91"]`, the capture group. |
| RegexSpyExamples.FieldsIndependent | app/utils/regex_spy.py:41-47 | A bare mobile number appears as a bank account, and its phone entry is the empty group. |
| RegexSpyExamples.PhishingSampleYieldsLink | tests/simulate_scam.py:38 | The phishing message yields its link. |
| RegexSpyExamples.PhishingSampleYieldsKeyword | tests/simulate_scam.py:38 | The phishing message is flagged with "blocked". |
| Llm.ClassifyScam | app/agent/llm.py:26-36 | A message is a scam exactly when the upper-cased answer contains "SCAM". A failed call counts as a scam. |
| Llm.SafetyCheck | app/agent/llm.py:97-105 | A reply is safe exactly when the upper-cased verdict contains "SAFE". A failed call counts as safe. |
| Llm.VerdictIgnoresStrip | app/agent/llm.py:32-103 | Whether the stripped, upper-cased answer contains the verdict word does not depend on the stripping. |
| Llm.UnsafeVerdictPasses | app/agent/llm.py:103 | Any answer containing "UNSAFE", in any letter case, passes the safety check, because "UNSAFE" contains "SAFE". |
| Llm.OtherVerdictFails | app/agent/llm.py:33-103 | Any answer without "SCAM", in any letter case, is not a scam, and any answer without "SAFE" is not safe. |
| Llm.RecentTurns | app/agent/llm.py:66 | `history[-10:]` is the last ten turns, or the whole history when it is shorter. |
| Llm.TurnMessagesAt | app/agent/llm.py:66-68 | Turn `k` becomes message `2k` (the user) and message `2k+1` (the assistant). |
| Llm.MessagesLayout | app/agent/llm.py:63-71 | The list is the system prompt, then the last ten turns as user/assistant pairs in order, then the scammer's message. |
| Llm.BuildMessages | app/agent/llm.py:63-71 | The loop builds exactly that list. |
| Llm.ReplyOf | app/agent/llm.py:73-82 | The reply is the stripped completion, or the fixed filler line when the call failed. |
| Llm.ReplyIsTrimmedCompletion | app/agent/llm.py:79 | A reply is an infix of the completion with no whitespace at its ends, and it drops only surrounding whitespace. |
| Llm.GeneratePersona | app/agent/llm.py:107-115 | The persona is one of the four listed styles. |
| Llm.Put | app/agent/llm.py:163 | `extracted[key] = v` sets that key and leaves every other key's value alone. |
| Llm.ParseEntriesLastWins | app/agent/llm.py:156-165 | A key holds the one-element list of its last line's value, and keys on no line are absent. |
| Llm.LastValueNone | app/agent/llm.py:158-163 | A key has no last value exactly when no line carries it. |
| Llm.ParseOutput | app/agent/llm.py:156-165 | The parsing loop yields that dictionary. |
| Llm.UnknownEntities | app/agent/llm.py:144-168 | The extracted dictionary never holds a key twice. |
| Llm.ExtractUnknownEntities | app/agent/llm.py:117-168 | The method returns `UnknownEntities` of the completion. |
| Llm.NothingNewGivesNoEntities | app/agent/llm.py:152-168 | "Nothing new found", or a failed call, yields nothing. |
| Llm.EntitiesFromLines | app/agent/llm.py:150-165 | Otherwise a key is extracted exactly when some line of the stripped output carries it, and its value is that of the last such line. |
| Intel.ValidItems | app/agent/brain.py:211 | The kept items are the list's strings other than `None` and "". |
| Intel.ValidItemsConcat | app/agent/brain.py:211 | The comprehension distributes over concatenation, so it keeps the surviving entries in their order, duplicates included. |
| Intel.ValidItemsSingle | app/agent/brain.py:211 | One entry is kept exactly when it is a non-empty string. |
| Intel.CleanValue | app/agent/brain.py:206-213 | A value becomes a non-empty list of exactly the non-empty strings it carries. A value carrying none is dropped. A non-empty string becomes `[s]`, and a list keeps its surviving items in order. |
| Intel.Normalize | app/agent/brain.py:204-213 | No normalised entry holds an empty list or "". |
| Intel.NormalizeLookup | app/agent/brain.py:204-213 | Normalisation keeps keys unique, and each key maps to its cleaned value. |
| Intel.NormalizeIntel | app/agent/brain.py:204-213 | The loop computes `Normalize`. |
| Intel.Records | app/agent/brain.py:243-267 | One `{"type", "value"}` record per value, in order. |
| Intel.UpdatesOfContents | app/agent/brain.py:227-252 | Standard keys go to their own `$addToSet` entry. Every value under any other key becomes a dynamic record. |
| Intel.HasNewData | app/agent/brain.py:219-245 | The flag is set exactly when some entry has values. |
| Intel.WriteIffFindings | app/agent/brain.py:254 | After normalisation, the store is written exactly when anything was found. |
| Intel.BuildUpdates | app/agent/brain.py:218-252 | The routing loop computes `UpdatesOf` and `HasNewData`. |
| Intel.AddEach | app/agent/brain.py:236-272 | Appending the missing values keeps the old list as a prefix. Its elements are the old ones and the values. |
| Intel.AddEachNoDuplicates | app/agent/brain.py:269-272 | A list without duplicates stays without duplicates. |
| Intel.AddEachPresent | app/agent/brain.py:271 | Values already present change nothing. |
| Intel.AddEachConcat | app/agent/brain.py:270-272 | Two appends equal one append of both value lists. |
| Intel.MergeLocalGrows | app/agent/brain.py:259-273 | The local merge only adds: sets grow and the old records stay a prefix. |
| Intel.MergeLocalUntouched | app/agent/brain.py:259-273 | A key without findings keeps its set. |
| Intel.MergeLocalStandard | app/agent/brain.py:260-263 | A standard key's set becomes its old set plus every value found for it. |
| Intel.MergeLocalDynamic | app/agent/brain.py:264-273 | A record is present afterwards exactly when it was before, or was found under a non-standard key. |
| Intel.MergeLocalCovers | app/agent/brain.py:259-273 | Afterwards every finding is in the local data. |
| Intel.MergeLocalCoveredNoop | app/agent/brain.py:259-273 | Merging findings already held changes nothing. |
| Intel.MergeLocalIdempotent | app/agent/brain.py:259-273 | Merging the same findings twice equals merging them once. |
| Intel.MergeLocalFields | app/agent/brain.py:259-273 | A standard key named by the findings gains every value given for it. Every other key keeps its set, whether or not the findings name it. |
| Intel.MergeLocalCommutes | app/agent/brain.py:259-273 | Merging two sets of findings in either order gives the same sets under the same keys. The records are the same, though possibly in another order. |
| Intel.UpdateKeepsMirror | app/agent/brain.py:254-273 | A local copy that agrees with the store still agrees after the update. |
| Intel.UpdateIdempotent | app/agent/brain.py:199-273 | Repeating the update with the same intel leaves the copy as it is. |
| Intel.UpdateCommutes | app/agent/brain.py:199-273 | Two updates in either order leave the local copy with the same sets and the same records. |
| Intel.StoredAfterCommutesAsSets | app/agent/brain.py:199-257 | Two updates in either order leave the store with the same keys. Each list holds the same values, and the records are the same, read as sets. |
| Intel.StoredOrderMatters | app/agent/brain.py:236-257 | As lists, the stored values follow the merge order. Two values added in opposite orders are stored in opposite orders. |
| Intel.StandardKeyUpdate | tests/verify_storage.py:32-45 | `{"upi": ["alice@bank"]}` becomes `$addToSet` of `["alice@bank"]` on the upi list, with no dynamic records. |
| Intel.DynamicKeyUpdate | tests/verify_storage.py:54-76 | Two unknown keys become the two dynamic records `crypto_wallet` and `otp`, in order. |
| Planner.CheckSuccess | app/agent/planner.py:71-86 | A target succeeds exactly when it is a checkable key (upi, bank_account, url, ip) and its stored field is present and non-empty. |
| Planner.UncheckableTargets | app/agent/planner.py:74-82 | phone, ifsc and email never succeed. |
| Planner.InstructionText | app/agent/planner.py:88-102 | No focus means "stall for time", and a known target gets its own prompt. Any other focus means "chat normally". |
| Planner.PromptsAreSpecific | app/agent/planner.py:93-101 | Every target key has a prompt other than the two generic ones. |
| Planner.IsMissionComplete | app/agent/planner.py:104-117 | The mission is complete exactly when each of upi, bank_account, url and ip is present and is success or failure. |
| Planner.AllTerminal | app/agent/planner.py:112-117 | The loop's verdict over any goal list, by the same test. |
| Planner.MissionIgnoresOtherTargets | app/agent/planner.py:112 | Only the priority targets' states matter. |
| Planner.MissingTargetIsNotTerminal | app/agent/planner.py:113-115 | A missing priority target keeps the mission open. |
| Planner.PlanTurn | app/agent/planner.py:11-69 | The instruction is always "", and targets keep their keys. The call fails exactly when a focus is missing from the targets, or a new focus is needed but none is chosen or the choice is unknown. |
| Planner.SuccessClearsFocus | app/agent/planner.py:28-31 | A captured target becomes success with 0 iterations, and the focus is cleared. |
| Planner.FailedCheckSpendsOne | app/agent/planner.py:33-43 | A miss spends one iteration when any are left and marks the target initialised. At 0 iterations it becomes failure and the focus is cleared. Otherwise the focus stays. |
| Planner.CheckTouchesOnlyFocus | app/agent/planner.py:20-43 | The success check changes no other target. |
| Planner.UncheckableNeverSucceeds | app/agent/planner.py:26-43 | A phone, ifsc or email focus never reaches success. |
| Planner.SelectionResetsChoice | app/agent/planner.py:45-57 | Without a focus, the chosen target is re-initialised with 3 iterations and becomes the focus. An unknown choice fails. |
| Planner.ThirdMissFails | app/agent/planner.py:33-43 | Three misses in a row on a fresh target end in failure with the focus cleared. |
| Planner.IpNotACandidate | app/agent/planner.py:55 | "ip" is never offered as a focus, and every offered focus is a target key. |
| Planner.IpNeverPlanned | app/agent/planner.py:11-117 | Suppose the oracle picks among the offered objectives. Then the "ip" target never becomes the focus and keeps its state. So while it is not terminal, as in a new session, no turn completes the mission. |
| Planner.UpdateAndGetFocus | app/agent/planner.py:11-69 | The method returns `PlanTurn` of the old state. It updates the targets in place, also on the error path, and changes nothing else. |
| Planner.CheckInPlace | app/agent/planner.py:20-43 | The in-place check agrees with `CheckFocus`. On a missing target it changes nothing. |
| Brain.ConfirmStep | app/agent/brain.py:85-94 | Confirming writes the flag and persona, and no reply or report. An already confirmed session is untouched. |
| Brain.FindingsStep | app/agent/brain.py:114-125 | The findings step starts with the extraction request and writes only `extracted_data`, to its updated value. It makes no reply or classification. |
| Brain.Replies | app/agent/brain.py:142-160 | The reply is generated once if it is safe, otherwise regenerated once with the warning in front of the instruction. The kept reply is the last one. |
| Brain.ChatTurnOnlyReplies | app/agent/brain.py:95-106 | A non-scam message gets one reply with an empty objective, saved to the history. There is no plan, intel or report. |
| Brain.ClosingGenerations | app/agent/brain.py:142-160 | After planning, one or two replies are generated, as the safety verdict says. |
| Brain.ClosingStartsWithPlan | app/agent/brain.py:133-139 | The plan is saved first. In this step there is no classification or confirmation. |
| Brain.ClosingReport | app/agent/brain.py:165-171 | A report is filed exactly when the new targets complete the mission, and as the last call. |
| Brain.ClosingOrder | app/agent/brain.py:142-163 | The history is saved after every reply generation, and before the report. |
| Brain.AfterConfirmationKeeps | app/agent/brain.py:111-173 | A confirmed turn keeps the confirmation and persona, and never classifies. |
| Brain.ConfirmationIsMonotone | app/agent/brain.py:85-94 | After a turn the session is confirmed exactly when it was or the classifier says scam. A confirmed session keeps its persona and is not classified again. The persona changes only on confirmation. |
| Brain.ConfirmedTurnIgnoresClassifier | app/agent/brain.py:85 | A confirmed session's turn does not depend on the classifier or the persona choice. |
| Brain.AtMostOneRegeneration | app/agent/brain.py:142-163 | A confirmed turn that succeeds generates one or two replies and saves the kept one. A failing plan generates none and saves nothing. |
| Brain.AfterConfirmationReport | app/agent/brain.py:165-171 | A report is filed exactly when the turn succeeds and the stored targets complete the mission. It is the last call. |
| Brain.ReportIffMissionComplete | app/agent/brain.py:165-171 | The same for a whole turn that confirms a scam. |
| Brain.ClosingFramed | app/agent/brain.py:133-163 | Every generation lies between saving the plan and saving the history. |
| Brain.AfterConfirmationFramed | app/agent/brain.py:114-163 | The same inside the whole confirmed step, whose first call is the extraction request. |
| Brain.PlanSavedBeforeGeneration | app/agent/brain.py:84-163 | A successful scam turn runs in this order. First comes the classification, when the session was not yet confirmed, then the extraction request. The plan is saved before any reply is generated, and the history after the last one. |
| Brain.StoreMatchesPlannerView | app/agent/brain.py:115-273 | The stored findings after a scam turn agree with the local copy the planner was given. |
| Brain.MergedData | app/agent/brain.py:259-273 | The local update loop computes `MergeLocal`. |
| Brain.AppendMissing | app/agent/brain.py:266-273 | The duplicate-check loop computes `AddEach`. |
| Brain.AsRaw | app/agent/brain.py:185-194 | The extracted `{key: [value]}` entities are passed on key by key. Each list is kept entry by entry, as a list of strings, and unique keys stay unique. |
| Brain.AgentBrain.constructor | app/agent/brain.py:7-10 | A fresh agent with an empty store and log. The `sessions` property is the live collection, which need not be empty. No property depends on the starting store, since every method is stated over any store in which each document sits under its own id. |
| Brain.AgentBrain.GetOrCreateSession | app/agent/brain.py:12-68 | A known id loads its document and changes nothing. A new id inserts the new document. The returned copy holds the document. |
| Brain.AgentBrain.SaveInteraction | app/agent/brain.py:275-280 | One history entry is pushed onto the stored document, and nothing else changes. A missing document is left missing. |
| Brain.AgentBrain.GenerateResponse | app/agent/brain.py:142-148 | The reply is `ReplyOf` the completion, one request is logged, and the store is untouched. |
| Brain.AgentBrain.MergeIntoState | app/agent/brain.py:259-273 | The copy's findings become `MergeLocal` of the old ones, and no other field changes. |
| Brain.AgentBrain.UpdateIntelligence | app/agent/brain.py:199-273 | The store gets `StoredAfter` and the copy gets `LocalAfter`. One `$addToSet` is logged exactly when anything was found. |
| Brain.AgentBrain.ReplyWithRetry | app/agent/brain.py:142-160 | The reply and the calls are those of `Replies`. |
| Brain.AgentBrain.CloseTurn | app/agent/brain.py:133-171 | The plan, the reply and the history entry are stored, and the calls are those of `Closing`. |
| Brain.AgentBrain.RecordFindings | app/agent/brain.py:114-125 | The extraction request is logged first. The store and the calls are those of `FindingsStep`, and the copy's findings are `LocalAfter`. |
| Brain.AgentBrain.ContinueConfirmed | app/agent/brain.py:111-173 | The reply, the calls and the stored document are those of `AfterConfirmation`. |
| Brain.AgentBrain.ConfirmIfScam | app/agent/brain.py:85-94 | The classifier is called once. A scam verdict locks a listed persona in the copy and the store. Otherwise nothing is written. |
| Brain.AgentBrain.Chat | app/agent/brain.py:95-106 | A non-scam message gets one reply with an empty objective, saved to the history. |
| Brain.AgentBrain.UnconfirmedTurn | app/agent/brain.py:84-173 | A turn of a session not yet confirmed behaves as `TurnOutcome`. |
| Brain.AgentBrain.ConfirmedTurnOn | app/agent/brain.py:111-173 | A turn of a confirmed session behaves as `TurnOutcome`. |
| Brain.AgentBrain.ProcessTurn | app/agent/brain.py:70-173 | The reply, the calls and the new store are those of `TurnOutcome` on the loaded document. A newly confirmed session gets one of the listed personas. |
| Brain.AgentBrain.LoadAndUpdate | app/agent/brain.py:192-194 | The session is loaded afresh, or created, and its stored findings become `StoredAfter`. |
| Brain.AgentBrain.RunBackgroundExtraction | app/agent/brain.py:175-197 | When the model finds nothing new, only the request is made. Otherwise the session is loaded or created and the entities are merged into its stored findings. |

## Left out

- **Unicode.** `\w`, `\d` and `upper()`/`lower()` are read over ASCII only. Python applies them to all of Unicode, and the model has no Unicode tables. Whitespace (`\s`, `strip()`) follows Python's full `isspace()` list.
- **Prompts and the model client.** The wording of the prompts, the model names, the temperatures and the Groq client are left out. Each completion is a parameter: `Some(text)`, or `None` when the call raised an exception.
- **The default persona.** Its text is abbreviated to its first two sentences. Only its identity matters to the model.
- **Persona choice.** `random.choice` becomes an answer from the four listed personas.
- **Calls that do not match their callees.** `process_turn` calls `llm_service.extract_information`, which does not exist, and `generate_persona` with an argument it does not take. It also calls `generate_response` with five arguments. The planner calls `get_instruction_from_llm`, which does not exist, and `RegexSpy.REGEX_PATTERNS` does not exist either. As written, each of these would raise. The model reads each as the answer it evidently stands for:
  - the findings dictionary;
  - a persona from the list;
  - the reply with the first four arguments;
  - the chosen focus, as an optional key;
  - the known-keys prompt text, which is left out.
- Planner.PlanTurn: a focus missing from the targets is an error. `targets[current_focus]` raises `KeyError` when the focus is missing. This includes a `None` choice. The model returns `Err(MissingTarget(key))` and makes no further calls.
- Planner.PlanTurn: the instruction is always "", as line 62 sets it. `_get_instruction_text` is modelled on its own (`InstructionText`).
- **MongoDB.** Documents live in a map keyed by id. Each `find_one`, `insert_one` and `update_one` appears as an event in the ghost log, with the write applied to the map. Indexes, concurrency and failures of the database are left out.
- **`created_at`.** The document's creation time is left out, and so is reading the clock.
- **Logging.** `print` logging is left out.
- **FastAPI background tasks.** Scheduling is logged as a `ScheduleExtraction` event. The scheduled job is the separate method `RunBackgroundExtraction`, not run inside the turn.
- **`submit_report`.** Its internals are in a file that is not part of this model. It appears as a `SubmitReport` event.
- **Generate events.** They record the request's inputs (history, persona, objective, text), not the message list. `Llm.BuildMessages` states what the list is.
- **Local lists.** The local copy's standard lists are sets, since `list(set(...))` fixes no order. The stored lists keep `$addToSet` order.
- **Order of merges.** Two updates commute as sets. The local sets are equal exactly, while the stored lists and both copies' records are equal only as sets (`Intel.MergeLocalCommutes`, `Intel.StoredAfterCommutesAsSets`). As lists, the stored values follow the merge order (`Intel.StoredOrderMatters`).
- **Findings values.** Values under a key are `None`, a string, a list of optional strings, or an empty dictionary (`Intel.RawValue`). Numbers and nested structures are left out.
- **`"ip": None`.** It is modelled as the key being absent from the stored and local fields. Nothing ever adds to it.
- Brain.AgentBrain.UpdateIntelligence, Brain.AgentBrain.ProcessTurn, Brain.AgentBrain.LoadAndUpdate and Intel.NormalizeLookup require the findings dictionary to have unique keys, as every Python dictionary does.
- RegexSpy.PhoneScanGroups: the phone test at tests/verify_extraction.py:20-25 expects numbers of ten or more characters. The code returns the capture group instead, and the model follows the code (`RegexSpyExamples.PhoneFieldHoldsGroup`).
- **`llm_service` and `brain_service` globals.** The module-level instances and the `sessions` property are the `AgentBrain` object itself.

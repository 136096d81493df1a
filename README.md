# auto_robotnik, modelled in Dafny

auto_robotnik is a Chrome extension that assists the operators of a telephony
support desk. It reads tickets in OTRS, customer cards in the accounting
system, pages of the Teleo admin panel and the Runexis numbers catalogue. It
collects what it finds into a ticket context and walks the operator through
playbooks: declarative step lists that the playbook engine either shows
(Assist mode) or carries out through the content scripts (Automate mode).

This project models the core of that extension and proves properties of the
model:

- the playbook engine (`engine.dfy`, with laws in `engine_laws.dfy`) and the
  three built-in scenarios it interprets (`scenarios.dfy`);
- the panel window's logic (`window.dfy`): the Runexis numbers wizard, the
  accounting merge, the manual fix, starting a playbook and turning a
  recording into a playbook;
- the Runexis page script (`runexis_page.dfy`): number normalisation,
  pagination, the go-to-page link, the filter choices, the apply button and
  the login check;
- the storage modules (`lists.dfy` for the list operations they share,
  `playbook_store.dfy`, `template_store.dfy`, `knowledge_store.dfy`,
  `training_store.dfy`, `logger.dfy`). `chrome.storage` becomes a field of the
  store's class;
- the service worker's state and message handler (`service_worker.dfy`);
- the content scripts for OTRS, accounting, the recorder and Teleo
  (`otrs_content.dfy`, `accounting_content.dfy`, `recorder_content.dfy`,
  `teleo_content.dfy`);
- the JavaScript string and array built-ins they rely on (`text.dfy`) and
  JSON-like values (`values.dfy`).

Objects whose fields the code updates in place are classes: the engine, the
panel, the stores, the worker's state, the recorder and the form controls.
Each method's postcondition ties the new state to a pure function of the
old one, and the laws are lemmas about those functions.

Browser I/O is not executed. The model receives it as parameters:

- the transport's replies, the confirmation answer and the tab lookup
  (`Engine.Env`);
- the tabs and message deliveries the worker sees (`ServiceWorker.Env`);
- the replies the wizard receives, including when the operator cancels
  (`Window.WizardReplies`);
- fresh ids and the current time (`freshId`, `now`).

## Model

| member | source | states |
|---|---|---|
| Engine.WordRun | src/playbook/engine.js:231 | the `\w+` run the token regex consumes: a prefix of the text, all word characters, and the character after it is not one |
| Engine.TokenAt | src/playbook/engine.js:231 | a `{word}` token at the head of the text: a non-empty key of word characters between braces |
| Engine.ResolveTemplate | src/playbook/engine.js:230-234 | reference definition of `resolveTemplate`: one left-to-right scan that replaces each `{word}` token with a truthy context value by that value's text and keeps every other character; its laws are the `Resolve…` lemmas below; the context is a map of its own keys only (see Left out) |
| Engine.Tokens | src/playbook/engine.js:231 | reference definition of the keys the token regex meets, in scan order; its laws are `TokensSkipPlain` and `TokensOfToken` |
| Engine.ResolveUnboundTokens | src/playbook/engine.js:230-234 | when no token of the template has a truthy context value, `resolveTemplate` returns the template unchanged |
| Engine.TokensSkipPlain | src/playbook/engine.js:231 | text before the first `{` contributes no token |
| Engine.TokensOfToken | src/playbook/engine.js:231 | a `{key}` token is found as one token with exactly that key, and the scan continues after it |
| Engine.ResolveEmptyContext | src/playbook/engine.js:230-234 | with an empty context every template whose tokens do not name Object.prototype members resolves to itself |
| Engine.ResolveWithoutTokens | src/playbook/engine.js:230-234 | a string without `{` is returned unchanged whatever the context holds |
| Engine.ResolveTokenTruthy | src/playbook/engine.js:232 | a token with a truthy value becomes that value's text, and the rest is resolved on its own, so an inserted value is never expanded again |
| Engine.ResolveTokenFalsy | src/playbook/engine.js:232 | a token whose key is not an Object.prototype member and is missing, or whose value is falsy, stays literal |
| Engine.WordRunOfToken | src/playbook/engine.js:231 | the token scanner recognises every well-formed `{key}` |
| Engine.WordRunPrefix | src/playbook/engine.js:231 | the word run stops exactly at the first non-word character |
| Engine.BuildAssistData | src/playbook/engine.js:117-134 | the assist payload always carries the description; a navigate step adds the resolved url as its link, a fill step the resolved value to copy with the 'Вставить:' label, a click step only a label; no other step gets a link, a value or a label |
| Engine.TargetTab | src/playbook/engine.js:157 | a truthy explicit `tabId` is used with no lookup; otherwise one `FIND_TAB` request for the pattern is sent exactly when a pattern is present, and the tab used is the reply's `tabId` when it is truthy, else none; the tab settled on is never 0 |
| Engine.Outcome | src/playbook/engine.js:162-169 | a transport failure rejects with `lastError`; a reply that is not ok rejects with `resp?.error` or the given fallback message; only an ok reply resolves, with the reply |
| Engine.MergeReply | src/playbook/engine.js:170-173 | `Object.assign(context, resp.data)` on an ok reply with data: every key of the reply takes the reply's value, every other key keeps its value, none is lost; any other reply leaves the context as it is |
| Engine.Dispatch | src/playbook/engine.js:74-91 | at most two messages; an action outside the five fails with 'Неизвестное действие' sending nothing; navigate fails only on a transport error, with `lastError`; parse and extract are `DispatchParse`; fill and click with no tab fail with 'Вкладка не найдена' after the lookup alone, and with a tab their reply decides as `Outcome` with 'Ошибка заполнения' / 'Ошибка нажатия'; click sends exactly its message to that tab |
| Engine.DispatchParse | src/playbook/engine.js:155-177 | no tab fails with 'Вкладка не найдена' naming the pattern; with a tab the lookup is followed by one message of the configured type to that tab; a not-ok reply or transport failure fails as `Outcome` with 'Ошибка парсинга', and an ok reply yields its data |
| Engine.DispatchContext | src/playbook/engine.js:155-177 | only a parse or extract step can change the context, and it never removes a key |
| Engine.PlaybookEngine.constructor | src/playbook/engine.js:14-24 | a new engine is in Assist mode with no playbook, index -1, empty context and no results |
| Engine.PlaybookEngine.SetMode | src/playbook/engine.js:26-28 | only the mode changes |
| Engine.PlaybookEngine.LoadPlaybook | src/playbook/engine.js:30-35 | index back to -1, one pending result per step, empty context, mode kept |
| Engine.PlaybookEngine.RunNext | src/playbook/engine.js:37-45 | no playbook: nothing changes; otherwise the index grows by exactly one, and past the last step the run reports done with no call made and no state changed, else the step runs as `StepSpec` says |
| Engine.PlaybookEngine.ExecuteStep | src/playbook/engine.js:47-115 | the result, the new context, the new mode and the calls made are those of the reference semantics `StepSpec`, and only result slot `index` is rewritten |
| Engine.PlaybookEngine.Proceed | src/playbook/engine.js:51-71 | the assist branch and the confirmation gate, as `AfterRunning` describes them |
| Engine.PlaybookEngine.Perform | src/playbook/engine.js:73-112 | dispatch, then `done`, or `error` with the downgrade to Assist and the fallback callback, as `AfterGate` describes them |
| Engine.PlaybookEngine.DoDispatch | src/playbook/engine.js:74-92 | the messages sent and the outcome are those of `Dispatch`; only a parse or extract that reached its tab changes the context |
| Engine.PlaybookEngine.DoNavigate | src/playbook/engine.js:138-153 | an `OPEN_TAB` request for the resolved url |
| Engine.PlaybookEngine.FindTabByPattern | src/playbook/engine.js:236-244 | no pattern: no request and no tab; otherwise one `FIND_TAB` request, and a falsy answer is no tab |
| Engine.PlaybookEngine.ResolveTab | src/playbook/engine.js:157 | a truthy explicit `tabId` is used without a lookup, otherwise the lookup decides |
| Engine.PlaybookEngine.DoParse | src/playbook/engine.js:155-177 | the sends, outcome and context equal `Dispatch` and `DispatchContext`; with a tab, a not-ok reply fails as `Outcome` with 'Ошибка парсинга' (its error, or that message) |
| Engine.PlaybookEngine.DoFill | src/playbook/engine.js:179-203 | the sends and outcome equal `Dispatch`; with a tab, the outcome is `Outcome` with 'Ошибка заполнения' (the reply's error, or that message, or `lastError`) |
| Engine.PlaybookEngine.DoClick | src/playbook/engine.js:205-223 | the sends and outcome equal `Dispatch`; with a tab, the outcome is `Outcome` with 'Ошибка нажатия' (the reply's error, or that message, or `lastError`) |
| Engine.PlaybookEngine.DoExtract | src/playbook/engine.js:225-228 | behaves exactly as a parse |
| Engine.PlaybookEngine.GetStatus | src/playbook/engine.js:254-263 | the snapshot carries the mode, the current step index, the context and the results; the step count is 0 without a playbook; the name is the playbook's name when it is non-empty and null otherwise |
| EngineLaws.StatusesAppend | src/playbook/engine.js:246-248 | the statuses of two call sequences in a row are the two status lists joined |
| EngineLaws.StatusesOfSends | src/playbook/engine.js:246-248 | messages to the transport notify no status |
| EngineLaws.DispatchOnlySends | src/playbook/engine.js:74-92 | a dispatch only sends messages: it notifies, logs and confirms nothing |
| EngineLaws.StepNotifiesRunningThenOneTerminal | src/playbook/engine.js:47-115 | every step notifies `running` first and then exactly one terminal status (assist, skipped, done or error), which is the status returned |
| EngineLaws.AfterRunningStatuses | src/playbook/engine.js:51-112 | after `running`, exactly one terminal status is notified |
| EngineLaws.AfterGateStatuses | src/playbook/engine.js:73-112 | after the gate, exactly one status is notified, and it is done or error |
| Engine.AfterGate | src/playbook/engine.js:73-112 | reference definition of the calls after the confirmation gate: the dispatch, then `done` with a log entry, or `error` with a failed log entry, the downgrade to Assist and, in Automate, the fallback; stated by `AfterGateStatuses`, `GateErrorShape` and `SuccessKeepsMode` |
| Engine.AfterRunning | src/playbook/engine.js:51-112 | reference definition of the calls after `running`: the assist payload in Assist mode for a non-page step, a skip when the confirmation is declined, else `AfterGate`; stated by `AfterRunningStatuses`, `AssistShowsWithoutDispatch` and `DeclinedSkips` |
| Engine.StepSpec | src/playbook/engine.js:47-115 | reference definition of one `executeStep`: `running`, then `AfterRunning`; stated by `StepNotifiesRunningThenOneTerminal` and met by `PlaybookEngine.ExecuteStep` |
| EngineLaws.AssistShowsWithoutDispatch | src/playbook/engine.js:53-60 | in Assist mode a non-parse step shows `buildAssistData` without confirming or sending anything and leaves context and mode alone; a navigate's link and a fill's copy value are the resolved url and value |
| EngineLaws.DeclinedSkips | src/playbook/engine.js:63-71 | a declined confirmation gives `skipped`: running, the confirmation request, skipped, and nothing else, with context and mode unchanged |
| EngineLaws.UngatedStepProceeds | src/playbook/engine.js:63 | without a confirmation callback, or with `waitForConfirm: false`, the step is dispatched without asking |
| EngineLaws.ConfirmedStepAsksOnce | src/playbook/engine.js:63-71 | a confirmed step asks once and then does exactly what the dispatch does |
| EngineLaws.StepContextMerge | src/playbook/engine.js:155-177 | a step never removes a context key; only parse and extract change it, and a successful one yields the old keys plus the reply's keys, reply values winning |
| EngineLaws.ExplicitTabWins | src/playbook/engine.js:157-158 | a truthy `params.tabId` is used directly: one message, to that tab, and no `FIND_TAB` |
| EngineLaws.NoTabNoPattern | src/playbook/engine.js:157-158 | with neither a tab nor a pattern nothing is sent and the step fails with 'Вкладка не найдена: …' |
| EngineLaws.FillSendsValueTwice | src/playbook/engine.js:189 | a fill message carries the resolved value under both `value` and `lineNumber`, and the other `extra` fields as given |
| EngineLaws.NoFallbackAppend | src/playbook/engine.js:106-111 | call sequences without a fallback call stay so when joined |
| EngineLaws.LastOfAppend | src/playbook/engine.js:106-111 | the last call of a joined sequence is the last call of its non-empty tail |
| EngineLaws.GateErrorShape | src/playbook/engine.js:98-112 | a failed dispatch leaves Assist mode with the dispatch's own message as the error; the fallback callback fires exactly when the mode was Automate, as the very last call, and only once |
| EngineLaws.RunningErrorShape | src/playbook/engine.js:98-112 | the same after `running` and the confirmation gate, the error being the dispatch's message |
| EngineLaws.ErrorDowngrades | src/playbook/engine.js:98-112 | any failing step failed in its dispatch and reports exactly that message; it ends in Assist; the fallback callback fires once, with that message, as the last call, iff the mode was Automate |
| EngineLaws.NotOkReplyFails | src/playbook/engine.js:160-223 | with a tab, a parse, extract, fill or click fails with `lastError` on a transport failure, with 'Ошибка парсинга' / 'Ошибка заполнения' / 'Ошибка нажатия' on no reply, with `resp.error` or that message on a not-ok reply, and succeeds exactly on an ok reply |
| EngineLaws.ErrorCarriesMessage | src/playbook/engine.js:98-103 | a dispatch that is reached and fails ends the step with status error, no data and exactly its message |
| EngineLaws.SuccessKeepsMode | src/playbook/engine.js:53-97 | a step that does not fail keeps the mode and never calls the fallback |
| EngineLaws.CustomStepFails | src/playbook/engine.js:90-91 | in Automate mode a `custom` step that is not declined fails with 'Неизвестное действие: custom', downgrades to Assist and fires the fallback |
| EngineLaws.RunResultsLength | src/playbook/engine.js:33 | a run over n steps yields n results |
| EngineLaws.RunEndsInAssistIff | src/playbook/engine.js:106-107 | a run ends in Assist iff it started in Assist or some step failed: the downgrade is permanent and the only way out of Automate |
| EngineLaws.RunContextGrows | src/playbook/engine.js:172 | over a whole run the context never loses a key |
| Scenarios.StepIds | src/playbook/scenarios.js:14 | the ids of the steps, in order |
| Scenarios.PlainHasNoTokens | src/playbook/scenarios.js:68 | a url without `{` uses no context key |
| Scenarios.OneFinalToken | src/playbook/scenarios.js:32 | a url made of plain text and one final `{key}` uses exactly that key |
| Scenarios.PlainNavigateOk | src/playbook/scenarios.js:122-132 | a navigate step with a plain url is well formed |
| Scenarios.PlainStepOk | src/playbook/scenarios.js:12-24 | a parse, fill, click, extract or custom step with its required params and no template is well formed |
| Scenarios.OpenAccountingOk | src/playbook/scenarios.js:25-36 | the accounting link's only token is `{clientCode}`, a key the UI seeds |
| Scenarios.FillLineNumberOk | src/playbook/scenarios.js:73-85 | the support-script fill has its message, pattern and the `{lineNumber}` value |
| Scenarios.OpenRingmeOk | src/playbook/scenarios.js:98-109 | the Ringme link's only token is `{clientCode}` |
| Scenarios.AtcStepsOk | src/playbook/scenarios.js:12-145 | every ATC step has a known action, the params its action needs, the confirmation policy (parse false, extract true) and only seeded tokens |
| Scenarios.PostponeStepsOk | src/playbook/scenarios.js:156-205 | the same for the postpone scenario |
| Scenarios.RunexisStepsOk | src/playbook/scenarios.js:220-311 | the same for the Runexis scenario |
| Scenarios.BuiltinScenariosWellFormed | src/playbook/scenarios.js:314-318 | exactly the three scenarios, in order, with distinct `builtin_` ids, each well formed |
| Scenarios.AtcIdsUnique | src/playbook/scenarios.js:12-145 | step ids are unique in the ATC scenario |
| Scenarios.PostponeIdsUnique | src/playbook/scenarios.js:156-205 | step ids are unique in the postpone scenario |
| Scenarios.RunexisIdsUnique | src/playbook/scenarios.js:220-311 | step ids are unique in the Runexis scenario |
| Scenarios.AccountingUrlPrefixPlain | src/playbook/scenarios.js:32 | the accounting url holds no brace before its token |
| Scenarios.SupportScriptUrlPlain | src/playbook/scenarios.js:68 | the support-script url holds no token |
| Scenarios.RingmeUrlPrefixPlain | src/playbook/scenarios.js:105 | the Ringme url holds no brace before its token |
| Scenarios.TeleoStaffUrlPlain | src/playbook/scenarios.js:129 | the Teleo staff url holds no token |
| Scenarios.TeleoRoutingUrlPlain | src/playbook/scenarios.js:141 | the Teleo routing url holds no token |
| Scenarios.FreeTextUrlPrefixPlain | src/playbook/scenarios.js:189 | the free-text url holds no brace before `{ticketId}` |
| Scenarios.RunexisLoginUrlPlain | src/playbook/scenarios.js:228 | the Runexis login url holds no token |
| Scenarios.RunexisNumbersUrlPlain | src/playbook/scenarios.js:251 | the Runexis numbers url holds no token |
| Window.MergeAccounting | src/ui/window.js:895-904 | a present line number becomes `lineNumber`; services are replaced only when given; `lineNumbers` always exists afterwards |
| Window.MergeAccountingLines | src/ui/window.js:898-901 | the line number is put in front of `lineNumbers` only when it is absent, so no duplicate is introduced and it is always in the list afterwards |
| Window.MergeKeepsOtherFields | src/ui/window.js:895-904 | ticket id, client code, plan and excerpt are untouched |
| Window.MergeIdempotent | src/ui/window.js:895-904 | merging the same accounting data twice is the same as merging it once |
| Window.ReadFixes | src/ui/window.js:160-164 | the client code and line number are the trimmed field values, the plan is taken as it is |
| Window.ApplyFixes | src/ui/window.js:165-168 | a non-empty client code or plan replaces the old one, a non-empty line number replaces the whole list, everything else is untouched |
| Window.ApplyFixesIdempotent | src/ui/window.js:165-168 | applying the same corrections twice is the same as applying them once |
| Window.CorrectionExample | src/ui/window.js:170-177 | the training example is a `correction` with result OK, the ticket excerpt as text, all three corrected fields (client code, line number, ATC plan) as params, the ticket id (or undefined) as metadata and the corrections' JSON text |
| Window.RecordedToStep | src/ui/window.js:667-674 | a recorded `input` becomes `fill` and anything else `click`, with system 'User', confirmation, the description `action: text-or-selector`, and params holding only `value` and a top-level `selector` (no tab, no pattern, no `extra`) |
| Window.RecordedStepOutcome | src/ui/window.js:667-674 | a recorded step is shown in Assist (a fill offers its value for copying); in Automate, unless declined, it sends nothing and fails with 'Вкладка не найдена: undefined', leaving Assist |
| Window.RecordedSteps | src/ui/window.js:667-674 | one step per recorded step, in order |
| Window.RecordedPlaybook | src/ui/window.js:664-675 | the trimmed name, or the default name when it is blank, and one step per recorded step |
| Window.RecordedStepsShape | src/ui/window.js:670-673 | every mapped step asks confirmation, belongs to 'User', and is fill exactly for `input` and click otherwise |
| Window.SeedLine | src/ui/window.js:359 | the first entry of `lineNumbers` when it is truthy, else `lineNumber`, else '' |
| Window.SeedContext | src/ui/window.js:356-361 | the four seeded keys, with the client code and the seed line |
| Window.IntendedContext | src/ui/window.js:355-362 | the context the UI means to start with: the seed with a ticket, empty without one |
| Window.SeedNeverEmpty | src/ui/window.js:355-362 | with a ticket the intended context is never empty and holds `clientCode` (the engine's context after `startPlaybook` is empty; see Findings) |
| Window.Received | src/ui/window.js:1331-1341 | a transport error becomes `{ok:false, error}`, otherwise the reply as given |
| Window.ErrorOr | src/ui/window.js:1182 | the reply's error text, or the fallback text |
| Window.SendToRunexisTab | src/ui/window.js:1343-1354 | without a truthy tab id the send fails with 'Нет вкладки Runexis…' and nothing is sent; otherwise the reply as received |
| Window.SendGuard | src/ui/window.js:1343-1354 | a send is ok iff a tab is set, the transport answered and the answer is ok |
| Window.Codes | src/ui/window.js:1098-1168 | the passes are 495 then 499 exactly for Moscow with 'both'; otherwise one pass, with the code for Moscow and none elsewhere |
| Window.IsMoscow | src/ui/window.js:1098 | the (already trimmed) city is 'москва' in any letter case |
| Window.OpenLogin | src/ui/window.js:1119-1121 | the login page is always opened; a not-ok reply aborts with 'Не удалось открыть Runexis' and the old tab, an ok reply gives the new tab |
| Window.TabReuse | src/ui/window.js:1113-1134 | the stored tab is reused iff it is found and activates; otherwise the login url is opened, and failing to open it aborts |
| Window.OpenRunexisTab | src/ui/window.js:1113-1134 | reference definition of step 1: reuse the found tab when it activates, else open the login page; stated by `TabReuse` |
| Window.TargetPage | src/ui/window.js:1211-1215 | page 2 iff the pagination reply is ok with `maxPage >= 2`, else page 1; never above 2 |
| Window.PassRules | src/ui/window.js:1180-1240 | a pass reads page 2 only when pagination allows it and the go-to-page succeeds, else page 1; it adds numbers only from an ok, non-empty collect reply, exactly those numbers |
| Window.RunPass | src/ui/window.js:1180-1240 | reference definition of one pass: the page chosen, the fall-back to page 1, and the numbers kept from an ok reply; stated by `PassRules` |
| Window.PagesRead | src/ui/window.js:1171-1241 | one page per pass |
| Window.EmptyCityStartsNothing | src/ui/window.js:1094-1095 | a blank city starts nothing: no tab, no log, no state change |
| Window.FinishShape | src/ui/window.js:1244-1272 | an empty result ends as 'Номера не найдены' with nothing stored, copied or logged as an error; otherwise the deduplicated list is stored and its newline join copied, with one success log |
| Window.AbortShape | src/ui/window.js:1274-1277 | an abort logs the error as a failure |
| Window.AfterTabEnds | src/ui/window.js:1136-1272 | once the tab is there, every run ends in a well-formed terminal state |
| Window.AfterTab | src/ui/window.js:1136-1272 | reference definition of steps 2 to 7: the login check, the cancel checks, the navigation, the passes and the finish; stated by `AfterTabEnds` |
| Window.Finish | src/ui/window.js:1244-1272 | reference definition of the end of a completed run: the deduplicated list, stored and copied when non-empty; stated by `FinishShape` |
| Window.Gathered | src/ui/window.js:1171-1240 | reference definition of `allNumbers` after the first n passes: each pass's numbers appended in order; stated by `WizardCollects` |
| Window.StartLog | src/ui/window.js:1106 | the run's first log line: city, number type and, for Moscow, the code |
| Window.WizardEnds | src/ui/window.js:1093-1282 | every run of the wizard ends in a well-formed terminal state |
| Window.Wizard | src/ui/window.js:1093-1282 | reference definition of one `runRunexisWizard` run from the form and the replies; stated by `EmptyCityStartsNothing`, `WizardEnds`, `WizardCollects`, `WizardAborts` and `WizardWithoutTabHandlers` |
| Window.WizardCollects | src/ui/window.js:1171-1244 | a finished run read one page (1 or 2) per pass, and its numbers are the first-seen deduplication of everything the passes gathered |
| Window.PagesAreOneOrTwo | src/ui/window.js:1212-1221 | no pass ever reads a page other than 1 or 2 |
| Window.WizardAborts | src/ui/window.js:1113-1165 | a run with a city aborts iff opening the tab fails, the auth check fails, or the navigation to the numbers page fails before a cancel |
| Window.WizardWithoutTabHandlers | src/ui/window.js:1113-1128 | when the find and open requests get no answer or a transport error, a run with a city aborts at step 1 with 'Не удалось открыть Runexis', keeps the old tab id, reads no page and stores nothing |
| Window.PanelWindow.constructor | src/ui/window.js:20-24 | the panel starts in Assist with no ticket, no recording, no engine, and no Runexis tab or run |
| Window.PanelWindow.MergeAccountingData | src/ui/window.js:895-904 | the ticket becomes `MergeAccounting` of the old one |
| Window.PanelWindow.ApplyFix | src/ui/window.js:159-181 | without a ticket nothing changes and no example is stored; with one the corrections are applied and one correction example is produced |
| Window.PanelWindow.SaveRecording | src/ui/window.js:663-683 | the mapped playbook is upserted into the library and the recording is emptied |
| Window.PanelWindow.StartPlaybook | src/ui/window.js:345-372 | the Runexis scenario opens the wizard and bypasses the engine; any other gets a fresh engine in the current mode with the scenario loaded and, as written, an empty context; the recorded steps and the Runexis tab are untouched |
| Window.PanelWindow.StartPlaybookSeeded | src/ui/window.js:355-362 | the corrected start: the loaded engine's context is the seed from the ticket |
| Window.PanelWindow.OpenTab | src/ui/window.js:1113-1134 | the tab step of `OpenRunexisTab`, remembered as the Runexis tab |
| Window.PanelWindow.RunRunexisWizard | src/ui/window.js:1093-1282 | the run is `Wizard` of the inputs and replies; `rxRunning` is false afterwards whenever the run started |
| Window.PanelWindow.RunFromTab | src/ui/window.js:1136-1272 | the pass loop and the finish, as `AfterTab` describes them |
| RunexisPage.StripSeparators | src/content/runexis-content.js:183 | no whitespace, '-', '(', ')' or '+' remains, nothing new is added and the text never grows |
| RunexisPage.NormalizeCandidate | src/content/runexis-content.js:185-194 | an accepted 10- or 11-digit cell becomes 11 digits that never start with '8' and end with the cell's last ten digits; 10 digits and a leading '8' give a leading '7', any other 11 digits are kept |
| RunexisPage.Normalize | src/content/runexis-content.js:185-194 | reference definition of the cell normalisation: ten digits get a leading 7, and an eleven-digit number starting with 8 has it replaced by 7; stated by `NormalizeCandidate` |
| RunexisPage.NormalizeIdempotent | src/content/runexis-content.js:186-194 | an already normalised number is left alone, and normalising twice is normalising once |
| RunexisPage.CellNumbers | src/content/runexis-content.js:180-199 | every number taken from the cells is normalised and all digits |
| RunexisPage.FallbackNumbers | src/content/runexis-content.js:207-215 | every number taken from the text scan is normalised |
| RunexisPage.NormalizeNumber | src/content/runexis-content.js:186-194 | the two rewrites in source order compute `Normalize` |
| RunexisPage.CellNumbersSnoc | src/content/runexis-content.js:180-199 | one more cell adds its normalised number when it is a candidate and nothing otherwise |
| RunexisPage.FallbackNumbersSnoc | src/content/runexis-content.js:207-215 | one more match adds its normalised number when that has 11 characters |
| RunexisPage.ScanCells | src/content/runexis-content.js:176-199 | the loop collects the first-seen deduplication of the cell numbers |
| RunexisPage.ScanText | src/content/runexis-content.js:202-216 | the loop collects the first-seen deduplication of the 11-digit text matches |
| RunexisPage.CollectNumbers | src/content/runexis-content.js:175-219 | the reply is the cell numbers, or the text-scan numbers when the cells gave none |
| RunexisPage.CollectedProperties | src/content/runexis-content.js:175-219 | the list has no duplicate and only normalised numbers; when the cells gave numbers it is exactly their deduplication and holds each of them; the text scan runs only when the cells gave none |
| RunexisPage.Collected | src/content/runexis-content.js:175-219 | reference definition of `collectNumbers`' list: the cell numbers, else the text-scan numbers, deduplicated; stated by `CollectedProperties` and met by `CollectNumbers` |
| RunexisPage.MaxPage | src/content/runexis-content.js:231 | the largest page number, which is one of them, or 1 when there are none |
| RunexisPage.GetPaginationInfo | src/content/runexis-content.js:224-235 | the numeric labels in order, their maximum, and the active page's number, 1 when absent, unparsable or zero |
| RunexisPage.PageNumbers | src/content/runexis-content.js:224-235 | reference definition of the page numbers: each label's `parseInt` of its trimmed text, in order, labels without digits dropped; met by `GetPaginationInfo` |
| RunexisPage.FindLabelled | src/content/runexis-content.js:58-64 | the first link whose trimmed text is the page number, or none when no link has it |
| RunexisPage.FindPointing | src/content/runexis-content.js:68-75 | the first link whose href holds `page=N` or whose `data-page` is N, or none |
| RunexisPage.GoToPage | src/content/runexis-content.js:53-79 | ok iff a link was clicked: the first labelled link, else the first pointing one; otherwise the 'Страница N не найдена в пагинации' error |
| RunexisPage.SuggestionMatchIsPrefix | src/content/runexis-content.js:120-121 | the equality test is subsumed: a suggestion matches iff its lowercased text starts with the lowercased city |
| RunexisPage.FirstSuggestionMatch | src/content/runexis-content.js:119-125 | the first matching suggestion, or none |
| RunexisPage.ChosenSuggestion | src/content/runexis-content.js:116-128 | nothing is clicked iff there are no suggestions; the first match is clicked, else the first suggestion |
| RunexisPage.ChooseSuggestion | src/content/runexis-content.js:116-128 | the loop with its early exit computes `ChosenSuggestion` |
| RunexisPage.FirstMatchAt | src/content/runexis-content.js:119-125 | a match with no match before it is the one chosen |
| RunexisPage.ExactMatchNotPreferred | src/content/runexis-content.js:121 | with suggestions 'ab' then 'a' for the city 'a', the prefix match 'ab' is clicked although 'a' is exact |
| RunexisPage.FindSimpleType | src/content/runexis-content.js:139-141 | the first option whose text holds 'простой' or whose value holds 'simple', or none |
| RunexisPage.FindCodeOption | src/content/runexis-content.js:159-161 | the first option whose text holds the code or whose value is the code, or none |
| RunexisPage.SetFilters | src/content/runexis-content.js:102-170 | with a city input the city is typed and the chosen suggestion picked, and with no suggestion the previous pick stays; the type becomes the first simple option when there is one and is otherwise unchanged; a truthy code sets the matching code option (unchanged when none matches), or the text input when there is no select, and is ignored with neither; an empty code changes nothing |
| RunexisPage.FiltersNotCleared | src/content/runexis-content.js:149-169 | a later call without a code keeps the code an earlier call set: nothing is cleared |
| RunexisPage.FirstButton | src/content/runexis-content.js:248-259 | the first button whose text or value holds the label case-insensitively, or none |
| RunexisPage.FindButtonByText | src/content/runexis-content.js:248-259 | the loop computes `FirstButton` |
| RunexisPage.FirstButtonAt | src/content/runexis-content.js:250-257 | a matching button with no match before it is the one found |
| RunexisPage.ApplyTargetPriority | src/content/runexis-content.js:39-43 | 'Применить' beats 'Поиск', which beats 'Найти'; the submit button and then `.btn-primary` are used only when no label matches |
| RunexisPage.ApplyTarget | src/content/runexis-content.js:39-43 | reference definition of the button `RUNEXIS_APPLY` clicks; stated by `ApplyTargetPriority` |
| RunexisPage.ApplyFilters | src/content/runexis-content.js:38-50 | the button clicked follows that priority; ok iff one was found, else 'Кнопка "Применить" не найдена' |
| RunexisPage.CheckAuth | src/content/runexis-content.js:17-25 | always ok with the page url; a login page iff the path holds '/site/login' or a login form or username input exists; a numbers page iff the path holds '/numbers' |
| Lists.Keys | src/storage/playbook-store.js:17 | the id of every record, in order |
| Lists.FindIndex | src/storage/template-store.js:26 | `findIndex`: the first position holding the id, or none when no record has it |
| Lists.FindById | src/storage/playbook-store.js:32-35 | `find`: a record with the id exists iff the id is among the keys, and the one returned has that id |
| Lists.Without | src/storage/knowledge-store.js:27-30 | `filter(x => x.id !== id)`: no record with the id remains, and every other record is kept |
| Lists.WithoutConcat | src/storage/knowledge-store.js:27-30 | the filter distributes over concatenation, so the survivors keep their order |
| Lists.WithoutAbsent | src/storage/knowledge-store.js:27-30 | removing an id nobody has changes nothing |
| Lists.Upsert | src/storage/playbook-store.js:16-22 | the record is present afterwards; an existing id keeps the length, a new one is appended, and records with other ids are untouched |
| Lists.UpsertKeepsKeysUnique | src/storage/playbook-store.js:16-22 | the upsert preserves id uniqueness, and looking the id up afterwards finds the new record |
| Lists.Capped | src/storage/logger.js:20-22 | a list longer than the cap is cut down to the cap, anything shorter is untouched |
| Lists.AppendCapped | src/storage/logger.js:19-22 | after append-then-cap the list is at most the cap long, the new element is last and the survivors are the newest earlier elements in order; below the cap nothing is dropped |
| Lists.TailSlice | src/storage/logger.js:29 | `slice(-limit)`: a suffix of the list, of `min(limit, n)` elements for a positive limit and the whole list for 0 |
| Lists.HeadSlice | src/content/otrs-content.js:93 | `slice(0, end)`: a prefix of `min(end, n)` elements |
| Lists.TermCount | src/storage/template-store.js:55-58 | the number of query terms the haystack contains, never more than the number of terms |
| Lists.TermCountPositive | src/storage/template-store.js:55-61 | a record scores above zero iff it contains some term, and scores the full count when it contains every term |
| Lists.CountTerms | src/storage/template-store.js:55-58 | the `for (const term of terms)` loop computes `TermCount` |
| Lists.Positive | src/storage/template-store.js:61 | only positive scores survive, each one taken from the input (that every positive score survives, in order, is `PositiveKeepsAll` and `PositiveConcat`) |
| Lists.PositiveKeepsAll | src/storage/template-store.js:61 | every record with a positive score survives the filter |
| Lists.PositiveConcat | src/storage/template-store.js:61 | the filter distributes over concatenation, so it keeps the input order, and a single record is kept iff its score is positive |
| Lists.Insert | src/storage/template-store.js:62 | one insertion step of the sort adds exactly one element |
| Lists.SortDesc | src/storage/template-store.js:62 | the sort keeps the length |
| Lists.InsertPermutes | src/storage/template-store.js:62 | an insertion adds exactly the inserted element to the multiset |
| Lists.InsertSorted | src/storage/template-store.js:62 | inserting into a list sorted by descending score keeps it sorted |
| Lists.SortDescSorted | src/storage/template-store.js:62 | the result is sorted by descending score and is a permutation of the input |
| Lists.ScoreClassSnoc | src/storage/template-store.js:62 | the records of one score in a list with one more record at the end |
| Lists.InsertStable | src/storage/template-store.js:62 | an insertion puts the new record after the records of equal score |
| Lists.SortDescStable | src/storage/template-store.js:62 | the sort is stable: records of equal score keep their input order |
| Lists.Items | src/storage/template-store.js:63 | the records without their scores, in order |
| Lists.ScoreAll | src/storage/template-store.js:53-60 | each record with the term count of its lowercased haystack |
| Lists.RankedProperties | src/storage/template-store.js:50-63 | a non-blank search (`searchTemplates`, and `searchKnowledge` at src/storage/knowledge-store.js:43-60 over its own haystack) ranks exactly the records with a positive score (as a multiset), best first, ties in input order, at most as many as the input |
| Lists.Ranked | src/storage/template-store.js:50-63 | reference definition of the scored records a non-blank search returns: score, keep the positive ones, sort stably by descending score; stated by `RankedProperties` |
| Lists.Search | src/storage/template-store.js:48-63 | reference definition of the term-count search the template and knowledge stores share; stated by `SearchMatches` and met by `SearchItems` |
| Lists.SearchItems | src/storage/template-store.js:48-63 | a blank query returns the input; otherwise the scoring loop, the positive filter and the stable sort compute `Search` |
| Lists.SearchMatches | src/storage/template-store.js:48-63 | a blank query returns every record; any other returns at most as many records, and a record is returned iff its lowercased haystack holds some term of the query |
| KnowledgeStore.NewEntry | src/storage/knowledge-store.js:8-14 | the new entry has the fresh id, the clock's time, the given title and text ('' when absent), and the given tags or [] when absent |
| KnowledgeStore.SearchKnowledge | src/storage/knowledge-store.js:43-60 | a blank query returns every entry; otherwise an entry is returned iff its title, text or tags hold some term of the query, never more entries than stored |
| KnowledgeStore.MergePatchLaws | src/storage/knowledge-store.js:36 | `{ ...entry, ...updates }`: an empty update changes nothing, and two updates in a row are one update by their merge, the later field winning |
| KnowledgeStore.MergePatch | src/storage/knowledge-store.js:36 | reference definition of `{ ...entry, ...updates }`; stated by `MergePatchLaws` |
| KnowledgeStore.StampImported | src/storage/knowledge-store.js:71-75 | a given id and `createdAt` are kept, a missing one replaced by a fresh id or the clock, the content untouched |
| Lists.StampAll | src/storage/knowledge-store.js:71-75 | every imported record is stamped with its own fresh id, in order, one output per input; training-store.js:45-49 and template-store.js:139-143 map their imports the same way |
| KnowledgeStore.KnowledgeBase.constructor | src/storage/knowledge-store.js:22-25 | an empty knowledge base |
| KnowledgeStore.KnowledgeBase.AddKnowledgeEntry | src/storage/knowledge-store.js:7-20 | exactly one record, the `NewEntry`, is appended |
| KnowledgeStore.KnowledgeBase.DeleteKnowledgeEntry | src/storage/knowledge-store.js:27-30 | every entry with the id is removed and the rest kept in order |
| KnowledgeStore.KnowledgeBase.UpdateKnowledgeEntry | src/storage/knowledge-store.js:32-41 | an unknown id returns null and changes nothing; otherwise the first entry with the id is merged in place and no other entry changes |
| KnowledgeStore.KnowledgeBase.ImportKnowledge | src/storage/knowledge-store.js:67-78 | a non-array fails with 'Ожидается массив JSON' and changes nothing; otherwise the stamped entries follow the existing ones and the combined length is returned |
| PlaybookStore.SaveRecord | src/storage/playbook-store.js:8-14 | a given id is kept, else the fresh id; the name defaults to 'Без названия'; the given steps are kept, else []; a given `createdAt` is kept, else the clock; `updatedAt` is the clock |
| PlaybookStore.ImportOne | src/storage/playbook-store.js:52-57 | an imported playbook with a known id replaces that record in place, stamped with the clock; otherwise it is appended with its own id or the fresh one; records with other ids are untouched |
| PlaybookStore.ImportAllBounds | src/storage/playbook-store.js:51-58 | the import never removes or reorders an existing record and adds at most one record per imported item |
| PlaybookStore.ImportAll | src/storage/playbook-store.js:51-58 | reference definition of `importPlaybooks`: each imported playbook through `ImportOne`, in order; stated by `ImportAllBounds` and met by `ImportPlaybooks` |
| PlaybookStore.ImportOneKeepsKeysUnique | src/storage/playbook-store.js:52-57 | with a fresh id that is not already used, one import step keeps the ids unique |
| PlaybookStore.SaveThenGet | src/storage/playbook-store.js:7-35 | after a save the ids are still unique, `getPlaybook` of the saved id returns the saved record, and the list grew by at most one |
| PlaybookStore.PlaybookLibrary.constructor | src/storage/playbook-store.js:16 | an empty library |
| PlaybookStore.PlaybookLibrary.SavePlaybook | src/storage/playbook-store.js:7-25 | the record `SaveRecord` builds is upserted and returned |
| PlaybookStore.PlaybookLibrary.GetPlaybook | src/storage/playbook-store.js:32-35 | the first record with the id, or null when no record has it |
| PlaybookStore.PlaybookLibrary.DeletePlaybook | src/storage/playbook-store.js:37-40 | every record with the id is removed, the rest kept in order |
| PlaybookStore.PlaybookLibrary.ImportPlaybooks | src/storage/playbook-store.js:47-61 | a non-array fails with 'Ожидается массив JSON' and changes nothing; otherwise the loop replaces or appends each item and returns the final length |
| TrainingStore.NewExample | src/storage/training-store.js:8-17 | the fresh id and the clock; result defaults to 'OK', metadata and params to {}; the other fields as given ('' when absent) |
| TrainingStore.StampImported | src/storage/training-store.js:45-49 | a given id and `ts` are kept, missing ones filled in, the content untouched |
| TrainingStore.TrainingSet.constructor | src/storage/training-store.js:26 | no examples |
| TrainingStore.TrainingSet.AddTrainingExample | src/storage/training-store.js:7-23 | exactly one record, the `NewExample`, is appended |
| TrainingStore.TrainingSet.GetTrainingExamples | src/storage/training-store.js:25-28 | the stored list, unchanged |
| TrainingStore.TrainingSet.DeleteTrainingExample | src/storage/training-store.js:30-34 | every example with the id is removed, the rest kept in order |
| TrainingStore.TrainingSet.ImportTrainingExamples | src/storage/training-store.js:41-52 | a non-array fails and changes nothing; otherwise the stamped examples follow the existing ones and the total length is returned |
| Logger.MakeEntry | src/storage/logger.js:10-16 | the entry records the clock, system, action, `ok = success` and the error text, '' by default |
| Logger.Tail | src/storage/logger.js:27-30 | a suffix of the log; without a limit the last `min(200, n)` entries |
| Logger.LogStore.constructor | src/storage/logger.js:18 | an empty log |
| Logger.LogStore.AddLog | src/storage/logger.js:9-25 | at most 5000 entries remain, the new entry last, and the survivors are the newest earlier entries in their order |
| Logger.LogStore.GetLogs | src/storage/logger.js:27-30 | the last `min(limit, n)` entries in order for a positive limit; the whole log for a limit of 0 |
| Logger.LogStore.ClearLogs | src/storage/logger.js:32-34 | the log is empty |
| TemplateStore.KeyRun | src/storage/template-store.js:68 | the `[A-Z_]+` run: a prefix of upper-case letters and '_', and the character after it is not one |
| TemplateStore.PlaceholderAt | src/storage/template-store.js:68 | a `{KEY}` token at the head of the text: a non-empty key of upper-case letters and '_' between braces |
| TemplateStore.Braced | src/storage/template-store.js:81 | each key wrapped in its braces, in order |
| TemplateStore.ExtractPlaceholdersDistinct | src/storage/template-store.js:80-83 | the extracted placeholders are distinct, are exactly the tokens the body holds, and come in order of first occurrence |
| TemplateStore.ExtractPlaceholders | src/storage/template-store.js:80-83 | reference definition of the distinct placeholder keys of a body, first seen first; stated by `ExtractPlaceholdersDistinct` |
| TemplateStore.UnboundTokenCopied | src/storage/template-store.js:76 | a token without a truthy value is copied literally in front of an unchanged rest |
| TemplateStore.PlainCharCopied | src/storage/template-store.js:68 | a character that does not start a token is copied in front of an unchanged rest |
| TemplateStore.ResolveUnbound | src/storage/template-store.js:67-78 | when no placeholder has a truthy value the body comes back unchanged; in particular text outside `{[A-Z_]+}` tokens is never touched |
| TemplateStore.ResolvePlaceholders | src/storage/template-store.js:67-78 | reference definition of `resolvePlaceholders`: one scan replacing each `{key}` whose value is truthy by that value's text; stated by `ResolveUnbound`, `ResolveToken` and `UnboundTokenCopied` |
| TemplateStore.KeyRunOfKey | src/storage/template-store.js:68 | the key run stops exactly at the end of the key |
| TemplateStore.PlaceholderOfKey | src/storage/template-store.js:68 | every well-formed `{KEY}` is recognised as a token with that key |
| TemplateStore.ResolveToken | src/storage/template-store.js:68-77 | a token becomes its value's text when that is truthy and stays literal otherwise (unknown keys included), and the rest is resolved on its own |
| TemplateStore.TicketNumberFallback | src/storage/template-store.js:71 | `{TICKET_NUMBER}` takes `ticketId`, else `ticketNumber`, else stays literal |
| TemplateStore.LineNumberFallback | src/storage/template-store.js:72 | `{LINE_NUMBER}` takes `lineNumber`, else the first of `lineNumbers` |
| TemplateStore.NewTemplate | src/storage/template-store.js:8-16 | the name defaults to 'Без названия', the category to ''; the tags are the given ones or []; the placeholders are those extracted from the body; the id and time come from the oracles |
| TemplateStore.SearchTemplates | src/storage/template-store.js:48-63 | a blank query returns every template; otherwise a template is returned iff its searchable text holds some term of the query, never more templates than stored |
| TemplateStore.MergePatchFields | src/storage/template-store.js:27-31 | the update's fields win over the record's, and placeholders are recomputed only when the update carries a truthy body |
| TemplateStore.MergePatch | src/storage/template-store.js:27-31 | reference definition of `{ ...template, ...updates }` with the placeholders recomputed; stated by `MergePatchFields` |
| TemplateStore.KeywordHits | src/storage/template-store.js:117-119 | the number of the ticket's keywords the usage has, never more than the ticket's keywords |
| TemplateStore.Relevance | src/storage/template-store.js:113-119 | 1, +2 for a matching client, +3 for a matching queue, +1 per keyword hit: between 1 and 6 plus the keyword count |
| TemplateStore.ScoreTable | src/storage/template-store.js:111-122 | every scored template has a score of at least 1 |
| TemplateStore.ScoreTableStep | src/storage/template-store.js:121 | one more usage adds its relevance to its template's score, starting from 0 |
| TemplateStore.ScoreTableKeys | src/storage/template-store.js:111-122 | a template is scored iff some usage names it |
| TemplateStore.ScoreTemplates | src/storage/template-store.js:124-126 | each template with its table score, 0 when it has none |
| TemplateStore.RecommendedItems | src/storage/template-store.js:124-127 | the recommendations are the first `limit` of the sorted positive scores |
| TemplateStore.RecommendedProperties | src/storage/template-store.js:106-128 | no usages gives []; otherwise at most `limit` templates, all from the input, each named by some usage, in descending score order |
| TemplateStore.Recommended | src/storage/template-store.js:106-128 | reference definition of `getRecommendedTemplates`' result; stated by `RecommendedItems` and `RecommendedProperties`, and met by `GetRecommendedTemplates` |
| TemplateStore.PositiveTemplates | src/storage/template-store.js:125 | the filter keeps only templates with a score, with that score |
| TemplateStore.SortedTemplates | src/storage/template-store.js:126 | after the sort the scores are descending and each is the template's table score |
| TemplateStore.StampImported | src/storage/template-store.js:139-143 | a given id and `createdAt` are kept, missing ones filled in, the content untouched |
| TemplateStore.TemplateStorage.constructor | src/storage/template-store.js:18 | no templates and no usages |
| TemplateStore.TemplateStorage.AddTemplate | src/storage/template-store.js:7-22 | exactly one record, the `NewTemplate`, is appended; the usages are untouched |
| TemplateStore.TemplateStorage.UpdateTemplate | src/storage/template-store.js:24-36 | an unknown id returns null and changes nothing; otherwise the first template with the id is merged at its index and nothing else changes |
| TemplateStore.TemplateStorage.DeleteTemplate | src/storage/template-store.js:38-41 | every template with the id is removed, the rest kept in order |
| TemplateStore.TemplateStorage.RecordTemplateUsage | src/storage/template-store.js:87-103 | the usage is appended, the oldest are dropped beyond 2000, and the new usage is last |
| TemplateStore.TemplateStorage.CountKeywordHits | src/storage/template-store.js:116-120 | the keyword loop computes `KeywordHits` |
| TemplateStore.TemplateStorage.GetRecommendedTemplates | src/storage/template-store.js:106-128 | the scoring loop, the filter, the stable sort and the slice compute `Recommended` |
| TemplateStore.TemplateStorage.ImportTemplates | src/storage/template-store.js:135-146 | a non-array fails and changes nothing; otherwise the stamped templates follow the existing ones and the total is returned |
| ServiceWorker.FindTabFrom | src/background/service-worker.js:84-85 | from a position on, the first tab whose url holds the pattern decides: its id when that is truthy, and null when it is 0 or no tab matches |
| ServiceWorker.FindTabId | src/background/service-worker.js:82-87 | `FIND_TAB` answers the id of a matching tab, and null when no tab's url holds the pattern |
| ServiceWorker.FindTabFirst | src/background/service-worker.js:84 | the first matching tab is the one answered, whatever matches later |
| ServiceWorker.FindTabFromAt | src/background/service-worker.js:84 | the same from any starting position |
| ServiceWorker.SomeIncluded | src/background/service-worker.js:190 | `patterns.some(p => url.includes(p))` over the remaining patterns |
| ServiceWorker.IsAllowedUrl | src/background/service-worker.js:182-191 | a url is allowed iff it contains one of the five host patterns |
| ServiceWorker.AllowedByHost | src/background/service-worker.js:183-190 | any url that contains a listed host is allowed |
| ServiceWorker.OnActivated | src/background/service-worker.js:171-180 | a tab switch sends `START_RECORDING` to the new tab exactly when recording is on and the tab has a non-empty allowed url, and does nothing else |
| ServiceWorker.DataSlotsIndependent | src/background/service-worker.js:26-48 | each `*_DATA_READY` message overwrites only its own slot, and no other message touches a slot |
| ServiceWorker.UnknownTypeUnanswered | src/background/service-worker.js:159-161 | a message type the switch has no case for gets no answer, has no effect and leaves the state unchanged |
| ServiceWorker.ModeOnlyBySetMode | src/background/service-worker.js:69-73 | only `SET_MODE` changes the mode, and it changes nothing else |
| ServiceWorker.RecordingFrame | src/background/service-worker.js:56-62 | only the three recorder messages touch the recording state; a step is appended only while recording, and otherwise changes nothing |
| ServiceWorker.StepsIn | src/background/service-worker.js:56-62 | the steps carried by `RECORDER_STEP` messages, in order |
| ServiceWorker.RecordingAccumulates | src/background/service-worker.js:101-103 | after `START_RECORDING` the recording is on and holds exactly the steps sent since, in order |
| ServiceWorker.StepsReplies | src/background/service-worker.js:115-129 | `STOP_RECORDING` and `GET_RECORDED_STEPS` both answer the accumulated steps |
| ServiceWorker.RecordingSession | src/background/service-worker.js:101-129 | start, steps, stop: the stop answers exactly the steps sent, recording is off, and the steps are not cleared by the stop |
| ServiceWorker.StoppedIgnoresSteps | src/background/service-worker.js:56-116 | after a stop, later steps are ignored |
| ServiceWorker.Worker.constructor | src/background/service-worker.js:12-20 | the initial state: no data, not recording, no steps, Assist mode |
| ServiceWorker.Worker.HandleMessage | src/background/service-worker.js:23-162 | the new state is `NextState` of the old one, and the reply and the calls made are those of `Respond` |
| ServiceWorker.NextState | src/background/service-worker.js:23-162 | reference definition of the state after one message; stated by `DataSlotsIndependent`, `ModeOnlyBySetMode` and `RecordingFrame` |
| ServiceWorker.Respond | src/background/service-worker.js:23-162 | reference definition of the reply and effects of one message; stated by `StepsReplies`, `UnknownTypeUnanswered` and met by `Worker.HandleMessage` |
| ServiceWorker.Replay | src/background/service-worker.js:23-162 | reference definition of the state after a sequence of messages; stated by `RecordingAccumulates`, `RecordingSession` and `StoppedIgnoresSteps` |
| TeleoContent.GetCurrentSection | src/content/teleo-content.js:16-22 | 'staff' iff the path holds '/staff/'; 'routing' iff it holds '/routing' but not '/staff/'; 'extensions' iff '/extension' and neither of those; 'main' otherwise |
| TeleoContent.SectionIsKnown | src/content/teleo-content.js:16-22 | the section is one of the four values, and the staff test wins over routing |
| TeleoContent.CollectData | src/content/teleo-content.js:24-32 | the reply is tagged 'teleo', carries the url and title, is a login page iff a login form exists, and its section is the one the path names |
| OtrsContent.SkipSpaces | src/content/otrs-content.js:10 | the `\s*` run: every skipped character is a space and the one after it is not |
| OtrsContent.ExtraAt | src/content/otrs-content.js:9 | the `(\d+)` group after a suffix: digits only, and when present it fits in the text |
| OtrsContent.ExtraAtOccurs | src/content/otrs-content.js:9 | a found extra occurs in the text in its parentheses |
| OtrsContent.SuffixedCodeAt | src/content/otrs-content.js:9 | a code followed by `_digits` gives a match longer than the bare code that fits in the text |
| OtrsContent.CodeThenSuffix | src/content/otrs-content.js:9 | the matched text is the code, '_' and the suffix, in that order |
| OtrsContent.AssembledOccurs | src/content/otrs-content.js:9 | code, suffix and extra reassemble into text that occurs at the match position |
| OtrsContent.SuffixedCodeOccurs | src/content/otrs-content.js:9 | the full suffixed match occurs where it was found |
| OtrsContent.SuffixedCodeAtProperties | src/content/otrs-content.js:9-28 | a suffixed match is well formed, has a non-empty suffix, occurs in the text and its client code is the eight characters at the match |
| OtrsContent.CodeAt | src/content/otrs-content.js:9 | a match starts at a position iff three upper-case Latin letters and five digits stand there; it is at least 8 characters and fits in the text |
| OtrsContent.CodeAtProperties | src/content/otrs-content.js:23-28 | every match is well formed (`full` is the code plus the optional `_suffix` and `(extra)`, '' when absent) and occurs in the text at its position |
| OtrsContent.CodesStep | src/content/otrs-content.js:22 | the scan either takes the match at the position and continues after it, or moves one character on |
| OtrsContent.CodesFrom | src/content/otrs-content.js:22 | reference definition of the global client-code regex scan from a position; stated by `CodesStep` |
| OtrsContent.CodesLoopStep | src/content/otrs-content.js:22-29 | the `while (exec)` loop invariant: the matches so far followed by the matches from the position are all matches |
| OtrsContent.CodesWellFormed | src/content/otrs-content.js:18-31 | every match returned is well formed and occurs in the text |
| OtrsContent.CodesInText | src/content/otrs-content.js:18-31 | every returned client code occurs in the text |
| OtrsContent.FirstCodeIsLeftmost | src/content/otrs-content.js:18-31 | there is a match iff some code stands in the text, and the first match is the leftmost one |
| OtrsContent.ParseClientCodeFull | src/content/otrs-content.js:18-31 | the loop returns the leftmost, non-overlapping matches in text order |
| OtrsContent.NumberStart | src/content/otrs-content.js:10 | the optional separators between the keyword and the digits stay inside the text |
| OtrsContent.KeywordEnd | src/content/otrs-content.js:10 | 'линия' or 'line', case-insensitively, ending inside the text |
| OtrsContent.DigitsAt | src/content/otrs-content.js:10 | a group of 6 to 12 digits standing at the position |
| OtrsContent.LineNumberAt | src/content/otrs-content.js:10 | a line-number match starting at the position: 6 to 12 digits ending where the scan resumes |
| OtrsContent.LineMatchesFrom | src/content/otrs-content.js:96-102 | every captured line number is 6 to 12 digits |
| OtrsContent.LineMatchesStep | src/content/otrs-content.js:98 | the scan takes the match at the position and continues after it, or moves one character on |
| OtrsContent.LineLoopStep | src/content/otrs-content.js:98-102 | the loop invariant of the line-number scan |
| OtrsContent.ExtractLineNumbers | src/content/otrs-content.js:96-102 | the loop returns the first-seen deduplication of the captured groups |
| OtrsContent.LineNumbersDistinct | src/content/otrs-content.js:96-102 | the line numbers are distinct 6- to 12-digit strings, and every captured group is among them |
| OtrsContent.Capitalize | src/content/otrs-content.js:107 | first letter upper case, the rest lower case, length kept |
| OtrsContent.PlanAt | src/content/otrs-content.js:11 | a whole-word plan name at the position, with the position after it |
| OtrsContent.FoldLatin | src/content/otrs-content.js:11 | a character that folds to a Latin lower-case letter lowers to it and uppers to its capital |
| OtrsContent.LowerAt | src/content/otrs-content.js:107 | lower-casing works character by character |
| OtrsContent.CapitalizeFold | src/content/otrs-content.js:107 | any spelling of a plan name capitalises to its canonical form |
| OtrsContent.CapitalizeStart | src/content/otrs-content.js:107 | any casing of 'start' becomes 'Start' |
| OtrsContent.CapitalizeBusiness | src/content/otrs-content.js:107 | any casing of 'business' becomes 'Business' |
| OtrsContent.PlanNames | src/content/otrs-content.js:104-111 | every plan found is 'Start' or 'Business' |
| OtrsContent.PlansFrom | src/content/otrs-content.js:104-111 | reference definition of the plan-name scan from a position; stated by `PlanNames` and met by `ExtractAtcPlans` |
| OtrsContent.PlanLoopStep | src/content/otrs-content.js:106-111 | the loop invariant of the plan scan |
| OtrsContent.ExtractAtcPlans | src/content/otrs-content.js:104-111 | the loop returns the first-seen deduplication of the normalised plan names |
| OtrsContent.AtcPlansBounded | src/content/otrs-content.js:104-111 | the plans are distinct and each is 'Start' or 'Business' |
| OtrsContent.ExtractFromBody | src/content/otrs-content.js:81-117 | the line numbers, plans, codes and the first 5000 characters of the joined articles, as `BodyOf` gives them |
| OtrsContent.BodyOf | src/content/otrs-content.js:81-117 | reference definition of `extractFromBody`' result; met by `ExtractFromBody` |
| OtrsContent.CollectTicketData | src/content/otrs-content.js:119-142 | the client code is the sidebar's, else the first body code, else ''; `clientCodeFull` is the first body code when there is one; the plan is the first plan or ''; the line numbers, accounting link and Telphin office are passed on; the excerpt is the first min(2000, length) characters of the body text |
| OtrsContent.TicketDataProperties | src/content/otrs-content.js:119-142 | without a sidebar code any client code is a code that occurs in the text; the plan is '', 'Start' or 'Business'; the line numbers are distinct; the excerpt is a prefix of the text of at most 2000 characters |
| OtrsContent.QueueSelect.constructor | src/content/otrs-content.js:248-250 | a select with its options and value, not yet changed |
| OtrsContent.QueueSelect.SelectFirst | src/content/otrs-content.js:252-258 | the first accepted option is selected and one change event fired; with none nothing changes |
| OtrsContent.MoveToQueue | src/content/otrs-content.js:247-260 | no select: nothing; otherwise the first option whose text or value contains the queue name is selected, and without one nothing changes |
| OtrsContent.Postpone14 | src/content/otrs-content.js:231-245 | the first option whose text or value contains '14day' case-insensitively is selected, otherwise nothing changes |
| OtrsContent.QueueChoiceIsFirst | src/content/otrs-content.js:252-254 | a naming option with none before it is the one chosen |
| AccountingContent.ExtractClientCode | src/content/accounting-content.js:57-62 | no `otrs_customer`: ''; a value starting with a client code yields that code; any other value is returned whole |
| AccountingContent.ClientCodeIdempotent | src/content/accounting-content.js:57-62 | the result is a prefix of the parameter, and extracting again from the result changes nothing |
| AccountingContent.SpacesPlus | src/content/accounting-content.js:9 | the `\s+` run: at least one space, ending inside the text |
| AccountingContent.WordEnd | src/content/accounting-content.js:9 | a heading word ('Линия' or 'номер', any case) matches iff it is there and followed by white space, and its spaces end inside the text |
| AccountingContent.GroupsAt | src/content/accounting-content.js:9 | the first group is a non-empty digit run and the second a possibly empty one |
| AccountingContent.HeaderAt | src/content/accounting-content.js:9 | a header match at a position yields a non-empty line number and an all-digit alternate |
| AccountingContent.HeadingWords | src/content/accounting-content.js:9 | 'Линия номер ' followed by a non-space is read as the two keywords |
| AccountingContent.NumberThenSlash | src/content/accounting-content.js:9 | `\d+` stops at the '/', and the separator is read past it |
| AccountingContent.AltAfterSlash | src/content/accounting-content.js:9 | after the slash the `(\d*)` group reads exactly the digits there |
| AccountingContent.GroupsReadBack | src/content/accounting-content.js:9 | 'num/alt' followed by a non-digit, non-space reads back as (num, alt) |
| AccountingContent.HeaderReadsBack | src/content/accounting-content.js:9-15 | 'Линия номер num/alt' is matched with groups num and alt: printing a header and matching it round-trips |
| AccountingContent.FirstHeaderFrom | src/content/accounting-content.js:13 | the leftmost match position, if any, lies inside the text |
| AccountingContent.FirstHeaderFound | src/content/accounting-content.js:13 | at the reported position a header does match |
| AccountingContent.NoHeaderBefore | src/content/accounting-content.js:13 | no header matches before the reported position |
| AccountingContent.NoHeaderAfter | src/content/accounting-content.js:13 | when no position is reported, no header matches anywhere after the start |
| AccountingContent.HeaderIn | src/content/accounting-content.js:13-20 | a match found in a text has a non-empty line number and an all-digit alternate |
| AccountingContent.HeaderInSpec | src/content/accounting-content.js:13-20 | `exec` finds nothing iff no position matches, and what it finds is the match at some position |
| AccountingContent.FirstHeaderIn | src/content/accounting-content.js:18-22 | the header fallback finds nothing iff no header text matches |
| AccountingContent.ExtractLineNumber | src/content/accounting-content.js:11-24 | the loop returns the body's match, else the first matching header's, else two empty strings |
| AccountingContent.LineNumberOf | src/content/accounting-content.js:11-24 | reference definition of `extractLineNumber`' result: the body's match, else the first matching heading, else empty; stated by `LineNumberEmptyIffNoMatch` and `BodyTakesPrecedence`, met by `ExtractLineNumber` |
| AccountingContent.LineNumberEmptyIffNoMatch | src/content/accounting-content.js:11-24 | the result is empty iff neither the body nor any header matches; otherwise the line number is non-empty digits |
| AccountingContent.BodyTakesPrecedence | src/content/accounting-content.js:13-16 | whenever the body matches anywhere, the result is the body's leftmost match, whatever the headers say |
| AccountingContent.CollectAccountingData | src/content/accounting-content.js:64-74 | source 'accounting', the url and services as given, the client code as extracted, and the line number and alternative number of `LineNumberOf` (empty iff no header was found) |
| AccountingContent.OnMessage | src/content/accounting-content.js:76-86 | only `PARSE_ACCOUNTING` is answered: with the data, or with the error when collecting fails |
| AccountingContent.ParseReplySource | src/content/accounting-content.js:76-86 | a successful `PARSE_ACCOUNTING` reply carries data whose source is 'accounting' |
| RecorderContent.Hex | src/content/recorder-content.js:33 | the code-point escape inside `CSS.escape` always has at least one hex digit |
| RecorderContent.EscapeFromPlain | src/content/recorder-content.js:33 | `CSS.escape` leaves an identifier made only of letters, '_' and non-ASCII characters unchanged from any position on |
| RecorderContent.CssEscapeProperties | src/content/recorder-content.js:33-56 | plain identifiers escape to themselves, and an identifier starting with a digit escapes to one starting with a backslash |
| RecorderContent.CssEscape | src/content/recorder-content.js:56 | reference definition of `CSS.escape` on the characters the selectors meet; stated by `CssEscapeProperties` |
| RecorderContent.FirstDataAttr | src/content/recorder-content.js:37-41 | the first attribute whose name starts with 'data-' and whose value is non-empty, and none when there is none |
| RecorderContent.FirstDataAttrAt | src/content/recorder-content.js:37-41 | the first qualifying attribute is the one the loop picks |
| RecorderContent.Classes | src/content/recorder-content.js:53-58 | no class names without a class attribute; otherwise the first two words of the trimmed attribute (fewer when it has fewer), none of them empty |
| RecorderContent.EscapeAll | src/content/recorder-content.js:56 | each class escaped with `CSS.escape`, in order |
| RecorderContent.PathSegments | src/content/recorder-content.js:44-71 | never more segments than elements on the way up |
| RecorderContent.PathHeadIsNearestId | src/content/recorder-content.js:46-52 | the path has one segment per element up to the nearest ancestor with an id, and starts with that id |
| RecorderContent.PathStopsAtNearestId | src/content/recorder-content.js:44-71 | the same, and each element below that ancestor contributes its own segment in top-down order |
| RecorderContent.Segment | src/content/recorder-content.js:53-69 | reference definition of one path segment: the lower-case tag, its first two escaped classes and, below a parent with several children of that tag, the `:nth-of-type` position; stated by `PathStopsAtNearestId` |
| RecorderContent.PathToBody | src/content/recorder-content.js:46-70 | without ids the path has one segment per element below `body`, the element's own last |
| RecorderContent.SegmentParts | src/content/recorder-content.js:47-68 | a segment starts with the lower-cased tag, has at most two classes, and carries `:nth-of-type` iff the parent has several children of that tag |
| RecorderContent.FindDataAttr | src/content/recorder-content.js:37-41 | the `for … of` loop returns the first qualifying attribute, as FirstDataAttr defines it |
| RecorderContent.PathStep | src/content/recorder-content.js:48-70 | one `unshift` step: an element with an id closes the path, any other prepends its segment and climbs |
| RecorderContent.BuildPath | src/content/recorder-content.js:44-71 | the `while` loop builds exactly the segments of PathSegments |
| RecorderContent.GetStableSelector | src/content/recorder-content.js:31-73 | id, else name, else first data attribute, else the path joined with ' > ', as StableSelector defines it |
| RecorderContent.StableSelector | src/content/recorder-content.js:31-73 | reference definition of `getStableSelector`; met by `GetStableSelector` |
| RecorderContent.DetectActionType | src/content/recorder-content.js:75-85 | checkboxes and radio buttons (type 'text' when absent, any case) give 'check', other inputs and text areas 'input', a select 'select', any other tag 'click' |
| RecorderContent.DetectActionKinds | src/content/recorder-content.js:75-85 | 'select' iff the tag is select; 'input' or 'check' iff the tag is input or textarea; a missing type counts as text |
| RecorderContent.MakeStep | src/content/recorder-content.js:103-113 | the recorded step carries the detected action, the stable selector, the lower-case tag name, the first min(100, length) characters of the trimmed text, and the value, placeholder, url and time as given |
| RecorderContent.ReplayResult | src/content/recorder-content.js:134-161 | ok iff the element was found and the action is known; a missing element reports its selector and an unknown action its name |
| RecorderContent.Control.constructor | src/content/recorder-content.js:135 | a form control with the given value and check state, never clicked |
| RecorderContent.ExecuteStep | src/content/recorder-content.js:134-161 | click clicks once, input and select set the value, check toggles; nothing else changes, and an unknown action or a missing element changes nothing |
| RecorderContent.Recorder.constructor | src/content/recorder-content.js:9 | not recording, no listeners installed |
| RecorderContent.Recorder.StartRecording | src/content/recorder-content.js:118-124 | recording with listeners installed; a second start changes nothing |
| RecorderContent.Recorder.StopRecording | src/content/recorder-content.js:126-131 | not recording and listeners removed, from any state |
| RecorderContent.Recorder.OnClick | src/content/recorder-content.js:98-116 | a step is sent iff recording, and it is the step MakeStep builds |
| Text.LowerChar | src/content/recorder-content.js:76 | `toLowerCase` on one character: Latin capitals move down by 32, Cyrillic А-Я by 32 and Ѐ-Џ by 80; every other character is kept |
| Text.UpperChar | src/content/otrs-content.js:107 | `toUpperCase` on one character: Latin small letters move up by 32, Cyrillic а-я by 32 and ѐ-џ by 80; every other character is kept |
| Text.Lower | src/content/runexis-content.js:120-121 | lower-casing keeps the length and maps each character by `LowerChar` |
| Text.Upper | src/content/otrs-content.js:107 | upper-casing keeps the length and maps each character by `UpperChar` |
| Text.ContainsFrom | src/content/runexis-content.js:140 | `includes` from a position: true iff the pattern occurs at some position from there on |
| Text.Includes | src/content/runexis-content.js:140 | `includes`: true iff the pattern occurs somewhere |
| Text.TrimStart | src/ui/window.js:1094 | the result never starts with white space and is no longer than the input |
| Text.TrimEnd | src/ui/window.js:1094 | the result never ends with white space and is no longer than the input |
| Text.Trim | src/ui/window.js:1094 | `trim` never lengthens its input |
| Text.TrimStartDropsSpaces | src/ui/window.js:1094 | the result of dropping leading white space is a suffix of the input and everything dropped is white space |
| Text.TrimEndDropsSpaces | src/ui/window.js:1094 | the result of dropping trailing white space is a prefix of the input and everything dropped is white space |
| Text.TrimSlice | src/ui/window.js:1094 | `trim` returns a slice of the input with white space only before and after it, and is empty or starts and ends with non-white-space |
| Text.Words | src/content/recorder-content.js:54 | `trim().split(/\s+/)`: every word is non-empty and contains no white space (which words, in order, is `WordsOfSpaces` and `WordsOfRun`) |
| Text.TrimStartSpaces | src/content/recorder-content.js:54 | leading white space before a non-space character is dropped exactly |
| Text.WordPrefixOf | src/content/recorder-content.js:54 | the word at the head of a string is its whole leading run of non-space characters |
| Text.WordsOfSpaces | src/content/recorder-content.js:54 | white space alone splits into no words |
| Text.WordsOfRun | src/content/recorder-content.js:54 | white space, then a word, then a string starting with white space or empty, splits into that word followed by the rest's words |
| Text.WordPrefix | src/content/recorder-content.js:54 | the longest run of non-space characters at the start |
| Text.NatToString | src/content/recorder-content.js:66 | a number prints as a non-empty string of digits whose value is the number, with no leading zero except for 0 itself |
| Text.DigitChar | src/content/recorder-content.js:66 | each digit value prints as the digit character of that value |
| Text.DigitPrefix | src/content/runexis-content.js:228 | the longest run of digits at the start, followed by a non-digit or the end |
| Text.DigitPrefixOf | src/content/runexis-content.js:228 | digits followed by a non-digit read back as exactly those digits |
| Text.ParseInt | src/content/runexis-content.js:228 | `parseInt(…, 10)` gives NaN iff no digit follows the optional sign; otherwise the value of the leading digits, negated after a '-' |
| Text.FirstIndex | src/ui/window.js:1244 | the first position holding the value, with none before it |
| Text.FirstWhere | src/content/otrs-content.js:252-254 | `Array.find`: the first element satisfying the test, and none when no element does |
| Text.FirstWhereAt | src/content/otrs-content.js:252-254 | the first satisfying element is the one `find` returns |
| Text.Dedup | src/ui/window.js:1244 | `[...new Set(xs)]` keeps exactly the values of its input and never grows |
| Text.DedupPush | src/ui/window.js:1244 | adding a value to the end adds it to the set only when it is new |
| Text.DedupNoDup | src/ui/window.js:1244 | the result has no duplicates |
| Text.DedupOfNoDup | src/ui/window.js:1244 | a list without duplicates is returned unchanged |
| Text.DedupFirstSeenOrder | src/ui/window.js:1244 | values come out in the order of their first occurrence |
| Text.FirstIndexPrefix | src/ui/window.js:1244 | extending a list does not move the first occurrence of a value already in it |
| Text.FirstIndexLast | src/ui/window.js:1244 | a value new at the end first occurs there |

## Left out
- Engine.ResolveTemplate: the context is modelled as a map of its own keys, without Object.prototype, so a token naming an inherited member (`constructor`, `toString`, `valueOf`, `hasOwnProperty`, `__proto__`, …) counts as unbound here, whereas `resolveTemplate` substitutes the text of the inherited value (for example a native function's source text, whose form depends on the JavaScript engine).
- Engine.ResolveEmptyContext: holds only for templates whose tokens do not name Object.prototype members; on `{}` the source replaces `{constructor}` by the Object constructor's text.
- Engine.ResolveTokenFalsy: "missing" means absent from the context's own keys; a key such as `toString` is inherited by every JavaScript object and is substituted by the source.

- Browser I/O (`chrome.runtime`, `chrome.tabs`, `chrome.storage`, `chrome.runtime.lastError`) is replaced by the oracle values above. Asynchrony and interleaving between concurrent handlers are not modelled.
- `crypto.randomUUID` and `Date` are replaced by the `freshId` and `now` parameters.
- Timers and waits are not modelled: `delay`, `setTimeout`, the automatic data broadcasts of the content scripts, `RUNEXIS_WAIT_TAB_LOAD` and the autocomplete wait. `waitForUserContinue` (src/ui/window.js:1315-1329) is operator input and is folded into the wizard's reply oracle.
- JSON parsing and printing are not modelled. This covers `exportLogs`, `exportKnowledge`, `exportTemplates`, `exportPlaybooks` and `exportTrainingExamples`. Imports arrive already parsed, and a non-array import is a separate input case.
- Presentation is not modelled: toasts, step rendering, confirmation bars, the template editor, quick links, `escapeHtml`, `downloadJSON`, debug mode, and the recorder's overlay and mouse tracking.
- DOM scraping heuristics are reduced to their results. This covers the OTRS sidebar scan, the accounting `extractServices` table scan, the OTRS editor insertion (CKEditor and iframe) and `checkOtrsEditorAvailable`.
- Clipboard writes (`navigator.clipboard`, `RUNEXIS_COPY_TO_CLIPBOARD`) become a delivery outcome.
- src/sidepanel/sidepanel.js is not part of this model. Its merge, context seed and recording mapping are copies of the window's.
- src/content/support-script-content.js and src/content/ringme-content.js are not part of this model. Their logic is selector guessing against the live DOM.
- RunexisPage.CollectNumbers: the full-text phone regex (src/content/runexis-content.js:205) is replaced by the sequence of its matches, supplied as a parameter. The model states what the fallback keeps from those matches.
- The service worker's `OPEN_TAB`, `SEND_TO_TAB`, `EXECUTE_ON_TAB` and `PARSE_ACTIVE_TAB` are modelled only as relays of the browser's answer. Its console logging and its broadcasts to the panel are recorded as effects.
- The engine's `onStepUpdate`, `onLog` and `onModeFallback` callbacks are recorded as effects. What the UI does with them is not modelled.
- Teleo's login-form probe and the wizard's page-state probes are parameters.
- The Teleo listener and its timer are not modelled.
- Strings are sequences of Unicode scalar values, not UTF-16 code units.
- `toLowerCase` and `toUpperCase` fold only ASCII letters and the basic Cyrillic block (U+0400-U+045F).
- Patch objects (`updates` in `updateTemplate` and `updateKnowledgeEntry`) carry only the record's known fields. Arbitrary extra keys are not modelled.
- Logger.LogStore.GetLogs: follows the code as written, so `getLogs(0)` returns the whole list because `slice(-0)` is `slice(0)`.
- Window.PanelWindow.constructor: starts with no engine. src/ui/window.js:22 builds an idle engine, but it is never run before `startPlaybook` replaces it.
- AccountingContent.HeaderIn: states only the shape of a match. The statement that it finds a match iff one exists, and that what it returns is a match, is the separate lemma `AccountingContent.HeaderInSpec`.
- The wizard's filter step (src/ui/window.js:1184) reads `diagnostics` from the `RUNEXIS_SET_FILTERS` reply, but the page script never sends any (src/content/runexis-content.js:31). The model's reply has no such field, and the log line the window would build from it is not modelled.
- The Runexis scenario's description says "page 3, else 2, else 1" (src/playbook/scenarios.js:285). The model follows the wizard, which chooses page 2 when it exists (src/ui/window.js:1214).
- Text.TrimStart: states only that the result has no leading white space and is no longer than the input. That it is the suffix left after white space is `Text.TrimStartDropsSpaces`.
- Text.TrimEnd: states only that the result has no trailing white space and is no longer than the input. That it is the prefix left before white space is `Text.TrimEndDropsSpaces`.
- Text.Trim: states only the length bound. The slice and white-space statement is `Text.TrimSlice`.
- Text.Words: states only that words are non-empty and hold no white space. Which words come out is `Text.WordsOfSpaces` and `Text.WordsOfRun`.
- Lists.Positive: states only that survivors are positive and come from the input. Completeness and order are `Lists.PositiveKeepsAll` and `Lists.PositiveConcat`.
- The wizard sends `RUNEXIS_FIND_TAB`, `RUNEXIS_ACTIVATE_TAB`, `RUNEXIS_OPEN_TAB` and `RUNEXIS_SEND_TO_TAB` (src/ui/window.js:1113-1127, 1346), but src/background/service-worker.js has no case for any of them. The wizard's replies are therefore free parameters, not derived from the worker. `ServiceWorker.UnknownTypeUnanswered` and `Window.WizardWithoutTabHandlers` state what the code as shipped does: the run aborts at step 1.

## Findings

| source | as written | input that shows it | evidently intended | confidence | as-written member | corrected member |
|---|---|---|---|---|---|---|
| src/ui/window.js:356-361 with src/playbook/engine.js:34 | `startPlaybook` seeds `engine.context` with the ticket's `ticketId`, `clientCode`, `lineNumber` and `atcPlan`. It then calls `loadPlaybook`, which resets `context = {}`, so the seed is lost and the `{clientCode}` tokens of the scenarios stay literal | any ticket with a client code, started on the ATC_CONNECT scenario | the loaded engine starts with the seeded context | not executed | Window.PanelWindow.StartPlaybook (with Window.SeedNeverEmpty) | Window.PanelWindow.StartPlaybookSeeded |

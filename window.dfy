/** The side window's own logic: the ticket record it keeps and merges, the
    correction form, the recorded-scenario mapping, how a scenario is started,
    and the Runexis number-picking wizard. Rendering, toasts and the message
    transport are not modelled; replies arrive as parameters. */
module Window {
  import opened Text
  import opened Values
  import Engine
  import Scenarios
  import RecorderContent
  import AccountingContent
  import TrainingStore
  import PlaybookStore
  import Lists

  // ---------------------------------------------------------------------
  // The ticket record
  // ---------------------------------------------------------------------

  /** The fields of `ticketData` the window reads or writes; None is an
      absent property. */
  datatype Ticket = Ticket(
    ticketId: Option<string>, clientCode: Option<string>, lineNumbers: Option<seq<string>>,
    lineNumber: Option<string>, atcPlan: Option<string>,
    services: Option<seq<AccountingContent.ServiceRow>>, bodyExcerpt: Option<string>)

  /** `{}`. */
  const EMPTY_TICKET := Ticket(None, None, None, None, None, None, None)

  /** The accounting record as it arrives in a state update; a missing
      `lineNumber` is None, and `services`, an array, is truthy when present. */
  datatype AccountingUpdate = AccountingUpdate(
    lineNumber: Option<string>, services: Option<seq<AccountingContent.ServiceRow>>)

  /** `mergeAccountingData(data)` applied to `ticketData`. */
  function MergeAccounting(t: Option<Ticket>, data: AccountingUpdate): (r: Ticket)
    ensures Present(data.lineNumber) ==> r.lineNumber == data.lineNumber
    ensures !Present(data.lineNumber) ==> r.lineNumber == (if t.Some? then t.value.lineNumber else None)
    ensures data.services.Some? ==> r.services == data.services
    ensures data.services.None? ==> r.services == (if t.Some? then t.value.services else None)
    ensures r.lineNumbers.Some?
  {
    var base := if t.Some? then t.value else EMPTY_TICKET;
    var withLine := if Present(data.lineNumber) then base.(lineNumber := data.lineNumber) else base;
    var list := if withLine.lineNumbers.Some? then withLine.lineNumbers.value else [];
    var list' := if Present(data.lineNumber) && data.lineNumber.value !in list
                 then [data.lineNumber.value] + list else list;
    var withList := withLine.(lineNumbers := Some(list'));
    if data.services.Some? then withList.(services := data.services) else withList
  }

  /** The line list after the merge: the new line number in front when it
      was not listed, nothing removed, no duplicate introduced; the fields the
      merge does not name are untouched. */
  lemma MergeAccountingLines(t: Option<Ticket>, data: AccountingUpdate)
    ensures var before := if t.Some? && t.value.lineNumbers.Some? then t.value.lineNumbers.value else [];
      var after := MergeAccounting(t, data).lineNumbers.value;
      (Present(data.lineNumber) && data.lineNumber.value !in before ==>
        after == [data.lineNumber.value] + before)
      && (!(Present(data.lineNumber) && data.lineNumber.value !in before) ==> after == before)
      && (NoDup(before) ==> NoDup(after))
      && (Present(data.lineNumber) ==> data.lineNumber.value in after)
  {
  }

  /** Fields other than the line number, the list and the services are kept. */
  lemma MergeKeepsOtherFields(t: Ticket, data: AccountingUpdate)
    ensures var r := MergeAccounting(Some(t), data);
      r.ticketId == t.ticketId && r.clientCode == t.clientCode
      && r.atcPlan == t.atcPlan && r.bodyExcerpt == t.bodyExcerpt
  {
  }

  /** Merging the same update twice changes nothing more. */
  lemma MergeIdempotent(t: Option<Ticket>, data: AccountingUpdate)
    ensures MergeAccounting(Some(MergeAccounting(t, data)), data) == MergeAccounting(t, data)
  {
  }

  /** The correction form: client code and line number trimmed, the plan as typed. */
  datatype Fixes = Fixes(clientCode: string, lineNumber: string, atcPlan: string)

  function ReadFixes(clientCode: string, lineNumber: string, atcPlan: string): (f: Fixes)
    ensures f.clientCode == Trim(clientCode) && f.lineNumber == Trim(lineNumber) && f.atcPlan == atcPlan
    ensures |f.clientCode| <= |clientCode| && |f.lineNumber| <= |lineNumber|
  {
    Fixes(Trim(clientCode), Trim(lineNumber), atcPlan)
  }

  /** The record after "apply fix": a non-empty correction replaces the field,
      an empty one leaves it; a line number replaces the whole list. */
  function ApplyFixes(t: Ticket, f: Fixes): (r: Ticket)
    ensures f.clientCode != "" ==> r.clientCode == Some(f.clientCode)
    ensures f.clientCode == "" ==> r.clientCode == t.clientCode
    ensures f.lineNumber != "" ==> r.lineNumbers == Some([f.lineNumber])
    ensures f.lineNumber == "" ==> r.lineNumbers == t.lineNumbers
    ensures f.atcPlan != "" ==> r.atcPlan == Some(f.atcPlan)
    ensures f.atcPlan == "" ==> r.atcPlan == t.atcPlan
    ensures r.ticketId == t.ticketId && r.lineNumber == t.lineNumber
    ensures r.services == t.services && r.bodyExcerpt == t.bodyExcerpt
  {
    var c := if f.clientCode != "" then t.(clientCode := Some(f.clientCode)) else t;
    var l := if f.lineNumber != "" then c.(lineNumbers := Some([f.lineNumber])) else c;
    if f.atcPlan != "" then l.(atcPlan := Some(f.atcPlan)) else l
  }

  /** Applying the same corrections again changes nothing. */
  lemma ApplyFixesIdempotent(t: Ticket, f: Fixes)
    ensures ApplyFixes(ApplyFixes(t, f), f) == ApplyFixes(t, f)
  {
  }

  /** The training example recorded for a correction; `json` is
      `JSON.stringify(fixes)`. */
  function CorrectionExample(t: Ticket, f: Fixes, json: string): (e: TrainingStore.ExampleInput)
    ensures e.chosenCase == "correction" && e.result == "OK" && e.corrections == json
    ensures e.ticketText == OrEmpty(t.bodyExcerpt)
    ensures e.params.Some? && "lineNumber" in e.params.value && e.params.value["lineNumber"] == Str(f.lineNumber)
    ensures e.params == Some(map["clientCode" := Str(f.clientCode), "lineNumber" := Str(f.lineNumber), "atcPlan" := Str(f.atcPlan)])
    ensures e.metadata == Some(map["ticketId" := if t.ticketId.Some? then Str(t.ticketId.value) else Undefined])
  {
    TrainingStore.ExampleInput(
      OrEmpty(t.bodyExcerpt),
      Some(map["ticketId" := if t.ticketId.Some? then Str(t.ticketId.value) else Undefined]),
      "correction",
      Some(map["clientCode" := Str(f.clientCode), "lineNumber" := Str(f.lineNumber), "atcPlan" := Str(f.atcPlan)]),
      "OK",
      json)
  }

  // ---------------------------------------------------------------------
  // Recorded steps become a playbook
  // ---------------------------------------------------------------------

  const RECORDED_NAME := "Записанный сценарий"

  /** One recorded step as a playbook step; `id` is a fresh uuid. The
      selector goes to the top-level `params.selector`, which no dispatch
      reads: the messages carry only `params.extra`, which stays empty. */
  function RecordedToStep(s: RecorderContent.RecordedStep, id: string): (st: Engine.Step)
    ensures st.id == id && st.system == "User" && st.waitForConfirm == Some(true)
    ensures st.description == s.action + ": " + (if s.text != "" then s.text else s.selector)
    ensures st.action == (if s.action == "input" then Engine.Fill else Engine.Click)
    ensures st.params == Engine.NoParams.(value := Some(s.value), selector := Some(s.selector))
    ensures st.params.extra == map[] && st.params.tabId.None? && st.params.urlPattern.None?
  {
    Engine.Step(id, "", s.action + ": " + (if s.text != "" then s.text else s.selector), "User",
      if s.action == "input" then Engine.Fill else Engine.Click,
      Engine.NoParams.(value := Some(s.value), selector := Some(s.selector)),
      Some(true))
  }

  /** A recorded step names no tab and no URL pattern. In Assist mode it is
      only shown (the fill value offered for copying); in Automate mode,
      unless the confirmation is declined, it sends nothing and fails with
      `Вкладка не найдена: undefined`, which drops the engine to Assist. */
  lemma RecordedStepOutcome(s: RecorderContent.RecordedStep, id: string, ctx: Record, i: int, env: Engine.Env)
    ensures var st := RecordedToStep(s, id);
      var e := Engine.StepSpec(Engine.Assist, ctx, i, st, env);
      e.result.status == Engine.AssistShown && e.mode == Engine.Assist && e.context == ctx
      && (st.action == Engine.Fill ==> e.result.data.copyValue == Some(Engine.ResolveTemplate(s.value, ctx)))
    ensures env.confirmer != Some(false) ==>
      var e := Engine.StepSpec(Engine.Automate, ctx, i, RecordedToStep(s, id), env);
      e.result == Engine.StepResult(Engine.Error, Engine.NoData, Some("Вкладка не найдена: undefined"))
      && e.mode == Engine.Assist && e.context == ctx
      && (forall k :: 0 <= k < |e.events| ==> !e.events[k].Sent?)
  {
    var st := RecordedToStep(s, id);
    var g := Engine.AfterGate(Engine.Automate, ctx, i, st, env);
    assert Engine.TargetTab(st.params, env) == ([], None);
    assert Engine.TabNotFound(st.params) == "Вкладка не найдена: " + "undefined";
    assert Engine.Dispatch(st, ctx, env) == ([], Engine.DErr(Engine.TabNotFound(st.params)));
    assert "Вкладка не найдена: " + "undefined" == "Вкладка не найдена: undefined";
    assert Engine.Dispatch(st, ctx, env) == ([], Engine.DErr("Вкладка не найдена: undefined"));
  }

  /** `recordedSteps.map(...)`. */
  function RecordedSteps(steps: seq<RecorderContent.RecordedStep>, ids: seq<string>): (r: seq<Engine.Step>)
    requires |ids| == |steps|
    ensures |r| == |steps|
    ensures forall i :: 0 <= i < |r| ==> r[i] == RecordedToStep(steps[i], ids[i])
  {
    if steps == [] then [] else [RecordedToStep(steps[0], ids[0])] + RecordedSteps(steps[1..], ids[1..])
  }

  /** The draft the save button hands to `savePlaybook`. */
  function RecordedPlaybook(nameInput: string, steps: seq<RecorderContent.RecordedStep>, ids: seq<string>): (d: PlaybookStore.PlaybookDraft)
    requires |ids| == |steps|
    ensures d.name != ""
    ensures Trim(nameInput) != "" ==> d.name == Trim(nameInput)
    ensures d.steps.Some? && |d.steps.value| == |steps|
  {
    var name := if Trim(nameInput) != "" then Trim(nameInput) else RECORDED_NAME;
    PlaybookStore.PlaybookDraft("", name, Some(RecordedSteps(steps, ids)), "")
  }

  /** Every saved step asks for confirmation and is a user step; input
      becomes fill and every other recorded action becomes click. */
  lemma RecordedStepsShape(steps: seq<RecorderContent.RecordedStep>, ids: seq<string>, i: nat)
    requires |ids| == |steps| && i < |steps|
    ensures var st := RecordedSteps(steps, ids)[i];
      st.waitForConfirm == Some(true) && st.system == "User"
      && (st.action == Engine.Fill <==> steps[i].action == "input")
      && (st.action == Engine.Click <==> steps[i].action != "input")
  {
  }

  // ---------------------------------------------------------------------
  // Starting a scenario
  // ---------------------------------------------------------------------

  /** The first listed line number when it is non-empty, else the single
      `lineNumber`, else ''. */
  function SeedLine(t: Ticket): (l: string)
    ensures t.lineNumbers.Some? && t.lineNumbers.value != [] && t.lineNumbers.value[0] != "" ==>
      l == t.lineNumbers.value[0]
    ensures !(t.lineNumbers.Some? && t.lineNumbers.value != [] && t.lineNumbers.value[0] != "") ==>
      l == OrEmpty(t.lineNumber)
  {
    if t.lineNumbers.Some? && t.lineNumbers.value != [] && t.lineNumbers.value[0] != "" then
      t.lineNumbers.value[0]
    else OrEmpty(t.lineNumber)
  }

  /** The context `startPlaybook` builds from the ticket. */
  function SeedContext(t: Ticket): (ctx: Record)
    ensures ctx.Keys == {"ticketId", "clientCode", "lineNumber", "atcPlan"}
    ensures ctx["clientCode"] == Str(OrEmpty(t.clientCode)) && ctx["lineNumber"] == Str(SeedLine(t))
  {
    map["ticketId" := Str(OrEmpty(t.ticketId)), "clientCode" := Str(OrEmpty(t.clientCode)),
        "lineNumber" := Str(SeedLine(t)), "atcPlan" := Str(OrEmpty(t.atcPlan))]
  }

  /** The context the scenario is meant to start with. */
  function IntendedContext(t: Option<Ticket>): (ctx: Record)
    ensures t.Some? ==> ctx == SeedContext(t.value)
    ensures t.None? ==> ctx == map[]
  {
    if t.Some? then SeedContext(t.value) else map[]
  }

  /** A seed always has its four keys, so a run started with an empty
      context has lost it whenever a ticket was open. */
  lemma SeedNeverEmpty(t: Ticket)
    ensures IntendedContext(Some(t)) != map[]
    ensures "clientCode" in IntendedContext(Some(t))
  {
  }

  // ---------------------------------------------------------------------
  // The Runexis wizard: replies and the tab guard
  // ---------------------------------------------------------------------

  const NO_TAB_ERROR := "Нет вкладки Runexis (tabId не задан)"

  /** A reply object; an absent field reads as its falsy default ('' for
      `error`, 0 for `maxPage`, no numbers). */
  datatype Reply = Reply(ok: bool, error: string, tabId: Option<int>, isLoginPage: bool,
                         maxPage: int, numbers: seq<string>)

  /** What the transport hands back: the reply (None for `undefined`, when
      nobody answered), or the text of `chrome.runtime.lastError`. */
  datatype Delivery = Answered(reply: Option<Reply>) | LastError(message: string)

  function Failed(message: string): Reply {
    Reply(false, message, None, false, 0, [])
  }

  /** `sendMsg`: a transport error becomes `{ ok: false, error }`. */
  function Received(d: Delivery): (r: Option<Reply>)
    ensures d.LastError? ==> r == Some(Failed(d.message))
    ensures d.Answered? ==> r == d.reply
  {
    match d
    case Answered(reply) => reply
    case LastError(m) => Some(Failed(m))
  }

  /** A tab id that is set; 0 and null are falsy. */
  predicate TabSet(tab: Option<int>) { tab.Some? && tab.value != 0 }

  predicate IsOk(r: Option<Reply>) { r.Some? && r.value.ok }

  /** `resp?.error || fallback`. */
  function ErrorOr(r: Option<Reply>, fallback: string): (e: string)
    ensures e != "" <== fallback != ""
  {
    if r.Some? && r.value.error != "" then r.value.error else fallback
  }

  /** `sendToRunexisTab`: without a tab id nothing is sent and the answer is
      an error; otherwise the message is relayed through the worker. */
  function SendToRunexisTab(tab: Option<int>, d: Delivery): (r: Option<Reply>)
    ensures !TabSet(tab) ==> r == Some(Failed(NO_TAB_ERROR))
    ensures TabSet(tab) ==> r == Received(d)
  {
    if !TabSet(tab) then Some(Failed(NO_TAB_ERROR)) else Received(d)
  }

  /** An ok answer from the tab needs a tab id and a reply that says ok; a
      transport error is never ok. */
  lemma SendGuard(tab: Option<int>, d: Delivery)
    ensures IsOk(SendToRunexisTab(tab, d)) <==> TabSet(tab) && d.Answered? && IsOk(d.reply)
  {
  }

  // ---------------------------------------------------------------------
  // The Runexis wizard: decisions
  // ---------------------------------------------------------------------

  const MOSCOW := "москва"

  /** The city (already trimmed) is Moscow, in any letter case. */
  predicate IsMoscow(city: string) { Lower(city) == MOSCOW }

  /** The passes: both Moscow codes when Moscow and 'both' are chosen, else
      one pass with the chosen code (null outside Moscow). */
  function Codes(city: string, codeInput: string): (codes: seq<Option<string>>)
    ensures codes == [Some("495"), Some("499")] <==> IsMoscow(city) && codeInput == "both"
    ensures !(IsMoscow(city) && codeInput == "both") ==>
      codes == [if IsMoscow(city) then Some(codeInput) else None]
    ensures 1 <= |codes| <= 2
  {
    var codeChoice := if IsMoscow(city) then Some(codeInput) else None;
    if IsMoscow(city) && codeChoice == Some("both") then [Some("495"), Some("499")] else [codeChoice]
  }

  /** Where the tab step leaves `rxTabId`, whether the login page was
      opened, and the error that aborts the run, if any. */
  datatype TabStep = TabStep(tabId: Option<int>, openedLogin: bool, failure: Option<string>)

  function OpenLogin(tab: Option<int>, open: Delivery): (s: TabStep)
    ensures s.openedLogin
  {
    var r := Received(open);
    if !IsOk(r) then TabStep(tab, true, Some("Не удалось открыть Runexis: " + ErrorOr(r, "неизвестная ошибка")))
    else TabStep(r.value.tabId, true, None)
  }

  /** Step 1: reuse the tab the worker finds when it can be activated,
      otherwise open the login page. */
  function OpenRunexisTab(oldTab: Option<int>, find: Delivery, activate: Delivery, open: Delivery): (s: TabStep)
  {
    var existing := Received(find);
    if IsOk(existing) && TabSet(existing.value.tabId) then
      if IsOk(Received(activate)) then TabStep(existing.value.tabId, false, None)
      else OpenLogin(existing.value.tabId, open)
    else OpenLogin(oldTab, open)
  }

  /** The found tab is reused exactly when it exists and activates; then no
      page is opened and nothing fails. Opening fails exactly when the open
      reply is not ok. */
  lemma TabReuse(oldTab: Option<int>, find: Delivery, activate: Delivery, open: Delivery)
    ensures var s := OpenRunexisTab(oldTab, find, activate, open);
      var existing := Received(find);
      var reused := IsOk(existing) && TabSet(existing.value.tabId) && IsOk(Received(activate));
      (!s.openedLogin <==> reused)
      && (reused ==> s.tabId == existing.value.tabId && s.failure.None?)
      && (s.openedLogin ==> (s.failure.Some? <==> !IsOk(Received(open))))
      && (s.openedLogin && s.failure.None? ==> s.tabId == Received(open).value.tabId)
  {
  }

  /** The replies one pass gets: the pagination probe, the go-to-page
      request and the collection. The filter and apply replies only change
      the step display and are not modelled. */
  datatype PassReplies = PassReplies(pagination: Delivery, goToPage: Delivery, collect: Delivery)

  const NO_PASS := PassReplies(Answered(None), Answered(None), Answered(None))

  /** The page a pass reads and the numbers it adds. */
  datatype PassResult = PassResult(page: int, numbers: seq<string>)

  /** Step 6: page 2 when the probe is ok and reports at least two pages. */
  function TargetPage(pag: Option<Reply>): (p: int)
    ensures p == 2 <==> IsOk(pag) && pag.value.maxPage >= 2
    ensures p == 1 || p == 2
  {
    if IsOk(pag) && pag.value.maxPage >= 2 then 2 else 1
  }

  /** One pass: choose the page, fall back to page 1 when going there
      fails, and keep the collected numbers only from an ok, non-empty reply. */
  function RunPass(tab: Option<int>, p: PassReplies): (r: PassResult)
  {
    var target := TargetPage(SendToRunexisTab(tab, p.pagination));
    var page := if target > 1 && !IsOk(SendToRunexisTab(tab, p.goToPage)) then 1 else target;
    var collect := SendToRunexisTab(tab, p.collect);
    PassResult(page, if IsOk(collect) && |collect.value.numbers| > 0 then collect.value.numbers else [])
  }

  /** A pass reads page 2 exactly when the probe allows it and the move
      succeeds, never a page above 2; it adds numbers only from an ok reply. */
  lemma PassRules(tab: Option<int>, p: PassReplies)
    ensures var r := RunPass(tab, p);
      var pag := SendToRunexisTab(tab, p.pagination);
      (r.page == 1 || r.page == 2)
      && (r.page == 2 <==> IsOk(pag) && pag.value.maxPage >= 2 && IsOk(SendToRunexisTab(tab, p.goToPage)))
      && (r.numbers != [] ==>
            IsOk(SendToRunexisTab(tab, p.collect)) && r.numbers == SendToRunexisTab(tab, p.collect).value.numbers)
      && (!IsOk(SendToRunexisTab(tab, p.collect)) ==> r.numbers == [])
  {
  }

  /** All replies of one run. `cancelAt` is the check at which the cancel
      button is seen (0: after the login check; p + 1: before pass p). */
  datatype WizardReplies = WizardReplies(
    find: Delivery, activate: Delivery, open: Delivery, auth: Delivery, navigate: Delivery,
    cancelAt: Option<nat>, passes: seq<PassReplies>, copy: Delivery)

  function PassAt(env: WizardReplies, i: nat): PassReplies {
    if i < |env.passes| then env.passes[i] else NO_PASS
  }

  /** The run has been cancelled by check k. */
  predicate CancelledBy(env: WizardReplies, k: nat) {
    env.cancelAt.Some? && env.cancelAt.value <= k
  }

  /** `allNumbers` after the first n passes. */
  function Gathered(tab: Option<int>, env: WizardReplies, n: nat): seq<string> {
    if n == 0 then [] else Gathered(tab, env, n - 1) + RunPass(tab, PassAt(env, n - 1)).numbers
  }

  /** The page each of the first n passes read. */
  function PagesRead(tab: Option<int>, env: WizardReplies, n: nat): (ps: seq<int>)
    ensures |ps| == n
  {
    if n == 0 then [] else PagesRead(tab, env, n - 1) + [RunPass(tab, PassAt(env, n - 1)).page]
  }

  datatype Outcome = NeedCity | Aborted(message: string) | Cancelled | NoNumbers | Picked(numbers: seq<string>, copied: bool)

  datatype LogLine = LogLine(system: string, action: string, ok: bool)

  /** What a run leaves behind: the outcome, `rxTabId`, whether the login
      page was opened, the pages read, the stored list, the text sent to the
      clipboard and the log lines. */
  datatype WizardRun = WizardRun(outcome: Outcome, tabId: Option<int>, openedLogin: bool, pages: seq<int>,
                                 stored: Option<seq<string>>, copyText: Option<string>, logs: seq<LogLine>)

  function StartLog(city: string, numberType: string, codeInput: string): LogLine {
    LogLine("Runexis", "Запуск: " + city + ", " + numberType
      + (if IsMoscow(city) then ", код: " + codeInput else ""), true)
  }

  function Abort(t: TabStep, start: LogLine, message: string): WizardRun {
    WizardRun(Aborted(message), t.tabId, t.openedLogin, [], None, None,
      [start, LogLine("Runexis", "Ошибка: " + message, false)])
  }

  const AUTH_DEFAULT := "content script Runexis не ответил. Проверьте разрешения расширения."

  /** The end of a run whose passes all ran. */
  function Finish(city: string, t: TabStep, env: WizardReplies, gathered: seq<string>, pages: seq<int>,
                  start: LogLine): WizardRun {
    var all := Dedup(gathered);
    if all == [] then WizardRun(NoNumbers, t.tabId, t.openedLogin, pages, None, None, [start])
    else
      WizardRun(Picked(all, IsOk(SendToRunexisTab(t.tabId, env.copy))), t.tabId, t.openedLogin, pages,
        Some(all), Some(Join(all, "\n")),
        [start, LogLine("Runexis", "Подобрано " + NatToString(|all|) + " номеров для " + city, true)])
  }

  /** Steps 2 to 7 once the tab is there. */
  function AfterTab(city: string, codeInput: string, t: TabStep, env: WizardReplies, start: LogLine): WizardRun
    requires t.failure.None?
  {
    var auth := SendToRunexisTab(t.tabId, env.auth);
    if !IsOk(auth) then Abort(t, start, "Ошибка авторизации: " + ErrorOr(auth, AUTH_DEFAULT))
    else if CancelledBy(env, 0) then WizardRun(Cancelled, t.tabId, t.openedLogin, [], None, None, [start])
    else
      var nav := Received(env.navigate);
      if !IsOk(nav) then Abort(t, start, "Ошибка навигации: " + ErrorOr(nav, "unknown"))
      else
        var n := |Codes(city, codeInput)|;
        if CancelledBy(env, n) then WizardRun(Cancelled, t.tabId, t.openedLogin, [], None, None, [start])
        else Finish(city, t, env, Gathered(t.tabId, env, n), PagesRead(t.tabId, env, n), start)
  }

  /** `runRunexisWizard` from the form's city, number type and code. */
  function Wizard(cityInput: string, numberType: string, codeInput: string, oldTab: Option<int>,
                  env: WizardReplies): WizardRun
  {
    var city := Trim(cityInput);
    if city == "" then WizardRun(NeedCity, oldTab, false, [], None, None, [])
    else
      var start := StartLog(city, numberType, codeInput);
      var t := OpenRunexisTab(oldTab, env.find, env.activate, env.open);
      if t.failure.Some? then Abort(t, start, t.failure.value)
      else AfterTab(city, codeInput, t, env, start)
  }

  /** An empty city starts nothing: no tab, no log, `rxTabId` unchanged. */
  lemma EmptyCityStartsNothing(cityInput: string, numberType: string, codeInput: string,
                               oldTab: Option<int>, env: WizardReplies)
    requires Trim(cityInput) == ""
    ensures var run := Wizard(cityInput, numberType, codeInput, oldTab, env);
      run.outcome == NeedCity && run.tabId == oldTab && !run.openedLogin && run.logs == []
  {
  }

  /** The transport's answer when no listener replies: `undefined`, or the
      error that the message port closed. */
  predicate Unanswered(d: Delivery) { d.LastError? || d == Answered(None) }

  /** With nobody answering the find and open requests, a run with a city
      aborts at step 1: it logs the open error, keeps the old tab id and
      stores nothing. */
  lemma WizardWithoutTabHandlers(cityInput: string, numberType: string, codeInput: string,
                                 oldTab: Option<int>, env: WizardReplies)
    requires Trim(cityInput) != ""
    requires Unanswered(env.find) && Unanswered(env.open)
    ensures var run := Wizard(cityInput, numberType, codeInput, oldTab, env);
      run.outcome == Aborted("Не удалось открыть Runexis: " + ErrorOr(Received(env.open), "неизвестная ошибка"))
      && run.tabId == oldTab && run.openedLogin && run.pages == [] && run.stored.None?
      && |run.logs| == 2 && !run.logs[1].ok
  {
  }

  /** What a run ends in, from the login check on. */
  predicate EndsWell(run: WizardRun) {
    (run.outcome == NoNumbers ==>
      run.stored.None? && run.copyText.None? && forall l :: l in run.logs ==> l.ok)
    && (run.outcome.Picked? ==>
      run.stored == Some(run.outcome.numbers) && run.copyText == Some(Join(run.outcome.numbers, "\n"))
      && run.outcome.numbers != [] && NoDup(run.outcome.numbers))
    && (run.outcome.Aborted? ==>
      run.stored.None? && run.copyText.None? && |run.logs| == 2 && !run.logs[1].ok)
    && (run.outcome.Cancelled? ==> run.stored.None? && run.copyText.None?)
  }

  /** The end of a completed run, for any gathered list. */
  lemma FinishShape(city: string, t: TabStep, env: WizardReplies, gathered: seq<string>, pages: seq<int>,
                    start: LogLine)
    requires start.ok
    ensures EndsWell(Finish(city, t, env, gathered, pages, start))
  {
    DedupNoDup(gathered);
  }

  lemma AbortShape(t: TabStep, start: LogLine, message: string)
    ensures EndsWell(Abort(t, start, message))
  {
  }

  lemma AfterTabEnds(city: string, codeInput: string, t: TabStep, env: WizardReplies, start: LogLine)
    requires t.failure.None? && start.ok
    ensures EndsWell(AfterTab(city, codeInput, t, env, start))
  {
    var auth := SendToRunexisTab(t.tabId, env.auth);
    AbortShape(t, start, "Ошибка авторизации: " + ErrorOr(auth, AUTH_DEFAULT));
    AbortShape(t, start, "Ошибка навигации: " + ErrorOr(Received(env.navigate), "unknown"));
    var n := |Codes(city, codeInput)|;
    FinishShape(city, t, env, Gathered(t.tabId, env, n), PagesRead(t.tabId, env, n), start);
  }

  /** How a run ends. With no numbers nothing is stored or copied and no
      error is logged; with numbers, the distinct list is stored and its
      newline join copied; an abort logs one error and stores nothing. */
  lemma WizardEnds(cityInput: string, numberType: string, codeInput: string,
                   oldTab: Option<int>, env: WizardReplies)
    ensures EndsWell(Wizard(cityInput, numberType, codeInput, oldTab, env))
  {
    var city := Trim(cityInput);
    if city != "" {
      var start := StartLog(city, numberType, codeInput);
      var t := OpenRunexisTab(oldTab, env.find, env.activate, env.open);
      if t.failure.None? {
        AfterTabEnds(city, codeInput, t, env, start);
      } else {
        AbortShape(t, start, t.failure.value);
      }
    }
  }

  /** A run that gets past the tab, the login check and the navigation and
      is not cancelled reads one page per pass, each page 1 or 2, and picks
      exactly the distinct numbers the passes gathered. */
  lemma WizardCollects(cityInput: string, numberType: string, codeInput: string,
                       oldTab: Option<int>, env: WizardReplies)
    ensures var run := Wizard(cityInput, numberType, codeInput, oldTab, env);
      var t := OpenRunexisTab(oldTab, env.find, env.activate, env.open);
      var n := |Codes(Trim(cityInput), codeInput)|;
      (run.outcome.Picked? || run.outcome.NoNumbers?) ==>
        run.pages == PagesRead(t.tabId, env, n)
        && (forall i :: 0 <= i < |run.pages| ==> run.pages[i] == 1 || run.pages[i] == 2)
        && (run.outcome.Picked? ==> run.outcome.numbers == Dedup(Gathered(t.tabId, env, n)))
  {
    var run := Wizard(cityInput, numberType, codeInput, oldTab, env);
    var t := OpenRunexisTab(oldTab, env.find, env.activate, env.open);
    var n := |Codes(Trim(cityInput), codeInput)|;
    if run.outcome.Picked? || run.outcome.NoNumbers? {
      var city := Trim(cityInput);
      AfterTabCollects(city, codeInput, t, env, StartLog(city, numberType, codeInput));
      PagesAreOneOrTwo(t.tabId, env, n);
    }
  }

  /** Past the tab, a run that picks numbers or finds none has read the
      pages of every pass and picks the distinct numbers they gathered. */
  lemma AfterTabCollects(city: string, codeInput: string, t: TabStep, env: WizardReplies, start: LogLine)
    requires t.failure.None?
    ensures var run := AfterTab(city, codeInput, t, env, start);
      var n := |Codes(city, codeInput)|;
      (run.outcome.Picked? || run.outcome.NoNumbers?) ==>
        run.pages == PagesRead(t.tabId, env, n)
        && (run.outcome.Picked? ==> run.outcome.numbers == Dedup(Gathered(t.tabId, env, n)))
  {
    var run := AfterTab(city, codeInput, t, env, start);
    var n := |Codes(city, codeInput)|;
    if IsOk(SendToRunexisTab(t.tabId, env.auth)) && !CancelledBy(env, 0) && IsOk(Received(env.navigate))
       && !CancelledBy(env, n) {
      var gathered, pages := Gathered(t.tabId, env, n), PagesRead(t.tabId, env, n);
      assert run == Finish(city, t, env, gathered, pages, start);
      FinishCollects(city, t, env, gathered, pages, start);
    } else {
      assert run.outcome.Aborted? || run.outcome.Cancelled?;
    }
  }

  /** The finishing step keeps the pages it is given and picks the distinct
      gathered numbers, or reports that there are none. */
  lemma FinishCollects(city: string, t: TabStep, env: WizardReplies, gathered: seq<string>, pages: seq<int>,
                       start: LogLine)
    ensures var r := Finish(city, t, env, gathered, pages, start);
      (r.outcome.Picked? || r.outcome.NoNumbers?) && r.pages == pages
      && (r.outcome.Picked? ==> r.outcome.numbers == Dedup(gathered))
  {
  }

  lemma {:induction false} PagesAreOneOrTwo(tab: Option<int>, env: WizardReplies, n: nat)
    ensures forall i :: 0 <= i < n ==> PagesRead(tab, env, n)[i] == 1 || PagesRead(tab, env, n)[i] == 2
  {
    if n > 0 {
      PagesAreOneOrTwo(tab, env, n - 1);
      PassRules(tab, PassAt(env, n - 1));
    }
  }

  /** Which failures abort the run: the tab cannot be opened, the login
      check does not answer ok, or the navigation fails. */
  lemma WizardAborts(cityInput: string, numberType: string, codeInput: string,
                     oldTab: Option<int>, env: WizardReplies)
    requires Trim(cityInput) != ""
    ensures var run := Wizard(cityInput, numberType, codeInput, oldTab, env);
      var t := OpenRunexisTab(oldTab, env.find, env.activate, env.open);
      run.outcome.Aborted? <==>
        t.failure.Some?
        || !IsOk(SendToRunexisTab(t.tabId, env.auth))
        || (!CancelledBy(env, 0) && !IsOk(Received(env.navigate)))
  {
  }

  // ---------------------------------------------------------------------
  // The window's state
  // ---------------------------------------------------------------------

  class PanelWindow {
    var currentMode: Engine.Mode
    var ticketData: Option<Ticket>
    var recordedSteps: seq<RecorderContent.RecordedStep>
    var engine: Engine.PlaybookEngine?
    var wizardShown: bool
    var rxTabId: Option<int>
    var rxRunning: bool

    constructor ()
      ensures currentMode == Engine.Assist && ticketData == None && recordedSteps == []
      ensures engine == null && !wizardShown && rxTabId == None && !rxRunning
    {
      currentMode := Engine.Assist;
      ticketData := None;
      recordedSteps := [];
      engine := null;
      wizardShown := false;
      rxTabId := None;
      rxRunning := false;
    }

    /** `mergeAccountingData`. */
    method MergeAccountingData(data: AccountingUpdate)
      modifies this`ticketData
      ensures ticketData == Some(MergeAccounting(old(ticketData), data))
    {
      var t := if ticketData.Some? then ticketData.value else EMPTY_TICKET;
      if Present(data.lineNumber) {
        t := t.(lineNumber := data.lineNumber);
      }
      if t.lineNumbers.None? {
        t := t.(lineNumbers := Some([]));
      }
      if Present(data.lineNumber) && data.lineNumber.value !in t.lineNumbers.value {
        t := t.(lineNumbers := Some([data.lineNumber.value] + t.lineNumbers.value));
      }
      if data.services.Some? {
        t := t.(services := data.services);
      }
      ticketData := Some(t);
    }

    /** The "apply fix" button: with a ticket open, the corrections are
      applied and a training example is produced; without one nothing
      changes. */
    method ApplyFix(clientCode: string, lineNumber: string, atcPlan: string, json: string)
      returns (example: Option<TrainingStore.ExampleInput>)
      modifies this`ticketData
      ensures old(ticketData).None? ==> ticketData == None && example == None
      ensures old(ticketData).Some? ==>
        var f := ReadFixes(clientCode, lineNumber, atcPlan);
        ticketData == Some(ApplyFixes(old(ticketData).value, f))
        && example == Some(CorrectionExample(ApplyFixes(old(ticketData).value, f), f, json))
    {
      var f := ReadFixes(clientCode, lineNumber, atcPlan);
      if ticketData.None? {
        return None;
      }
      var t := ApplyFixes(ticketData.value, f);
      ticketData := Some(t);
      example := Some(CorrectionExample(t, f, json));
    }

    /** The save button: the recorded steps become a playbook in `library`
      and the recording is cleared. */
    method SaveRecording(library: PlaybookStore.PlaybookLibrary, nameInput: string,
                         ids: seq<string>, freshId: string, now: string)
      returns (record: PlaybookStore.SavedPlaybook)
      requires |ids| == |recordedSteps|
      modifies this`recordedSteps, library
      ensures record == PlaybookStore.SaveRecord(RecordedPlaybook(nameInput, old(recordedSteps), ids), freshId, now)
      ensures library.playbooks == Lists.Upsert(old(library.playbooks), PlaybookStore.PlaybookId, record)
      ensures recordedSteps == []
    {
      var draft := RecordedPlaybook(nameInput, recordedSteps, ids);
      record := library.SavePlaybook(draft, freshId, now);
      recordedSteps := [];
    }

    /** `startPlaybook` as written: the Runexis scenario opens the wizard;
      any other gets a fresh engine in the current mode, the ticket seed is
      written into its context, and `loadPlaybook` then empties the context. */
    method StartPlaybook(scenario: Engine.Playbook)
      modifies this
      ensures scenario.id == Scenarios.RUNEXIS_ID ==>
        wizardShown && !rxRunning && engine == old(engine) && ticketData == old(ticketData)
      ensures scenario.id != Scenarios.RUNEXIS_ID ==>
        engine != null && fresh(engine) && engine.playbook == Some(scenario)
        && engine.mode == currentMode && engine.index == -1
        && engine.context == map[]
        && wizardShown == old(wizardShown) && rxRunning == old(rxRunning)
      ensures currentMode == old(currentMode) && ticketData == old(ticketData)
      ensures recordedSteps == old(recordedSteps) && rxTabId == old(rxTabId)
    {
      if scenario.id == Scenarios.RUNEXIS_ID {
        wizardShown := true;
        rxRunning := false;
        return;
      }
      var e := new Engine.PlaybookEngine();
      e.SetMode(currentMode);
      if ticketData.Some? {
        e.context := SeedContext(ticketData.value);
      }
      e.LoadPlaybook(scenario);
      engine := e;
    }

    /** `startPlaybook` with the seed written after the playbook is loaded,
      so that the first step sees the ticket's data. */
    method StartPlaybookSeeded(scenario: Engine.Playbook)
      modifies this
      ensures scenario.id == Scenarios.RUNEXIS_ID ==>
        wizardShown && !rxRunning && engine == old(engine) && ticketData == old(ticketData)
      ensures scenario.id != Scenarios.RUNEXIS_ID ==>
        engine != null && fresh(engine) && engine.playbook == Some(scenario)
        && engine.mode == currentMode && engine.index == -1
        && engine.context == IntendedContext(ticketData)
        && wizardShown == old(wizardShown) && rxRunning == old(rxRunning)
      ensures currentMode == old(currentMode) && ticketData == old(ticketData)
      ensures recordedSteps == old(recordedSteps) && rxTabId == old(rxTabId)
    {
      if scenario.id == Scenarios.RUNEXIS_ID {
        wizardShown := true;
        rxRunning := false;
        return;
      }
      var e := new Engine.PlaybookEngine();
      e.SetMode(currentMode);
      e.LoadPlaybook(scenario);
      e.context := IntendedContext(ticketData);
      engine := e;
    }
    /** Step 1 of the wizard: find and activate the Runexis tab, or open the
      login page; `rxTabId` follows each answer. */
    method OpenTab(env: WizardReplies) returns (t: TabStep)
      modifies this`rxTabId
      ensures t == OpenRunexisTab(old(rxTabId), env.find, env.activate, env.open)
      ensures rxTabId == t.tabId
    {
      var loginOpened := false;
      var failure: Option<string> := None;
      var existing := Received(env.find);
      if IsOk(existing) && TabSet(existing.value.tabId) {
        rxTabId := existing.value.tabId;
        var act := Received(env.activate);
        if !IsOk(act) {
          loginOpened := true;
          var resp := Received(env.open);
          if !IsOk(resp) {
            failure := Some("Не удалось открыть Runexis: " + ErrorOr(resp, "неизвестная ошибка"));
          } else {
            rxTabId := resp.value.tabId;
          }
        }
      } else {
        loginOpened := true;
        var resp := Received(env.open);
        if !IsOk(resp) {
          failure := Some("Не удалось открыть Runexis: " + ErrorOr(resp, "неизвестная ошибка"));
        } else {
          rxTabId := resp.value.tabId;
        }
      }
      t := TabStep(rxTabId, loginOpened, failure);
    }

    /** `runRunexisWizard`. The cancel button is seen only through
      `env.cancelAt`; `rxRunning` is false once a started run ends, however
      it ends. */
    method RunRunexisWizard(cityInput: string, numberType: string, codeInput: string, env: WizardReplies)
      returns (run: WizardRun)
      modifies this`rxTabId, this`rxRunning
      ensures run == Wizard(cityInput, numberType, codeInput, old(rxTabId), env)
      ensures rxTabId == run.tabId
      ensures run.outcome == NeedCity ==> rxRunning == old(rxRunning)
      ensures run.outcome != NeedCity ==> !rxRunning
    {
      var city := Trim(cityInput);
      if city == "" {
        return WizardRun(NeedCity, rxTabId, false, [], None, None, []);
      }
      rxRunning := true;
      var start := StartLog(city, numberType, codeInput);
      var t := OpenTab(env);
      if t.failure.Some? {
        rxRunning := false;
        return Abort(t, start, t.failure.value);
      }
      run := RunFromTab(city, codeInput, t, env, start);
      rxRunning := false;
    }

    /** Steps 2 to 7 of the wizard, with the tab in place. */
    method RunFromTab(city: string, codeInput: string, t: TabStep, env: WizardReplies, start: LogLine)
      returns (run: WizardRun)
      requires t.failure.None? && rxTabId == t.tabId
      ensures run == AfterTab(city, codeInput, t, env, start)
    {
      // Step 2: the login check; a login page waits for the operator.
      var auth := SendToRunexisTab(rxTabId, env.auth);
      if !IsOk(auth) {
        return Abort(t, start, "Ошибка авторизации: " + ErrorOr(auth, AUTH_DEFAULT));
      }
      if CancelledBy(env, 0) {
        return WizardRun(Cancelled, rxTabId, t.openedLogin, [], None, None, [start]);
      }

      // Step 3: the numbers page.
      var nav := Received(env.navigate);
      if !IsOk(nav) {
        return Abort(t, start, "Ошибка навигации: " + ErrorOr(nav, "unknown"));
      }

      // Steps 4 to 7, once per code.
      var codes := Codes(city, codeInput);
      var allNumbers: seq<string> := [];
      var pages: seq<int> := [];
      for p := 0 to |codes|
        invariant allNumbers == Gathered(rxTabId, env, p)
        invariant pages == PagesRead(rxTabId, env, p)
        invariant !CancelledBy(env, p)
      {
        if CancelledBy(env, p + 1) {
          assert CancelledBy(env, |codes|);
          return WizardRun(Cancelled, rxTabId, t.openedLogin, [], None, None, [start]);
        }
        var replies := PassAt(env, p);
        var targetPage := 1;
        var pagInfo := SendToRunexisTab(rxTabId, replies.pagination);
        if IsOk(pagInfo) && pagInfo.value.maxPage >= 2 {
          targetPage := 2;
        }
        if targetPage > 1 {
          var goResp := SendToRunexisTab(rxTabId, replies.goToPage);
          if !IsOk(goResp) {
            targetPage := 1;
          }
        }
        pages := pages + [targetPage];
        var collectResp := SendToRunexisTab(rxTabId, replies.collect);
        if IsOk(collectResp) && |collectResp.value.numbers| > 0 {
          allNumbers := allNumbers + collectResp.value.numbers;
        }
      }

      // Distinct numbers, then store and copy.
      var distinct := Dedup(allNumbers);
      if distinct == [] {
        return WizardRun(NoNumbers, rxTabId, t.openedLogin, pages, None, None, [start]);
      }
      var copied := IsOk(SendToRunexisTab(rxTabId, env.copy));
      run := WizardRun(Picked(distinct, copied), rxTabId, t.openedLogin, pages, Some(distinct),
        Some(Join(distinct, "\n")),
        [start, LogLine("Runexis", "Подобрано " + NatToString(|distinct|) + " номеров для " + city, true)]);
    }
  }
}

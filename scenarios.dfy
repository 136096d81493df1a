/** The built-in scenarios: the programs the playbook engine interprets. */
module Scenarios {
  import opened Text
  import opened Values
  import opened Engine

  function ParseStep(id: string, description: string, system: string, msg: string, pattern: string): Step {
    Step(id, "auto", description, system, Parse,
      NoParams.(parseMessage := Some(msg), urlPattern := Some(pattern)), Some(false))
  }

  function NavigateStep(id: string, description: string, system: string, url: string): Step {
    Step(id, "step", description, system, Navigate,
      NoParams.(url := Some(url), activate := Some(true)), Some(true))
  }

  function CustomStep(id: string, kind: string, description: string, system: string,
                      instruction: string, confirm: bool): Step {
    Step(id, kind, description, system, Custom, NoParams.(instruction := Some(instruction)), Some(confirm))
  }

  /** The scenario urls; the long ones are written in two pieces so that the
      verifier can check each piece for braces character by character. */
  const ACCOUNTING_URL_PREFIX := "http://intra10.office.tlpn/admin/" + "customer_show.php?otrs_customer="
  const SUPPORT_SCRIPT_URL := "http://intra10.office.tlpn/support/" + "support_script/index.php?id=atc_teleo"
  const RINGME_URL_PREFIX := "https://ringmeadmin.tlpn/clients/?q="
  const TELEO_STAFF_URL := "https://teleo.telphin.ru/staff/"
  const TELEO_ROUTING_URL := "https://teleo.telphin.ru/routing_new/"
  const FREETEXT_URL_PREFIX := "http://otrs.tlpn/otrs/index.pl?" + "Action=AgentTicketFreeText;TicketID="
  const RUNEXIS_LOGIN_URL := "https://did-trunk.runexis.ru" + "/site/login"
  const RUNEXIS_NUMBERS_URL := "https://did-trunk.runexis.ru/numbers"

  // Подключение АТС
  const PARSE_OTRS := ParseStep("parse_otrs", "Извлечь данные из тикета OTRS", "OTRS", "PARSE_OTRS", "otrs.tlpn")
  const OPEN_ACCOUNTING := NavigateStep("open_accounting", "Открыть Accounting по коду клиента", "Accounting",
    ACCOUNTING_URL_PREFIX + "{clientCode}")
  const PARSE_ACCOUNTING := ParseStep("parse_accounting", "Извлечь номер линии и услуги из Accounting", "Accounting",
    "PARSE_ACCOUNTING", "intra10.office.tlpn/admin")
  const SHOW_SERVICES := Step("show_services", "checkpoint", "Проверить данные: номер линии и список услуг",
    "Accounting", Extract,
    NoParams.(parseMessage := Some("PARSE_ACCOUNTING"), urlPattern := Some("intra10.office.tlpn/admin")), Some(true))
  const OPEN_SUPPORT_SCRIPT := NavigateStep("open_support_script", "Открыть Support Script (АТС Teleo)",
    "Support Script", SUPPORT_SCRIPT_URL)
  const FILL_LINE_NUMBER := Step("fill_line_number", "step", "Вставить номер линии в Support Script",
    "Support Script", Fill,
    NoParams.(fillMessage := Some("SUPPORT_SET_LINE"), urlPattern := Some("intra10.office.tlpn/support"),
              value := Some("{lineNumber}")), Some(true))
  const CLICK_CREATE_ATC := Step("click_create_atc", "step", "Нажать \"Создать АТС\"", "Support Script", Click,
    NoParams.(clickMessage := Some("SUPPORT_CLICK_CREATE_ATC"), urlPattern := Some("intra10.office.tlpn/support")),
    Some(true))
  const OPEN_RINGME := NavigateStep("open_ringme", "Открыть Ringme — поиск по коду клиента", "Ringme",
    RINGME_URL_PREFIX + "{clientCode}")
  const PARSE_RINGME := ParseStep("parse_ringme", "Найти ссылку на Teleo в Ringme", "Ringme", "PARSE_RINGME",
    "ringmeadmin.tlpn")
  const OPEN_TELEO_STAFF := NavigateStep("open_teleo_staff", "Открыть Teleo — раздел Сотрудники", "Teleo",
    TELEO_STAFF_URL)
  const OPEN_TELEO_ROUTING := NavigateStep("open_teleo_routing", "Открыть Teleo — раздел Маршрутизация", "Teleo",
    TELEO_ROUTING_URL)

  const ATC_CONNECT := Playbook("builtin_atc_connect", "Подключение АТС", true, None,
    [PARSE_OTRS, OPEN_ACCOUNTING, PARSE_ACCOUNTING, SHOW_SERVICES, OPEN_SUPPORT_SCRIPT, FILL_LINE_NUMBER,
     CLICK_CREATE_ATC, OPEN_RINGME, PARSE_RINGME, OPEN_TELEO_STAFF, OPEN_TELEO_ROUTING])

  // Отложить на 14 дней
  const PARSE_TICKET := ParseStep("parse_ticket", "Извлечь TicketID из текущего тикета", "OTRS", "PARSE_OTRS", "otrs.tlpn")
  const MOVE_QUEUE := Step("move_queue", "step", "Переместить тикет в очередь 14day", "OTRS", Click,
    NoParams.(clickMessage := Some("OTRS_MOVE_QUEUE"), urlPattern := Some("otrs.tlpn"),
              extra := map["queue" := Str("14day")]), Some(true))
  const OPEN_FREETEXT := NavigateStep("open_freetext", "Открыть форму \"Свободные поля\" (AgentTicketFreeText)", "OTRS",
    FREETEXT_URL_PREFIX + "{ticketId}")
  const SET_PENDING_STATE := CustomStep("set_pending_state", "step",
    "Установить состояние \"ожидает напоминания\" и дату +14 дней", "OTRS",
    "Выставить: Следующее состояние = \"ожидает напоминания\", Дата = сегодня + 14 дней. Нажать \"Отправить\".", true)

  const POSTPONE_14 := Playbook("builtin_postpone_14", "Отложить на 14 дней", true, None,
    [PARSE_TICKET, MOVE_QUEUE, OPEN_FREETEXT, SET_PENDING_STATE])

  // Runexis — подобрать номера
  const OPEN_LOGIN := NavigateStep("open_login", "Открыть Runexis (логин)", "Runexis", RUNEXIS_LOGIN_URL)
  const CHECK_AUTH := CustomStep("check_auth", "auto", "Проверить авторизацию", "Runexis",
    "Если страница логина — дождаться автозаполнения, нажать \"Войти\". Если требуется ручной вход — пауза.", false)
  const OPEN_NUMBERS := NavigateStep("open_numbers", "Открыть страницу номеров", "Runexis", RUNEXIS_NUMBERS_URL)
  const SET_FILTERS := CustomStep("set_filters", "auto", "Заполнить фильтры (город, тип, код)", "Runexis",
    "Заполнить поля: Город, Тип = Простой, Код (если Москва).", false)
  const APPLY_FILTERS := CustomStep("apply_filters", "step", "Нажать \"Применить\"", "Runexis",
    "Нажать кнопку \"Применить\" для поиска номеров.", true)
  const NAVIGATE_PAGE := CustomStep("navigate_page", "auto", "Перейти на нужную страницу (3, 2 или 1)", "Runexis",
    "Перейти на страницу 3 (если есть), иначе 2, иначе 1.", false)
  const COLLECT_NUMBERS := CustomStep("collect_numbers", "auto", "Собрать номера со страницы", "Runexis",
    "Извлечь все номера, нормализовать до 11 цифр (7 спереди), сформировать список.", false)
  const COPY_RESULT := CustomStep("copy_result", "checkpoint",
    "Скопировать результат в буфер + показать кнопку \"Вставить в OTRS\"", "Runexis",
    "Результат скопирован в буфер. Нажмите \"Вставить в OTRS\" для вставки в окно ответа/заметки.", true)

  const RUNEXIS_ID := "builtin_runexis_numbers"

  const RUNEXIS_NUMBERS := Playbook(RUNEXIS_ID, "Runexis — подобрать номера", true, Some("runexis"),
    [OPEN_LOGIN, CHECK_AUTH, OPEN_NUMBERS, SET_FILTERS, APPLY_FILTERS, NAVIGATE_PAGE, COLLECT_NUMBERS, COPY_RESULT])

  const BUILTIN_SCENARIOS := [ATC_CONNECT, POSTPONE_14, RUNEXIS_NUMBERS]

  /** The keys the UI seeds the context with before a run. */
  const SEED_KEYS := {"ticketId", "clientCode", "lineNumber", "atcPlan"}

  function StepIds(steps: seq<Step>): (ids: seq<string>)
    ensures |ids| == |steps| && forall j :: 0 <= j < |steps| ==> ids[j] == steps[j].id
  {
    seq(|steps|, j requires 0 <= j < |steps| => steps[j].id)
  }

  /** The parameters each action needs before the engine can dispatch it. */
  predicate HasRequiredParams(s: Step) {
    var p := s.params;
    match s.action
    case Parse => Present(p.parseMessage) && Present(p.urlPattern)
    case Extract => Present(p.parseMessage) && Present(p.urlPattern)
    case Fill => Present(p.fillMessage) && Present(p.urlPattern) && Present(p.value)
    case Click => Present(p.clickMessage) && Present(p.urlPattern)
    case Navigate => Present(p.url)
    case Custom => Present(p.instruction)
    case Unknown(_) => false
  }

  /** A parse step runs unattended; an extract step is a checkpoint the operator confirms. */
  predicate ConfirmPolicy(s: Step) {
    (s.action == Parse ==> s.waitForConfirm == Some(false))
    && (s.action == Extract ==> s.waitForConfirm == Some(true))
  }

  /** The template tokens a step's url and value use. */
  function StepTokens(s: Step): seq<string> {
    Tokens(OrEmpty(s.params.url)) + Tokens(OrEmpty(s.params.value))
  }

  /** Everything one step needs: a known action, its parameters, the
      confirmation policy and only seeded template keys. */
  predicate StepOk(s: Step) {
    !s.action.Unknown? && HasRequiredParams(s) && ConfirmPolicy(s)
    && forall k :: k in StepTokens(s) ==> k in SEED_KEYS
  }

  predicate WellFormed(p: Playbook) {
    p.builtIn && StartsWith(p.id, "builtin_")
    && NoDup(StepIds(p.steps))
    && forall s :: s in p.steps ==> StepOk(s)
  }

  lemma {:induction false} PlainHasNoTokens(t: string)
    requires '{' !in t
    ensures Tokens(t) == []
  {
    TokensSkipPlain(t, []);
    assert t + [] == t;
  }

  /** A string made of plain text and one final token has exactly that token. */
  lemma {:induction false} OneFinalToken(pre: string, key: string, t: string)
    requires '{' !in pre
    requires key != [] && forall j :: 0 <= j < |key| ==> IsWordChar(key[j])
    requires t == pre + ("{" + key + "}")
    ensures Tokens(t) == [key]
  {
    var tok := "{" + key + "}";
    TokensSkipPlain(pre, tok);
    TokensOfToken(key, []);
    assert tok + [] == tok;
    assert Tokens([]) == [];
  }

  lemma PlainNavigateOk(s: Step)
    requires s.action == Navigate && s.params.url.Some? && s.params.url.value != [] && '{' !in s.params.url.value
    requires s.params.value.None? && s.waitForConfirm == Some(true)
    ensures StepOk(s)
  {
    PlainHasNoTokens(s.params.url.value);
    PlainHasNoTokens("");
  }

  lemma PlainStepOk(s: Step)
    requires s.action != Navigate && !s.action.Unknown? && HasRequiredParams(s) && ConfirmPolicy(s)
    requires s.params.url.None? && (s.params.value.None? || '{' !in s.params.value.value)
    ensures StepOk(s)
  {
    PlainHasNoTokens("");
    if s.params.value.Some? {
      PlainHasNoTokens(s.params.value.value);
    }
  }

  lemma OpenAccountingOk()
    ensures StepOk(OPEN_ACCOUNTING)
  {
    AccountingUrlPrefixPlain();
    OneFinalToken(ACCOUNTING_URL_PREFIX, "clientCode", OPEN_ACCOUNTING.params.url.value);
    PlainHasNoTokens("");
    assert StepTokens(OPEN_ACCOUNTING) == ["clientCode"];
  }

  lemma FillLineNumberOk()
    ensures StepOk(FILL_LINE_NUMBER)
  {
    OneFinalToken("", "lineNumber", FILL_LINE_NUMBER.params.value.value);
    PlainHasNoTokens("");
    assert StepTokens(FILL_LINE_NUMBER) == ["lineNumber"];
  }

  lemma OpenRingmeOk()
    ensures StepOk(OPEN_RINGME)
  {
    RingmeUrlPrefixPlain();
    OneFinalToken(RINGME_URL_PREFIX, "clientCode", OPEN_RINGME.params.url.value);
    PlainHasNoTokens("");
    assert StepTokens(OPEN_RINGME) == ["clientCode"];
  }

  lemma AtcStepsOk()
    ensures forall s :: s in ATC_CONNECT.steps ==> StepOk(s)
  {
    AtcAccountingStepsOk();
    AtcTelephonyStepsOk();
  }

  /** The ATC steps up to and including the line-number fill. */
  lemma AtcAccountingStepsOk()
    ensures StepOk(PARSE_OTRS) && StepOk(OPEN_ACCOUNTING) && StepOk(PARSE_ACCOUNTING)
      && StepOk(SHOW_SERVICES) && StepOk(OPEN_SUPPORT_SCRIPT) && StepOk(FILL_LINE_NUMBER)
  {
    PlainStepOk(PARSE_OTRS);
    OpenAccountingOk();
    PlainStepOk(PARSE_ACCOUNTING);
    PlainStepOk(SHOW_SERVICES);
    SupportScriptUrlPlain();
    PlainNavigateOk(OPEN_SUPPORT_SCRIPT);
    FillLineNumberOk();
  }

  /** The ATC steps from the creation click on. */
  lemma AtcTelephonyStepsOk()
    ensures StepOk(CLICK_CREATE_ATC) && StepOk(OPEN_RINGME) && StepOk(PARSE_RINGME)
      && StepOk(OPEN_TELEO_STAFF) && StepOk(OPEN_TELEO_ROUTING)
  {
    PlainStepOk(CLICK_CREATE_ATC);
    OpenRingmeOk();
    PlainStepOk(PARSE_RINGME);
    TeleoStaffUrlPlain();
    PlainNavigateOk(OPEN_TELEO_STAFF);
    TeleoRoutingUrlPlain();
    PlainNavigateOk(OPEN_TELEO_ROUTING);
  }

  lemma PostponeStepsOk()
    ensures forall s :: s in POSTPONE_14.steps ==> StepOk(s)
  {
    PlainStepOk(PARSE_TICKET);
    PlainStepOk(MOVE_QUEUE);
    FreeTextUrlPrefixPlain();
    OneFinalToken(FREETEXT_URL_PREFIX, "ticketId",
      OPEN_FREETEXT.params.url.value);
    PlainHasNoTokens("");
    assert StepTokens(OPEN_FREETEXT) == ["ticketId"];
    PlainStepOk(SET_PENDING_STATE);
  }

  lemma RunexisStepsOk()
    ensures forall s :: s in RUNEXIS_NUMBERS.steps ==> StepOk(s)
  {
    RunexisLoginUrlPlain();
    PlainNavigateOk(OPEN_LOGIN);
    PlainStepOk(CHECK_AUTH);
    RunexisNumbersUrlPlain();
    PlainNavigateOk(OPEN_NUMBERS);
    PlainStepOk(SET_FILTERS);
    PlainStepOk(APPLY_FILTERS);
    PlainStepOk(NAVIGATE_PAGE);
    PlainStepOk(COLLECT_NUMBERS);
    PlainStepOk(COPY_RESULT);
  }

  /** The three scenarios in their order, each built in with a `builtin_` id,
      unique step ids, known actions, the parameters each action needs, the
      confirmation policy for parse and extract, and only seeded template keys. */
  lemma BuiltinScenariosWellFormed()
    ensures |BUILTIN_SCENARIOS| == 3
    ensures BUILTIN_SCENARIOS[0].id == "builtin_atc_connect" && BUILTIN_SCENARIOS[1].id == "builtin_postpone_14"
      && BUILTIN_SCENARIOS[2].id == RUNEXIS_ID
    ensures forall j :: 0 <= j < |BUILTIN_SCENARIOS| ==> WellFormed(BUILTIN_SCENARIOS[j])
    ensures NoDup(seq(3, j requires 0 <= j < 3 => BUILTIN_SCENARIOS[j].id))
  {
    AtcStepsOk();
    AtcIdsUnique();
    PostponeStepsOk();
    PostponeIdsUnique();
    RunexisStepsOk();
    RunexisIdsUnique();
  }

  lemma AtcIdsUnique()
    ensures NoDup(StepIds(ATC_CONNECT.steps))
  {
    assert StepIds(ATC_CONNECT.steps) == ["parse_otrs", "open_accounting", "parse_accounting", "show_services",
      "open_support_script", "fill_line_number", "click_create_atc", "open_ringme", "parse_ringme",
      "open_teleo_staff", "open_teleo_routing"];
  }

  lemma PostponeIdsUnique()
    ensures NoDup(StepIds(POSTPONE_14.steps))
  {
    assert StepIds(POSTPONE_14.steps) == ["parse_ticket", "move_queue", "open_freetext", "set_pending_state"];
  }

  lemma RunexisIdsUnique()
    ensures NoDup(StepIds(RUNEXIS_NUMBERS.steps))
  {
    assert StepIds(RUNEXIS_NUMBERS.steps) == ["open_login", "check_auth", "open_numbers", "set_filters",
      "apply_filters", "navigate_page", "collect_numbers", "copy_result"];
  }

  // The urls hold no brace outside their final token.

  lemma AccountingUrlPrefixPlain()
    ensures '{' !in ACCOUNTING_URL_PREFIX
  {
  }

  lemma SupportScriptUrlPlain()
    ensures '{' !in SUPPORT_SCRIPT_URL
  {
  }

  lemma RingmeUrlPrefixPlain()
    ensures '{' !in RINGME_URL_PREFIX
  {
  }

  lemma TeleoStaffUrlPlain()
    ensures '{' !in TELEO_STAFF_URL
  {
  }

  lemma TeleoRoutingUrlPlain()
    ensures '{' !in TELEO_ROUTING_URL
  {
  }

  lemma FreeTextUrlPrefixPlain()
    ensures '{' !in FREETEXT_URL_PREFIX
  {
  }

  lemma RunexisLoginUrlPlain()
    ensures '{' !in RUNEXIS_LOGIN_URL
  {
  }

  lemma RunexisNumbersUrlPlain()
    ensures '{' !in RUNEXIS_NUMBERS_URL
  {
  }
}

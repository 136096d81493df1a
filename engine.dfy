/** The playbook engine: a step sequencer with two modes (Assist, Automate),
    a confirmation gate, dispatch through an abstract transport, context
    merging and the Automate-to-Assist downgrade on failure.

    The transport, the confirmation callback and the tab lookup are oracle
    inputs (`Env`); every call the engine makes to its callbacks and to the
    transport is appended, in order, to the engine's `trace`. */
module Engine {
  import opened Text
  import opened Values

  datatype Mode = Assist | Automate

  datatype Action = Navigate | Parse | Fill | Click | Extract | Custom | Unknown(name: string)

  /** The action as the step spells it. */
  function ActionName(a: Action): string {
    match a
    case Navigate => "navigate"
    case Parse => "parse"
    case Fill => "fill"
    case Click => "click"
    case Extract => "extract"
    case Custom => "custom"
    case Unknown(n) => n
  }

  /** The parameters a step may carry; an absent field is None. `selector`
      is set only by recorded playbooks, and no dispatch reads it. */
  datatype Params = Params(
    url: Option<string>,
    activate: Option<bool>,
    urlPattern: Option<string>,
    tabId: Option<int>,
    parseMessage: Option<string>,
    fillMessage: Option<string>,
    clickMessage: Option<string>,
    value: Option<string>,
    buttonText: Option<string>,
    extra: Record,
    instruction: Option<string>,
    selector: Option<string>)

  /** A declarative step; `kind` ("auto", "step" or "checkpoint") is descriptive only. */
  datatype Step = Step(
    id: string,
    kind: string,
    description: string,
    system: string,
    action: Action,
    params: Params,
    waitForConfirm: Option<bool>)

  /** A scenario; `inputType` is set on the scenario that asks the operator for input first. */
  datatype Playbook = Playbook(id: string, name: string, builtIn: bool, inputType: Option<string>, steps: seq<Step>)

  /** A step's parameters with every field absent. */
  const NoParams := Params(None, None, None, None, None, None, None, None, None, map[], None, None)

  datatype Status = Pending | Running | AssistShown | Done | Skipped | Error

  /** The statuses a step can end a call of ExecuteStep with. */
  predicate Terminal(s: Status) {
    s == AssistShown || s == Skipped || s == Done || s == Error
  }

  /** What the transport handed to a `sendMessage` callback. */
  datatype Reply =
    | Answered(ok: bool, error: string, data: Option<Record>, tabId: Option<int>)
    | NoAnswer
    | Failed(lastError: string)
  {
    /** `resp?.ok` */
    predicate IsOk() { Answered? && ok }
  }

  /** The assist payload or the value a dispatch resolved to. */
  datatype StepData =
    | NoData
    | AssistPayload(description: string, link: Option<string>, labelText: Option<string>, copyValue: Option<string>)
    | Navigated(tabId: Option<int>, url: string)
    | Parsed(data: Option<Record>)
    | Replied(reply: Reply)

  datatype StepResult = StepResult(status: Status, data: StepData, error: Option<string>)

  const PendingResult := StepResult(Pending, NoData, None)

  datatype Request =
    | OpenTab(url: string, activate: bool)
    | FindTab(urlPattern: string)
    | SendToTab(tabId: int, message: Record)

  datatype Detail = NoDetail | Payload(data: StepData) | Reason(message: string)

  /** One observable call: a callback fired or a message handed to the transport. */
  datatype Event =
    | Notified(index: int, status: Status, detail: Detail)
    | Logged(system: string, description: string, ok: bool, error: string)
    | ConfirmAsked(index: int)
    | Sent(request: Request)
    | FellBack(index: int, reason: string)

  /** The oracle answers one step can receive: the confirmation callback
      (None when none is registered), the tab id the FIND_TAB lookup answers,
      and the reply to the one message the step dispatches. */
  datatype Env = Env(confirmer: Option<bool>, lookup: Option<int>, reply: Reply)

  datatype Dispatched = DOk(data: StepData) | DErr(message: string)

  // ---------------------------------------------------------------------
  // Template resolution
  // ---------------------------------------------------------------------

  /** The longest prefix of s made of `\w` characters. */
  function WordRun(s: string): (w: string)
    ensures |w| <= |s| && w == s[..|w|]
    ensures forall j :: 0 <= j < |w| ==> IsWordChar(w[j])
    ensures |w| < |s| ==> !IsWordChar(s[|w|])
  {
    if s == [] || !IsWordChar(s[0]) then [] else [s[0]] + WordRun(s[1..])
  }

  /** The key of a `{word}` token starting at the head of t, as `/\{(\w+)\}/` matches it. */
  function TokenAt(t: string): (k: Option<string>)
    ensures k.Some? ==> (k.value != [] && |k.value| + 2 <= |t|
      && t[..|k.value| + 2] == "{" + k.value + "}"
      && forall j :: 0 <= j < |k.value| ==> IsWordChar(k.value[j]))
  {
    if t == [] || t[0] != '{' then None
    else
      var w := WordRun(t[1..]);
      if w != [] && |w| + 1 < |t| && t[|w| + 1] == '}' then
        assert t[..|w| + 2] == [t[0]] + t[1..][..|w|] + [t[|w| + 1]];
        Some(w)
      else None
  }

  /** `resolveTemplate`: every `{word}` token whose context value is truthy is
      replaced by that value's text; every other token stays literal. The
      context holds only its own keys: members a JavaScript object inherits
      from Object.prototype (`constructor`, `toString`, …) are not in it. */
  function ResolveTemplate(t: string, ctx: Record): string
    decreases |t|
  {
    if t == [] then []
    else match TokenAt(t)
      case Some(key) =>
        (if key in ctx && ctx[key].Truthy() then ctx[key].Render() else "{" + key + "}")
        + ResolveTemplate(t[|key| + 2..], ctx)
      case None => [t[0]] + ResolveTemplate(t[1..], ctx)
  }

  /** The keys of the tokens of t, in the order the scan meets them. */
  function Tokens(t: string): seq<string>
    decreases |t|
  {
    if t == [] then []
    else match TokenAt(t)
      case Some(key) => [key] + Tokens(t[|key| + 2..])
      case None => Tokens(t[1..])
  }

  /** Tokens whose keys have no truthy value are all left literal, so such a
      template resolves to itself. */
  lemma {:induction false} ResolveUnboundTokens(t: string, ctx: Record)
    requires forall k :: k in Tokens(t) ==> !(k in ctx && ctx[k].Truthy())
    ensures ResolveTemplate(t, ctx) == t
    decreases |t|
  {
    if t != [] {
      match TokenAt(t)
      case Some(key) =>
        assert key in Tokens(t);
        ResolveUnboundTokens(t[|key| + 2..], ctx);
        assert t == t[..|key| + 2] + t[|key| + 2..];
      case None =>
        ResolveUnboundTokens(t[1..], ctx);
        assert t == [t[0]] + t[1..];
    }
  }

  /** Text before the first '{' holds no token. */
  lemma {:induction false} TokensSkipPlain(a: string, b: string)
    requires '{' !in a
    ensures Tokens(a + b) == Tokens(b)
    decreases |a|
  {
    if a != [] {
      assert (a + b)[0] == a[0];
      assert (a + b)[1..] == a[1..] + b;
      assert '{' !in a[1..];
      TokensSkipPlain(a[1..], b);
    } else {
      assert a + b == b;
    }
  }

  lemma TokensOfToken(key: string, rest: string)
    requires key != [] && forall j :: 0 <= j < |key| ==> IsWordChar(key[j])
    ensures Tokens("{" + key + "}" + rest) == [key] + Tokens(rest)
  {
    var t := "{" + key + "}" + rest;
    WordRunOfToken(key, rest);
    assert t[|key| + 2..] == rest;
  }

  /** With nothing in the context, every template resolves to itself
      (inherited Object.prototype members are outside the model). */
  lemma {:induction false} ResolveEmptyContext(t: string)
    ensures ResolveTemplate(t, map[]) == t
    decreases |t|
  {
    if t != [] {
      match TokenAt(t)
      case Some(key) =>
        ResolveEmptyContext(t[|key| + 2..]);
        assert t == t[..|key| + 2] + t[|key| + 2..];
      case None =>
        ResolveEmptyContext(t[1..]);
        assert t == [t[0]] + t[1..];
    }
  }

  /** A string without '{' holds no token and is returned unchanged. */
  lemma {:induction false} ResolveWithoutTokens(t: string, ctx: Record)
    requires '{' !in t
    ensures ResolveTemplate(t, ctx) == t
    decreases |t|
  {
    if t != [] {
      assert TokenAt(t).None?;
      assert '{' !in t[1..];
      ResolveWithoutTokens(t[1..], ctx);
      assert t == [t[0]] + t[1..];
    }
  }

  /** A token with a truthy value becomes that value's text verbatim: the
      inserted text is not scanned again, whatever tokens it contains. */
  lemma ResolveTokenTruthy(key: string, rest: string, ctx: Record)
    requires key != [] && forall j :: 0 <= j < |key| ==> IsWordChar(key[j])
    requires key in ctx && ctx[key].Truthy()
    ensures ResolveTemplate("{" + key + "}" + rest, ctx) == ctx[key].Render() + ResolveTemplate(rest, ctx)
  {
    var t := "{" + key + "}" + rest;
    WordRunOfToken(key, rest);
    assert t[|key| + 2..] == rest;
  }

  /** A token whose key is missing or falsy stays literal. */
  lemma ResolveTokenFalsy(key: string, rest: string, ctx: Record)
    requires key != [] && forall j :: 0 <= j < |key| ==> IsWordChar(key[j])
    requires key !in ctx || !ctx[key].Truthy()
    ensures ResolveTemplate("{" + key + "}" + rest, ctx) == "{" + key + "}" + ResolveTemplate(rest, ctx)
  {
    var t := "{" + key + "}" + rest;
    WordRunOfToken(key, rest);
    assert t[|key| + 2..] == rest;
  }

  lemma {:induction false} WordRunOfToken(key: string, rest: string)
    requires key != [] && forall j :: 0 <= j < |key| ==> IsWordChar(key[j])
    ensures TokenAt("{" + key + "}" + rest) == Some(key)
  {
    var t := "{" + key + "}" + rest;
    assert t[0] == '{';
    assert t[1..] == key + ("}" + rest);
    WordRunPrefix(key, "}" + rest);
    assert t[|key| + 1] == '}';
  }

  lemma {:induction false} WordRunPrefix(w: string, s: string)
    requires forall j :: 0 <= j < |w| ==> IsWordChar(w[j])
    requires s != [] && !IsWordChar(s[0])
    ensures WordRun(w + s) == w
  {
    if w != [] {
      assert (w + s)[1..] == w[1..] + s;
      WordRunPrefix(w[1..], s);
    } else {
      assert w + s == s;
    }
  }

  // ---------------------------------------------------------------------
  // Assist payload and dispatch, as pure functions of the step and context
  // ---------------------------------------------------------------------

  /** `buildAssistData`: what the operator is shown instead of an automated action. */
  function BuildAssistData(step: Step, ctx: Record): (d: StepData)
    ensures d.AssistPayload? && d.description == step.description
    ensures step.action == Navigate ==> d.link == Some(ResolveTemplate(OrEmpty(step.params.url), ctx))
    ensures step.action != Navigate ==> d.link.None?
    ensures step.action == Fill ==>
      d.copyValue == Some(ResolveTemplate(OrEmpty(step.params.value), ctx))
      && d.labelText == Some("Вставить: " + d.copyValue.value)
    ensures step.action != Fill ==> d.copyValue.None?
    ensures step.action !in {Navigate, Fill, Click} ==> d.labelText.None?
  {
    match step.action
    case Navigate =>
      AssistPayload(step.description, Some(ResolveTemplate(OrEmpty(step.params.url), ctx)),
        Some("Открыть: " + step.system), None)
    case Fill =>
      var v := ResolveTemplate(OrEmpty(step.params.value), ctx);
      AssistPayload(step.description, None, Some("Вставить: " + v), Some(v))
    case Click =>
      AssistPayload(step.description, None,
        Some("Нажать: " + (if Present(step.params.buttonText) then step.params.buttonText.value else step.description)),
        None)
    case _ => AssistPayload(step.description, None, None, None)
  }

  /** `step.params?.tabId || await findTabByPattern(step.params?.urlPattern)`:
      the requests the lookup sends and the tab it settles on. */
  function TargetTab(p: Params, env: Env): (r: (seq<Event>, Option<int>))
    ensures |r.0| <= 1 && (r.1.Some? ==> r.1.value != 0)
    ensures p.tabId.Some? && p.tabId.value != 0 ==> r == ([], p.tabId)
    ensures r.0 != [] <==> !(p.tabId.Some? && p.tabId.value != 0) && Present(p.urlPattern)
    ensures r.0 != [] ==> r.0 == [Sent(FindTab(p.urlPattern.value))]
    ensures !(p.tabId.Some? && p.tabId.value != 0) ==>
      r.1 == (if Present(p.urlPattern) && env.lookup.Some? && env.lookup.value != 0 then env.lookup else None)
  {
    if p.tabId.Some? && p.tabId.value != 0 then ([], p.tabId)
    else if !Present(p.urlPattern) then ([], None)
    else ([Sent(FindTab(p.urlPattern.value))],
          if env.lookup.Some? && env.lookup.value != 0 then env.lookup else None)
  }

  function TabNotFound(p: Params): string {
    "Вкладка не найдена: " + RenderField(p.urlPattern)
  }

  /** The `type` property of a message: the configured name, or undefined. */
  function TypeField(name: Option<string>): Record {
    map["type" := if name.Some? then Str(name.value) else Undefined]
  }

  /** `{ type, ...extra, value, lineNumber: value }` */
  function FillMessage(p: Params, value: string): Record {
    TypeField(p.fillMessage) + p.extra + map["value" := Str(value), "lineNumber" := Str(value)]
  }

  /** `{ type, ...extra }` */
  function ClickMessage(p: Params): Record {
    TypeField(p.clickMessage) + p.extra
  }

  /** How a reply to a parse, fill or click message turns into an outcome:
      a transport failure rejects with `lastError`, a reply that is not ok
      with `resp?.error || fallback`. */
  function Outcome(reply: Reply, fallback: string): (d: Dispatched)
    ensures d.DOk? <==> reply.IsOk()
    ensures d.DOk? ==> d == DOk(Replied(reply))
    ensures reply.Failed? ==> d == DErr(reply.lastError)
    ensures !reply.IsOk() && !reply.Failed? ==>
      d == DErr(if reply.Answered? && reply.error != "" then reply.error else fallback)
  {
    match reply
    case Failed(m) => DErr(m)
    case NoAnswer => DErr(fallback)
    case Answered(ok, e, _, _) => if ok then DOk(Replied(reply)) else DErr(if e != "" then e else fallback)
  }

  /** The context after a reply to a parse message: `Object.assign(context, resp.data)`
      when the reply is ok and carries data. */
  function MergeReply(ctx: Record, reply: Reply): (r: Record)
    ensures ctx.Keys <= r.Keys
    ensures !(reply.IsOk() && reply.data.Some?) ==> r == ctx
    ensures reply.IsOk() && reply.data.Some? ==>
      r.Keys == ctx.Keys + reply.data.value.Keys
      && (forall k :: k in reply.data.value ==> r[k] == reply.data.value[k])
      && (forall k :: k in ctx && k !in reply.data.value ==> r[k] == ctx[k])
  {
    if reply.IsOk() && reply.data.Some? then ctx + reply.data.value else ctx
  }

  /** The messages the dispatch of one step sends, and its outcome. */
  function Dispatch(step: Step, ctx: Record, env: Env): (r: (seq<Event>, Dispatched))
    ensures |r.0| <= 2
    ensures step.action !in {Navigate, Parse, Extract, Fill, Click} ==>
      r == ([], DErr("Неизвестное действие: " + ActionName(step.action)))
    ensures step.action == Navigate ==> (r.1.DErr? <==> env.reply.Failed?)
    ensures step.action == Navigate && env.reply.Failed? ==> r.1 == DErr(env.reply.lastError)
    ensures GoesToPage(step.action) ==> r == DispatchParse(step.params, env)
    ensures step.action in {Fill, Click} && TargetTab(step.params, env).1.None? ==>
      r == (TargetTab(step.params, env).0, DErr(TabNotFound(step.params)))
    ensures step.action == Fill && TargetTab(step.params, env).1.Some? ==>
      r.1 == Outcome(env.reply, "Ошибка заполнения")
    ensures step.action == Click && TargetTab(step.params, env).1.Some? ==>
      r == (TargetTab(step.params, env).0 + [Sent(SendToTab(TargetTab(step.params, env).1.value, ClickMessage(step.params)))],
            Outcome(env.reply, "Ошибка нажатия"))
  {
    var p := step.params;
    match step.action
    case Navigate =>
      var url := ResolveTemplate(OrEmpty(p.url), ctx);
      var ev := [Sent(OpenTab(url, p.activate != Some(false)))];
      (ev, match env.reply
           case Failed(m) => DErr(m)
           case NoAnswer => DOk(Navigated(None, url))
           case Answered(_, _, _, t) => DOk(Navigated(t, url)))
    case Parse => DispatchParse(p, env)
    case Extract => DispatchParse(p, env)
    case Fill =>
      var (ev, tab) := TargetTab(p, env);
      if tab.None? then (ev, DErr(TabNotFound(p)))
      else
        var v := ResolveTemplate(OrEmpty(p.value), ctx);
        (ev + [Sent(SendToTab(tab.value, FillMessage(p, v)))], Outcome(env.reply, "Ошибка заполнения"))
    case Click =>
      var (ev, tab) := TargetTab(p, env);
      if tab.None? then (ev, DErr(TabNotFound(p)))
      else (ev + [Sent(SendToTab(tab.value, ClickMessage(p)))], Outcome(env.reply, "Ошибка нажатия"))
    case _ => ([], DErr("Неизвестное действие: " + ActionName(step.action)))
  }

  function DispatchParse(p: Params, env: Env): (r: (seq<Event>, Dispatched))
    ensures 1 <= |r.0| <= 2 <== TargetTab(p, env).1.Some?
    ensures TargetTab(p, env).1.None? ==> r.1 == DErr(TabNotFound(p))
    ensures r.1.DOk? ==> env.reply.IsOk() && r.1.data == Parsed(env.reply.data)
    ensures TargetTab(p, env).1.Some? ==>
      r.0 == TargetTab(p, env).0 + [Sent(SendToTab(TargetTab(p, env).1.value, TypeField(p.parseMessage)))]
    ensures TargetTab(p, env).1.Some? && !env.reply.IsOk() ==> r.1 == Outcome(env.reply, "Ошибка парсинга")
    ensures TargetTab(p, env).1.Some? && env.reply.IsOk() ==> r.1 == DOk(Parsed(env.reply.data))
  {
    var (ev, tab) := TargetTab(p, env);
    if tab.None? then (ev, DErr(TabNotFound(p)))
    else
      (ev + [Sent(SendToTab(tab.value, TypeField(p.parseMessage)))],
       match Outcome(env.reply, "Ошибка парсинга")
       case DErr(m) => DErr(m)
       case DOk(_) => DOk(Parsed(env.reply.data)))
  }

  /** The context a dispatch leaves: only a parse or extract that reached its tab changes it. */
  function DispatchContext(step: Step, ctx: Record, env: Env): (r: Record)
    ensures ctx.Keys <= r.Keys
    ensures !GoesToPage(step.action) ==> r == ctx
  {
    if (step.action == Parse || step.action == Extract) && TargetTab(step.params, env).1.Some?
    then MergeReply(ctx, env.reply)
    else ctx
  }

  /** Everything one call of `executeStep` produces. */
  datatype StepEffect = StepEffect(result: StepResult, context: Record, mode: Mode, events: seq<Event>)

  predicate GoesToPage(a: Action) { a == Parse || a == Extract }

  predicate AsksConfirmation(step: Step, env: Env) {
    step.waitForConfirm != Some(false) && env.confirmer.Some?
  }

  /** The calls after the confirmation gate: the dispatch, then `done` or
      `error`, the log entry, and on an Automate error the fallback. */
  function AfterGate(mode: Mode, ctx: Record, index: int, step: Step, env: Env): StepEffect {
    var (sent, out) := Dispatch(step, ctx, env);
    var ctx' := DispatchContext(step, ctx, env);
    match out
    case DOk(data) =>
      StepEffect(StepResult(Done, data, None), ctx', mode,
        sent + [Notified(index, Done, Payload(data)), Logged(step.system, step.description, true, "")])
    case DErr(m) =>
      StepEffect(StepResult(Error, NoData, Some(m)), ctx', Assist,
        sent + [Notified(index, Error, Reason(m)), Logged(step.system, step.description, false, m)]
        + (if mode == Automate then [FellBack(index, m)] else []))
  }

  /** The calls after `running`. */
  function AfterRunning(mode: Mode, ctx: Record, index: int, step: Step, env: Env): StepEffect {
    if mode == Assist && !GoesToPage(step.action) then
      var data := BuildAssistData(step, ctx);
      StepEffect(StepResult(AssistShown, data, None), ctx, mode,
        [Notified(index, AssistShown, Payload(data)), Logged(step.system, step.description, true, "")])
    else if AsksConfirmation(step, env) && !env.confirmer.value then
      StepEffect(StepResult(Skipped, NoData, None), ctx, mode,
        [ConfirmAsked(index), Notified(index, Skipped, NoDetail)])
    else
      var e := AfterGate(mode, ctx, index, step, env);
      if AsksConfirmation(step, env) then StepEffect(e.result, e.context, e.mode, [ConfirmAsked(index)] + e.events) else e
  }

  /** The reference semantics of `executeStep(index, step)` from the engine's mode and context. */
  function StepSpec(mode: Mode, ctx: Record, index: int, step: Step, env: Env): StepEffect {
    var e := AfterRunning(mode, ctx, index, step, env);
    StepEffect(e.result, e.context, e.mode, [Notified(index, Running, NoDetail)] + e.events)
  }

  // ---------------------------------------------------------------------
  // The engine object
  // ---------------------------------------------------------------------

  datatype RunReply = NoPlaybook | Finished | Executed(result: StepResult)

  datatype Snapshot = Snapshot(mode: Mode, playbook: Option<string>, currentStep: int,
                               totalSteps: nat, context: Record, results: seq<StepResult>)

  class PlaybookEngine {
    var mode: Mode
    var playbook: Option<Playbook>
    var index: int
    var context: Record
    var results: seq<StepResult>
    /** Calls made to the step, log and fallback callbacks, the confirmation callback and the transport. */
    var trace: seq<Event>

    /** One result slot per step, and the index never below "not started". */
    predicate Valid()
      reads this
    {
      index >= -1 && (playbook.Some? ==> |results| == |playbook.value.steps|)
    }

    constructor ()
      ensures Valid()
      ensures mode == Assist && playbook == None && index == -1
      ensures context == map[] && results == [] && trace == []
    {
      mode := Assist;
      playbook := None;
      index := -1;
      context := map[];
      results := [];
      trace := [];
    }

    method SetMode(m: Mode)
      modifies this`mode
      ensures mode == m
    {
      mode := m;
    }

    /** `loadPlaybook`: index back to "not started", one pending slot per step, empty context. */
    method LoadPlaybook(p: Playbook)
      modifies this
      ensures Valid()
      ensures playbook == Some(p) && index == -1 && context == map[]
      ensures results == seq(|p.steps|, _ => PendingResult)
      ensures mode == old(mode) && trace == old(trace)
    {
      playbook := Some(p);
      index := -1;
      results := seq(|p.steps|, _ => PendingResult);
      context := map[];
    }

    /** `runNext`: advance by one and execute that step, or report that the run is over. */
    method RunNext(env: Env) returns (r: RunReply)
      requires Valid()
      modifies this
      ensures Valid() && playbook == old(playbook)
      ensures old(playbook).None? ==>
        r == NoPlaybook && index == old(index) && mode == old(mode) && context == old(context)
        && results == old(results) && trace == old(trace)
      ensures old(playbook).Some? ==> index == old(index) + 1
      ensures old(playbook).Some? && index >= |old(playbook).value.steps| ==>
        r == Finished && mode == old(mode) && context == old(context)
        && results == old(results) && trace == old(trace)
      ensures old(playbook).Some? && index < |old(playbook).value.steps| ==>
        var e := StepSpec(old(mode), old(context), index, old(playbook).value.steps[index], env);
        r == Executed(e.result) && results == old(results)[index := e.result]
        && context == e.context && mode == e.mode && trace == old(trace) + e.events
    {
      if playbook.None? {
        return NoPlaybook;
      }
      index := index + 1;
      if index >= |playbook.value.steps| {
        return Finished;
      }
      var step := playbook.value.steps[index];
      var res := ExecuteStep(index, step, env);
      r := Executed(res);
    }

    /** `executeStep`: `running` first, then exactly one terminal status, and only slot `i` rewritten. */
    method ExecuteStep(i: int, step: Step, env: Env) returns (r: StepResult)
      requires 0 <= i < |results|
      modifies this
      ensures var e := StepSpec(old(mode), old(context), i, step, env);
        r == e.result && results == old(results)[i := r] && context == e.context
        && mode == e.mode && trace == old(trace) + e.events
      ensures playbook == old(playbook) && index == old(index)
    {
      ghost var e := AfterRunning(mode, context, i, step, env);
      trace := trace + [Notified(i, Running, NoDetail)];
      r := Proceed(i, step, env);
      ConcatAssoc(old(trace), [Notified(i, Running, NoDetail)], e.events);
    }

    /** The part of `executeStep` after `running`: the assist branch, the
        confirmation gate and the dispatch. */
    method Proceed(i: int, step: Step, env: Env) returns (r: StepResult)
      requires 0 <= i < |results|
      modifies this
      ensures var e := AfterRunning(old(mode), old(context), i, step, env);
        r == e.result && results == old(results)[i := r] && context == e.context
        && mode == e.mode && trace == old(trace) + e.events
      ensures playbook == old(playbook) && index == old(index)
    {
      if mode == Assist && step.action != Extract && step.action != Parse {
        var data := BuildAssistData(step, context);
        r := StepResult(AssistShown, data, None);
        results := results[i := r];
        trace := trace + [Notified(i, AssistShown, Payload(data)), Logged(step.system, step.description, true, "")];
        return;
      }
      if step.waitForConfirm != Some(false) && env.confirmer.Some? {
        trace := trace + [ConfirmAsked(i)];
        var confirmed := env.confirmer.value;
        if !confirmed {
          r := StepResult(Skipped, NoData, None);
          results := results[i := r];
          trace := trace + [Notified(i, Skipped, NoDetail)];
          return;
        }
      }
      r := Perform(i, step, env);
      if AsksConfirmation(step, env) {
        ConcatAssoc(old(trace), [ConfirmAsked(i)], AfterGate(old(mode), old(context), i, step, env).events);
      }
    }

    /** The part of `executeStep` after the confirmation gate. */
    method Perform(i: int, step: Step, env: Env) returns (r: StepResult)
      requires 0 <= i < |results|
      modifies this
      ensures var e := AfterGate(old(mode), old(context), i, step, env);
        r == e.result && results == old(results)[i := r] && context == e.context
        && mode == e.mode && trace == old(trace) + e.events
      ensures playbook == old(playbook) && index == old(index)
    {
      var out := DoDispatch(step, env);
      match out {
        case DOk(data) =>
          r := StepResult(Done, data, None);
          results := results[i := r];
          trace := trace + [Notified(i, Done, Payload(data)), Logged(step.system, step.description, true, "")];
        case DErr(m) =>
          r := StepResult(Error, NoData, Some(m));
          results := results[i := r];
          trace := trace + [Notified(i, Error, Reason(m)), Logged(step.system, step.description, false, m)];
          if mode == Automate {
            mode := Assist;
            trace := trace + [FellBack(i, m)];
          } else {
            mode := Assist;
          }
      }
    }

    /** The `switch (step.action)` of `executeStep`. */
    method DoDispatch(step: Step, env: Env) returns (out: Dispatched)
      modifies this`trace, this`context
      ensures trace == old(trace) + Dispatch(step, old(context), env).0
      ensures out == Dispatch(step, old(context), env).1
      ensures context == DispatchContext(step, old(context), env)
    {
      match step.action {
        case Navigate => out := DoNavigate(step, env);
        case Parse => out := DoParse(step, env);
        case Fill => out := DoFill(step, env);
        case Click => out := DoClick(step, env);
        case Extract => out := DoExtract(step, env);
        case _ =>
          assert trace == old(trace) + [];
          out := DErr("Неизвестное действие: " + ActionName(step.action));
      }
    }

    method DoNavigate(step: Step, env: Env) returns (out: Dispatched)
      requires step.action == Navigate
      modifies this`trace
      ensures trace == old(trace) + Dispatch(step, context, env).0 && out == Dispatch(step, context, env).1
    {
      var url := ResolveTemplate(OrEmpty(step.params.url), context);
      trace := trace + [Sent(OpenTab(url, step.params.activate != Some(false)))];
      match env.reply {
        case Failed(m) => out := DErr(m);
        case NoAnswer => out := DOk(Navigated(None, url));
        case Answered(_, _, _, t) => out := DOk(Navigated(t, url));
      }
    }

    method FindTabByPattern(p: Params, env: Env) returns (tab: Option<int>)
      requires !(p.tabId.Some? && p.tabId.value != 0)
      modifies this`trace
      ensures trace == old(trace) + TargetTab(p, env).0 && tab == TargetTab(p, env).1
    {
      if !Present(p.urlPattern) {
        assert trace == old(trace) + [];
        return None;
      }
      trace := trace + [Sent(FindTab(p.urlPattern.value))];
      tab := if env.lookup.Some? && env.lookup.value != 0 then env.lookup else None;
    }

    method ResolveTab(p: Params, env: Env) returns (tab: Option<int>)
      modifies this`trace
      ensures trace == old(trace) + TargetTab(p, env).0 && tab == TargetTab(p, env).1
    {
      if p.tabId.Some? && p.tabId.value != 0 {
        assert trace == old(trace) + [];
        return p.tabId;
      }
      tab := FindTabByPattern(p, env);
    }

    /** `doParse`: on an ok reply the data is merged into the context in place. */
    method DoParse(step: Step, env: Env) returns (out: Dispatched)
      requires GoesToPage(step.action)
      modifies this`trace, this`context
      ensures trace == old(trace) + Dispatch(step, old(context), env).0
      ensures out == Dispatch(step, old(context), env).1
      ensures context == DispatchContext(step, old(context), env)
      ensures TargetTab(step.params, env).1.Some? && !env.reply.IsOk() ==> out == Outcome(env.reply, "Ошибка парсинга")
    {
      var tab := ResolveTab(step.params, env);
      if tab.None? {
        return DErr(TabNotFound(step.params));
      }
      trace := trace + [Sent(SendToTab(tab.value, TypeField(step.params.parseMessage)))];
      var reply := env.reply;
      match reply {
        case Failed(m) => out := DErr(m);
        case NoAnswer => out := DErr("Ошибка парсинга");
        case Answered(ok, e, data, _) =>
          if !ok {
            out := DErr(if e != "" then e else "Ошибка парсинга");
          } else {
            if data.Some? {
              context := context + data.value;
            }
            out := DOk(Parsed(data));
          }
      }
    }

    method DoFill(step: Step, env: Env) returns (out: Dispatched)
      requires step.action == Fill
      modifies this`trace
      ensures trace == old(trace) + Dispatch(step, context, env).0 && out == Dispatch(step, context, env).1
      ensures TargetTab(step.params, env).1.Some? ==> out == Outcome(env.reply, "Ошибка заполнения")
    {
      var tab := ResolveTab(step.params, env);
      if tab.None? {
        return DErr(TabNotFound(step.params));
      }
      var value := ResolveTemplate(OrEmpty(step.params.value), context);
      trace := trace + [Sent(SendToTab(tab.value, FillMessage(step.params, value)))];
      out := Outcome(env.reply, "Ошибка заполнения");
    }

    method DoClick(step: Step, env: Env) returns (out: Dispatched)
      requires step.action == Click
      modifies this`trace
      ensures trace == old(trace) + Dispatch(step, context, env).0 && out == Dispatch(step, context, env).1
      ensures TargetTab(step.params, env).1.Some? ==> out == Outcome(env.reply, "Ошибка нажатия")
    {
      var tab := ResolveTab(step.params, env);
      if tab.None? {
        return DErr(TabNotFound(step.params));
      }
      trace := trace + [Sent(SendToTab(tab.value, ClickMessage(step.params)))];
      out := Outcome(env.reply, "Ошибка нажатия");
    }

    /** `doExtract` is `doParse`. */
    method DoExtract(step: Step, env: Env) returns (out: Dispatched)
      requires step.action == Extract
      modifies this`trace, this`context
      ensures trace == old(trace) + Dispatch(step, old(context), env).0
      ensures out == Dispatch(step, old(context), env).1
      ensures context == DispatchContext(step, old(context), env)
    {
      out := DoParse(step, env);
    }

    /** `getStatus`: a snapshot; Dafny values cannot alias the engine's fields. */
    function GetStatus(): (s: Snapshot)
      reads this
      ensures s.context == context && s.results == results && s.mode == mode
      ensures s.totalSteps == if playbook.Some? then |playbook.value.steps| else 0
      ensures s.playbook.Some? <==> playbook.Some? && playbook.value.name != ""
      ensures playbook.Some? && playbook.value.name != "" ==> s.playbook == Some(playbook.value.name)
      ensures s.currentStep == index
    {
      Snapshot(mode,
        if playbook.Some? && playbook.value.name != "" then Some(playbook.value.name) else None,
        index,
        if playbook.Some? then |playbook.value.steps| else 0,
        context, results)
    }
  }
}

/** What the playbook engine promises about one step and about a run of
    steps, proved about the reference semantics `StepSpec`, which
    `PlaybookEngine.ExecuteStep` is proved to follow. */
module EngineLaws {
  import opened Text
  import opened Values
  import opened Engine

  /** The statuses passed to the step callback, in order. */
  function Statuses(evs: seq<Event>): seq<Status> {
    if evs == [] then [] else (if evs[0].Notified? then [evs[0].status] else []) + Statuses(evs[1..])
  }

  predicate OnlySends(evs: seq<Event>) {
    forall j :: 0 <= j < |evs| ==> evs[j].Sent?
  }

  /** No message reaches the transport. */
  predicate NoSends(evs: seq<Event>) {
    forall j :: 0 <= j < |evs| ==> !evs[j].Sent?
  }

  /** The confirmation callback is not called. */
  predicate NoConfirm(evs: seq<Event>) {
    forall j :: 0 <= j < |evs| ==> !evs[j].ConfirmAsked?
  }

  lemma {:induction false} StatusesAppend(a: seq<Event>, b: seq<Event>)
    ensures Statuses(a + b) == Statuses(a) + Statuses(b)
    decreases |a|
  {
    if a == [] {
      assert a + b == b;
    } else {
      var h := if a[0].Notified? then [a[0].status] else [];
      assert (a + b)[0] == a[0];
      assert (a + b)[1..] == a[1..] + b;
      StatusesAppend(a[1..], b);
      assert Statuses(a + b) == h + Statuses(a[1..] + b);
    }
  }

  lemma {:induction false} StatusesOfSends(evs: seq<Event>)
    requires OnlySends(evs)
    ensures Statuses(evs) == []
    decreases |evs|
  {
    if evs != [] {
      StatusesOfSends(evs[1..]);
    }
  }

  lemma DispatchOnlySends(step: Step, ctx: Record, env: Env)
    ensures OnlySends(Dispatch(step, ctx, env).0)
  {
  }

  /** Every call to the step callback for one step: `running` first, then
      exactly one terminal status, the one the step ends with. */
  lemma {:induction false} StepNotifiesRunningThenOneTerminal(mode: Mode, ctx: Record, i: int, step: Step, env: Env)
    ensures var e := StepSpec(mode, ctx, i, step, env);
      e.events != [] && e.events[0] == Notified(i, Running, NoDetail)
      && Statuses(e.events) == [Running, e.result.status] && Terminal(e.result.status)
  {
    var a := AfterRunning(mode, ctx, i, step, env);
    StatusesAppend([Notified(i, Running, NoDetail)], a.events);
    AfterRunningStatuses(mode, ctx, i, step, env);
  }

  lemma {:induction false} AfterRunningStatuses(mode: Mode, ctx: Record, i: int, step: Step, env: Env)
    ensures var a := AfterRunning(mode, ctx, i, step, env);
      Statuses(a.events) == [a.result.status] && Terminal(a.result.status)
  {
    var a := AfterRunning(mode, ctx, i, step, env);
    if mode == Assist && !GoesToPage(step.action) {
      var data := BuildAssistData(step, ctx);
      StatusesAppend([Notified(i, AssistShown, Payload(data))], [Logged(step.system, step.description, true, "")]);
    } else if AsksConfirmation(step, env) && !env.confirmer.value {
      StatusesAppend([ConfirmAsked(i)], [Notified(i, Skipped, NoDetail)]);
    } else {
      var g := AfterGate(mode, ctx, i, step, env);
      AfterGateStatuses(mode, ctx, i, step, env);
      if AsksConfirmation(step, env) {
        StatusesAppend([ConfirmAsked(i)], g.events);
      }
    }
  }

  lemma {:induction false} AfterGateStatuses(mode: Mode, ctx: Record, i: int, step: Step, env: Env)
    ensures var g := AfterGate(mode, ctx, i, step, env);
      Statuses(g.events) == [g.result.status] && (g.result.status == Done || g.result.status == Error)
  {
    var (sent, out) := Dispatch(step, ctx, env);
    DispatchOnlySends(step, ctx, env);
    TailStatuses(mode, i, step, sent, out);
  }

  /** The events after the sends carry exactly one status, the outcome's. */
  lemma {:induction false} TailStatuses(mode: Mode, i: int, step: Step, sent: seq<Event>, out: Dispatched)
    requires OnlySends(sent)
    ensures out.DOk? ==>
      Statuses(sent + [Notified(i, Done, Payload(out.data)), Logged(step.system, step.description, true, "")]) == [Done]
    ensures out.DErr? ==>
      Statuses(sent + [Notified(i, Error, Reason(out.message)), Logged(step.system, step.description, false, out.message)]
        + (if mode == Automate then [FellBack(i, out.message)] else [])) == [Error]
  {
    StatusesOfSends(sent);
    match out
    case DOk(data) =>
      var tail := [Notified(i, Done, Payload(data)), Logged(step.system, step.description, true, "")];
      StatusesAppend(sent, tail);
      StatusesAppend([tail[0]], [tail[1]]);
      assert tail == [tail[0]] + [tail[1]];
    case DErr(m) =>
      var tail := [Notified(i, Error, Reason(m)), Logged(step.system, step.description, false, m)];
      var fb: seq<Event> := if mode == Automate then [FellBack(i, m)] else [];
      StatusesAppend(sent, tail);
      StatusesAppend(sent + tail, fb);
      StatusesAppend([tail[0]], [tail[1]]);
      assert tail == [tail[0]] + [tail[1]];
      assert Statuses(fb) == [];
  }

  /** In Assist mode a navigate, fill or click step is only shown: nothing is
      sent, the confirmation callback is not consulted, the context and the
      mode stay, and the payload carries the resolved link or value. */
  lemma AssistShowsWithoutDispatch(ctx: Record, i: int, step: Step, env: Env)
    requires !GoesToPage(step.action)
    ensures var e := StepSpec(Assist, ctx, i, step, env);
      e.result.status == AssistShown && e.result.data == BuildAssistData(step, ctx)
      && e.context == ctx && e.mode == Assist && NoSends(e.events) && NoConfirm(e.events)
    ensures step.action == Navigate ==>
      StepSpec(Assist, ctx, i, step, env).result.data.link == Some(ResolveTemplate(OrEmpty(step.params.url), ctx))
    ensures step.action == Fill ==>
      StepSpec(Assist, ctx, i, step, env).result.data.copyValue == Some(ResolveTemplate(OrEmpty(step.params.value), ctx))
  {
    var e := StepSpec(Assist, ctx, i, step, env);
    assert e.events == [Notified(i, Running, NoDetail), Notified(i, AssistShown, Payload(BuildAssistData(step, ctx))),
                        Logged(step.system, step.description, true, "")];
  }

  /** A declined confirmation skips the step: nothing is sent, the context and
      the mode are untouched. */
  lemma DeclinedSkips(mode: Mode, ctx: Record, i: int, step: Step)
    requires mode == Automate || GoesToPage(step.action)
    requires step.waitForConfirm != Some(false)
    ensures var e := StepSpec(mode, ctx, i, step, Env(Some(false), None, NoAnswer));
      e.result == StepResult(Skipped, NoData, None) && e.context == ctx && e.mode == mode
      && e.events == [Notified(i, Running, NoDetail), ConfirmAsked(i), Notified(i, Skipped, NoDetail)]
  {
  }

  /** Without a confirmation callback, or with `waitForConfirm: false`, a step
      that reaches the gate is dispatched and the callback is never called. */
  lemma {:induction false} UngatedStepProceeds(mode: Mode, ctx: Record, i: int, step: Step, env: Env)
    requires mode == Automate || GoesToPage(step.action)
    requires env.confirmer.None? || step.waitForConfirm == Some(false)
    ensures var e := StepSpec(mode, ctx, i, step, env);
      (e.result.status == Done || e.result.status == Error) && NoConfirm(e.events)
  {
    var g := AfterGate(mode, ctx, i, step, env);
    AfterGateStatuses(mode, ctx, i, step, env);
    var (sent, out) := Dispatch(step, ctx, env);
    DispatchOnlySends(step, ctx, env);
    assert NoConfirm(g.events) by {
      assert g.events[..|sent|] == sent;
      forall j | 0 <= j < |g.events| ensures !g.events[j].ConfirmAsked? {
        if j < |sent| {
          assert g.events[j] == sent[j];
        }
      }
    }
  }

  /** A confirmed step is dispatched after exactly one confirmation request. */
  lemma ConfirmedStepAsksOnce(mode: Mode, ctx: Record, i: int, step: Step, env: Env)
    requires mode == Automate || GoesToPage(step.action)
    requires step.waitForConfirm != Some(false) && env.confirmer == Some(true)
    ensures var e := StepSpec(mode, ctx, i, step, env);
      e.events[..2] == [Notified(i, Running, NoDetail), ConfirmAsked(i)]
      && e.events[2..] == AfterGate(mode, ctx, i, step, env).events
  {
  }

  /** The context only grows: a step never removes a key, only a parse or
      extract step changes it, and when it does the reply's data wins on
      every key it carries (`Object.assign`). */
  lemma StepContextMerge(mode: Mode, ctx: Record, i: int, step: Step, env: Env)
    ensures var c := StepSpec(mode, ctx, i, step, env).context;
      ctx.Keys <= c.Keys && (!GoesToPage(step.action) ==> c == ctx)
    ensures var c := StepSpec(mode, ctx, i, step, env).context;
      GoesToPage(step.action) && !(AsksConfirmation(step, env) && env.confirmer == Some(false))
      && TargetTab(step.params, env).1.Some? && env.reply.IsOk() && env.reply.data.Some? ==>
        c.Keys == ctx.Keys + env.reply.data.value.Keys
        && (forall k :: k in env.reply.data.value ==> c[k] == env.reply.data.value[k])
        && (forall k :: k in ctx && k !in env.reply.data.value ==> c[k] == ctx[k])
  {
  }

  /** An explicit truthy `tabId` wins: no FIND_TAB request is made and the
      message goes to that tab. */
  lemma ExplicitTabWins(ctx: Record, step: Step, env: Env)
    requires step.action == Fill || step.action == Click || GoesToPage(step.action)
    requires step.params.tabId.Some? && step.params.tabId.value != 0
    ensures var sent := Dispatch(step, ctx, env).0;
      |sent| == 1 && sent[0].request.SendToTab? && sent[0].request.tabId == step.params.tabId.value
  {
  }

  /** Without an explicit tab and without a pattern, nothing is sent and the
      step fails with the tab-not-found message. */
  lemma NoTabNoPattern(ctx: Record, step: Step, env: Env)
    requires step.action == Fill || step.action == Click || GoesToPage(step.action)
    requires !(step.params.tabId.Some? && step.params.tabId.value != 0) && !Present(step.params.urlPattern)
    ensures Dispatch(step, ctx, env) == ([], DErr("Вкладка не найдена: " + RenderField(step.params.urlPattern)))
  {
  }

  /** A fill message carries the resolved value under both `value` and
      `lineNumber`, whatever the extra parameters say, and every other extra
      parameter verbatim. */
  lemma FillSendsValueTwice(p: Params, v: string)
    ensures var m := FillMessage(p, v);
      m["value"] == Str(v) && m["lineNumber"] == Str(v)
      && (forall k :: k in p.extra && k != "value" && k != "lineNumber" ==> m[k] == p.extra[k])
      && ("type" !in p.extra ==> m["type"] == TypeField(p.fillMessage)["type"])
  {
  }

  /** The fallback callback is not called. */
  predicate NoFallback(evs: seq<Event>) {
    forall j :: 0 <= j < |evs| ==> !evs[j].FellBack?
  }

  lemma NoFallbackAppend(a: seq<Event>, b: seq<Event>)
    requires NoFallback(a) && NoFallback(b)
    ensures NoFallback(a + b)
  {
    forall j | 0 <= j < |a + b| ensures !(a + b)[j].FellBack? {
      if j < |a| {
        assert (a + b)[j] == a[j];
      } else {
        assert (a + b)[j] == b[j - |a|];
      }
    }
  }

  /** The last call of a non-empty tail is the last call overall, and the
      calls before it are the head followed by the rest of the tail. */
  lemma LastOfAppend(a: seq<Event>, b: seq<Event>)
    requires b != []
    ensures (a + b)[|a + b| - 1] == b[|b| - 1]
    ensures (a + b)[..|a + b| - 1] == a + b[..|b| - 1]
  {
    assert (a + b)[..|a + b| - 1] == a + b[..|b| - 1];
  }

  /** A failed dispatch: Assist afterwards, and the fallback callback is the
      last call exactly when the engine was in Automate, with none before it. */
  lemma GateErrorShape(mode: Mode, ctx: Record, i: int, step: Step, env: Env)
    requires AfterGate(mode, ctx, i, step, env).result.status == Error
    ensures var g := AfterGate(mode, ctx, i, step, env);
      g.mode == Assist && g.result.error.Some? && g.events != []
      && (mode == Automate <==> g.events[|g.events| - 1] == FellBack(i, g.result.error.value))
      && (mode == Automate ==> NoFallback(g.events[..|g.events| - 1]))
    ensures Dispatch(step, ctx, env).1 == DErr(AfterGate(mode, ctx, i, step, env).result.error.value)
  {
    var g := AfterGate(mode, ctx, i, step, env);
    var (sent, out) := Dispatch(step, ctx, env);
    DispatchOnlySends(step, ctx, env);
    var m := out.message;
    var reported := [Notified(i, Error, Reason(m)), Logged(step.system, step.description, false, m)];
    var core := sent + reported;
    if mode == Automate {
      NoFallbackAppend(sent, reported);
      assert g.events == core + [FellBack(i, m)];
      LastOfAppend(core, [FellBack(i, m)]);
    } else {
      assert g.events == core;
      LastOfAppend(sent, reported);
    }
  }

  /** The same after `running`: a confirmation asked before the dispatch
      does not move the fallback from the last place. */
  lemma RunningErrorShape(mode: Mode, ctx: Record, i: int, step: Step, env: Env)
    requires AfterRunning(mode, ctx, i, step, env).result.status == Error
    ensures var a := AfterRunning(mode, ctx, i, step, env);
      a.mode == Assist && a.result.error.Some? && a.events != []
      && (mode == Automate <==> a.events[|a.events| - 1] == FellBack(i, a.result.error.value))
      && (mode == Automate ==> NoFallback(a.events[..|a.events| - 1]))
    ensures Dispatch(step, ctx, env).1 == DErr(AfterRunning(mode, ctx, i, step, env).result.error.value)
  {
    var g := AfterGate(mode, ctx, i, step, env);
    assert !(mode == Assist && !GoesToPage(step.action));
    assert !(AsksConfirmation(step, env) && !env.confirmer.value);
    GateErrorShape(mode, ctx, i, step, env);
    if AsksConfirmation(step, env) {
      LastOfAppend([ConfirmAsked(i)], g.events);
      if mode == Automate {
        NoFallbackAppend([ConfirmAsked(i)], g.events[..|g.events| - 1]);
      }
    }
  }

  /** Any error ends in Assist mode; the fallback callback fires exactly
      when the engine was in Automate, once, as the last call. */
  lemma {:induction false} ErrorDowngrades(mode: Mode, ctx: Record, i: int, step: Step, env: Env)
    requires StepSpec(mode, ctx, i, step, env).result.status == Error
    ensures var e := StepSpec(mode, ctx, i, step, env);
      e.mode == Assist && e.result.error.Some?
      && (mode == Automate <==> e.events[|e.events| - 1] == FellBack(i, e.result.error.value))
      && (mode == Automate ==> NoFallback(e.events[..|e.events| - 1]))
    ensures Dispatch(step, ctx, env).1 == DErr(StepSpec(mode, ctx, i, step, env).result.error.value)
  {
    var a := AfterRunning(mode, ctx, i, step, env);
    RunningErrorShape(mode, ctx, i, step, env);
    LastOfAppend([Notified(i, Running, NoDetail)], a.events);
    if mode == Automate {
      NoFallbackAppend([Notified(i, Running, NoDetail)], a.events[..|a.events| - 1]);
    }
  }

  /** Once a parse, extract, fill or click message has a tab, its reply
      decides the outcome: a transport failure rejects with `lastError`, a
      reply that is not ok with `resp?.error` or the action's own message,
      and an ok reply resolves. */
  lemma NotOkReplyFails(step: Step, ctx: Record, env: Env)
    requires step.action in {Parse, Extract, Fill, Click} && TargetTab(step.params, env).1.Some?
    ensures var fallback :=
        if step.action == Fill then "Ошибка заполнения"
        else if step.action == Click then "Ошибка нажатия"
        else "Ошибка парсинга";
      var out := Dispatch(step, ctx, env).1;
      (env.reply.Failed? ==> out == DErr(env.reply.lastError))
      && (env.reply.NoAnswer? ==> out == DErr(fallback))
      && (env.reply.Answered? && !env.reply.ok ==>
            out == DErr(if env.reply.error != "" then env.reply.error else fallback))
      && (out.DOk? <==> env.reply.IsOk())
  {
  }

  /** A dispatch that is reached and fails ends the step with status `error`
      and exactly the dispatch's message, whatever the mode. */
  lemma ErrorCarriesMessage(mode: Mode, ctx: Record, i: int, step: Step, env: Env)
    requires !(mode == Assist && !GoesToPage(step.action))
    requires !(AsksConfirmation(step, env) && !env.confirmer.value)
    requires Dispatch(step, ctx, env).1.DErr?
    ensures StepSpec(mode, ctx, i, step, env).result == StepResult(Error, NoData, Some(Dispatch(step, ctx, env).1.message))
  {
  }

  /** A step that does not fail leaves the mode alone and never calls the fallback. */
  lemma {:induction false} SuccessKeepsMode(mode: Mode, ctx: Record, i: int, step: Step, env: Env)
    requires StepSpec(mode, ctx, i, step, env).result.status != Error
    ensures var e := StepSpec(mode, ctx, i, step, env);
      e.mode == mode && NoFallback(e.events)
  {
    var a := AfterRunning(mode, ctx, i, step, env);
    if !(mode == Assist && !GoesToPage(step.action)) && !(AsksConfirmation(step, env) && !env.confirmer.value) {
      var g := AfterGate(mode, ctx, i, step, env);
      var (sent, out) := Dispatch(step, ctx, env);
      DispatchOnlySends(step, ctx, env);
      NoFallbackAppend(sent, [Notified(i, Done, Payload(out.data)), Logged(step.system, step.description, true, "")]);
      if AsksConfirmation(step, env) {
        NoFallbackAppend([ConfirmAsked(i)], g.events);
      }
    }
    NoFallbackAppend([Notified(i, Running, NoDetail)], a.events);
  }

  /** A custom step (and any action the switch does not know) fails once it
      is dispatched, so in Automate it always downgrades the engine. */
  lemma CustomStepFails(ctx: Record, i: int, step: Step, env: Env)
    requires step.action == Custom
    requires !(AsksConfirmation(step, env) && !env.confirmer.value)
    ensures var e := StepSpec(Automate, ctx, i, step, env);
      e.result == StepResult(Error, NoData, Some("Неизвестное действие: custom"))
      && e.mode == Assist && e.context == ctx
      && e.events[|e.events| - 1] == FellBack(i, "Неизвестное действие: custom")
  {
    assert ActionName(Custom) == "custom";
    assert "Неизвестное действие: " + "custom" == "Неизвестное действие: custom";
    assert Dispatch(step, ctx, env) == ([], DErr("Неизвестное действие: custom"));
  }

  // ---------------------------------------------------------------------
  // Runs: runNext applied to each step in turn
  // ---------------------------------------------------------------------

  datatype RunOutcome = RunOutcome(mode: Mode, context: Record, results: seq<StepResult>)

  /** The steps from index i on, executed in order, each with its own oracle answers. */
  function Run(mode: Mode, ctx: Record, i: int, steps: seq<Step>, envs: seq<Env>): RunOutcome
    requires |envs| == |steps|
    decreases |steps|
  {
    if steps == [] then RunOutcome(mode, ctx, [])
    else
      var e := StepSpec(mode, ctx, i, steps[0], envs[0]);
      var rest := Run(e.mode, e.context, i + 1, steps[1..], envs[1..]);
      RunOutcome(rest.mode, rest.context, [e.result] + rest.results)
  }

  lemma {:induction false} RunResultsLength(mode: Mode, ctx: Record, i: int, steps: seq<Step>, envs: seq<Env>)
    requires |envs| == |steps|
    ensures |Run(mode, ctx, i, steps, envs).results| == |steps|
    decreases |steps|
  {
    if steps != [] {
      var e := StepSpec(mode, ctx, i, steps[0], envs[0]);
      RunResultsLength(e.mode, e.context, i + 1, steps[1..], envs[1..]);
    }
  }

  predicate HasError(rs: seq<StepResult>) {
    exists j :: 0 <= j < |rs| && rs[j].status == Error
  }

  /** The downgrade is permanent and the only way to leave Automate: a run
      ends in Assist exactly when it started there or some step failed. */
  lemma {:induction false} RunEndsInAssistIff(mode: Mode, ctx: Record, i: int, steps: seq<Step>, envs: seq<Env>)
    requires |envs| == |steps|
    ensures var r := Run(mode, ctx, i, steps, envs);
      r.mode == Assist <==> mode == Assist || HasError(r.results)
    decreases |steps|
  {
    if steps != [] {
      var e := StepSpec(mode, ctx, i, steps[0], envs[0]);
      if e.result.status == Error {
        ErrorDowngrades(mode, ctx, i, steps[0], envs[0]);
      } else {
        SuccessKeepsMode(mode, ctx, i, steps[0], envs[0]);
      }
      RunEndsInAssistIff(e.mode, e.context, i + 1, steps[1..], envs[1..]);
      var rest := Run(e.mode, e.context, i + 1, steps[1..], envs[1..]);
      var rs := [e.result] + rest.results;
      assert rs[0] == e.result;
      if HasError(rest.results) {
        var j :| 0 <= j < |rest.results| && rest.results[j].status == Error;
        assert rs[j + 1] == rest.results[j];
      }
      if HasError(rs) && e.result.status != Error {
        var j :| 0 <= j < |rs| && rs[j].status == Error;
        assert rest.results[j - 1] == rs[j];
      }
    }
  }

  /** Over a whole run the context never loses a key. */
  lemma {:induction false} RunContextGrows(mode: Mode, ctx: Record, i: int, steps: seq<Step>, envs: seq<Env>)
    requires |envs| == |steps|
    ensures ctx.Keys <= Run(mode, ctx, i, steps, envs).context.Keys
    decreases |steps|
  {
    if steps != [] {
      var e := StepSpec(mode, ctx, i, steps[0], envs[0]);
      StepContextMerge(mode, ctx, i, steps[0], envs[0]);
      RunContextGrows(e.mode, e.context, i + 1, steps[1..], envs[1..]);
    }
  }
}

/** The background service worker: the shared `state` record and the message
    switch that the content scripts and the side panel talk to. */
module ServiceWorker {
  import opened Text
  import opened Values
  import opened RecorderContent

  /** A browser tab as `chrome.tabs.query` reports it; `url` may be missing. */
  datatype Tab = Tab(id: int, url: Option<string>)

  /** The messages the switch handles; anything else falls to `default`. */
  datatype Msg =
    | OtrsDataReady(data: Value)
    | AccountingDataReady(data: Value)
    | RingmeDataReady(data: Value)
    | TeleoDataReady(data: Value)
    | LoginRequired(data: Value, system: string)
    | RecorderStep(step: RecordedStep)
    | GetState
    | SetMode(mode: string)
    | OpenTab(url: string, activate: Option<bool>)
    | FindTab(urlPattern: string)
    | SendToTab(tabId: int, message: Value)
    | StartRecording
    | StopRecording
    | GetRecordedSteps
    | ExecuteOnTab(tabId: int, message: Value)
    | ParseActiveTab(parseType: string)
    | OtherType(name: string)

  /** The outcome of `chrome.tabs.sendMessage`: the content script's reply,
      or `chrome.runtime.lastError`. */
  datatype Delivery = Delivered(resp: Value) | LastError(message: string)

  /** What the browser answers while a message is handled: all tabs, the
      active tab of the current window, the id `chrome.tabs.create` gives a
      new tab, and the outcome of a message sent to a tab. */
  datatype Env = Env(tabs: seq<Tab>, active: Option<Tab>, createdTabId: int, delivery: Delivery)

  /** The `state` record. */
  datatype State = State(
    ticketData: Value, accountingData: Value, ringmeData: Value, teleoData: Value,
    recording: bool, recordedSteps: seq<RecordedStep>, mode: string)

  const INITIAL := State(Null, Null, Null, Null, false, [], "assist")

  /** Messages to the side panel (`broadcastToSidePanel`). */
  datatype PanelMsg =
    | StateUpdate(key: string, data: Value)
    | LoginNotice(data: Value)
    | StepAdded(step: RecordedStep, total: nat)

  /** What handling a message does outside `state`. */
  datatype Effect =
    | Broadcast(msg: PanelMsg)
    | Log(system: string, action: string, success: bool, error: Option<string>)
    | CommandTab(tabId: int, command: string)
    | Forward(tabId: int, message: Value)
    | CreateTab(url: string, active: bool)

  /** The `sendResponse` argument, or none when the case does not answer. */
  datatype Response =
    | NoResponse
    | Ack
    | StateReply(state: State)
    | TabReply(tabId: Option<int>)
    | OpenedTab(newTabId: int)
    | StepsReply(steps: seq<RecordedStep>)
    | Relayed(resp: Value)
    | ErrorReply(error: string)

  const NO_ACTIVE_TAB := "Нет активной вкладки"

  const ALLOWED_PATTERNS: seq<string> :=
    ["otrs.tlpn", "intra10.office.tlpn", "ringmeadmin.tlpn", "apiproxy.telphin.ru", "teleo.telphin.ru"]

  // ---------------------------------------------------------------------
  // FIND_TAB and isAllowedUrl
  // ---------------------------------------------------------------------

  /** The `tabs.find` test: a truthy url that contains the pattern. */
  predicate UrlMatches(t: Tab, pattern: string) {
    t.url.Some? && t.url.value != "" && Contains(t.url.value, pattern)
  }

  /** `found?.id || null` over the tabs from index `from` on. */
  function FindTabFrom(tabs: seq<Tab>, pattern: string, from: nat): (r: Option<int>)
    requires from <= |tabs|
    ensures r.Some? <==> exists i :: from <= i < |tabs| && UrlMatches(tabs[i], pattern)
                          && tabs[i].id != 0
                          && forall j :: from <= j < i ==> !UrlMatches(tabs[j], pattern)
    ensures r.Some? ==> r.value != 0
    ensures r.Some? ==> exists i :: from <= i < |tabs| && UrlMatches(tabs[i], pattern) && tabs[i].id == r.value
    decreases |tabs| - from
  {
    if from == |tabs| then None
    else if tabs[from].url.Some? && tabs[from].url.value != "" && Includes(tabs[from].url.value, pattern) then
      (if tabs[from].id != 0 then Some(tabs[from].id) else None)
    else FindTabFrom(tabs, pattern, from + 1)
  }

  /** `FIND_TAB`: the id of the first tab whose url contains the pattern;
      null when there is none (and, through `|| null`, when that tab's id is 0). */
  function FindTabId(tabs: seq<Tab>, pattern: string): (r: Option<int>)
    ensures r.Some? ==> exists i :: 0 <= i < |tabs| && UrlMatches(tabs[i], pattern) && tabs[i].id == r.value
    ensures (forall i :: 0 <= i < |tabs| ==> !UrlMatches(tabs[i], pattern)) ==> r.None?
  {
    FindTabFrom(tabs, pattern, 0)
  }

  /** The first matching tab decides: a later match is never returned over it. */
  lemma FindTabFirst(tabs: seq<Tab>, pattern: string, k: nat)
    requires k < |tabs| && UrlMatches(tabs[k], pattern) && tabs[k].id != 0
    requires forall j :: 0 <= j < k ==> !UrlMatches(tabs[j], pattern)
    ensures FindTabId(tabs, pattern) == Some(tabs[k].id)
  {
    FindTabFromAt(tabs, pattern, 0, k);
  }

  lemma {:induction false} FindTabFromAt(tabs: seq<Tab>, pattern: string, from: nat, k: nat)
    requires from <= k < |tabs| && UrlMatches(tabs[k], pattern) && tabs[k].id != 0
    requires forall j :: from <= j < k ==> !UrlMatches(tabs[j], pattern)
    ensures FindTabFrom(tabs, pattern, from) == Some(tabs[k].id)
    decreases k - from
  {
    if from < k {
      FindTabFromAt(tabs, pattern, from + 1, k);
    }
  }

  /** `patterns.some(p => url.includes(p))` over `patterns[from..]`. */
  function SomeIncluded(url: string, patterns: seq<string>, from: nat): (b: bool)
    requires from <= |patterns|
    ensures b <==> exists i :: from <= i < |patterns| && Contains(url, patterns[i])
    decreases |patterns| - from
  {
    if from == |patterns| then false
    else Includes(url, patterns[from]) || SomeIncluded(url, patterns, from + 1)
  }

  /** `isAllowedUrl(url)`: the url names one of the five work hosts. */
  function IsAllowedUrl(url: string): (b: bool)
    ensures b <==> exists i :: 0 <= i < |ALLOWED_PATTERNS| && Contains(url, ALLOWED_PATTERNS[i])
  {
    SomeIncluded(url, ALLOWED_PATTERNS, 0)
  }

  /** A url containing a host pattern is allowed, whatever surrounds it. */
  lemma AllowedByHost(prefix: string, i: nat, suffix: string)
    requires i < |ALLOWED_PATTERNS|
    ensures IsAllowedUrl(prefix + ALLOWED_PATTERNS[i] + suffix)
  {
    var url := prefix + ALLOWED_PATTERNS[i] + suffix;
    assert url[|prefix|..|prefix| + |ALLOWED_PATTERNS[i]|] == ALLOWED_PATTERNS[i];
    assert OccursAt(url, ALLOWED_PATTERNS[i], |prefix|);
  }

  /** `chrome.tabs.onActivated`: while recording, a newly activated tab on an
      allowed host is told to start recording; `tab` is None when
      `chrome.tabs.get` fails. */
  function OnActivated(s: State, tabId: int, tab: Option<Tab>): (effects: seq<Effect>)
    ensures |effects| <= 1
    ensures effects != [] <==> s.recording && tab.Some? && tab.value.url.Some?
                               && tab.value.url.value != "" && IsAllowedUrl(tab.value.url.value)
    ensures effects != [] ==> effects == [CommandTab(tabId, "START_RECORDING")]
  {
    if s.recording && tab.Some? && tab.value.url.Some? && tab.value.url.value != ""
       && IsAllowedUrl(tab.value.url.value)
    then [CommandTab(tabId, "START_RECORDING")]
    else []
  }

  // ---------------------------------------------------------------------
  // The message switch as a specification
  // ---------------------------------------------------------------------

  /** The `state` after a message. The browser's answers never change it. */
  function NextState(s: State, msg: Msg): State {
    match msg
    case OtrsDataReady(d) => s.(ticketData := d)
    case AccountingDataReady(d) => s.(accountingData := d)
    case RingmeDataReady(d) => s.(ringmeData := d)
    case TeleoDataReady(d) => s.(teleoData := d)
    case RecorderStep(step) =>
      if s.recording then s.(recordedSteps := s.recordedSteps + [step]) else s
    case SetMode(m) => s.(mode := m)
    case StartRecording => s.(recording := true, recordedSteps := [])
    case StopRecording => s.(recording := false)
    case _ => s
  }

  /** A relayed tab reply: the content script's answer, or the lastError text. */
  function Relay(d: Delivery): Response {
    match d
    case Delivered(resp) => Relayed(resp)
    case LastError(m) => ErrorReply(m)
  }

  /** A `chrome.tabs.sendMessage` to the active tab, when there is one. */
  function ToActiveTab(env: Env, command: string): seq<Effect> {
    if env.active.Some? then [CommandTab(env.active.value.id, command)] else []
  }

  /** The reply and the effects of a message, handled in state `s`. */
  function Respond(s: State, msg: Msg, env: Env): (Response, seq<Effect>) {
    match msg
    case OtrsDataReady(d) =>
      (NoResponse, [Broadcast(StateUpdate("ticketData", d)), Log("OTRS", "Данные тикета получены", true, None)])
    case AccountingDataReady(d) =>
      (NoResponse, [Broadcast(StateUpdate("accountingData", d)), Log("Accounting", "Данные аккаунтинга получены", true, None)])
    case RingmeDataReady(d) =>
      (NoResponse, [Broadcast(StateUpdate("ringmeData", d)), Log("Ringme", "Данные Ringme получены", true, None)])
    case TeleoDataReady(d) =>
      (NoResponse, [Broadcast(StateUpdate("teleoData", d)), Log("Teleo", "Данные Teleo получены", true, None)])
    case LoginRequired(d, system) =>
      (NoResponse, [Broadcast(LoginNotice(d)),
                    Log(system, "Требуется авторизация", false, Some("Пользователь должен войти вручную"))])
    case RecorderStep(step) =>
      if s.recording then
        (NoResponse, [Broadcast(StepAdded(step, |s.recordedSteps| + 1)),
                      Log("Recorder", "Шаг записан: " + step.action + " на " + step.selector, true, None)])
      else (NoResponse, [])
    case GetState => (StateReply(s), [])
    case SetMode(m) => (Ack, [Log("System", "Режим изменён на: " + m, true, None)])
    case OpenTab(url, activate) =>
      (OpenedTab(env.createdTabId), [CreateTab(url, activate != Some(false))])
    case FindTab(pattern) => (TabReply(FindTabId(env.tabs, pattern)), [])
    case SendToTab(tabId, message) => (Relay(env.delivery), [Forward(tabId, message)])
    // The log entry is written synchronously; the command reaches the tab
    // later, from the callback of the active-tab query.
    case StartRecording =>
      (Ack, [Log("Recorder", "Запись начата", true, None)] + ToActiveTab(env, "START_RECORDING"))
    case StopRecording =>
      (StepsReply(s.recordedSteps),
       [Log("Recorder", "Запись завершена, " + NatToString(|s.recordedSteps|) + " шагов", true, None)]
       + ToActiveTab(env, "STOP_RECORDING"))
    case GetRecordedSteps => (StepsReply(s.recordedSteps), [])
    case ExecuteOnTab(tabId, message) => (Relay(env.delivery), [Forward(tabId, message)])
    case ParseActiveTab(parseType) =>
      if env.active.None? then (ErrorReply(NO_ACTIVE_TAB), [])
      else (Relay(env.delivery), [CommandTab(env.active.value.id, parseType)])
    case OtherType(_) => (NoResponse, [])
  }

  // ---------------------------------------------------------------------
  // Laws of the switch
  // ---------------------------------------------------------------------

  /** A message type the switch has no case for (the wizard's
      `RUNEXIS_FIND_TAB`, `RUNEXIS_ACTIVATE_TAB`, `RUNEXIS_OPEN_TAB` and
      `RUNEXIS_SEND_TO_TAB` among them) gets no answer, has no effect and
      leaves the state as it was. */
  lemma UnknownTypeUnanswered(s: State, name: string, env: Env)
    ensures Respond(s, OtherType(name), env) == (NoResponse, [])
    ensures NextState(s, OtherType(name)) == s
  {
  }

  /** Each data message overwrites its own slot and nothing else; no other
      message touches the four slots. */
  lemma DataSlotsIndependent(s: State, msg: Msg)
    ensures var t := NextState(s, msg);
      && (t.ticketData != s.ticketData ==> msg.OtrsDataReady?)
      && (t.accountingData != s.accountingData ==> msg.AccountingDataReady?)
      && (t.ringmeData != s.ringmeData ==> msg.RingmeDataReady?)
      && (t.teleoData != s.teleoData ==> msg.TeleoDataReady?)
      && (msg.OtrsDataReady? ==> t == s.(ticketData := msg.data))
      && (msg.AccountingDataReady? ==> t == s.(accountingData := msg.data))
      && (msg.RingmeDataReady? ==> t == s.(ringmeData := msg.data))
      && (msg.TeleoDataReady? ==> t == s.(teleoData := msg.data))
  {
  }

  /** Only `SET_MODE` changes the mode, and it changes nothing else. */
  lemma ModeOnlyBySetMode(s: State, msg: Msg)
    ensures NextState(s, msg).mode != s.mode ==> msg.SetMode?
    ensures msg.SetMode? ==> NextState(s, msg) == s.(mode := msg.mode)
  {
  }

  /** Only the three recorder messages touch the recording flag and the
      recorded steps; a step is appended only while recording. */
  lemma RecordingFrame(s: State, msg: Msg)
    ensures !(msg.StartRecording? || msg.StopRecording? || msg.RecorderStep?) ==>
      NextState(s, msg).recording == s.recording && NextState(s, msg).recordedSteps == s.recordedSteps
    ensures msg.RecorderStep? && !s.recording ==> NextState(s, msg) == s
    ensures msg.RecorderStep? && s.recording ==>
      NextState(s, msg).recordedSteps == s.recordedSteps + [msg.step] && NextState(s, msg).recording
  {
  }

  /** A message that is not one of the three recorder messages. */
  predicate NotRecorderControl(m: Msg) { !m.StartRecording? && !m.StopRecording? }

  /** The state after a sequence of messages. */
  function Replay(s: State, msgs: seq<Msg>): State {
    if msgs == [] then s else NextState(Replay(s, msgs[..|msgs| - 1]), msgs[|msgs| - 1])
  }

  /** The steps carried by the `RECORDER_STEP` messages, in order. */
  function StepsIn(msgs: seq<Msg>): (r: seq<RecordedStep>)
    ensures |r| <= |msgs|
  {
    if msgs == [] then []
    else
      var last := msgs[|msgs| - 1];
      StepsIn(msgs[..|msgs| - 1]) + (if last.RecorderStep? then [last.step] else [])
  }

  /** After `START_RECORDING`, as long as recording is neither started nor
      stopped again, the recorded steps are exactly the steps received, in
      order of arrival, whatever else arrives in between. */
  lemma {:induction false} RecordingAccumulates(s: State, msgs: seq<Msg>)
    requires forall i :: 0 <= i < |msgs| ==> NotRecorderControl(msgs[i])
    ensures Replay(NextState(s, StartRecording), msgs).recording
    ensures Replay(NextState(s, StartRecording), msgs).recordedSteps == StepsIn(msgs)
  {
    if msgs != [] {
      var n := |msgs| - 1;
      RecordingAccumulates(s, msgs[..n]);
    }
  }

  /** The two replies that carry the recorded steps. */
  lemma StepsReplies(s: State, env: Env)
    ensures Respond(s, StopRecording, env).0 == StepsReply(s.recordedSteps)
    ensures Respond(s, GetRecordedSteps, env).0 == StepsReply(s.recordedSteps)
  {
  }

  /** A full session: `STOP_RECORDING` answers with exactly the steps received
      since `START_RECORDING`, and they stay readable afterwards through
      `GET_RECORDED_STEPS` because stopping does not clear them. */
  lemma RecordingSession(s: State, msgs: seq<Msg>, env: Env, env2: Env)
    requires forall i :: 0 <= i < |msgs| ==> NotRecorderControl(msgs[i])
    ensures var during := Replay(NextState(s, StartRecording), msgs);
      && Respond(during, StopRecording, env).0 == StepsReply(StepsIn(msgs))
      && Respond(NextState(during, StopRecording), GetRecordedSteps, env2).0 == StepsReply(StepsIn(msgs))
      && !NextState(during, StopRecording).recording
  {
    RecordingAccumulates(s, msgs);
    StopThenRead(Replay(NextState(s, StartRecording), msgs), env, env2);
  }

  /** Stopping answers the recorded steps, and a later read answers them again. */
  lemma StopThenRead(during: State, env: Env, env2: Env)
    ensures Respond(during, StopRecording, env).0 == StepsReply(during.recordedSteps)
    ensures Respond(NextState(during, StopRecording), GetRecordedSteps, env2).0 == StepsReply(during.recordedSteps)
    ensures !NextState(during, StopRecording).recording
  {
    StepsReplies(during, env);
    StepsReplies(NextState(during, StopRecording), env2);
  }

  /** Once recording is stopped, further steps are dropped. */
  lemma {:induction false} StoppedIgnoresSteps(s: State, msgs: seq<Msg>)
    requires forall i :: 0 <= i < |msgs| ==> NotRecorderControl(msgs[i])
    ensures Replay(NextState(s, StopRecording), msgs).recordedSteps == s.recordedSteps
    ensures !Replay(NextState(s, StopRecording), msgs).recording
  {
    if msgs != [] {
      StoppedIgnoresSteps(s, msgs[..|msgs| - 1]);
    }
  }

  // ---------------------------------------------------------------------
  // The worker itself
  // ---------------------------------------------------------------------

  class Worker {
    var ticketData: Value
    var accountingData: Value
    var ringmeData: Value
    var teleoData: Value
    var recording: bool
    var recordedSteps: seq<RecordedStep>
    var mode: string

    function Snapshot(): State
      reads this
    {
      State(ticketData, accountingData, ringmeData, teleoData, recording, recordedSteps, mode)
    }

    constructor()
      ensures Snapshot() == INITIAL
    {
      ticketData, accountingData, ringmeData, teleoData := Null, Null, Null, Null;
      recording := false;
      recordedSteps := [];
      mode := "assist";
    }

    /** The `chrome.runtime.onMessage` listener. */
    method HandleMessage(msg: Msg, env: Env) returns (reply: Response, effects: seq<Effect>)
      modifies this
      ensures Snapshot() == NextState(old(Snapshot()), msg)
      ensures (reply, effects) == Respond(old(Snapshot()), msg, env)
    {
      reply, effects := Respond(Snapshot(), msg, env).0, Respond(Snapshot(), msg, env).1;
      match msg {
        case OtrsDataReady(d) => ticketData := d;
        case AccountingDataReady(d) => accountingData := d;
        case RingmeDataReady(d) => ringmeData := d;
        case TeleoDataReady(d) => teleoData := d;
        case RecorderStep(step) =>
          if recording {
            recordedSteps := recordedSteps + [step];
          }
        case SetMode(m) => mode := m;
        case StartRecording =>
          recording := true;
          recordedSteps := [];
        case StopRecording => recording := false;
        case _ =>
      }
    }
  }
}

/** The main screen's state and handlers (src/app/SimpleApp.tsx): the
    realtime session, the custom prompt and its stored copy, the selected
    agent, the scheduled reconnect, and the typed-question panel. Each
    handler is a method that changes the fields step by step as the source
    does; its contract ties the new state to the functions of the Session
    and Responses modules, where the properties are proved. */
module SimpleApp {
  import opened Wrappers
  import opened Text
  import opened Json
  import opened AgentConfigs
  import opened AgentSetup
  import opened Session
  import opened Responses
  import opened AudioDevices

  /** A typed question and the answer shown for it. */
  datatype QA = QA(question: string, answer: string)

  /** The settings the screen keeps besides the session. */
  datatype Prefs = Prefs(customPrompt: string, storedPrompt: Option<string>, selectedAgentName: string,
                         pendingReconnect: Option<Settings>)

  /** The typed-question panel's state. */
  datatype Panel = Panel(qaPairs: seq<QA>, currentQuestion: string, loadingQA: bool)

  /** The pairs with the answer of the last one replaced, as each reveal
      step does to the pair just asked. */
  function WithLastAnswer(qs: seq<QA>, answer: string): (r: seq<QA>)
    requires qs != []
    ensures |r| == |qs| && r[|r| - 1].answer == answer
  {
    qs[..|qs| - 1] + [qs[|qs| - 1].(answer := answer)]
  }

  /** Only the last reveal step leaves a trace. */
  lemma {:induction false} WithLastAnswerTwice(qs: seq<QA>, a: string, b: string)
    requires qs != []
    ensures WithLastAnswer(WithLastAnswer(qs, a), b) == WithLastAnswer(qs, b)
  {
    var r := WithLastAnswer(qs, a);
    assert r[..|r| - 1] == qs[..|qs| - 1];
  }

  /** The pairs after `i` steps of revealing `words` into the last pair. */
  ghost function Revealed(qs: seq<QA>, words: seq<string>, i: nat): (r: seq<QA>)
    requires qs != [] && i <= |words| + 1
    ensures |r| == |qs|
  {
    if i == 0 then qs else WithLastAnswer(qs, Concat(words[..i - 1]))
  }

  /** One more reveal step shows the first `i` tokens joined. */
  lemma {:induction false} RevealedStep(qs: seq<QA>, words: seq<string>, i: nat)
    requires qs != [] && i <= |words|
    ensures Revealed(qs, words, i + 1) == WithLastAnswer(Revealed(qs, words, i), Concat(words[..i]))
  {
    if i > 0 {
      WithLastAnswerTwice(qs, Concat(words[..i - 1]), Concat(words[..i]));
    }
  }

  /** Revealing into a pair just appended with an empty answer leaves the
      earlier pairs alone and completes the new one. */
  lemma {:induction false} WithLastAnswerOfAppended(qs: seq<QA>, question: string, answer: string)
    ensures WithLastAnswer(qs + [QA(question, "")], answer) == qs + [QA(question, answer)]
  {
    var t := qs + [QA(question, "")];
    assert t[..|t| - 1] == qs;
  }

  /** A prompt set through `handleSetCustomPrompt` is stored, and a screen
      mounted afterwards from what was stored starts with that prompt. */
  method PromptSurvivesReload(app: App, prompt: string) returns (reloaded: App)
    modifies app
    ensures reloaded.customPrompt == prompt && reloaded.storedPrompt == Some(prompt)
  {
    app.HandleSetCustomPrompt(prompt);
    reloaded := new App(app.storedPrompt);
  }

  class App {
    var status: SessionStatus
    var isListening: bool
    var calls: seq<SdkCall>
    var customPrompt: string
    var storedPrompt: Option<string>
    var selectedAgentName: string
    var pendingReconnect: Option<Settings>
    var qaPairs: seq<QA>
    var currentQuestion: string
    var loadingQA: bool
    const devices: Registry

    function SessionOf(): SessionState
      reads this
    {
      SessionState(status, isListening, calls)
    }

    function SettingsOf(): Settings
      reads this, devices
    {
      Settings(customPrompt, selectedAgentName, devices.selectedDeviceId)
    }

    function PrefsOf(): Prefs
      reads this
    {
      Prefs(customPrompt, storedPrompt, selectedAgentName, pendingReconnect)
    }

    function PanelOf(): Panel
      reads this
    {
      Panel(qaPairs, currentQuestion, loadingQA)
    }

    /** The screen as it mounts: disconnected, not listening, no agent
        selected yet, the stored prompt (if any) as the custom prompt, and
        a fresh microphone registry. */
    constructor (stored: Option<string>)
      ensures SessionOf() == SessionState(Disconnected, false, [])
      ensures PrefsOf() == Prefs(InitialPrompt(stored), stored, "", None)
      ensures PanelOf() == Panel([], "", false)
      ensures fresh(devices) && devices.State() == RegistryState([], "", true, None)
    {
      status := Disconnected;
      isListening := false;
      calls := [];
      customPrompt := InitialPrompt(stored);
      storedPrompt := stored;
      selectedAgentName := "";
      pendingReconnect := None;
      qaPairs := [];
      currentQuestion := "";
      loadingQA := false;
      devices := new Registry();
    }

    /** The effect that reads the `agentConfig` parameter: a missing key,
        or one that does not look up as truthy, sends the page to the
        default scenario (the redirect returned); a scenario key selects its
        first agent; an inherited property name has no first agent, so it
        selects "". */
    method SelectScenario(param: Option<string>) returns (redirect: Option<string>)
      modifies this
      ensures param.None? || !LooksUpTruthy(param.value) ==>
                redirect == Some(DefaultAgentSetKey) && PrefsOf() == old(PrefsOf())
      ensures param.Some? && param.value in AllAgentSets ==>
                redirect.None? && selectedAgentName == AllAgentSets[param.value][0].name
      ensures param.Some? && param.value !in AllAgentSets && param.value in InheritedNames ==>
                redirect.None? && selectedAgentName == ""
      ensures SessionOf() == old(SessionOf()) && PanelOf() == old(PanelOf())
      ensures customPrompt == old(customPrompt) && storedPrompt == old(storedPrompt)
      ensures pendingReconnect == old(pendingReconnect)
    {
      if param.None? || param.value == "" || !LooksUpTruthy(param.value) {
        return Some(DefaultAgentSetKey);
      }
      if param.value !in AllAgentSets {
        // A function or the prototype object: `agents[0]?.name` is undefined.
        selectedAgentName := "";
        return None;
      }
      var agents := AllAgentSets[param.value];
      selectedAgentName := if |agents| > 0 && agents[0].name != "" then agents[0].name else "";
      return None;
    }

    /** The SDK's hand-off callback selects the agent handed to. */
    method OnAgentHandoff(agentName: string)
      modifies this
      ensures PrefsOf() == old(PrefsOf()).(selectedAgentName := agentName)
      ensures SessionOf() == old(SessionOf()) && PanelOf() == old(PanelOf())
    {
      selectedAgentName := agentName;
    }

    /** The SDK's status callback. */
    method OnConnectionChange(reported: SessionStatus)
      modifies this
      ensures SessionOf() == StatusChanged(old(SessionOf()), reported)
      ensures PrefsOf() == old(PrefsOf()) && PanelOf() == old(PanelOf())
    {
      status := reported;
    }

    /** `connectToRealtime`. */
    method ConnectToRealtime(param: Option<string>, reply: CredentialReply, sdk: SdkOutcome)
      modifies this
      ensures SessionOf() == Connect(old(SessionOf()), old(SettingsOf()), param, reply, sdk).state
      ensures PrefsOf() == old(PrefsOf()) && PanelOf() == old(PanelOf())
    {
      ConnectSeen(status, SettingsOf(), param, reply, sdk);
    }

    /** The body of `connectToRealtime` run by a closure that saw the
        status `seen` and the settings `settings`; the status it sets and
        the SDK call it makes act on the current session. */
    method ConnectSeen(seen: SessionStatus, settings: Settings, param: Option<string>,
                       reply: CredentialReply, sdk: SdkOutcome)
      modifies this
      ensures SessionOf() == ConnectSeeing(old(SessionOf()), seen, settings, param, reply, sdk).state
      ensures PrefsOf() == old(PrefsOf()) && PanelOf() == old(PanelOf())
    {
      var key := AgentSetKey(param);
      if !LooksUpTruthy(key) {
        return;
      }
      if seen != Disconnected {
        return;
      }
      status := Connecting;
      var ephemeralKey := FetchEphemeralKey(reply);
      if ephemeralKey.None? {
        status := Disconnected;
        return;
      }
      if key !in AllAgentSets {
        // Spreading an inherited member throws; the catch disconnects.
        status := Disconnected;
        return;
      }
      var agents := ReorderAgents(AllAgentSets[key], settings.agentName);
      agents := ApplyCustomPrompt(agents, settings.customPrompt);
      assert agents == ConnectAgents(key, settings);
      calls := calls + [SdkConnect(ephemeralKey.value, agents, settings.deviceId)];
      if sdk.reported != [] {
        status := Last(sdk.reported);
      }
      if sdk.SdkThrew? {
        status := Disconnected;
      }
    }

    method DisconnectFromRealtime()
      modifies this
      ensures SessionOf() == Disconnect(old(SessionOf()))
      ensures PrefsOf() == old(PrefsOf()) && PanelOf() == old(PanelOf())
    {
      calls := calls + [SdkDisconnect];
      status := Disconnected;
      isListening := false;
    }

    /** `updateSession`. */
    method UpdateSession(triggerResponse: bool, hiId: string)
      modifies this
      ensures SessionOf() == old(SessionOf()).(calls := old(calls) + UpdateSessionCalls(triggerResponse, hiId))
      ensures PrefsOf() == old(PrefsOf()) && PanelOf() == old(PanelOf())
    {
      calls := calls + [SendEvent(SessionUpdate(ContinuousListening))];
      calls := calls + [Mute(false)];
      if triggerResponse {
        calls := calls + [SendEvent(ConversationItemCreate(hiId, "hi"))];
        calls := calls + [SendEvent(ResponseCreate)];
      }
    }

    /** `handleStartListening`. */
    method HandleStartListening(param: Option<string>, reply: CredentialReply, sdk: SdkOutcome, hiId: string)
      modifies this
      ensures SessionOf() == StartListening(old(SessionOf()), old(SettingsOf()), param, reply, sdk, hiId)
      ensures PrefsOf() == old(PrefsOf()) && PanelOf() == old(PanelOf())
    {
      if status == Connected {
        isListening := true;
        calls := calls + [Mute(false)];
        UpdateSession(false, hiId);
      } else {
        ConnectToRealtime(param, reply, sdk);
        isListening := true;
        UpdateSession(true, hiId);
      }
    }

    /** `handleStopListening`. */
    method HandleStopListening()
      modifies this
      ensures SessionOf() == StopListening(old(SessionOf()))
      ensures PrefsOf() == old(PrefsOf()) && PanelOf() == old(PanelOf())
    {
      isListening := false;
      calls := calls + [Mute(true)];
      calls := calls + [Interrupt];
    }

    /** `handleMicrophoneChange`: select the device, and disconnect when
        connected. */
    method HandleMicrophoneChange(deviceId: string)
      modifies this, devices
      ensures devices.State() == old(devices.State()).(selectedDeviceId := deviceId)
      ensures SessionOf() == DisconnectIfConnected(old(SessionOf()))
      ensures PrefsOf() == old(PrefsOf()) && PanelOf() == old(PanelOf())
    {
      devices.SetSelectedDeviceId(deviceId);
      if status == Connected {
        DisconnectFromRealtime();
      }
    }

    /** `handleSetCustomPrompt`: keep and store the prompt; when connected,
        disconnect and schedule a reconnect. */
    method HandleSetCustomPrompt(prompt: string)
      modifies this
      ensures customPrompt == prompt && storedPrompt == Some(prompt)
      ensures selectedAgentName == old(selectedAgentName)
      ensures old(status) == Connected ==> pendingReconnect == Some(old(SettingsOf()))
      ensures old(status) != Connected ==> pendingReconnect == old(pendingReconnect)
      ensures SessionOf() == DisconnectIfConnected(old(SessionOf()))
      ensures PanelOf() == old(PanelOf())
    {
      var seenSettings := SettingsOf();
      customPrompt := prompt;
      storedPrompt := Some(prompt);
      if status == Connected {
        DisconnectFromRealtime();
        pendingReconnect := Some(seenSettings);
      }
    }

    /** The scheduled reconnect firing. The timer runs the
        `connectToRealtime` of the render that scheduled it, which saw the
        status CONNECTED and the settings recorded in `pendingReconnect`. */
    method FireReconnect(param: Option<string>, reply: CredentialReply, sdk: SdkOutcome)
      requires pendingReconnect.Some?
      modifies this
      ensures SessionOf() == ReconnectAsWritten(old(SessionOf()), old(pendingReconnect.value), param, reply, sdk).state
      ensures PrefsOf() == old(PrefsOf()).(pendingReconnect := None) && PanelOf() == old(PanelOf())
    {
      var seenSettings := pendingReconnect.value;
      pendingReconnect := None;
      ConnectSeen(Connected, seenSettings, param, reply, sdk);
    }

    /** Typing in the question box. */
    method SetCurrentQuestion(text: string)
      modifies this
      ensures PanelOf() == old(PanelOf()).(currentQuestion := text)
      ensures SessionOf() == old(SessionOf()) && PrefsOf() == old(PrefsOf())
    {
      currentQuestion := text;
    }

    /** `handleQASubmit`: a blank question is ignored; otherwise the trimmed
        question is shown at once with an empty answer, the answer is taken
        from the reply and then revealed. `frames` are the answers shown, in
        order. */
    method HandleQASubmit(reply: ResponsesReply) returns (frames: seq<string>)
      modifies this`qaPairs, this`loadingQA, this`currentQuestion
      ensures Trim(old(currentQuestion)) == "" ==> PanelOf() == old(PanelOf()) && frames == []
      ensures Trim(old(currentQuestion)) != "" ==> currentQuestion == ""
      ensures Trim(old(currentQuestion)) != "" && AnswerOf(reply).JStr? ==>
                && qaPairs == old(qaPairs) + [QA(Trim(old(currentQuestion)), AnswerOf(reply).s)]
                && frames == RevealFrames(SplitKeepingSpaces(AnswerOf(reply).s)) && !loadingQA
      ensures Trim(old(currentQuestion)) != "" && !AnswerOf(reply).JStr? ==>
                qaPairs == old(qaPairs) + [QA(Trim(old(currentQuestion)), "")] && frames == [] && loadingQA
    {
      var question := Trim(currentQuestion);
      if question == "" {
        frames := [];
      } else {
        loadingQA := true;
        currentQuestion := "";
        qaPairs := qaPairs + [QA(question, "")];
        var answer := AnswerOf(reply);
        if answer.JStr? {
          frames := RevealAnswer(answer.s);
          WithLastAnswerOfAppended(old(qaPairs), question, answer.s);
        } else {
          // `answer.split` is not a function here: the handler throws.
          frames := [];
        }
      }
    }

    /** The reveal: the answer split into words and the white space
        between them, and the last pair's answer set to the first `i`
        tokens for `i` from 0 to all of them, one step per timer tick; then
        loading ends. */
    method RevealAnswer(answer: string) returns (frames: seq<string>)
      requires qaPairs != []
      modifies this`qaPairs, this`loadingQA
      ensures qaPairs == WithLastAnswer(old(qaPairs), answer)
      ensures frames == RevealFrames(SplitKeepingSpaces(answer)) && !loadingQA
    {
      var words := SplitKeepingSpaces(answer);
      ghost var all := RevealFrames(words);
      ghost var before := qaPairs;
      frames := [];
      var i := 0;
      while i <= |words|
        invariant 0 <= i <= |words| + 1
        invariant frames == all[..i]
        invariant qaPairs == Revealed(before, words, i)
      {
        var shown := Concat(words[..i]);
        RevealFramesSnoc(words, i);
        RevealedStep(before, words, i);
        qaPairs := WithLastAnswer(qaPairs, shown);
        frames := frames + [shown];
        i := i + 1;
      }
      assert words[..|words|] == words;
      assert frames == all;
      loadingQA := false;
    }
  }
}

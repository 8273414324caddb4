/** The realtime session of the main screen (src/app/SimpleApp.tsx): its
    status, the listening flag, and the calls made on the realtime SDK,
    driven by connect, disconnect, start and stop listening, a microphone
    change, a custom-prompt change and the SDK's status reports. The
    credential request and the SDK's connect are inputs: their outcomes are
    parameters. */
module Session {
  import opened Wrappers
  import opened Json
  import opened AgentConfigs
  import opened AgentSetup

  datatype SessionStatus = Disconnected | Connecting | Connected

  /** Server-side voice activity detection, as the session is configured
      for continuous listening. */
  datatype TurnDetection = TurnDetection(kind: string, threshold: real, prefixPaddingMs: nat,
                                         silenceDurationMs: nat, createResponse: bool)

  const ContinuousListening: TurnDetection := TurnDetection("server_vad", 0.9, 300, 500, true)

  /** The events sent over the realtime connection. */
  datatype ClientEvent =
    | SessionUpdate(turnDetection: TurnDetection)
    | ConversationItemCreate(itemId: string, text: string)
    | ResponseCreate

  /** A call made on the realtime SDK. */
  datatype SdkCall =
    | SdkConnect(key: Json, agents: seq<Agent>, deviceId: string)
    | SdkDisconnect
    | SendEvent(event: ClientEvent)
    | Mute(muted: bool)
    | Interrupt

  /** What the request for a session credential gave: a response with its
      `ok` flag and parsed body, or the error thrown by `fetch` or by the
      body parser. */
  datatype CredentialReply = TokenResponse(ok: bool, body: Json) | TokenThrew(message: string)

  /** What the SDK's connect did: the statuses it reported through the
      status callback while connecting, and whether it then returned or
      threw. */
  datatype SdkOutcome = SdkReturned(reported: seq<SessionStatus>) | SdkThrew(reported: seq<SessionStatus>)

  /** The session part of the screen's state. */
  datatype SessionState = SessionState(status: SessionStatus, isListening: bool, calls: seq<SdkCall>)

  /** What a connect reads besides the status: the custom prompt, the
      selected agent and the selected microphone. */
  datatype Settings = Settings(customPrompt: string, agentName: string, deviceId: string)

  /** `searchParams.get("agentConfig") || "default"`. */
  function AgentSetKey(param: Option<string>): (key: string)
    ensures key != ""
    ensures param.Some? && param.value != "" ==> key == param.value
    ensures param.None? || param.value == "" ==> key == "default"
  {
    if param.Some? && param.value != "" then param.value else "default"
  }

  /** `data.client_secret?.value` */
  function ClientSecret(body: Json): Option<Json> {
    Field(Field(Some(body), "client_secret"), "value")
  }

  /** `fetchEphemeralKey`: the credential, or nothing when the response is
      not OK, has no truthy `client_secret.value`, or the request threw. */
  function FetchEphemeralKey(reply: CredentialReply): (key: Option<Json>)
    ensures key.Some? <==> reply.TokenResponse? && reply.ok && TruthyOpt(ClientSecret(reply.body))
    ensures key.Some? ==> Truthy(key.value) && key == ClientSecret(reply.body)
  {
    match reply
    case TokenThrew(_) => None
    case TokenResponse(ok, body) =>
      if !ok then None
      else if !TruthyOpt(ClientSecret(body)) then None
      else ClientSecret(body)
  }

  /** The agents a connect hands to the SDK: the scenario's list with the
      selected agent in front and the custom prompt applied. */
  function ConnectAgents(key: string, settings: Settings): seq<Agent>
    requires key in AllAgentSets
  {
    ApplyCustomPrompt(Reordered(AllAgentSets[key], settings.agentName), settings.customPrompt)
  }

  function Last<T>(s: seq<T>): T
    requires s != []
  {
    s[|s| - 1]
  }

  /** One run of `connectToRealtime`: the state it leaves and the statuses
      set during it, in order. */
  datatype ConnectRun = ConnectRun(state: SessionState, statusUpdates: seq<SessionStatus>)

  /** `connectToRealtime` as it runs when the status and settings it reads
      are `seen` and `settings` (the current ones, or those of an older
      render when the call comes from a stale closure). It does nothing
      unless the scenario key looks up as truthy and the status it sees is
      DISCONNECTED; otherwise it sets CONNECTING first, and ends
      DISCONNECTED when the credential is missing, when the key is only an
      inherited property name (copying that member throws), or when the
      SDK throws. */
  function ConnectSeeing(st: SessionState, seen: SessionStatus, settings: Settings, param: Option<string>,
                         reply: CredentialReply, sdk: SdkOutcome): (r: ConnectRun)
    ensures r.state.isListening == st.isListening
    ensures r.statusUpdates == [] <==> !LooksUpTruthy(AgentSetKey(param)) || seen != Disconnected
    ensures r.statusUpdates == [] ==> r.state == st
    ensures r.statusUpdates != [] ==>
              r.statusUpdates[0] == Connecting && r.state.status == Last(r.statusUpdates)
    ensures r.statusUpdates != [] && (FetchEphemeralKey(reply).None? || sdk.SdkThrew?) ==>
              r.state.status == Disconnected
    ensures r.statusUpdates != [] && (FetchEphemeralKey(reply).None? || AgentSetKey(param) !in AllAgentSets) ==>
              r.state == st.(status := Disconnected) && r.statusUpdates == [Connecting, Disconnected]
    ensures r.statusUpdates != [] && FetchEphemeralKey(reply).Some? && AgentSetKey(param) in AllAgentSets
              && sdk.SdkReturned? ==>
              r.statusUpdates == [Connecting] + sdk.reported
    ensures r.statusUpdates != [] && FetchEphemeralKey(reply).Some? && AgentSetKey(param) in AllAgentSets
              && sdk.SdkThrew? ==>
              r.statusUpdates == [Connecting] + sdk.reported + [Disconnected]
    ensures r.statusUpdates != [] && FetchEphemeralKey(reply).Some? && AgentSetKey(param) in AllAgentSets ==>
              r.state.calls == st.calls + [SdkConnect(FetchEphemeralKey(reply).value,
                                                      ConnectAgents(AgentSetKey(param), settings),
                                                      settings.deviceId)]
  {
    var key := AgentSetKey(param);
    if !LooksUpTruthy(key) || seen != Disconnected then ConnectRun(st, [])
    else
      match FetchEphemeralKey(reply)
      case None => ConnectRun(st.(status := Disconnected), [Connecting, Disconnected])
      case Some(k) =>
        if key !in AllAgentSets then
          // Spreading an inherited member throws; the catch disconnects.
          ConnectRun(st.(status := Disconnected), [Connecting, Disconnected])
        else
          var updates := [Connecting] + sdk.reported + (if sdk.SdkThrew? then [Disconnected] else []);
          var calls := st.calls + [SdkConnect(k, ConnectAgents(key, settings), settings.deviceId)];
          ConnectRun(SessionState(Last(updates), st.isListening, calls), updates)
  }

  /** `?agentConfig=toString` gets past the scenario check: the session goes
      CONNECTING, asks for a credential, and falls back to DISCONNECTED with
      no SDK connect even when a credential arrives. */
  lemma {:induction false} InheritedKeyConnectFails(st: SessionState, settings: Settings,
                                                    reply: CredentialReply, sdk: SdkOutcome)
    requires st.status == Disconnected
    ensures var run := ConnectSeeing(st, Disconnected, settings, Some("toString"), reply, sdk);
            && run.statusUpdates == [Connecting, Disconnected]
            && run.state.status == Disconnected && run.state.calls == st.calls
  {
    assert LooksUpTruthy("toString") && "toString" !in AllAgentSets;
  }

  /** `connectToRealtime` called from the current render. */
  function Connect(st: SessionState, settings: Settings, param: Option<string>,
                   reply: CredentialReply, sdk: SdkOutcome): ConnectRun
  {
    ConnectSeeing(st, st.status, settings, param, reply, sdk)
  }

  /** A second connect while the first is under way or done does nothing:
      only a DISCONNECTED session starts connecting. */
  lemma {:induction false} ConnectOnlyFromDisconnected(st: SessionState, settings: Settings, param: Option<string>,
                                    reply: CredentialReply, sdk: SdkOutcome,
                                    reply2: CredentialReply, sdk2: SdkOutcome)
    requires AgentSetKey(param) in AllAgentSets && st.status == Disconnected
    requires FetchEphemeralKey(reply).Some? && sdk == SdkReturned([])
    ensures var first := Connect(st, settings, param, reply, sdk).state;
            && first.status == Connecting
            && Connect(first, settings, param, reply2, sdk2) == ConnectRun(first, [])
  {
  }

  /** `disconnectFromRealtime`. */
  function Disconnect(st: SessionState): SessionState {
    SessionState(Disconnected, false, st.calls + [SdkDisconnect])
  }

  /** Whatever the state, a disconnect leaves the session DISCONNECTED and
      not listening, so doing it twice leaves the same status and flag. */
  lemma {:induction false} DisconnectIdempotent(st: SessionState)
    ensures Disconnect(st).status == Disconnected && !Disconnect(st).isListening
    ensures Disconnect(Disconnect(st)).status == Disconnect(st).status
    ensures Disconnect(Disconnect(st)).isListening == Disconnect(st).isListening
    ensures Disconnect(st).calls == st.calls + [SdkDisconnect]
  {
  }

  /** The calls of `updateSession`: continuous listening configured, the
      microphone unmuted, and, when a response is wanted, the simulated
      user message "hi" (under the id `hiId`) followed by a response
      request. */
  function UpdateSessionCalls(triggerResponse: bool, hiId: string): seq<SdkCall> {
    [SendEvent(SessionUpdate(ContinuousListening)), Mute(false)]
    + (if triggerResponse then [SendEvent(ConversationItemCreate(hiId, "hi")), SendEvent(ResponseCreate)] else [])
  }

  /** `handleStartListening`: when connected, listen and unmute at once;
      otherwise connect first and then listen and greet, whatever the
      connect achieved. */
  function StartListening(st: SessionState, settings: Settings, param: Option<string>,
                          reply: CredentialReply, sdk: SdkOutcome, hiId: string): (r: SessionState)
    ensures r.isListening
    ensures st.status == Connected ==>
              r == SessionState(Connected, true, st.calls + [Mute(false)] + UpdateSessionCalls(false, hiId))
    ensures st.status != Connected ==>
              var c := Connect(st, settings, param, reply, sdk).state;
              r == SessionState(c.status, true, c.calls + UpdateSessionCalls(true, hiId))
  {
    if st.status == Connected then
      st.(isListening := true, calls := st.calls + [Mute(false)] + UpdateSessionCalls(false, hiId))
    else
      var c := Connect(st, settings, param, reply, sdk).state;
      c.(isListening := true, calls := c.calls + UpdateSessionCalls(true, hiId))
  }

  /** Starting to listen from a disconnected session sets the flag even
      when no connection came of it: a failed credential request leaves the
      session DISCONNECTED yet listening, with no connect call made. */
  lemma {:induction false} StartListeningAfterFailedConnect(st: SessionState, settings: Settings, param: Option<string>,
                                         reply: CredentialReply, sdk: SdkOutcome, hiId: string)
    requires st.status == Disconnected && FetchEphemeralKey(reply).None?
    ensures var r := StartListening(st, settings, param, reply, sdk, hiId);
            && r.status == Disconnected && r.isListening
            && r.calls == st.calls + UpdateSessionCalls(true, hiId)
  {
  }

  /** `handleStopListening`: stop listening, mute and interrupt; the
      session stays as it is. */
  function StopListening(st: SessionState): (r: SessionState)
    ensures r.status == st.status && !r.isListening
    ensures r.calls == st.calls + [Mute(true), Interrupt]
  {
    SessionState(st.status, false, st.calls + [Mute(true), Interrupt])
  }

  /** The session part of `handleMicrophoneChange` and of
      `handleSetCustomPrompt`: a disconnect, only when connected. */
  function DisconnectIfConnected(st: SessionState): (r: SessionState)
    ensures st.status == Connected ==> r == Disconnect(st)
    ensures st.status != Connected ==> r == st
  {
    if st.status == Connected then Disconnect(st) else st
  }

  /** The status callback: the SDK's report replaces the status. */
  function StatusChanged(st: SessionState, reported: SessionStatus): (r: SessionState)
    ensures r.status == reported && r.isListening == st.isListening && r.calls == st.calls
  {
    st.(status := reported)
  }

  /** The custom prompt the screen starts with: the stored one, or "". */
  function InitialPrompt(stored: Option<string>): (p: string)
    ensures stored.Some? ==> p == stored.value
    ensures stored.None? ==> p == ""
  {
    if stored.Some? then stored.value else ""
  }

  // ---------------------------------------------------------------------
  // The reconnect scheduled by a custom-prompt change
  // ---------------------------------------------------------------------

  /** The reconnect as written: the timer calls the `connectToRealtime` of
      the render in which the prompt was changed, which sees the status
      CONNECTED (the only status under which a reconnect is scheduled) and
      the previous prompt. */
  function ReconnectAsWritten(st: SessionState, oldSettings: Settings, param: Option<string>,
                              reply: CredentialReply, sdk: SdkOutcome): ConnectRun
  {
    ConnectSeeing(st, Connected, oldSettings, param, reply, sdk)
  }

  /** As written, a custom-prompt change while connected disconnects and
      never reconnects: the scheduled connect changes nothing and calls no
      SDK connect, whatever the credential and SDK would have done. */
  lemma {:induction false} StaleReconnectNeverConnects(st: SessionState, oldSettings: Settings, param: Option<string>,
                                    reply: CredentialReply, sdk: SdkOutcome)
    requires st.status == Connected
    ensures var after := DisconnectIfConnected(st);
            && ReconnectAsWritten(after, oldSettings, param, reply, sdk) == ConnectRun(after, [])
            && after.status == Disconnected
  {
  }

  /** The reconnect as intended: the current status and settings are read
      when the timer fires. */
  function Reconnect(st: SessionState, settings: Settings, param: Option<string>,
                     reply: CredentialReply, sdk: SdkOutcome): ConnectRun
  {
    Connect(st, settings, param, reply, sdk)
  }

  /** With the current state read, a prompt change while connected
      disconnects, then connects again with the new prompt as the first
      agent's instructions. */
  lemma {:induction false} ReconnectAppliesNewPrompt(st: SessionState, settings: Settings, param: Option<string>,
                                  reply: CredentialReply, sdk: SdkOutcome)
    requires st.status == Connected && settings.customPrompt != ""
    requires AgentSetKey(param) in AllAgentSets && FetchEphemeralKey(reply).Some?
    ensures var after := DisconnectIfConnected(st);
            var run := Reconnect(after, settings, param, reply, sdk);
            && run.statusUpdates != [] && run.statusUpdates[0] == Connecting
            && |run.state.calls| == |st.calls| + 2
            && run.state.calls[|st.calls|] == SdkDisconnect
            && Last(run.state.calls).SdkConnect?
            && Last(run.state.calls).agents != []
            && Last(run.state.calls).agents[0].instructions == settings.customPrompt
  {
    var key := AgentSetKey(param);
    ReorderedPutsSelectedFirst(AllAgentSets[key], settings.agentName);
  }
}

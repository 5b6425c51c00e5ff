/** The connection state kept for the Hugging Face Hub API server: at most
    one current session, replaced by `connect`, cleared by a successful
    `disconnect`, and the transport reached only through a `HubClient`. */
module Sessions {
  import opened Options
  import opened Values

  /** A request the session layer makes of the transport. */
  datatype Request =
    | ConnectRequest(token: Option<string>)
    | ListToolsRequest
    | DisconnectRequest
    | CallRequest(tool: string, args: Dict)

  /** The transport to the API server. Its answers are fixed when it is
      built (they stand for whatever the network returns, `Raised` for an
      exception); what it has been asked is recorded in `log`. */
  class HubClient {
    /** The server address the client library targets. */
    const serverUrl: string
    const connectReply: Outcome<bool>
    const toolsReply: Outcome<seq<ListedTool>>
    const disconnectReply: Outcome<bool>
    const callReply: (string, Dict) -> Outcome<Json>
    var log: seq<Request>

    constructor(serverUrl: string, connectReply: Outcome<bool>, toolsReply: Outcome<seq<ListedTool>>,
                disconnectReply: Outcome<bool>, callReply: (string, Dict) -> Outcome<Json>)
      ensures this.serverUrl == serverUrl && this.connectReply == connectReply && this.toolsReply == toolsReply
      ensures this.disconnectReply == disconnectReply && this.callReply == callReply
      ensures log == []
    {
      this.serverUrl := serverUrl;
      this.connectReply := connectReply;
      this.toolsReply := toolsReply;
      this.disconnectReply := disconnectReply;
      this.callReply := callReply;
      log := [];
    }

    method Connect(token: Option<string>) returns (r: Outcome<bool>)
      modifies this
      ensures r == connectReply && log == old(log) + [ConnectRequest(token)]
    {
      log := log + [ConnectRequest(token)];
      r := connectReply;
    }

    method ListTools() returns (r: Outcome<seq<ListedTool>>)
      modifies this
      ensures r == toolsReply && log == old(log) + [ListToolsRequest]
    {
      log := log + [ListToolsRequest];
      r := toolsReply;
    }

    method Disconnect() returns (r: Outcome<bool>)
      modifies this
      ensures r == disconnectReply && log == old(log) + [DisconnectRequest]
    {
      log := log + [DisconnectRequest];
      r := disconnectReply;
    }

    method CallTool(tool: string, args: Dict) returns (r: Outcome<Json>)
      modifies this
      ensures r == callReply(tool, args) && log == old(log) + [CallRequest(tool, args)]
    {
      log := log + [CallRequest(tool, args)];
      r := callReply(tool, args);
    }
  }

  /** `ServerSession`: one session with the API server. */
  class ServerSession {
    const url: string
    const client: HubClient
    const token: Option<string>
    var connected: bool
    var availableTools: seq<ListedTool>

    /** A new session targets the client's fixed server address, whatever
        address the user asked for. */
    constructor(client: HubClient, token: Option<string>)
      ensures this.client == client && this.token == token && url == client.serverUrl
      ensures !connected && availableTools == []
    {
      url := client.serverUrl;
      this.client := client;
      this.token := token;
      connected := false;
      availableTools := [];
    }

    /** Connected, with the tool list cached, exactly when the client both
        accepts the connection and lists its tools; a refusal changes
        nothing, and an exception leaves the session not connected. */
    method Connect() returns (success: bool)
      modifies this, client
      ensures success <==> client.connectReply == Returned(true) && client.toolsReply.Returned?
      ensures client.log == old(client.log) + [ConnectRequest(token)]
        + (if client.connectReply == Returned(true) then [ListToolsRequest] else [])
      ensures success ==> connected && availableTools == client.toolsReply.value
      ensures !success && client.connectReply == Returned(false) ==>
        connected == old(connected) && availableTools == old(availableTools)
      ensures !success && client.connectReply != Returned(false) ==>
        !connected && availableTools == old(availableTools)
    {
      var reply := client.Connect(token);
      if reply.Raised? {
        connected := false;
        return false;
      }
      success := reply.value;
      if success {
        connected := true;
        var tools := client.ListTools();
        if tools.Raised? {
          connected := false;
          return false;
        }
        availableTools := tools.value;
      }
    }

    /** `connected` becomes the negation of the client's answer; an
        exception changes nothing. */
    method Disconnect() returns (success: bool)
      modifies this, client
      ensures client.log == old(client.log) + [DisconnectRequest]
      ensures success <==> client.disconnectReply == Returned(true)
      ensures connected == if client.disconnectReply.Returned? then !client.disconnectReply.value else old(connected)
      ensures availableTools == old(availableTools)
    {
      var reply := client.Disconnect();
      if reply.Raised? {
        return false;
      }
      success := reply.value;
      connected := !success;
    }

    /** `get_status`. */
    function Status(): (r: Dict)
      reads this
      ensures Get(r, "connected") == Some(JBool(connected))
      ensures Get(r, "tool_count") == Some(JInt(|availableTools|))
      ensures Get(r, "has_token") == Some(JBool(token.Some?))
      ensures Get(r, "url") == Some(JStr(url))
    {
      Record4(("url", JStr(url)), ("connected", JBool(connected)),
              ("tool_count", JInt(|availableTools|)), ("has_token", JBool(token.Some?)))
    }
  }

  const NotConnectedText := "Not connected to the Hugging Face Hub API server"

  function Failed(message: string): Dict {
    [("success", JBool(false)), ("message", JStr(message))]
  }

  /** What `call_tool` reports for the client's answer `reply`: the
      result on success, the exception's message on failure. */
  function CallResult(toolName: string, reply: Outcome<Json>): (r: Dict)
    ensures Get(r, "success") == Some(JBool(reply.Returned?))
    ensures reply.Returned? ==> Get(r, "result") == Some(reply.value)
    ensures reply.Raised? ==> Get(r, "message") == Some(JStr("Error calling tool " + toolName + ": " + reply.error.message))
  {
    match reply
    case Returned(value) => [("success", JBool(true)), ("result", value)]
    case Raised(e) => Failed("Error calling tool " + toolName + ": " + e.message)
  }

  /** `SessionManager`: the single current session. */
  class SessionManager {
    const hubClient: HubClient
    var currentSession: ServerSession?

    /** Every current session uses this manager's client and is connected:
        a session that fails to connect or disconnects is dropped. */
    ghost predicate Valid()
      reads this, currentSession
    {
      currentSession != null ==> currentSession.client == hubClient && currentSession.connected
    }

    constructor(hubClient: HubClient)
      ensures this.hubClient == hubClient && currentSession == null && Valid()
    {
      this.hubClient := hubClient;
      currentSession := null;
    }

    /** `is_connected`. */
    predicate IsConnected()
      reads this, currentSession
    {
      currentSession != null && currentSession.connected
    }

    lemma ConnectedIffSession()
      requires Valid()
      ensures IsConnected() <==> currentSession != null
    {
    }

    /** What `disconnect` reports, read off the state before it: success
        exactly when there is a session and the client confirms. */
    function DisconnectResult(): (r: Dict)
      reads this, currentSession
      ensures Get(r, "success") == Some(JBool(currentSession != null && hubClient.disconnectReply == Returned(true)))
    {
      if currentSession == null then Failed(NotConnectedText)
      else if hubClient.disconnectReply == Returned(true) then
        [("success", JBool(true)), ("message", JStr("Disconnected from Hugging Face Hub API server at " + currentSession.url))]
      else Failed("Failed to disconnect from Hugging Face Hub API server at " + currentSession.url)
    }

    /** `disconnect`: without a session nothing is asked of the client;
        otherwise the session is dropped exactly when the client confirms. */
    method Disconnect() returns (result: Dict)
      requires Valid()
      modifies this, currentSession, hubClient
      ensures Valid()
      ensures result == old(DisconnectResult())
      ensures old(currentSession) == null ==>
        result == Failed(NotConnectedText) && currentSession == null && hubClient.log == old(hubClient.log)
      ensures old(currentSession) != null ==>
        hubClient.log == old(hubClient.log) + [DisconnectRequest]
        && (Get(result, "success") == Some(JBool(hubClient.disconnectReply == Returned(true))))
        && (currentSession == if hubClient.disconnectReply == Returned(true) then null else old(currentSession))
      ensures old(currentSession) != null && hubClient.disconnectReply == Returned(true) ==>
        result == [("success", JBool(true)),
                   ("message", JStr("Disconnected from Hugging Face Hub API server at " + old(currentSession.url)))]
      ensures old(currentSession) != null && hubClient.disconnectReply != Returned(true) ==>
        result == Failed("Failed to disconnect from Hugging Face Hub API server at " + old(currentSession.url))
    {
      if currentSession == null {
        return Failed(NotConnectedText);
      }
      var url := currentSession.url;
      var success := currentSession.Disconnect();
      if success {
        currentSession := null;
        result := [("success", JBool(true)), ("message", JStr("Disconnected from Hugging Face Hub API server at " + url))];
      } else {
        result := Failed("Failed to disconnect from Hugging Face Hub API server at " + url);
      }
    }

    /** The token a connect uses: the named environment variable when one
        is named (`None` when it is unset or empty), else the given token. */
    static function ActualToken(token: Option<string>, tokenEnvVar: Option<string>, env: map<string, string>): (r: Option<string>)
      ensures (tokenEnvVar.None? || tokenEnvVar == Some("")) ==> r == token
      ensures tokenEnvVar.Some? && tokenEnvVar != Some("") ==>
        (r.Some? <==> tokenEnvVar.value in env && env[tokenEnvVar.value] != "")
        && (r.Some? ==> r.value == env[tokenEnvVar.value])
    {
      if tokenEnvVar.Some? && tokenEnvVar.value != "" then
        if tokenEnvVar.value in env && env[tokenEnvVar.value] != "" then Some(env[tokenEnvVar.value]) else None
      else token
    }

    /** A named environment variable that is unset or empty. */
    static predicate TokenMissing(token: Option<string>, tokenEnvVar: Option<string>, env: map<string, string>) {
      tokenEnvVar.Some? && tokenEnvVar.value != "" && ActualToken(token, tokenEnvVar, env).None?
    }

    /** What `connect` reports. It depends on the token and the client's
        answers alone, not on the session being replaced: success exactly
        when the token is there and the client both accepts and lists its
        tools. */
    function ConnectResult(token: Option<string>, tokenEnvVar: Option<string>, env: map<string, string>): (r: Dict)
      ensures Get(r, "success") == Some(JBool(!TokenMissing(token, tokenEnvVar, env)
        && hubClient.connectReply == Returned(true) && hubClient.toolsReply.Returned?))
    {
      if TokenMissing(token, tokenEnvVar, env) then Failed("Environment variable " + tokenEnvVar.value + " not found or empty")
      else if hubClient.connectReply == Returned(true) && hubClient.toolsReply.Returned? then
        [("success", JBool(true)),
         ("message", JStr("Connected to Hugging Face Hub API server at " + hubClient.serverUrl)),
         ("tool_count", JInt(|hubClient.toolsReply.value|))]
      else Failed("Failed to connect to Hugging Face Hub API server at " + hubClient.serverUrl)
    }

    /** The state `connect` leaves: the old session asked to disconnect
        first (and kept if it does not go), then, unless the token is
        missing, a fresh session opened with the resolved token. */
    twostate predicate ConnectedAs(token: Option<string>, tokenEnvVar: Option<string>, env: map<string, string>)
      reads this, currentSession, hubClient
    {
      var missing := TokenMissing(token, tokenEnvVar, env);
      var actual := ActualToken(token, tokenEnvVar, env);
      Valid()
      && hubClient.log == old(hubClient.log) + (if old(currentSession) != null then [DisconnectRequest] else [])
        + ConnectRequests(missing, actual)
      && (missing ==>
            currentSession == (if old(currentSession) != null && hubClient.disconnectReply == Returned(true) then null
                               else old(currentSession)))
      && (!missing ==> Opened(actual, ConnectResult(token, tokenEnvVar, env)))
    }

    /** `connect`: drop a connected session first, resolve the token, then
        open a fresh session on the fixed server address (`url` is not
        used). */
    method Connect(url: string, token: Option<string>, tokenEnvVar: Option<string>, env: map<string, string>)
      returns (result: Dict)
      requires Valid()
      modifies this, currentSession, hubClient
      ensures Valid()
      ensures TokenMissing(token, tokenEnvVar, env) ==>
        result == Failed("Environment variable " + tokenEnvVar.value + " not found or empty")
        && currentSession == (if old(currentSession) != null && hubClient.disconnectReply == Returned(true) then null
                              else old(currentSession))
      ensures !TokenMissing(token, tokenEnvVar, env) ==>
        Opened(ActualToken(token, tokenEnvVar, env), result)
      ensures hubClient.log == old(hubClient.log)
        + (if old(currentSession) != null then [DisconnectRequest] else [])
        + ConnectRequests(TokenMissing(token, tokenEnvVar, env), ActualToken(token, tokenEnvVar, env))
      ensures result == ConnectResult(token, tokenEnvVar, env)
    {
      if currentSession != null && currentSession.connected {
        var _ := Disconnect();
      }
      assert hubClient.log == old(hubClient.log) + (if old(currentSession) != null then [DisconnectRequest] else []);
      var actualToken := ActualToken(token, tokenEnvVar, env);
      if TokenMissing(token, tokenEnvVar, env) {
        return Failed("Environment variable " + tokenEnvVar.value + " not found or empty");
      }
      result := OpenSession(actualToken);
    }

    /** What a connect asks of the client once an old session is dealt
        with: nothing when the token is missing, otherwise to connect and,
        if it accepts, to list its tools. */
    function ConnectRequests(tokenMissing: bool, token: Option<string>): seq<Request>
      reads this
    {
      if tokenMissing then []
      else [ConnectRequest(token)] + (if hubClient.connectReply == Returned(true) then [ListToolsRequest] else [])
    }

    /** The state after opening a session with `token`: a fresh connected
        session holding the listed tools when the client accepts and lists
        them, otherwise no session at all. */
    ghost predicate Opened(token: Option<string>, result: Dict)
      reads this, currentSession, hubClient
    {
      var success := hubClient.connectReply == Returned(true) && hubClient.toolsReply.Returned?;
      (success ==>
        currentSession != null
        && currentSession.url == hubClient.serverUrl
        && currentSession.token == token
        && currentSession.availableTools == hubClient.toolsReply.value
        && result == [("success", JBool(true)),
                      ("message", JStr("Connected to Hugging Face Hub API server at " + hubClient.serverUrl)),
                      ("tool_count", JInt(|hubClient.toolsReply.value|))])
      && (!success ==>
        currentSession == null
        && result == Failed("Failed to connect to Hugging Face Hub API server at " + hubClient.serverUrl))
    }

    /** A new session replaces the current one and is kept only if it
        connects. */
    method OpenSession(token: Option<string>) returns (result: Dict)
      modifies this, hubClient
      ensures Valid() && Opened(token, result)
      ensures currentSession != null ==> fresh(currentSession)
      ensures hubClient.log == old(hubClient.log) + ConnectRequests(false, token)
    {
      var session := new ServerSession(hubClient, token);
      currentSession := session;
      var success := session.Connect();
      if success {
        result := [("success", JBool(true)),
                   ("message", JStr("Connected to Hugging Face Hub API server at " + hubClient.serverUrl)),
                   ("tool_count", JInt(|session.availableTools|))];
      } else {
        currentSession := null;
        result := Failed("Failed to connect to Hugging Face Hub API server at " + hubClient.serverUrl);
      }
    }

    /** `get_status`. */
    function Status(): (r: Dict)
      reads this, currentSession
      ensures currentSession == null ==> r == [("connected", JBool(false)), ("message", JStr(NotConnectedText))]
      ensures currentSession != null ==>
        Get(r, "connected") == Some(JBool(currentSession.connected))
        && Get(r, "url") == Some(JStr(currentSession.url))
        && Get(r, "tool_count") == Some(JInt(|currentSession.availableTools|))
        && Get(r, "has_token") == Some(JBool(currentSession.token.Some?))
    {
      if currentSession == null then [("connected", JBool(false)), ("message", JStr(NotConnectedText))]
      else
        var s := currentSession.Status();
        Record4(("connected", Get(s, "connected").value), ("url", Get(s, "url").value),
                ("tool_count", Get(s, "tool_count").value), ("has_token", Get(s, "has_token").value))
    }

    /** `list_tools`: the cached tools of a connected session, else none. */
    function ListTools(): (r: seq<ListedTool>)
      reads this, currentSession
      ensures !IsConnected() ==> r == []
      ensures IsConnected() ==> r == currentSession.availableTools
    {
      if IsConnected() then currentSession.availableTools else []
    }

    /** `call_tool`: refused without asking the client when not connected;
        otherwise the client's answer, an exception becoming a failure. */
    method CallTool(toolName: string, args: Dict) returns (result: Dict)
      modifies hubClient
      ensures !IsConnected() ==> result == Failed(NotConnectedText) && hubClient.log == old(hubClient.log)
      ensures IsConnected() ==> hubClient.log == old(hubClient.log) + [CallRequest(toolName, args)]
      ensures IsConnected() && hubClient.callReply(toolName, args).Returned? ==>
        result == [("success", JBool(true)), ("result", hubClient.callReply(toolName, args).value)]
      ensures IsConnected() && hubClient.callReply(toolName, args).Raised? ==>
        result == Failed("Error calling tool " + toolName + ": " + hubClient.callReply(toolName, args).error.message)
      ensures IsConnected() ==> result == CallResult(toolName, hubClient.callReply(toolName, args))
    {
      if !IsConnected() {
        return Failed(NotConnectedText);
      }
      var reply := hubClient.CallTool(toolName, args);
      if reply.Raised? {
        return Failed("Error calling tool " + toolName + ": " + reply.error.message);
      }
      result := [("success", JBool(true)), ("result", reply.value)];
    }
  }
}

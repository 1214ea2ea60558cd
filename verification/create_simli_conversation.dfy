/** The create-simli talking-avatar component. Unlike the avatar-ai one it
    dials the conversation service as soon as the rendering client's
    `start()` resolves, guards that dial against an existing connection,
    gives the socket ten seconds to open, classifies close codes, and
    forwards audio without waiting for the client's `connected` event.

    Every guard reads the component's current state. */
module CreateSimliConversation {
  import opened Common
  import opened Pcm
  import opened ElevenLabsApi
  import opened Channels

  const AgentIdRequired := "Agent ID is required"
  const ConnectFailedPrefix := "Failed to connect to ElevenLabs: "
  const StartFailedPrefix := "Failed to start: "
  const SocketTimedOut := "ElevenLabs connection timeout"
  const SocketFailed := "ElevenLabs connection failed - check agent ID and API key"
  const SystemPrompt := "You are a helpful AI assistant. " + "Respond naturally to the user's questions and comments."
  /** Milliseconds the socket is given to open. */
  const SocketTimeoutMs := 10000
  /** Close code sent when the user stops the conversation. */
  const UserCloseCode := 1000

  /** Props and environment: the agent id (a required prop, possibly
      empty), the service key, and whether the video and audio elements
      are mounted. */
  datatype Config = Config(agentId: string, elevenLabsApiKey: Option<string>, sinksMounted: bool)

  datatype State = State(
    simliConnected: bool,
    elevenLabsConnected: bool,
    loading: bool,
    error: string,
    speaking: bool,
    clients: seq<ClientState>,
    client: Option<nat>,
    sockets: seq<Socket>,
    socket: Option<nat>)

  const Initial := State(false, false, false, "", false, [], None, [], None)

  datatype Event =
    | Start
    | Stop
    | ClientConnected(client: nat)
    | ClientDisconnected(client: nat)
    | ClientStartResolved
    | ClientStartFailed(message: string)
    | SignedUrlFetched(outcome: FetchOutcome)
    | SocketTimeoutFired(socket: nat)
    | SocketOpened(socket: nat)
    | SocketMessage(socket: nat, inbound: Inbound)
    | SocketClosed(socket: nat, code: nat, reason: string)
    | SocketError(socket: nat)
    | PongDue(socket: nat, eventId: int)

  datatype Step = Step(state: State, effects: seq<Effect>)

  /** Every live client is the current one, and the refs name things that
      exist. */
  predicate Valid(s: State) {
    && (s.client.Some? ==> IsLive(s.clients, s.client.value))
    && (forall i :: 0 <= i < |s.clients| && s.clients[i] == Live ==> s.client == Some(i))
    && (s.socket.Some? ==> s.socket.value < |s.sockets|)
  }

  /** Number of clients that were created and never closed. */
  function LiveCount(clients: seq<ClientState>): (n: nat)
    ensures n <= |clients|
    ensures n == 0 <==> forall i :: 0 <= i < |clients| ==> clients[i] == Released
  {
    if clients == [] then 0
    else LiveCount(clients[..|clients| - 1]) + (if clients[|clients| - 1] == Live then 1 else 0)
  }

  // ---------------------------------------------------------------------
  // initializeSimliClient

  /** `initializeSimliClient` as written: with both sinks mounted a new
      client replaces the ref, and the one the ref held is never closed. */
  function InitializeAsWritten(cfg: Config, s: State): (r: Step)
    ensures !cfg.sinksMounted ==> r == Step(s, [])
    ensures cfg.sinksMounted ==>
      && r.state == s.(clients := s.clients + [Live], client := Some(|s.clients|))
      && r.effects == [CreateClient(|s.clients|)]
  {
    if !cfg.sinksMounted then Step(s, [])
    else Step(s.(clients := s.clients + [Live], client := Some(|s.clients|)), [CreateClient(|s.clients|)])
  }

  /** `initializeSimliClient` as intended: the client the ref held is
      closed before it is replaced. */
  function Initialize(cfg: Config, s: State): (r: Step)
    ensures !cfg.sinksMounted ==> r == Step(s, [])
    ensures cfg.sinksMounted ==>
      && r.state.client == Some(|s.clients|)
      && |r.state.clients| == |s.clients| + 1 && r.state.clients[|s.clients|] == Live
      && (forall i :: 0 <= i < |s.clients| ==> r.state.clients[i] == (if Some(i) == s.client then Released else s.clients[i]))
      && r.effects == (if s.client.Some? then [CloseClient(s.client.value)] else []) + [CreateClient(|s.clients|)]
      && r.state == s.(clients := r.state.clients, client := r.state.client)
  {
    if !cfg.sinksMounted then Step(s, [])
    else
      var prev := ReleaseClient(s.clients, s.client, false);
      Step(s.(clients := prev.clients + [Live], client := Some(|s.clients|)), prev.effects + [CreateClient(|s.clients|)])
  }

  /** Replacing the client as written can leave two live clients: start,
      let `start()` fail, start again. The first client still reports
      `connected` and `disconnected` into the component. */
  lemma AsWrittenLeaksClient(cfg: Config)
    requires cfg.sinksMounted
    ensures var s1 := InitializeAsWritten(cfg, Initial).state;
      var s2 := InitializeAsWritten(cfg, s1).state;
      && Valid(s1) && !Valid(s2)
      && s2.clients == [Live, Live] && s2.client == Some(1) && LiveCount(s2.clients) == 2
  {
  }

  /** Replacing the client as intended keeps `Valid`, so at most the
      current client is live. */
  lemma InitializeKeepsOneLiveClient(cfg: Config, s: State)
    requires Valid(s)
    ensures Valid(Initialize(cfg, s).state)
    ensures LiveCount(Initialize(cfg, s).state.clients) <= 1
  {
    var t := Initialize(cfg, s).state;
    if cfg.sinksMounted {
      assert Valid(t);
    }
    ValidHasAtMostOneLive(t);
  }

  /** In a `Valid` state at most one client is live. */
  lemma ValidHasAtMostOneLive(s: State)
    requires Valid(s)
    ensures LiveCount(s.clients) <= 1
  {
    if s.client.None? {
      assert LiveCount(s.clients) == 0;
    } else {
      OnlyOneLive(s.clients, s.client.value);
    }
  }

  lemma {:induction false} OnlyOneLive(clients: seq<ClientState>, k: nat)
    requires forall i :: 0 <= i < |clients| && clients[i] == Live ==> i == k
    ensures LiveCount(clients) <= 1
    ensures k >= |clients| ==> LiveCount(clients) == 0
    decreases |clients|
  {
    if clients != [] {
      var init := clients[..|clients| - 1];
      OnlyOneLive(init, k);
      if clients[|clients| - 1] == Live {
        assert |clients| - 1 == k;
      }
    }
  }

  /** A callback that leaves the clients alone, only adds sockets, and
      either keeps the socket ref, clears it, or points it at a socket. */
  predicate Frames(s: State, t: State) {
    && t.clients == s.clients && t.client == s.client
    && |t.sockets| >= |s.sockets|
    && (t.socket == s.socket || t.socket.None? || t.socket.value < |t.sockets|)
  }

  // ---------------------------------------------------------------------
  // connectToElevenLabs

  /** `connectToElevenLabs` up to the fetch: nothing when connected or a
      socket exists; the configuration errors reported with their prefix;
      otherwise the signed URL is requested. */
  function Connect(cfg: Config, s: State): (r: Step)
    ensures Frames(s, r.state)
    ensures s.elevenLabsConnected || s.socket.Some? ==> r == Step(s, [])
    ensures !s.elevenLabsConnected && s.socket.None? ==>
      match SignedUrlPrecheck(cfg.elevenLabsApiKey, Some(cfg.agentId))
      case Ok(req) => r == Step(s, [Fetch(req)])
      case Err(m) => r == Step(s.(error := ConnectFailedPrefix + m), [])
  {
    if s.elevenLabsConnected || s.socket.Some? then Step(s, [])
    else match SignedUrlPrecheck(cfg.elevenLabsApiKey, Some(cfg.agentId))
      case Ok(req) => Step(s, [Fetch(req)])
      case Err(m) => Step(s.(error := ConnectFailedPrefix + m), [])
  }

  /** The signed-URL answer: a socket is opened, made current, and given
      its timeout; or the classified failure is reported. */
  function OnSignedUrl(cfg: Config, s: State, outcome: FetchOutcome): (r: Step)
    ensures Frames(s, r.state)
    ensures var c := SignedUrlChecked(cfg.elevenLabsApiKey, Some(cfg.agentId), outcome);
      && (c.result.Ok? ==>
            && r.state == s.(sockets := s.sockets + [Socket(Connecting, true)], socket := Some(|s.sockets|))
            && r.effects == [OpenSocket(|s.sockets|, c.result.value), ScheduleTimer(SocketTimeout(|s.sockets|), SocketTimeoutMs)])
      && (c.result.Err? ==> r == Step(s.(error := ConnectFailedPrefix + c.result.message), []))
  {
    match SignedUrlChecked(cfg.elevenLabsApiKey, Some(cfg.agentId), outcome).result
    case Ok(url) =>
      var id := |s.sockets|;
      Step(s.(sockets := s.sockets + [Socket(Connecting, true)], socket := Some(id)),
           [OpenSocket(id, url), ScheduleTimer(SocketTimeout(id), SocketTimeoutMs)])
    case Err(m) => Step(s.(error := ConnectFailedPrefix + m), [])
  }

  /** Clears a socket's connection timeout if it is still pending. */
  function CancelSocketTimeout(sockets: seq<Socket>, id: nat): (r: (seq<Socket>, seq<Effect>))
    requires id < |sockets|
    ensures |r.0| == |sockets| && !r.0[id].timeoutPending && r.0[id].ready == sockets[id].ready
    ensures forall i :: 0 <= i < |sockets| && i != id ==> r.0[i] == sockets[i]
    ensures r.1 == (if sockets[id].timeoutPending then [CancelTimer(SocketTimeout(id))] else [])
  {
    (sockets[id := sockets[id].(timeoutPending := false)],
     if sockets[id].timeoutPending then [CancelTimer(SocketTimeout(id))] else [])
  }

  /** The socket timeout: if the socket is still connecting it is closed
      and the timeout reported; otherwise nothing changes. */
  function OnSocketTimeout(s: State, id: nat): (r: Step)
    requires id < |s.sockets| && s.sockets[id].timeoutPending
    ensures Frames(s, r.state) && |r.state.sockets| == |s.sockets|
    ensures !r.state.sockets[id].timeoutPending
    ensures s.sockets[id].ready == Connecting ==>
      && r.state.error == SocketTimedOut
      && r.state.sockets[id].ready == Closing
      && r.effects == [CloseSocket(id, None)]
    ensures s.sockets[id].ready != Connecting ==>
      && r.state == s.(sockets := s.sockets[id := s.sockets[id].(timeoutPending := false)])
      && r.effects == []
  {
    var fired := s.sockets[id := s.sockets[id].(timeoutPending := false)];
    if s.sockets[id].ready == Connecting then
      Step(s.(sockets := fired[id := Socket(Closing, false)], error := SocketTimedOut), [CloseSocket(id, None)])
    else Step(s.(sockets := fired), [])
  }

  /** `onopen`: the timeout is cleared, the flag set, and the initiation
      message sent with the fixed system prompt. */
  function OnSocketOpened(s: State, id: nat): (r: Step)
    requires id < |s.sockets|
    ensures Frames(s, r.state) && |r.state.sockets| == |s.sockets|
    ensures r.state.elevenLabsConnected
    ensures r.state.sockets[id] == Socket(Open, false)
    ensures |r.effects| >= 1 && r.effects[|r.effects| - 1] == Send(id, ConversationInitiation(Some(SystemPrompt)))
    ensures r.effects[..|r.effects| - 1] == (if s.sockets[id].timeoutPending then [CancelTimer(SocketTimeout(id))] else [])
  {
    var cancelled := CancelSocketTimeout(s.sockets, id);
    Step(s.(sockets := cancelled.0[id := Socket(Open, false)], elevenLabsConnected := true),
         cancelled.1 + [Send(id, ConversationInitiation(Some(SystemPrompt)))])
  }

  /** A message on an open socket. A ping schedules one pong; audio with a
      non-empty payload goes to the current client byte for byte whether or
      not that client has connected; an interruption or the end of the
      conversation clears the speaking flag. */
  function OnMessage(s: State, id: nat, m: Inbound): (r: Step)
    ensures Frames(s, r.state)
    ensures m.Ping? ==> r == Step(s, [SchedulePong(id, m.eventId, PongDelay(m.pingMs))])
    ensures m.AgentResponse? ==> r == Step(s.(speaking := true), [NotifySpeaking(true)])
    ensures m.Interruption? || m.ConversationEnd? ==> r == Step(s.(speaking := false), [NotifySpeaking(false)])
    ensures m.UserTranscript? || m.OtherType? || m.Unparseable? ==> r == Step(s, [])
    ensures m.Audio? ==>
      && r.state == s
      && (r.effects != [] <==> s.client.Some? && m.encoded != "" && m.decoded.Some?)
      && (r.effects != [] ==> r.effects == [SendAudio(s.client.value, Latin1Bytes(m.decoded.value))])
  {
    match m
    case Ping(eventId, pingMs) => Step(s, [SchedulePong(id, eventId, PongDelay(pingMs))])
    case AgentResponse(_) => Step(s.(speaking := true), [NotifySpeaking(true)])
    case Interruption(_) => Step(s.(speaking := false), [NotifySpeaking(false)])
    case ConversationEnd => Step(s.(speaking := false), [NotifySpeaking(false)])
    case Audio(encoded, decoded) =>
      if s.client.Some? && encoded != "" && decoded.Some?
      then Step(s, [SendAudio(s.client.value, Latin1Bytes(decoded.value))])
      else Step(s, [])
    case _ => Step(s, [])
  }

  /** `onclose`: the timeout is cleared, the flags and the socket ref
      reset, and an abnormal code reported; a normal one keeps the error. */
  function OnSocketClosed(s: State, id: nat, code: nat, reason: string): (r: Step)
    requires id < |s.sockets|
    ensures Frames(s, r.state) && |r.state.sockets| == |s.sockets|
    ensures !r.state.elevenLabsConnected && !r.state.speaking && r.state.socket.None?
    ensures r.state.sockets[id] == Socket(Closed, false)
    ensures NormalClosure(code) ==> r.state.error == s.error
    ensures !NormalClosure(code) ==> r.state.error == CloseError(code, reason).value
    ensures r.state.simliConnected == s.simliConnected && r.state.client == s.client && r.state.clients == s.clients
    ensures NotifySpeaking(false) in r.effects
  {
    var cancelled := CancelSocketTimeout(s.sockets, id);
    var closed := s.(sockets := cancelled.0[id := Socket(Closed, false)],
                     elevenLabsConnected := false, speaking := false, socket := None);
    Step(closed.(error := CloseError(code, reason).GetOr(s.error)), cancelled.1 + [NotifySpeaking(false)])
  }

  /** `onerror`: the timeout is cleared and the failure reported. */
  function OnSocketError(s: State, id: nat): (r: Step)
    requires id < |s.sockets|
    ensures Frames(s, r.state) && |r.state.sockets| == |s.sockets|
    ensures r.state.error == SocketFailed && !r.state.elevenLabsConnected
    ensures !r.state.sockets[id].timeoutPending && r.state.sockets[id].ready == s.sockets[id].ready
    ensures r.state.socket == s.socket && r.state.speaking == s.speaking
  {
    var cancelled := CancelSocketTimeout(s.sockets, id);
    Step(s.(sockets := cancelled.0, error := SocketFailed, elevenLabsConnected := false), cancelled.1)
  }

  // ---------------------------------------------------------------------
  // startConnection and stopConnection

  /** `startConnection`: nothing while loading or connected; an error
      without an agent id; otherwise loading, a client (re)initialised and
      started. Without any client the service is dialled at once. */
  function OnStart(cfg: Config, s: State): (r: Step)
    ensures s.loading || s.elevenLabsConnected ==> r == Step(s, [])
    ensures !s.loading && !s.elevenLabsConnected && cfg.agentId == "" ==> r == Step(s.(error := AgentIdRequired), [])
    ensures !s.loading && !s.elevenLabsConnected && cfg.agentId != "" ==>
      && r.state.loading
      && (cfg.sinksMounted ==> r.state.client == Some(|s.clients|) && |r.effects| >= 1 && r.effects[|r.effects| - 1] == StartClient(|s.clients|))
      && (!cfg.sinksMounted && s.client.Some? ==> r.state.client == s.client && r.effects == [StartClient(s.client.value)])
      && (!cfg.sinksMounted && s.client.None? ==>
            r.state.client.None? && forall i :: 0 <= i < |r.effects| ==> !r.effects[i].StartClient?)
  {
    if s.loading || s.elevenLabsConnected then Step(s, [])
    else if cfg.agentId == "" then Step(s.(error := AgentIdRequired), [])
    else
      var armed := s.(loading := true, error := "");
      var init := Initialize(cfg, armed);
      match init.state.client
      case Some(c) => Step(init.state, init.effects + [StartClient(c)])
      case None =>
        var dial := Connect(cfg, init.state);
        Step(dial.state, init.effects + dial.effects)
  }

  /** `stopConnection`: the socket closed with code 1000, the client
      closed, every flag and the error reset. */
  function OnStop(s: State): (r: Step)
    ensures !r.state.simliConnected && !r.state.elevenLabsConnected && !r.state.loading && !r.state.speaking
    ensures r.state.error == "" && r.state.client.None? && r.state.socket.None?
    ensures |r.state.clients| == |s.clients| && |r.state.sockets| == |s.sockets|
    ensures forall i :: 0 <= i < |s.clients| ==> r.state.clients[i] == (if Some(i) == s.client then Released else s.clients[i])
    ensures s.socket.Some? ==> CloseSocket(s.socket.value, Some(UserCloseCode)) in r.effects
    ensures s.client.Some? ==> CloseClient(s.client.value) in r.effects
    ensures forall i :: 0 <= i < |r.effects| ==> !r.effects[i].ClearBuffer?
    ensures |r.effects| >= 2 && r.effects[|r.effects| - 2..] == [NotifyConnection(false), NotifySpeaking(false)]
  {
    var closeSocket := match s.socket
      case Some(k) => Step(s.(sockets := CloseSocketAt(s.sockets, k)), [CloseSocket(k, Some(UserCloseCode))])
      case None => Step(s, []);
    var prev := ReleaseClient(s.clients, s.client, false);
    var reset := closeSocket.state.(clients := prev.clients, client := None, socket := None, simliConnected := false,
                                    elevenLabsConnected := false, loading := false, speaking := false, error := "");
    Step(reset, closeSocket.effects + prev.effects + [NotifyConnection(false), NotifySpeaking(false)])
  }

  /** One callback, before the merged-status effect runs. Only live
      clients report; a socket reports only until it is closed. */
  function Handle(cfg: Config, s: State, e: Event): (r: Step)
    ensures !e.Start? && !e.Stop? ==> Frames(s, r.state)
  {
    match e
    case Start => OnStart(cfg, s)
    case Stop => OnStop(s)
    case ClientConnected(c) => if IsLive(s.clients, c) then Step(s.(simliConnected := true), []) else Step(s, [])
    case ClientDisconnected(c) => if IsLive(s.clients, c) then Step(s.(simliConnected := false), []) else Step(s, [])
    case ClientStartResolved => Connect(cfg, s)
    case ClientStartFailed(m) => Step(s.(error := StartFailedPrefix + m, loading := false), [])
    case SignedUrlFetched(outcome) => OnSignedUrl(cfg, s, outcome)
    case SocketTimeoutFired(k) =>
      if k < |s.sockets| && s.sockets[k].timeoutPending then OnSocketTimeout(s, k) else Step(s, [])
    case SocketOpened(k) =>
      if k < |s.sockets| && s.sockets[k].ready == Connecting then OnSocketOpened(s, k) else Step(s, [])
    case SocketMessage(k, m) => if IsOpen(s.sockets, k) then OnMessage(s, k, m) else Step(s, [])
    case SocketClosed(k, code, reason) =>
      if k < |s.sockets| && s.sockets[k].ready != Closed then OnSocketClosed(s, k, code, reason) else Step(s, [])
    case SocketError(k) =>
      if k < |s.sockets| && s.sockets[k].ready != Closed then OnSocketError(s, k) else Step(s, [])
    case PongDue(k, eventId) => Step(s, PongSend(s.sockets, k, eventId))
  }

  /** Whether a callback changed either connection flag. */
  predicate Changed(s: State, t: State) {
    (s.simliConnected, s.elevenLabsConnected) != (t.simliConnected, t.elevenLabsConnected)
  }

  /** Both the avatar and the voice service are connected. */
  predicate BothConnected(t: State) {
    t.simliConnected && t.elevenLabsConnected
  }

  /** One callback followed by the merged-status effect. */
  function Next(cfg: Config, s: State, e: Event): (r: Step)
    ensures r.state == Handle(cfg, s, e).state.(loading := r.state.loading)
    ensures Changed(s, Handle(cfg, s, e).state) ==>
      r.effects == Handle(cfg, s, e).effects + [NotifyConnection(BothConnected(Handle(cfg, s, e).state))]
    ensures !Changed(s, Handle(cfg, s, e).state) ==> r.effects == Handle(cfg, s, e).effects
    ensures Changed(s, Handle(cfg, s, e).state) && BothConnected(Handle(cfg, s, e).state) ==> !r.state.loading
    ensures !Changed(s, Handle(cfg, s, e).state) || !BothConnected(Handle(cfg, s, e).state) ==>
      r.state.loading == Handle(cfg, s, e).state.loading
  {
    var h := Handle(cfg, s, e);
    var m := MergeStatus(s.simliConnected, s.elevenLabsConnected, h.state.simliConnected, h.state.elevenLabsConnected, h.state.loading);
    Step(h.state.(loading := m.loading), h.effects + m.effects)
  }

  lemma FramePreservesValid(s: State, t: State)
    requires Valid(s) && Frames(s, t)
    ensures Valid(t)
  {
  }

  lemma StartPreservesValid(cfg: Config, s: State)
    requires Valid(s)
    ensures Valid(OnStart(cfg, s).state)
  {
    if !s.loading && !s.elevenLabsConnected && cfg.agentId != "" {
      var armed := s.(loading := true, error := "");
      InitializeKeepsOneLiveClient(cfg, armed);
      var init := Initialize(cfg, armed);
      if init.state.client.None? {
        FramePreservesValid(init.state, Connect(cfg, init.state).state);
      }
    }
  }

  lemma StopPreservesValid(s: State)
    requires Valid(s)
    ensures Valid(OnStop(s).state)
  {
    var r := OnStop(s).state;
    forall i | 0 <= i < |r.clients|
      ensures r.clients[i] != Live
    {
      if s.clients[i] == Live {
        assert s.client == Some(i);
      }
    }
  }

  /** Every callback keeps the component `Valid`. */
  lemma NextPreservesValid(cfg: Config, s: State, e: Event)
    requires Valid(s)
    ensures Valid(Next(cfg, s, e).state)
  {
    if e.Start? {
      StartPreservesValid(cfg, s);
    } else if e.Stop? {
      StopPreservesValid(s);
    } else {
      FramePreservesValid(s, Handle(cfg, s, e).state);
    }
  }

  /** A connection attempt never opens a second socket while one is
      current or the service is connected. */
  lemma NoSecondDial(cfg: Config, s: State)
    requires s.elevenLabsConnected || s.socket.Some?
    ensures Next(cfg, s, ClientStartResolved) == Step(s, [])
  {
  }

  /** A socket that opens in time is never closed by its timeout, and one
      still connecting when it fires is closed with the timeout error. */
  lemma TimeoutOnlyClosesConnectingSocket(cfg: Config, s: State, k: nat)
    requires k < |s.sockets| && s.sockets[k].ready == Connecting
    ensures var up := Next(cfg, s, SocketOpened(k)).state;
      Handle(cfg, up, SocketTimeoutFired(k)) == Step(up, [])
    ensures s.sockets[k].timeoutPending ==>
      Handle(cfg, s, SocketTimeoutFired(k)).effects == [CloseSocket(k, None)]
      && Handle(cfg, s, SocketTimeoutFired(k)).state.error == SocketTimedOut
  {
  }

  /** Stopping twice leaves the state stopping once leaves, and the second
      stop closes nothing. */
  lemma StopIdempotent(s: State)
    ensures OnStop(OnStop(s).state).state == OnStop(s).state
    ensures OnStop(OnStop(s).state).effects == [NotifyConnection(false), NotifySpeaking(false)]
  {
  }
}

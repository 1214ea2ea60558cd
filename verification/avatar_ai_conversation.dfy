/** The avatar-ai talking-avatar component: it starts the rendering client,
    and once that client reports `connected` it primes it with silence and
    dials the conversation service; it relays the service's audio into the
    client, streams the microphone to the service while the socket is open,
    and tears everything down on stop.

    Every guard reads the component's current state. Where the source reads
    a value captured by an earlier render instead, README.md says so. */
module AvatarAiConversation {
  import opened Common
  import opened Pcm
  import AudioWorklet
  import opened ElevenLabsApi
  import opened Channels

  const AgentIdRequired := "Agent ID is required"
  const SimliKeyMissing := "Simli API key not found. " + "Please add VITE_SIMLI_API_KEY to your .env file"
  const ConnectFailedPrefix := "Failed to connect to ElevenLabs: "
  const SocketFailed := "ElevenLabs connection failed"
  /** Size of the silence sent to a freshly connected client. */
  const PrimingBytes := 1024

  /** Props and environment: the agent id, both credentials, and whether
      the video and audio elements are mounted. */
  datatype Config = Config(agentId: Option<string>, simliApiKey: Option<string>, elevenLabsApiKey: Option<string>, sinksMounted: bool)

  /** The component's state and refs. `microphone` stands for the stream,
      audio context and processor refs that `setupVoiceStream` fills. */
  datatype State = State(
    simliConnected: bool,
    elevenLabsConnected: bool,
    loading: bool,
    error: string,
    speaking: bool,
    clients: seq<ClientState>,
    client: Option<nat>,
    sockets: seq<Socket>,
    socket: Option<nat>,
    microphone: bool)

  const Initial := State(false, false, false, "", false, [], None, [], None, false)

  /** The callbacks the component receives. */
  datatype Event =
    | Start
    | Stop
    | ClientConnected(client: nat)
    | ClientDisconnected(client: nat)
    | ClientError(client: nat, message: string)
    | ClientStartFailed(message: string)
    | SignedUrlFetched(outcome: FetchOutcome)
    | SocketOpened(socket: nat)
    | SocketMessage(socket: nat, inbound: Inbound)
    | SocketClosed(socket: nat, code: nat, reason: string)
    | SocketError(socket: nat)
    | PongDue(socket: nat, eventId: int)
    | MicrophoneGranted
    | MicrophoneDenied
    | MicrophoneFrame(samples: seq<real>)

  datatype Step = Step(state: State, effects: seq<Effect>)

  /** Every live client is the current one, and the refs name things that
      exist. */
  predicate Valid(s: State) {
    && (s.client.Some? ==> IsLive(s.clients, s.client.value))
    && (forall i :: 0 <= i < |s.clients| && s.clients[i] == Live ==> s.client == Some(i))
    && (s.socket.Some? ==> s.socket.value < |s.sockets|)
  }

  /** `t` leaves the clients of `s` alone, only adds sockets, and keeps the
      socket ref, clears it, or points it at an existing socket. */
  predicate Frames(s: State, t: State) {
    && t.clients == s.clients && t.client == s.client
    && |t.sockets| >= |s.sockets|
    && (t.socket == s.socket || t.socket.None? || t.socket.value < |t.sockets|)
  }

  /** `stopVoiceStream`: releases the microphone if it is held. */
  function StopVoiceStream(s: State): (r: Step)
    ensures !r.state.microphone
    ensures r.state == s.(microphone := false)
    ensures r.effects == (if s.microphone then [ReleaseMicrophone] else [])
  {
    Step(s.(microphone := false), if s.microphone then [ReleaseMicrophone] else [])
  }

  /** `startConnection`: nothing while loading; an error without an agent
      id; otherwise the previous client is disposed of, a new one created
      and started, provided the sinks are mounted and the key is present. */
  function OnStart(cfg: Config, s: State): (r: Step)
    ensures s.loading ==> r == Step(s, [])
    ensures !s.loading && !Present(cfg.agentId) ==> r == Step(s.(error := AgentIdRequired), [])
    ensures r.state.simliConnected == s.simliConnected && r.state.elevenLabsConnected == s.elevenLabsConnected
    ensures r.state.speaking == s.speaking && r.state.sockets == s.sockets && r.state.socket == s.socket
    ensures r.state.microphone == s.microphone
    ensures |r.state.clients| == |s.clients| || |r.state.clients| == |s.clients| + 1
    ensures |r.state.clients| == |s.clients| + 1 <==> !s.loading && Present(cfg.agentId) && cfg.sinksMounted && Present(cfg.simliApiKey)
    ensures |r.state.clients| == |s.clients| + 1 ==>
      && r.state.client == Some(|s.clients|) && r.state.loading && r.state.error == ""
      && r.state.clients[|s.clients|] == Live
      && (forall i :: 0 <= i < |s.clients| ==> r.state.clients[i] == (if Some(i) == s.client then Released else s.clients[i]))
      && |r.effects| >= 2
      && r.effects[|r.effects| - 2..] == [CreateClient(|s.clients|), StartClient(|s.clients|)]
    ensures |r.state.clients| == |s.clients| ==> r.state.clients == s.clients && r.state.client == s.client && r.state.loading == s.loading
    ensures !s.loading && Present(cfg.agentId) && !cfg.sinksMounted ==> r.state.error == ""
    ensures !s.loading && Present(cfg.agentId) && cfg.sinksMounted && !Present(cfg.simliApiKey) ==> r.state.error == SimliKeyMissing
  {
    if s.loading then Step(s, [])
    else if !Present(cfg.agentId) then Step(s.(error := AgentIdRequired), [])
    else if !cfg.sinksMounted then Step(s.(error := ""), [])
    else if !Present(cfg.simliApiKey) then Step(s.(error := SimliKeyMissing), [])
    else
      var prev := ReleaseClient(s.clients, s.client, true);
      var id := |s.clients|;
      Step(s.(loading := true, error := "", clients := prev.clients + [Live], client := Some(id)),
           prev.effects + [CreateClient(id), StartClient(id)])
  }

  /** The client's `connected` handler: flag set, one buffer of silence
      sent to the client, then the conversation service dialled by asking
      for a signed URL (or an error when its key is missing). */
  function OnClientConnected(cfg: Config, s: State): (r: Step)
    requires s.client.Some?
    ensures Frames(s, r.state)
    ensures r.state.simliConnected
    ensures |r.effects| >= 1 && r.effects[0] == SendAudio(s.client.value, Zeros(PrimingBytes))
    ensures forall i :: 1 <= i < |r.effects| ==> !r.effects[i].SendAudio?
    ensures Present(cfg.elevenLabsApiKey) ==>
      && r.effects == [SendAudio(s.client.value, Zeros(PrimingBytes)), Fetch(SignedUrlRequest(cfg.elevenLabsApiKey.value, cfg.agentId.GetOr("")))]
      && r.state == s.(simliConnected := true)
    ensures !Present(cfg.elevenLabsApiKey) ==>
      && r.effects == [SendAudio(s.client.value, Zeros(PrimingBytes))]
      && r.state == s.(simliConnected := true, error := ConnectFailedPrefix + "ElevenLabs API key not found")
  {
    var primed := s.(simliConnected := true);
    var silence := SendAudio(s.client.value, Zeros(PrimingBytes));
    match SignedUrlBasicPrecheck(cfg.elevenLabsApiKey, cfg.agentId.GetOr(""))
    case Ok(req) => Step(primed, [silence, Fetch(req)])
    case Err(m) => Step(primed.(error := ConnectFailedPrefix + m), [silence])
  }

  /** The signed-URL answer: a socket is opened and becomes the current
      one, or the failure is reported. */
  function OnSignedUrl(cfg: Config, s: State, outcome: FetchOutcome): (r: Step)
    ensures Frames(s, r.state)
    ensures |r.state.sockets| == |s.sockets| || |r.state.sockets| == |s.sockets| + 1
    ensures |r.state.sockets| == |s.sockets| + 1 ==>
      && r.state.sockets[|s.sockets|] == Socket(Connecting, false)
      && r.state.socket == Some(|s.sockets|)
      && outcome.Response? && IsOkStatus(outcome.status)
    ensures |r.state.sockets| == |s.sockets| ==> r.state == s.(error := r.state.error) && r.effects == []
    ensures r.state.sockets[..|s.sockets|] == s.sockets
  {
    match SignedUrlBasic(cfg.elevenLabsApiKey, cfg.agentId.GetOr(""), outcome).result
    case Ok(url) =>
      var id := |s.sockets|;
      Step(s.(sockets := s.sockets + [Socket(Connecting, false)], socket := Some(id)), [OpenSocket(id, url)])
    case Err(m) => Step(s.(error := ConnectFailedPrefix + m), [])
  }

  /** A message on an open socket. A ping schedules exactly one pong with
      its event id; agent responses and interruptions set and clear the
      speaking flag; audio is forwarded to the client only when there is a
      client and it is connected, byte for byte; anything else is logged. */
  function OnMessage(s: State, id: nat, m: Inbound): (r: Step)
    ensures Frames(s, r.state)
    ensures m.Ping? ==> r == Step(s, [SchedulePong(id, m.eventId, PongDelay(m.pingMs))])
    ensures m.AgentResponse? ==> r == Step(s.(speaking := true), [NotifySpeaking(true)])
    ensures m.Interruption? ==> r == Step(s.(speaking := false), [NotifySpeaking(false)])
    ensures !m.AgentResponse? && !m.Interruption? ==> r.state == s
    ensures m.UserTranscript? || m.ConversationEnd? || m.OtherType? || m.Unparseable? ==> r.effects == []
    ensures m.Audio? ==>
      && (r.effects != [] <==> s.client.Some? && s.simliConnected && m.decoded.Some?)
      && (r.effects != [] ==> r.effects == [SendAudio(s.client.value, Latin1Bytes(m.decoded.value))]
                              && |r.effects[0].bytes| == |m.decoded.value|)
  {
    match m
    case Ping(eventId, pingMs) => Step(s, [SchedulePong(id, eventId, PongDelay(pingMs))])
    case AgentResponse(_) => Step(s.(speaking := true), [NotifySpeaking(true)])
    case Interruption(_) => Step(s.(speaking := false), [NotifySpeaking(false)])
    case Audio(_, decoded) =>
      if s.client.Some? && s.simliConnected && decoded.Some?
      then Step(s, [SendAudio(s.client.value, Latin1Bytes(decoded.value))])
      else Step(s, [])
    case _ => Step(s, [])
  }

  /** A socket's `close` event: conversation flags cleared, microphone
      released and the socket ref cleared, whichever socket closed. */
  function OnSocketClosed(s: State, id: nat): (r: Step)
    requires id < |s.sockets|
    ensures Frames(s, r.state)
    ensures !r.state.elevenLabsConnected && !r.state.speaking && !r.state.microphone
    ensures r.state.socket.None?
    ensures r.state.sockets == s.sockets[id := Socket(Closed, s.sockets[id].timeoutPending)]
    ensures r.state == s.(elevenLabsConnected := false, speaking := false, microphone := false,
                          socket := None, sockets := r.state.sockets)
    ensures r.effects == [NotifySpeaking(false)] + (if s.microphone then [ReleaseMicrophone] else [])
  {
    var closed := s.(sockets := s.sockets[id := s.sockets[id].(ready := Closed)],
                     elevenLabsConnected := false, speaking := false);
    var stopped := StopVoiceStream(closed);
    Step(stopped.state.(socket := None), [NotifySpeaking(false)] + stopped.effects)
  }

  /** `stopConnection`: closes the socket, releases the microphone, clears
      and closes the client, and resets every flag and the error. */
  function OnStop(s: State): (r: Step)
    ensures !r.state.simliConnected && !r.state.elevenLabsConnected && !r.state.loading && !r.state.speaking
    ensures r.state.error == "" && r.state.client.None? && r.state.socket.None? && !r.state.microphone
    ensures |r.state.clients| == |s.clients| && |r.state.sockets| == |s.sockets|
    ensures forall i :: 0 <= i < |s.clients| ==> r.state.clients[i] == (if Some(i) == s.client then Released else s.clients[i])
    ensures s.socket.Some? ==> CloseSocket(s.socket.value, None) in r.effects
    ensures s.client.Some? ==> CloseClient(s.client.value) in r.effects
    ensures |r.effects| >= 2 && r.effects[|r.effects| - 2..] == [NotifyConnection(false), NotifySpeaking(false)]
  {
    var closeSocket := match s.socket
      case Some(k) => Step(s.(sockets := CloseSocketAt(s.sockets, k)), [CloseSocket(k, None)])
      case None => Step(s, []);
    var voice := StopVoiceStream(s);
    var prev := ReleaseClient(s.clients, s.client, true);
    var reset := closeSocket.state.(clients := prev.clients, client := None, socket := None, microphone := false,
                                    simliConnected := false, elevenLabsConnected := false, loading := false,
                                    speaking := false, error := "");
    Step(reset, closeSocket.effects + voice.effects + prev.effects + [NotifyConnection(false), NotifySpeaking(false)])
  }

  /** A microphone block: encoded and sent only while the processor runs,
      the current socket is open and some sample is above the threshold. */
  function OnMicrophoneFrame(s: State, samples: seq<real>): (r: Step)
    ensures Frames(s, r.state)
    ensures r.state == s
    ensures r.effects != [] <==>
      s.microphone && s.socket.Some? && IsOpen(s.sockets, s.socket.value) && AudioWorklet.HasAudio(samples)
    ensures r.effects != [] ==> r.effects == [Send(s.socket.value, UserAudioChunk(EncodeFrame(samples)))]
  {
    if s.microphone && s.socket.Some? && IsOpen(s.sockets, s.socket.value) && AudioWorklet.HasAudio(samples)
    then Step(s, [Send(s.socket.value, UserAudioChunk(EncodeFrame(samples)))])
    else Step(s, [])
  }

  /** The client's `disconnected` and `error` handlers, and a rejected
      `start()`: only the flags and the error change. */
  function OnClientEvent(s: State, e: Event): (r: Step)
    requires e.ClientDisconnected? || e.ClientError? || e.ClientStartFailed?
    ensures Frames(s, r.state) && r.effects == []
    ensures e.ClientDisconnected? && IsLive(s.clients, e.client) ==> r.state == s.(simliConnected := false)
    ensures e.ClientError? && IsLive(s.clients, e.client) ==> r.state == s.(error := "Simli error: " + e.message, loading := false)
    ensures e.ClientStartFailed? ==> r.state == s.(error := "Failed to start: " + e.message, loading := false)
    ensures !e.ClientStartFailed? && !IsLive(s.clients, e.client) ==> r.state == s
  {
    match e
    case ClientDisconnected(c) =>
      if IsLive(s.clients, c) then Step(s.(simliConnected := false), []) else Step(s, [])
    case ClientError(c, m) =>
      if IsLive(s.clients, c) then Step(s.(error := "Simli error: " + m, loading := false), []) else Step(s, [])
    case ClientStartFailed(m) => Step(s.(error := "Failed to start: " + m, loading := false), [])
  }

  /** The socket's `open` handler: the socket is marked open and
      connected, the conversation is initiated and the microphone
      requested; a socket that is no longer connecting is ignored. */
  function OnSocketOpened(s: State, k: nat): (r: Step)
    ensures Frames(s, r.state) && r.state.socket == s.socket
    ensures r.effects != [] <==> k < |s.sockets| && s.sockets[k].ready == Connecting
    ensures r.effects != [] ==>
      && r.effects == [Send(k, ConversationInitiation(None)), AcquireMicrophone]
      && r.state == s.(sockets := s.sockets[k := Socket(Open, s.sockets[k].timeoutPending)], elevenLabsConnected := true)
    ensures r.effects == [] ==> r.state == s
  {
    if k < |s.sockets| && s.sockets[k].ready == Connecting then
      Step(s.(sockets := s.sockets[k := s.sockets[k].(ready := Open)], elevenLabsConnected := true),
           [Send(k, ConversationInitiation(None)), AcquireMicrophone])
    else Step(s, [])
  }

  /** The socket's `error` handler: the error is set while the socket is
      not closed; nothing else changes. */
  function OnSocketError(s: State, k: nat): (r: Step)
    ensures Frames(s, r.state) && r.effects == []
    ensures k < |s.sockets| && s.sockets[k].ready != Closed ==> r.state == s.(error := SocketFailed)
    ensures !(k < |s.sockets| && s.sockets[k].ready != Closed) ==> r.state == s
  {
    if k < |s.sockets| && s.sockets[k].ready != Closed then Step(s.(error := SocketFailed), []) else Step(s, [])
  }

  /** One callback, before the merged-status effect runs. */
  function Handle(cfg: Config, s: State, e: Event): (r: Step)
    ensures !e.Start? && !e.Stop? ==> r.state.clients == s.clients && r.state.client == s.client
    ensures |r.state.sockets| >= |s.sockets|
    ensures r.state.socket == s.socket || r.state.socket.None? || r.state.socket.value < |r.state.sockets|
  {
    match e
    case Start => OnStart(cfg, s)
    case Stop => OnStop(s)
    case ClientConnected(c) =>
      if IsLive(s.clients, c) && s.client.Some? then OnClientConnected(cfg, s) else Step(s, [])
    case ClientDisconnected(_) => OnClientEvent(s, e)
    case ClientError(_, _) => OnClientEvent(s, e)
    case ClientStartFailed(_) => OnClientEvent(s, e)
    case SignedUrlFetched(outcome) => OnSignedUrl(cfg, s, outcome)
    case SocketOpened(k) => OnSocketOpened(s, k)
    case SocketMessage(k, m) => if IsOpen(s.sockets, k) then OnMessage(s, k, m) else Step(s, [])
    case SocketClosed(k, _, _) =>
      if k < |s.sockets| && s.sockets[k].ready != Closed then OnSocketClosed(s, k) else Step(s, [])
    case SocketError(k) => OnSocketError(s, k)
    case PongDue(k, eventId) => Step(s, PongSend(s.sockets, k, eventId))
    case MicrophoneGranted => Step(s.(microphone := true), [])
    case MicrophoneDenied => Step(s, [])
    case MicrophoneFrame(samples) => OnMicrophoneFrame(s, samples)
  }

  /** Whether a callback changed either connection flag. */
  predicate Changed(s: State, t: State) {
    (s.simliConnected, s.elevenLabsConnected) != (t.simliConnected, t.elevenLabsConnected)
  }

  /** Both the avatar and the voice service are connected. */
  predicate BothConnected(t: State) {
    t.simliConnected && t.elevenLabsConnected
  }

  /** One callback followed by the merged-status effect. */
  function Next(cfg: Config, s: State, e: Event): (r: Step)
    ensures r.state == Handle(cfg, s, e).state.(loading := r.state.loading)
    ensures Changed(s, Handle(cfg, s, e).state) ==>
      r.effects == Handle(cfg, s, e).effects + [NotifyConnection(BothConnected(Handle(cfg, s, e).state))]
    ensures !Changed(s, Handle(cfg, s, e).state) ==> r.effects == Handle(cfg, s, e).effects
    ensures Changed(s, Handle(cfg, s, e).state) && BothConnected(Handle(cfg, s, e).state) ==> !r.state.loading
    ensures !Changed(s, Handle(cfg, s, e).state) || !BothConnected(Handle(cfg, s, e).state) ==>
      r.state.loading == Handle(cfg, s, e).state.loading
  {
    var h := Handle(cfg, s, e);
    var m := MergeStatus(s.simliConnected, s.elevenLabsConnected, h.state.simliConnected, h.state.elevenLabsConnected, h.state.loading);
    Step(h.state.(loading := m.loading), h.effects + m.effects)
  }

  /** A callback that leaves the clients alone and only adds sockets or
      points the ref at an existing one keeps `Valid`. */
  lemma FramePreservesValid(s: State, t: State)
    requires Valid(s)
    requires t.clients == s.clients && t.client == s.client
    requires |t.sockets| >= |s.sockets|
    requires t.socket.Some? ==> t.socket.value < |t.sockets|
    ensures Valid(t)
  {
  }

  lemma StartPreservesValid(cfg: Config, s: State)
    requires Valid(s)
    ensures Valid(OnStart(cfg, s).state)
  {
    var r := OnStart(cfg, s).state;
    if |r.clients| == |s.clients| + 1 {
      forall i | 0 <= i < |r.clients| && r.clients[i] == Live
        ensures r.client == Some(i)
      {
      }
    } else {
      FramePreservesValid(s, r);
    }
  }

  lemma StopPreservesValid(s: State)
    requires Valid(s)
    ensures Valid(OnStop(s).state)
  {
    var r := OnStop(s).state;
    forall i | 0 <= i < |r.clients|
      ensures r.clients[i] != Live
    {
      if s.clients[i] == Live {
        assert s.client == Some(i);
      }
    }
  }

  lemma HandlePreservesValid(cfg: Config, s: State, e: Event)
    requires Valid(s)
    ensures Valid(Handle(cfg, s, e).state)
  {
    var t := Handle(cfg, s, e).state;
    if e.Start? {
      StartPreservesValid(cfg, s);
    } else if e.Stop? {
      StopPreservesValid(s);
    } else {
      FramePreservesValid(s, t);
    }
  }

  /** Every callback keeps the component `Valid`: in particular there is
      never more than one live client, because starting disposes of the
      previous one and stopping of the current one. */
  lemma NextPreservesValid(cfg: Config, s: State, e: Event)
    requires Valid(s)
    ensures Valid(Next(cfg, s, e).state)
  {
    HandlePreservesValid(cfg, s, e);
  }

  /** Stopping twice leaves the state stopping once leaves, and the second
      stop closes nothing. */
  lemma StopIdempotent(s: State)
    ensures OnStop(OnStop(s).state).state == OnStop(s).state
    ensures OnStop(OnStop(s).state).effects == [NotifyConnection(false), NotifySpeaking(false)]
  {
  }

  /** From any state, stop releases the client, the socket ref and the
      microphone, so nothing can reach the services until a new start. */
  lemma StopSilences(cfg: Config, s: State, samples: seq<real>, k: nat, e: string, m: string)
    ensures var t := OnStop(s).state;
      && OnMicrophoneFrame(t, samples).effects == []
      && OnMessage(t, k, Audio(e, Some(m))).effects == []
  {
  }

  /** A sequence of callbacks from a state; the effects are concatenated. */
  function Run(cfg: Config, s: State, events: seq<Event>): Step
    decreases |events|
  {
    if events == [] then Step(s, [])
    else
      var first := Next(cfg, s, events[0]);
      var rest := Run(cfg, first.state, events[1..]);
      Step(rest.state, first.effects + rest.effects)
  }

  /** No sequence of callbacks leaves more than one live client, or a ref
      to a client that is not live. */
  lemma {:induction false} RunPreservesValid(cfg: Config, s: State, events: seq<Event>)
    requires Valid(s)
    ensures Valid(Run(cfg, s, events).state)
    ensures forall i, j :: 0 <= i < j < |Run(cfg, s, events).state.clients| ==>
      !(Run(cfg, s, events).state.clients[i] == Live && Run(cfg, s, events).state.clients[j] == Live)
    decreases |events|
  {
    if events != [] {
      NextPreservesValid(cfg, s, events[0]);
      RunPreservesValid(cfg, Next(cfg, s, events[0]).state, events[1..]);
    }
  }

  /** The first step of the documented path: start creates client 0 and
      sets loading. */
  lemma HappyStart(cfg: Config)
    requires Present(cfg.agentId) && Present(cfg.simliApiKey) && cfg.sinksMounted
    ensures var r := Next(cfg, Initial, Start).state;
      && r.loading && r.client == Some(0) && IsLive(r.clients, 0)
      && r.sockets == [] && !r.simliConnected && !r.elevenLabsConnected
  {
  }

  /** The client's connected event: the avatar is connected, still loading,
      and the signed URL is fetched after the priming silence. */
  lemma HappyClientConnected(cfg: Config, s: State)
    requires Present(cfg.elevenLabsApiKey) && Present(cfg.agentId)
    requires s.loading && s.client == Some(0) && IsLive(s.clients, 0)
    requires s.sockets == [] && !s.simliConnected && !s.elevenLabsConnected
    ensures var r := Next(cfg, s, ClientConnected(0));
      && |r.effects| >= 2 && r.effects[1] == Fetch(SignedUrlRequest(cfg.elevenLabsApiKey.value, cfg.agentId.value))
      && r.state.loading && r.state.sockets == [] && r.state.simliConnected && !r.state.elevenLabsConnected
  {
    var h := Handle(cfg, s, ClientConnected(0));
    assert h == OnClientConnected(cfg, s);
  }

  /** The signed URL arrives: socket 0 is opened and still connecting. */
  lemma HappySignedUrl(cfg: Config, s: State, url: string, statusText: string)
    requires Present(cfg.elevenLabsApiKey)
    requires s.loading && s.sockets == [] && s.simliConnected && !s.elevenLabsConnected
    ensures var r := Next(cfg, s, SignedUrlFetched(Response(200, statusText, Ok(Json(url, None)))));
      && r.effects == [OpenSocket(0, url)]
      && r.state.sockets == [Socket(Connecting, false)] && r.state.simliConnected && !r.state.elevenLabsConnected
  {
    var h := Handle(cfg, s, SignedUrlFetched(Response(200, statusText, Ok(Json(url, None)))));
    assert h == OnSignedUrl(cfg, s, Response(200, statusText, Ok(Json(url, None))));
  }

  /** The socket opens: both flags are set, loading ends and the parent
      hears that both are connected. */
  lemma HappySocketOpened(cfg: Config, s: State)
    requires s.sockets == [Socket(Connecting, false)] && s.simliConnected && !s.elevenLabsConnected
    ensures var r := Next(cfg, s, SocketOpened(0));
      && r.state.simliConnected && r.state.elevenLabsConnected && !r.state.loading
      && NotifyConnection(true) in r.effects
  {
    var h := Handle(cfg, s, SocketOpened(0));
    assert h == OnSocketOpened(s, 0);
  }

  /** The conversation comes up along the documented path: start, client
      connected, signed URL fetched, socket opened. Both flags end up set,
      loading ends, and the parent hears that both are connected. */
  lemma HappyPath(cfg: Config, url: string, statusText: string)
    requires Present(cfg.agentId) && Present(cfg.simliApiKey) && Present(cfg.elevenLabsApiKey) && cfg.sinksMounted
    ensures var s1 := Next(cfg, Initial, Start);
      var s2 := Next(cfg, s1.state, ClientConnected(0));
      var s3 := Next(cfg, s2.state, SignedUrlFetched(Response(200, statusText, Ok(Json(url, None)))));
      var s4 := Next(cfg, s3.state, SocketOpened(0));
      && s1.state.loading && s1.state.client == Some(0)
      && s2.effects[1] == Fetch(SignedUrlRequest(cfg.elevenLabsApiKey.value, cfg.agentId.value))
      && s3.effects == [OpenSocket(0, url)]
      && s4.state.simliConnected && s4.state.elevenLabsConnected && !s4.state.loading
      && NotifyConnection(true) in s4.effects
  {
    var s1 := Next(cfg, Initial, Start);
    HappyStart(cfg);
    var s2 := Next(cfg, s1.state, ClientConnected(0));
    HappyClientConnected(cfg, s1.state);
    var s3 := Next(cfg, s2.state, SignedUrlFetched(Response(200, statusText, Ok(Json(url, None)))));
    HappySignedUrl(cfg, s2.state, url, statusText);
    HappySocketOpened(cfg, s3.state);
  }
}

/** Vocabulary shared by the components that drive the avatar-rendering
    client and the conversation WebSocket: the registries of clients and
    sockets a component has created, the messages exchanged on the socket,
    the effects a transition asks the host to perform, and the merged
    connection status every variant derives from its two flags.

    Clients and sockets are numbered in creation order and never forgotten,
    so a handler of an orphaned socket or of a client that was never closed
    still acts on the component as it does in the source. A closed client
    or socket delivers no further events (an assumption about the rendering
    SDK and the browser). */
module Channels {
  import opened Common
  import opened ElevenLabsApi

  /** `WebSocket.readyState`. */
  datatype ReadyState = Connecting | Open | Closing | Closed

  /** One socket: its ready state and whether a connection timeout set for
      it is still pending. */
  datatype Socket = Socket(ready: ReadyState, timeoutPending: bool)

  /** A rendering client is live until `close()` is called on it. */
  datatype ClientState = Live | Released

  /** JSON messages the component sends on the socket. */
  datatype Outbound =
    | ConversationInitiation(promptOverride: Option<string>)
    | Pong(eventId: int)
    | UserAudioChunk(pcm: seq<byte>)

  /** Messages received on the socket, by their `type` field; `Audio`
      carries its base64 payload (`""` when missing) and what `atob` made of
      it (`None` when `atob` throws); `Unparseable` is a message
      `JSON.parse` rejects. */
  datatype Inbound =
    | Ping(eventId: int, pingMs: Option<int>)
    | UserTranscript(text: string)
    | AgentResponse(text: string)
    | Audio(encoded: string, decoded: Option<string>)
    | Interruption(reason: string)
    | ConversationEnd
    | OtherType(kind: string)
    | Unparseable

  /** Timers a component arms by name: the socket and connection
      timeouts and the retry back-off, whose handles the source keeps and
      may cancel, and the silence primer, which it never cancels. */
  datatype Timer = SocketTimeout(socket: nat) | ConnectionTimeout | RetryBackoff | Priming

  /** What a transition asks of the host, in order. */
  datatype Effect =
    | CreateClient(client: nat)
    | StartClient(client: nat)
    | ClearBuffer(client: nat)
    | CloseClient(client: nat)
    | SendAudio(client: nat, bytes: seq<byte>)
    | Fetch(request: Request)
    | OpenSocket(socket: nat, url: string)
    | Send(socket: nat, message: Outbound)
    | CloseSocket(socket: nat, code: Option<nat>)
    | SchedulePong(socket: nat, eventId: int, delayMs: nat)
    | ScheduleTimer(timer: Timer, delayMs: nat)
    | CancelTimer(timer: Timer)
    | AcquireMicrophone
    | ReleaseMicrophone
    | NotifyConnection(connected: bool)
    | NotifySpeaking(speaking: bool)

  /** `data.ping_event.ping_ms || 0`, as `setTimeout` uses it (a negative
      delay runs at once). */
  function PongDelay(pingMs: Option<int>): (d: nat)
    ensures pingMs.None? ==> d == 0
    ensures pingMs.Some? && pingMs.value > 0 ==> d == pingMs.value
    ensures pingMs.Some? && pingMs.value <= 0 ==> d == 0
  {
    if pingMs.Some? && pingMs.value > 0 then pingMs.value else 0
  }

  /** `socket.close()`: a connecting or open socket starts closing; closing
      an already closing or closed socket does nothing. */
  function CloseSocketAt(sockets: seq<Socket>, id: nat): (r: seq<Socket>)
    ensures |r| == |sockets|
    ensures forall i :: 0 <= i < |sockets| && i != id ==> r[i] == sockets[i]
    ensures id < |sockets| ==> r[id].ready != Connecting && r[id].ready != Open
    ensures id < |sockets| ==> r[id].timeoutPending == sockets[id].timeoutPending
  {
    if id < |sockets| && (sockets[id].ready == Connecting || sockets[id].ready == Open)
    then sockets[id := sockets[id].(ready := Closing)]
    else sockets
  }

  /** The socket with this id is open. */
  predicate IsOpen(sockets: seq<Socket>, id: nat) {
    id < |sockets| && sockets[id].ready == Open
  }

  /** The client with this id is live. */
  predicate IsLive(clients: seq<ClientState>, id: nat) {
    id < |clients| && clients[id] == Live
  }

  /** A pong for a ping is sent when its timer fires, through the socket
      that received the ping, and only if that socket is still open. */
  function PongSend(sockets: seq<Socket>, id: nat, eventId: int): (effects: seq<Effect>)
    ensures effects != [] <==> IsOpen(sockets, id)
    ensures effects != [] ==> effects == [Send(id, Pong(eventId))]
  {
    if IsOpen(sockets, id) then [Send(id, Pong(eventId))] else []
  }

  /** The merged-status effect both conversation components run when
      either connection flag changes: the parent is told whether both are
      connected, and loading ends once both are. */
  datatype Merged = Merged(loading: bool, effects: seq<Effect>)

  function MergeStatus(simliBefore: bool, elevenBefore: bool, simli: bool, eleven: bool, loading: bool): (m: Merged)
    ensures (simliBefore, elevenBefore) != (simli, eleven) && simli && eleven ==> !m.loading
    ensures !(simli && eleven) || (simliBefore, elevenBefore) == (simli, eleven) ==> m.loading == loading
    ensures m.effects != [] <==> (simliBefore, elevenBefore) != (simli, eleven)
    ensures m.effects != [] ==> m.effects == [NotifyConnection(simli && eleven)]
  {
    var changed := (simliBefore, elevenBefore) != (simli, eleven);
    Merged(if changed && simli && eleven then false else loading,
           if changed then [NotifyConnection(simli && eleven)] else [])
  }

  /** Disposing of the current client: buffer cleared (when the variant
      does so), client closed and forgotten. */
  datatype Release = Release(clients: seq<ClientState>, effects: seq<Effect>)

  function ReleaseClient(clients: seq<ClientState>, client: Option<nat>, clearBuffer: bool): (r: Release)
    ensures |r.clients| == |clients|
    ensures forall i :: 0 <= i < |clients| && Some(i) != client ==> r.clients[i] == clients[i]
    ensures client.Some? && client.value < |clients| ==> r.clients[client.value] == Released
    ensures client.None? ==> r.effects == []
    ensures client.Some? ==> r.effects == (if clearBuffer then [ClearBuffer(client.value)] else []) + [CloseClient(client.value)]
  {
    match client
    case None => Release(clients, [])
    case Some(c) =>
      var cs := if c < |clients| then clients[c := Released] else clients;
      Release(cs, (if clearBuffer then [ClearBuffer(c)] else []) + [CloseClient(c)])
  }
}

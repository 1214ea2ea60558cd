/** The avatar-ai avatar-only component: it starts the rendering client
    with a fifteen-second connection timeout, counts its attempts, retries
    after a timeout, an error or a failed start, and gives up after three
    attempts until it is stopped or connects.

    Every guard reads the component's current state. */
module AvatarRetry {
  import opened Common
  import opened Channels

  const MaxAttempts := 3
  const ConnectionTimeoutMs := 15000
  const RetryAfterTimeoutMs := 2000
  const RetryAfterFailureMs := 3000
  const PrimingDelayMs := 500
  const PrimingBytes := 1024

  const MaxAttemptsReached := "Maximum connection attempts reached. " + "Please refresh the page."
  const SimliKeyMissing := "Simli API key not found. " + "Please add VITE_SIMLI_API_KEY to your .env file"
  const TimeoutRetrying := "Connection timeout. Retrying..."
  const ClientErrorPrefix := "Connection error: "
  const StartFailedPrefix := "Failed to start: "

  /** Environment: whether the video and audio elements are mounted, and
      the rendering service's key. */
  datatype Config = Config(sinksMounted: bool, simliApiKey: Option<string>)

  /** State and refs; `connectTimer` and `retryTimer` say whether the
      connection timeout and the retry back-off are armed. */
  datatype State = State(
    connected: bool,
    loading: bool,
    error: string,
    attempts: nat,
    clients: seq<ClientState>,
    client: Option<nat>,
    connectTimer: bool,
    retryTimer: bool)

  const Initial := State(false, false, "", 0, [], None, false, false)

  datatype Event =
    | Start
    | Stop
    | ClientConnected(client: nat)
    | ClientDisconnected(client: nat)
    | ClientError(client: nat, message: string)
    | ClientStartFailed(message: string)
    | ConnectionTimeoutFired
    | RetryFired
    | PrimingDue
    | SendAudio(bytes: seq<byte>)

  datatype Step = Step(state: State, effects: seq<Effect>)

  /** What every reachable state satisfies: at most three attempts, the
      connection timeout armed only while loading, and only the current
      client live. */
  predicate Valid(s: State) {
    && s.attempts <= MaxAttempts
    && (s.connectTimer ==> s.loading)
    && (s.client.Some? ==> IsLive(s.clients, s.client.value))
    && (forall i :: 0 <= i < |s.clients| && s.clients[i] == Live ==> s.client == Some(i))
  }

  /** `initializeSimliClient`, called only when there is no client: it
      fails silently without sinks and with an error without a key. */
  function Initialize(cfg: Config, s: State): (r: Result<State>)
    requires s.client.None?
    ensures r.Ok? <==> cfg.sinksMounted && Present(cfg.simliApiKey)
    ensures r.Ok? ==> r.value == s.(clients := s.clients + [Live], client := Some(|s.clients|))
    ensures !cfg.sinksMounted ==> r == Err(s.error)
    ensures cfg.sinksMounted && !Present(cfg.simliApiKey) ==> r == Err(SimliKeyMissing)
  {
    if !cfg.sinksMounted then Err(s.error)
    else if !Present(cfg.simliApiKey) then Err(SimliKeyMissing)
    else Ok(s.(clients := s.clients + [Live], client := Some(|s.clients|)))
  }

  /** `startConnection`. Nothing while loading or connected; after three
      attempts only the give-up message; a client is created if there is
      none; then one more attempt is counted, the connection timeout armed
      and the client started. */
  function OnStart(cfg: Config, s: State): (r: Step)
    ensures s.loading || s.connected ==> r == Step(s, [])
    ensures !s.loading && !s.connected && s.attempts >= MaxAttempts ==> r == Step(s.(error := MaxAttemptsReached), [])
    ensures r.effects != [] <==> !s.loading && !s.connected && s.attempts < MaxAttempts && (s.client.Some? || (cfg.sinksMounted && Present(cfg.simliApiKey)))
    ensures r.effects != [] ==>
      && r.state.loading && r.state.error == "" && r.state.attempts == s.attempts + 1
      && r.state.connectTimer && r.state.client.Some?
      && r.effects == [ScheduleTimer(ConnectionTimeout, ConnectionTimeoutMs), StartClient(r.state.client.value)]
    ensures r.effects == [] ==> r.state.attempts == s.attempts && r.state.client == s.client && r.state.loading == s.loading
                                && r.state.connectTimer == s.connectTimer && r.state.clients == s.clients
  {
    if s.loading || s.connected then Step(s, [])
    else if s.attempts >= MaxAttempts then Step(s.(error := MaxAttemptsReached), [])
    else
      var ready := if s.client.Some? then Ok(s) else Initialize(cfg, s);
      match ready
      case Err(e) => Step(s.(error := e), [])
      case Ok(t) =>
        Step(t.(loading := true, error := "", attempts := s.attempts + 1, connectTimer := true),
             [ScheduleTimer(ConnectionTimeout, ConnectionTimeoutMs), StartClient(t.client.value)])
  }

  /** Disarms the connection timeout if it is armed. */
  function CancelConnectTimer(s: State): (r: Step)
    ensures !r.state.connectTimer && r.state == s.(connectTimer := false)
    ensures r.effects == (if s.connectTimer then [CancelTimer(ConnectionTimeout)] else [])
  {
    Step(s.(connectTimer := false), if s.connectTimer then [CancelTimer(ConnectionTimeout)] else [])
  }

  /** The connection timeout: if still loading and not connected, the
      timeout is reported, loading ends and a retry is armed. */
  function OnConnectionTimeout(s: State): (r: Step)
    ensures !r.state.connectTimer
    ensures s.loading && !s.connected ==>
      && r.state == s.(error := TimeoutRetrying, loading := false, connectTimer := false, retryTimer := true)
      && r.effects == [ScheduleTimer(RetryBackoff, RetryAfterTimeoutMs)]
    ensures !(s.loading && !s.connected) ==> r == Step(s.(connectTimer := false), [])
  {
    if s.loading && !s.connected then
      Step(s.(error := TimeoutRetrying, loading := false, connectTimer := false, retryTimer := true),
           [ScheduleTimer(RetryBackoff, RetryAfterTimeoutMs)])
    else Step(s.(connectTimer := false), [])
  }

  /** The client's `connected` event: timeout disarmed, connected, the
      attempt count reset, the parent told, and the silence primer armed. */
  function OnConnected(s: State): (r: Step)
    ensures r.state.connected && !r.state.loading && r.state.attempts == 0 && !r.state.connectTimer
    ensures r.state.error == s.error && r.state.client == s.client && r.state.clients == s.clients
    ensures |r.effects| >= 2 && r.effects[|r.effects| - 2..] == [NotifyConnection(true), ScheduleTimer(Priming, PrimingDelayMs)]
    ensures s.connectTimer <==> CancelTimer(ConnectionTimeout) in r.effects
  {
    var c := CancelConnectTimer(s);
    Step(c.state.(connected := true, loading := false, attempts := 0),
         c.effects + [NotifyConnection(true), ScheduleTimer(Priming, PrimingDelayMs)])
  }

  /** The two failure paths, a client `error` and a rejected `start()`:
      the failure reported under its prefix, loading and the connection
      cleared, the timeout disarmed, and a retry armed only while fewer
      than three attempts have been made. */
  function OnFailure(s: State, message: string): (r: Step)
    ensures r.state.error == message && !r.state.loading && !r.state.connected && !r.state.connectTimer
    ensures r.state.attempts == s.attempts && r.state.client == s.client && r.state.clients == s.clients
    ensures NotifyConnection(false) in r.effects
    ensures ScheduleTimer(RetryBackoff, RetryAfterFailureMs) in r.effects <==> s.attempts < MaxAttempts
    ensures r.state.retryTimer <==> s.retryTimer || s.attempts < MaxAttempts
  {
    var c := CancelConnectTimer(s.(error := message, loading := false, connected := false));
    var notified := [NotifyConnection(false)] + c.effects;
    if s.attempts < MaxAttempts then
      Step(c.state.(retryTimer := true), notified + [ScheduleTimer(RetryBackoff, RetryAfterFailureMs)])
    else Step(c.state, notified)
  }

  /** `stopConnection`: both timers disarmed, the client cleared and
      closed, everything reset including the attempt count. */
  function OnStop(s: State): (r: Step)
    ensures !r.state.connected && !r.state.loading && r.state.error == "" && r.state.attempts == 0
    ensures !r.state.connectTimer && !r.state.retryTimer && r.state.client.None?
    ensures |r.state.clients| == |s.clients|
    ensures forall i :: 0 <= i < |s.clients| ==> r.state.clients[i] == (if Some(i) == s.client then Released else s.clients[i])
    ensures s.connectTimer <==> CancelTimer(ConnectionTimeout) in r.effects
    ensures s.retryTimer <==> CancelTimer(RetryBackoff) in r.effects
    ensures s.client.Some? ==> ClearBuffer(s.client.value) in r.effects && CloseClient(s.client.value) in r.effects
    ensures |r.effects| >= 1 && r.effects[|r.effects| - 1] == NotifyConnection(false)
  {
    var c := CancelConnectTimer(s);
    var retry := if s.retryTimer then [CancelTimer(RetryBackoff)] else [];
    var prev := ReleaseClient(s.clients, s.client, true);
    Step(State(false, false, "", 0, prev.clients, None, false, false),
         c.effects + retry + prev.effects + [NotifyConnection(false)])
  }

  /** `sendAudioData`: forwarded only to a connected client; a failure to
      send never touches the error. */
  function OnSendAudio(s: State, bytes: seq<byte>): (r: Step)
    ensures r.state == s
    ensures r.effects != [] <==> s.client.Some? && s.connected
    ensures r.effects != [] ==> r.effects == [Channels.SendAudio(s.client.value, bytes)]
  {
    if s.client.Some? && s.connected then Step(s, [Channels.SendAudio(s.client.value, bytes)]) else Step(s, [])
  }

  /** One callback. Only the live client reports. */
  function Next(cfg: Config, s: State, e: Event): Step {
    match e
    case Start => OnStart(cfg, s)
    case Stop => OnStop(s)
    case ClientConnected(c) => if IsLive(s.clients, c) then OnConnected(s) else Step(s, [])
    case ClientDisconnected(c) =>
      if IsLive(s.clients, c) then
        var d := CancelConnectTimer(s.(connected := false, loading := false));
        Step(d.state, [NotifyConnection(false)] + d.effects)
      else Step(s, [])
    case ClientError(c, m) => if IsLive(s.clients, c) then OnFailure(s, ClientErrorPrefix + m) else Step(s, [])
    case ClientStartFailed(m) => OnFailure(s, StartFailedPrefix + m)
    case ConnectionTimeoutFired => if s.connectTimer then OnConnectionTimeout(s) else Step(s, [])
    case RetryFired => if s.retryTimer then OnStart(cfg, s.(retryTimer := false)) else Step(s, [])
    case PrimingDue =>
      if s.client.Some? && s.connected then Step(s, [Channels.SendAudio(s.client.value, Zeros(PrimingBytes))])
      else Step(s, [])
    case SendAudio(bytes) => OnSendAudio(s, bytes)
  }

  lemma StartPreservesValid(cfg: Config, s: State)
    requires Valid(s)
    ensures Valid(OnStart(cfg, s).state)
  {
  }

  lemma StopPreservesValid(s: State)
    requires Valid(s)
    ensures Valid(OnStop(s).state)
  {
    var r := OnStop(s).state;
    forall i | 0 <= i < |r.clients|
      ensures r.clients[i] != Live
    {
      if s.clients[i] == Live {
        assert s.client == Some(i);
      }
    }
  }

  /** Every callback keeps `Valid`: in particular the attempt count never
      exceeds three. */
  lemma NextPreservesValid(cfg: Config, s: State, e: Event)
    requires Valid(s)
    ensures Valid(Next(cfg, s, e).state)
  {
    match e
    case Start => StartPreservesValid(cfg, s);
    case Stop => StopPreservesValid(s);
    case RetryFired => if s.retryTimer { StartPreservesValid(cfg, s.(retryTimer := false)); }
    case _ =>
  }

  /** Number of client starts among some effects. */
  function Starts(effects: seq<Effect>): (n: nat)
    ensures n <= |effects|
  {
    if effects == [] then 0
    else Starts(effects[..|effects| - 1]) + (if effects[|effects| - 1].StartClient? then 1 else 0)
  }

  lemma {:induction false} StartsAppend(a: seq<Effect>, b: seq<Effect>)
    ensures Starts(a + b) == Starts(a) + Starts(b)
    decreases |b|
  {
    if b == [] {
      assert a + b == a;
    } else {
      assert (a + b)[..|a + b| - 1] == a + b[..|b| - 1];
      StartsAppend(a, b[..|b| - 1]);
    }
  }

  /** A callback other than a connection or a stop starts the client at
      most once, and counts that start as an attempt. */
  lemma NextCountsStarts(cfg: Config, s: State, e: Event)
    requires Valid(s)
    requires !e.ClientConnected? && !e.Stop?
    ensures Next(cfg, s, e).state.attempts == s.attempts + Starts(Next(cfg, s, e).effects)
  {
    var r := Next(cfg, s, e);
    match e
    case Start =>
      if r.effects != [] {
        assert r.effects == [ScheduleTimer(ConnectionTimeout, ConnectionTimeoutMs), StartClient(r.state.client.value)];
        assert Starts(r.effects) == 1 by {
          assert r.effects[..1] == [ScheduleTimer(ConnectionTimeout, ConnectionTimeoutMs)];
        }
      }
    case RetryFired =>
      if s.retryTimer && r.effects != [] {
        assert r.effects == [ScheduleTimer(ConnectionTimeout, ConnectionTimeoutMs), StartClient(r.state.client.value)];
        assert Starts(r.effects) == 1 by {
          assert r.effects[..1] == [ScheduleTimer(ConnectionTimeout, ConnectionTimeoutMs)];
        }
      }
    case ClientDisconnected(c) =>
      if IsLive(s.clients, c) {
        NoStarts([NotifyConnection(false)] + (if s.connectTimer then [CancelTimer(ConnectionTimeout)] else []));
      }
    case ClientError(c, m) =>
      if IsLive(s.clients, c) {
        FailureStartsNothing(s, ClientErrorPrefix + m);
      }
    case ClientStartFailed(m) => FailureStartsNothing(s, StartFailedPrefix + m);
    case ConnectionTimeoutFired =>
      if s.connectTimer && s.loading && !s.connected {
        NoStarts([ScheduleTimer(RetryBackoff, RetryAfterTimeoutMs)]);
      }
    case PrimingDue =>
      if s.client.Some? && s.connected {
        NoStarts([Channels.SendAudio(s.client.value, Zeros(PrimingBytes))]);
      }
    case SendAudio(bytes) =>
      if s.client.Some? && s.connected {
        NoStarts([Channels.SendAudio(s.client.value, bytes)]);
      }
  }

  lemma {:induction false} NoStarts(effects: seq<Effect>)
    requires forall i :: 0 <= i < |effects| ==> !effects[i].StartClient?
    ensures Starts(effects) == 0
    decreases |effects|
  {
    if effects != [] {
      NoStarts(effects[..|effects| - 1]);
    }
  }

  lemma FailureStartsNothing(s: State, message: string)
    ensures Starts(OnFailure(s, message).effects) == 0
  {
    NoStarts(OnFailure(s, message).effects);
  }

  /** A sequence of callbacks from a state; the effects are concatenated. */
  function Run(cfg: Config, s: State, events: seq<Event>): Step
    decreases |events|
  {
    if events == [] then Step(s, [])
    else
      var first := Next(cfg, s, events[0]);
      var rest := Run(cfg, first.state, events[1..]);
      Step(rest.state, first.effects + rest.effects)
  }

  /** Until the client connects or the user stops, timeouts, errors and
      failed starts together start the client at most three times,
      counting the attempts already made; no run leaves `Valid`. */
  lemma {:induction false} RetriesAreBounded(cfg: Config, s: State, events: seq<Event>)
    requires Valid(s)
    requires forall i :: 0 <= i < |events| ==> !events[i].ClientConnected? && !events[i].Stop?
    ensures Valid(Run(cfg, s, events).state)
    ensures Run(cfg, s, events).state.attempts == s.attempts + Starts(Run(cfg, s, events).effects)
    ensures Starts(Run(cfg, s, events).effects) <= MaxAttempts - s.attempts
    decreases |events|
  {
    if events != [] {
      var first := Next(cfg, s, events[0]);
      NextPreservesValid(cfg, s, events[0]);
      NextCountsStarts(cfg, s, events[0]);
      RetriesAreBounded(cfg, first.state, events[1..]);
      StartsAppend(first.effects, Run(cfg, first.state, events[1..]).effects);
    }
  }

  /** The documented give-up: three failed starts arm two retries and no
      third, and a further start only reports the limit. */
  lemma ThreeFailuresThenGiveUp(cfg: Config, m: string)
    requires cfg.sinksMounted && Present(cfg.simliApiKey)
    ensures var s1 := Next(cfg, Initial, Start).state;
      var s2 := Next(cfg, s1, ClientStartFailed(m)).state;
      var s3 := Next(cfg, s2, RetryFired).state;
      var s4 := Next(cfg, s3, ClientStartFailed(m)).state;
      var s5 := Next(cfg, s4, RetryFired).state;
      var s6 := Next(cfg, s5, ClientStartFailed(m));
      && s5.attempts == MaxAttempts && s5.loading
      && s6.state.retryTimer == false
      && ScheduleTimer(RetryBackoff, RetryAfterFailureMs) !in s6.effects
      && Next(cfg, s6.state, Start) == Step(s6.state.(error := MaxAttemptsReached), [])
  {
  }

  /** Stopping twice leaves the state stopping once leaves. */
  lemma StopIdempotent(s: State)
    ensures OnStop(OnStop(s).state).state == OnStop(s).state
    ensures OnStop(OnStop(s).state).effects == [NotifyConnection(false)]
  {
  }
}

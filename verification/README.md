# Legion-3D avatar conversation core, modelled in Dafny

The repository runs talking avatars. A Simli client animates a face from
16-bit PCM audio. An ElevenLabs conversational agent talks over a WebSocket.
The orchestrating components start both services, route the agent's audio to
the avatar and the microphone to the agent, and track connection, loading,
speaking and error state. This project models that core as pure state
machines:

- `AvatarAiConversation` models the avatar-ai orchestrator
  (`SimliElevenLabsAvatar.jsx`). It handles microphone capture, the signed-URL
  fetch, socket messages and the merged connection flag.
- `CreateSimliConversation` models the create-simli orchestrator
  (`SimliElevenLabsAvatar.tsx`). It adds a ten-second socket timeout, classified
  close codes and a system prompt.
- `AvatarRetry` models the stand-alone Simli avatar (`SimliAvatar.jsx`). It
  retries at most three times when its guards read the current state, with a
  connection timeout and a retry back-off.
- `AvatarSpeech` models the view that synthesises lip-sync chunks and silence
  (`SimliAvatarView.jsx`).
- `AudioWorklet` models the microphone worklet (`audio-processor.js`). It
  covers the pass-through copy, the throttled posts and the RMS level.
- `Pcm` holds the sample clamping, little-endian packing and the binary-string
  conversions used around base64.
- `ElevenLabsApi` holds the agent validation, agent listing, both signed-URL
  variants and close-code classification.
- `Usage` models the create-simli usage tracker.
- `AvatarWizard` models the three-step avatar-creation page.
- `Channels` and `Common` hold the shared event, effect and socket vocabulary.

Each component callback is a function from a state and an event to a new state
and a list of effects. The effects are the calls the component makes: send
audio, open or close a socket, fetch, schedule or cancel a timer, notify the
parent. Asynchronous results arrive as later events that carry their outcome.
Clients and sockets live in registries indexed by creation order. A handler of
a released client or a closed socket is therefore still identifiable, and a
send through a captured socket checks that socket's own ready state.

Guards read the component's current state. The source's callbacks sometimes
read stale closure values instead:

- `isSimliConnected` at avatar-ai/src/components/SimliElevenLabsAvatar.jsx:334;
- `isLoading && !isConnected` at avatar-ai/src/components/SimliAvatar.jsx:97;
- `isConnected` at SimliAvatar.jsx:128;
- `connectionAttempts` at SimliAvatar.jsx:163 and :188;
- `isLoading`, `isConnected` and `connectionAttempts` at SimliAvatar.jsx:74 and
  :80, as read by the `startConnection` closure that the retry timers at
  :103-105, :164-167 and :189-192 call. That closure comes from the render
  that scheduled the timer, where the attempt count was 0 after a first start;
- the `useCallback` dependency lists that omit `isLoading` or
  `isElevenLabsConnected`, at SimliElevenLabsAvatar.jsx:373 and, in the
  create-simli component, at lines 156 and 300.

With those stale values the timeout at SimliAvatar.jsx:97 would never act.
The limit guard at SimliAvatar.jsx:80 would never stop an automatic retry, so
as written the automatic retries are unbounded.
The model follows the evident intent.

## Model

| member | source | states |
|---|---|---|
| Common.NatToStringRoundTrip | avatar-ai/src/utils/elevenLabsUtils.js:41 | the decimal rendering of a status code reads back as the same number |
| Common.NatToStringInjective | avatar-ai/src/utils/elevenLabsUtils.js:41 | distinct status codes render as distinct decimal strings |
| Pcm.ClampSample | avatar-ai/src/components/SimliAvatarView.jsx:52 | a sample is clamped into the symmetric 16-bit range; in-range values are unchanged, larger ones saturate at the nearer bound |
| Pcm.ClampUnit | avatar-ai/src/components/SimliElevenLabsAvatar.jsx:106 | a float sample is clamped into [-1, 1] and unchanged when already there |
| Pcm.FloatToSample | avatar-ai/src/components/SimliElevenLabsAvatar.jsx:104-108 | the converted sample lies in the symmetric 16-bit range, and non-negative input gives a non-negative sample |
| Pcm.DecodeSample | avatar-ai/src/components/SimliAvatarView.jsx:54-56 | two little-endian bytes read as a signed 16-bit value |
| Pcm.SampleRoundTrip | avatar-ai/src/components/SimliAvatarView.jsx:54-56 | every signed 16-bit sample survives splitting into low and high bytes |
| Pcm.BytesRoundTrip | avatar-ai/src/components/SimliAvatarView.jsx:54-56 | every byte pair survives decoding and re-splitting |
| Pcm.Pack | avatar-ai/src/components/SimliElevenLabsAvatar.jsx:111-112 | a sample array's buffer has two bytes per sample, low byte first |
| Pcm.Unpack | avatar-ai/src/components/SimliElevenLabsAvatar.jsx:111-112 | an even-length buffer reads as one sample per byte pair |
| Pcm.PackUnpack | avatar-ai/src/components/SimliElevenLabsAvatar.jsx:104-112 | unpacking a packed in-range sample array gives the samples back |
| Pcm.UnpackPack | avatar-ai/src/components/SimliElevenLabsAvatar.jsx:111-112 | packing an unpacked buffer gives the buffer back |
| Pcm.EncodeFrame | avatar-ai/src/components/SimliElevenLabsAvatar.jsx:102-112 | a microphone frame becomes two bytes per sample that decode to the clamped, scaled and floored samples |
| Pcm.BinaryStringAppend | avatar-ai/src/components/SimliElevenLabsAvatar.jsx:114-119 | the binary string of a concatenation is the concatenation of the binary strings, so chunking cannot change it |
| Pcm.ChunkedBinaryString | avatar-ai/src/components/SimliElevenLabsAvatar.jsx:114-119 | the 8192-byte chunked loop builds one character per byte, in order |
| Pcm.BytesOfBinaryString | avatar-ai/src/components/SimliElevenLabsAvatar.jsx:89-97 | the decoded string's char-code loop gives one byte per character |
| Pcm.BinaryStringBytes | avatar-ai/src/components/SimliElevenLabsAvatar.jsx:89-119 | reading the char codes of a binary string gives back the bytes it was built from |
| AudioWorklet.LevelMatchesRms | avatar-ai/public/audio-processor.js:28-33 | the level equals min(100, floor(rms * 1000)) for the root mean square of the block |
| AudioWorklet.SpeakingIffLoudEnough | avatar-ai/public/audio-processor.js:33-37 | the speaking flag is set exactly when the RMS reaches 0.006 |
| AudioWorklet.BlockLevel | avatar-ai/public/audio-processor.js:28-33 | a level exists exactly for a non-empty block and lies between 0 and 100 |
| AudioWorklet.Analyse | avatar-ai/public/audio-processor.js:27-46 | the posted message carries the block; speaking means level above 5; activity means some sample's magnitude exceeds 0.01 |
| AudioWorklet.CopyInto | avatar-ai/public/audio-processor.js:18-20 | each output slot the input reaches holds the input sample; the rest are untouched and the length is kept |
| AudioWorklet.Process | avatar-ai/public/audio-processor.js:9-51 | the processor stays alive and passes channel 0 through. It posts exactly when input and output exist and 100 ms have passed since the last send, and what it posts is the block's analysis: the block itself, its level in [0, 100], speaking as level above 5 and the activity flag. Only a post moves the send time |
| AudioWorklet.FiresIsProcess | avatar-ai/public/audio-processor.js:14-25 | a quantum counts as firing exactly when `process` posts for it, and the send time it leaves is the one `process` leaves |
| AudioWorklet.PostsAreSpaced | avatar-ai/public/audio-processor.js:23-25 | over any run of quanta, successive posts are at least 100 ms apart, and the first is 100 ms after the starting send time |
| ElevenLabsApi.Classify | create-simli/app/Components/chat/SimliElevenLabsAvatar.tsx:127-135 | statuses 404, 401 and 403 get their own class and every other status is kept as is |
| ElevenLabsApi.ValidateAgent | avatar-ai/src/utils/elevenLabsUtils.js:10-46 | a missing key and then a missing agent id fail before any request. The result is valid exactly for an ok response, and an invalid result always carries an error. A 404, 401 or 403 gets its own message and any other failed status gives `API error: <status>`; a thrown error's message is passed on |
| ElevenLabsApi.ValidationMessagesDistinguishStatus | avatar-ai/src/utils/elevenLabsUtils.js:34-42 | equal validation messages imply the same status class; the generic message determines the status |
| ElevenLabsApi.ValidationMessageHead | avatar-ai/src/utils/elevenLabsUtils.js:34-42 | each status class's validation message starts with its own two-letter head |
| ElevenLabsApi.ListAgents | avatar-ai/src/utils/elevenLabsUtils.js:52-83 | a request is made exactly when a key is present. An ok response whose body parses yields its `agents` list, or the empty list when it has none; every failure gives the empty list |
| ElevenLabsApi.SignedUrlBasicPrecheck | avatar-ai/src/components/SimliElevenLabsAvatar.jsx:251-254 | only a missing key stops the avatar-ai request before fetching |
| ElevenLabsApi.SignedUrlBasic | avatar-ai/src/components/SimliElevenLabsAvatar.jsx:248-276 | only a missing key fails before the request. An ok response yields its `signed_url`, or the parse error of an unreadable body; a non-ok status fails with the status text; a thrown error's message is passed on |
| ElevenLabsApi.SignedUrlPrecheck | create-simli/app/Components/chat/SimliElevenLabsAvatar.tsx:104-112 | the key is checked before the agent id, and both must be present for a request |
| ElevenLabsApi.SignedUrlChecked | create-simli/app/Components/chat/SimliElevenLabsAvatar.tsx:102-144 | configuration failures issue no request. An ok response yields its `signed_url`, or the parse error of an unreadable body; a non-ok status fails with its classified message; a thrown error's message is passed on |
| ElevenLabsApi.SignedUrlVariantsAgree | avatar-ai/src/components/SimliElevenLabsAvatar.jsx:248-276 | with a key and an agent id, the avatar-ai and create-simli requests ask for the same URL, succeed on the same outcomes, and differ only in the wording of a failed status |
| ElevenLabsApi.ValidationMatchesSignedUrl | avatar-ai/src/utils/elevenLabsUtils.js:10-46 | validation issues the same request as the create-simli signed-URL fetch; a URL obtained means the agent is valid, and an invalid agent yields no URL |
| ElevenLabsApi.SignedUrlMessagesDistinguishStatus | create-simli/app/Components/chat/SimliElevenLabsAvatar.tsx:126-135 | equal signed-URL failure messages imply the same status class; the generic message determines the status |
| ElevenLabsApi.SignedUrlMessageHead | create-simli/app/Components/chat/SimliElevenLabsAvatar.tsx:126-135 | each status class's signed-URL message starts with its own two-letter head |
| ElevenLabsApi.CloseError | create-simli/app/Components/chat/SimliElevenLabsAvatar.tsx:268-275 | a close sets no error exactly for codes 1000 and 1001; 1002 and 1008 get the quota and key messages; other codes get the generic message |
| ElevenLabsApi.CloseMessagesDistinguishCode | create-simli/app/Components/chat/SimliElevenLabsAvatar.tsx:273-275 | with the same reason, the generic disconnect message identifies the code and never equals the quota or key messages |
| ElevenLabsApi.DigitPrefixDetermined | create-simli/app/Components/chat/SimliElevenLabsAvatar.tsx:134 | a digit run followed by a non-digit separator is recovered uniquely from the message |
| Channels.PongDelay | avatar-ai/src/components/SimliElevenLabsAvatar.jsx:309-316 | the pong waits the ping's announced delay when it is positive, and no time when it is absent, zero or negative |
| Channels.PongSend | avatar-ai/src/components/SimliElevenLabsAvatar.jsx:239-242 | a pong is sent exactly when its socket is still open, and carries the ping's event id |
| Channels.CloseSocketAt | create-simli/app/Components/chat/SimliElevenLabsAvatar.tsx:260-266 | closing a socket leaves it neither connecting nor open and changes no other socket |
| Channels.MergeStatus | avatar-ai/src/components/SimliElevenLabsAvatar.jsx:462-469 | the parent hears the combined flag exactly when either flag changed; loading ends when both became connected and is otherwise kept |
| Channels.ReleaseClient | avatar-ai/src/components/SimliElevenLabsAvatar.jsx:440-448 | releasing the current client marks only that client released and closes it, clearing its buffer first when asked |
| AvatarAiConversation.StopVoiceStream | avatar-ai/src/components/SimliElevenLabsAvatar.jsx:198-221 | the microphone ends released, and tracks are stopped only if it was held |
| AvatarAiConversation.OnStart | avatar-ai/src/components/SimliElevenLabsAvatar.jsx:372-422 | a start while loading does nothing, and a missing agent id sets its error. A client is created exactly when the id, both sinks and the Simli key are present; otherwise clients are untouched |
| AvatarAiConversation.OnClientConnected | avatar-ai/src/components/SimliElevenLabsAvatar.jsx:391-401 | the avatar is marked connected and primed with zero audio first. The signed URL is fetched only when the voice key is present |
| AvatarAiConversation.OnSignedUrl | avatar-ai/src/components/SimliElevenLabsAvatar.jsx:281-303 | a socket is opened only for a fetched URL; a failure sets the error and changes nothing else |
| AvatarAiConversation.OnMessage | avatar-ai/src/components/SimliElevenLabsAvatar.jsx:305-348 | pings schedule pongs; agent responses and interruptions toggle speaking; decoded audio reaches only a live current client; other messages change nothing |
| AvatarAiConversation.OnSocketClosed | avatar-ai/src/components/SimliElevenLabsAvatar.jsx:350-357 | a close marks the socket closed, clears the ref and the connected and speaking flags, and releases the microphone |
| AvatarAiConversation.OnClientEvent | avatar-ai/src/components/SimliElevenLabsAvatar.jsx:403-421 | a live client's disconnect clears the avatar flag, its error records the message and ends loading, a rejected start does the same; other clients are ignored |
| AvatarAiConversation.OnSocketOpened | avatar-ai/src/components/SimliElevenLabsAvatar.jsx:289-303 | a connecting socket's open marks it open and connected, initiates the conversation and requests the microphone; otherwise nothing changes |
| AvatarAiConversation.OnSocketError | avatar-ai/src/components/SimliElevenLabsAvatar.jsx:359-362 | an error on a socket that is not closed sets the connection error and nothing else |
| AvatarAiConversation.OnStop | avatar-ai/src/components/SimliElevenLabsAvatar.jsx:427-459 | stop clears every flag, ref and error, releases only the current client, closes the current socket and client, and ends by notifying disconnected and silent |
| AvatarAiConversation.OnMicrophoneFrame | avatar-ai/src/components/SimliElevenLabsAvatar.jsx:159-182 | a frame is forwarded only while the stream runs and the current socket is open, as one PCM chunk of that frame |
| AvatarAiConversation.Handle | avatar-ai/src/components/SimliElevenLabsAvatar.jsx:281-367 | only start and stop touch the client registry; sockets are only added; the socket ref stays within the registry |
| AvatarAiConversation.Next | avatar-ai/src/components/SimliElevenLabsAvatar.jsx:462-469 | after any callback the parent is told whether both services are connected exactly when either flag changed, after the handler's own effects; loading ends when both became connected, and nothing else of the handler's state changes |
| AvatarAiConversation.StartPreservesValid | avatar-ai/src/components/SimliElevenLabsAvatar.jsx:372-389 | start keeps at most one live client, and it is the current one |
| AvatarAiConversation.StopPreservesValid | avatar-ai/src/components/SimliElevenLabsAvatar.jsx:427-459 | stop leaves no live client |
| AvatarAiConversation.NextPreservesValid | avatar-ai/src/components/SimliElevenLabsAvatar.jsx:281-469 | every callback keeps the client invariant |
| AvatarAiConversation.RunPreservesValid | avatar-ai/src/components/SimliElevenLabsAvatar.jsx:372-469 | no sequence of callbacks ever has two live clients |
| AvatarAiConversation.StopIdempotent | avatar-ai/src/components/SimliElevenLabsAvatar.jsx:427-459 | a second stop changes nothing and only repeats the two notifications |
| AvatarAiConversation.StopSilences | avatar-ai/src/components/SimliElevenLabsAvatar.jsx:159-182 | after stop, neither microphone frames nor agent audio reach any service |
| AvatarAiConversation.HappyStart | avatar-ai/src/components/SimliElevenLabsAvatar.jsx:372-422 | with an agent id, a Simli key and mounted sinks, a first start creates the first client, makes it current and sets loading, with nothing connected yet |
| AvatarAiConversation.HappyClientConnected | avatar-ai/src/components/SimliElevenLabsAvatar.jsx:391-401 | when the current client connects, the avatar is connected, loading continues and the signed URL is fetched for the agent after the priming silence |
| AvatarAiConversation.HappySignedUrl | avatar-ai/src/components/SimliElevenLabsAvatar.jsx:281-288 | a fetched signed URL opens the first socket, which is still connecting, and nothing else is emitted |
| AvatarAiConversation.HappySocketOpened | avatar-ai/src/components/SimliElevenLabsAvatar.jsx:289-303 | once that socket opens, both services are connected, loading ends and the parent hears that both are connected |
| AvatarAiConversation.HappyPath | avatar-ai/src/components/SimliElevenLabsAvatar.jsx:372-469 | start, client connected, URL fetched and socket opened leave both sides connected and loading finished, and the parent is told so |
| CreateSimliConversation.LiveCount | create-simli/app/Components/chat/SimliElevenLabsAvatar.tsx:58-84 | the live-client count is zero exactly when every client is released |
| CreateSimliConversation.InitializeAsWritten | create-simli/app/Components/chat/SimliElevenLabsAvatar.tsx:58-84 | as written, initialising creates a fresh live client and keeps the earlier one live |
| CreateSimliConversation.AsWrittenLeaksClient | create-simli/app/Components/chat/SimliElevenLabsAvatar.tsx:58-84 | two initialisations as written leave two live clients, breaking the client invariant |
| CreateSimliConversation.Initialize | create-simli/app/Components/chat/SimliElevenLabsAvatar.tsx:58-84 | the corrected initialisation closes the earlier client before creating the next |
| CreateSimliConversation.InitializeKeepsOneLiveClient | create-simli/app/Components/chat/SimliElevenLabsAvatar.tsx:58-84 | the corrected initialisation keeps the invariant and at most one live client |
| CreateSimliConversation.ValidHasAtMostOneLive | create-simli/app/Components/chat/SimliElevenLabsAvatar.tsx:58-84 | the invariant implies at most one live client |
| CreateSimliConversation.OnlyOneLive | create-simli/app/Components/chat/SimliElevenLabsAvatar.tsx:58-84 | a registry whose live clients all have one index has at most one live client |
| CreateSimliConversation.Connect | create-simli/app/Components/chat/SimliElevenLabsAvatar.tsx:149-167 | no second socket is dialled while connected or while a socket is held; otherwise the signed URL is fetched |
| CreateSimliConversation.OnSignedUrl | create-simli/app/Components/chat/SimliElevenLabsAvatar.tsx:160-175 | a fetched URL opens a socket with a ten-second timeout; any failure sets the classified error and opens nothing |
| CreateSimliConversation.CancelSocketTimeout | create-simli/app/Components/chat/SimliElevenLabsAvatar.tsx:179 | a pending timeout is cancelled once and the socket's state is otherwise unchanged |
| CreateSimliConversation.OnSocketTimeout | create-simli/app/Components/chat/SimliElevenLabsAvatar.tsx:169-175 | the timeout closes the socket and sets the timeout error only while the socket is still connecting |
| CreateSimliConversation.OnSocketOpened | create-simli/app/Components/chat/SimliElevenLabsAvatar.tsx:177-199 | opening cancels a pending timeout, marks the socket open and connected, and ends by sending the initiation with the system prompt |
| CreateSimliConversation.OnMessage | create-simli/app/Components/chat/SimliElevenLabsAvatar.tsx:201-258 | pings schedule pongs; agent responses start speaking; interruption and conversation end stop it; decoded audio reaches only a live current client |
| CreateSimliConversation.OnSocketClosed | create-simli/app/Components/chat/SimliElevenLabsAvatar.tsx:260-276 | a close clears the socket ref and flags, and sets the close-code error exactly for abnormal codes |
| CreateSimliConversation.OnSocketError | create-simli/app/Components/chat/SimliElevenLabsAvatar.tsx:278-283 | a socket error sets the connection error and clears the connected flag without touching the ref |
| CreateSimliConversation.OnStart | create-simli/app/Components/chat/SimliElevenLabsAvatar.tsx:293-330 | a start while loading or connected does nothing; a missing agent id sets its error; otherwise the client is initialised, through the corrected initialisation, and started |
| CreateSimliConversation.OnStop | create-simli/app/Components/chat/SimliElevenLabsAvatar.tsx:335-372 | stop clears every flag and ref, closes the socket with code 1000 and the current client without clearing a buffer, and ends by notifying disconnected and silent |
| CreateSimliConversation.Handle | create-simli/app/Components/chat/SimliElevenLabsAvatar.tsx:149-288 | callbacks other than start and stop leave the client registry alone and only add sockets |
| CreateSimliConversation.Next | create-simli/app/Components/chat/SimliElevenLabsAvatar.tsx:375-382 | after any callback the parent is told whether both services are connected exactly when either flag changed, after the handler's own effects; loading ends when both became connected, and nothing else of the handler's state changes |
| CreateSimliConversation.FramePreservesValid | create-simli/app/Components/chat/SimliElevenLabsAvatar.tsx:149-288 | a callback that leaves the clients alone keeps the invariant |
| CreateSimliConversation.StartPreservesValid | create-simli/app/Components/chat/SimliElevenLabsAvatar.tsx:293-330 | with the corrected initialisation, start keeps at most one live client, and it is the current one |
| CreateSimliConversation.StopPreservesValid | create-simli/app/Components/chat/SimliElevenLabsAvatar.tsx:335-372 | stop leaves no live client |
| CreateSimliConversation.NextPreservesValid | create-simli/app/Components/chat/SimliElevenLabsAvatar.tsx:149-382 | with the corrected initialisation, every callback keeps the client invariant |
| CreateSimliConversation.NoSecondDial | create-simli/app/Components/chat/SimliElevenLabsAvatar.tsx:156-159 | once connected or holding a socket, a resolved client start changes nothing |
| CreateSimliConversation.TimeoutOnlyClosesConnectingSocket | create-simli/app/Components/chat/SimliElevenLabsAvatar.tsx:169-199 | a socket that opened in time is not closed by its timeout |
| CreateSimliConversation.StopIdempotent | create-simli/app/Components/chat/SimliElevenLabsAvatar.tsx:335-372 | a second stop changes nothing and only repeats the two notifications |
| AvatarRetry.Initialize | avatar-ai/src/components/SimliAvatar.jsx:26-67 | a client is created exactly when the sinks and the key are present; a missing sink keeps the error and a missing key reports it |
| AvatarRetry.OnStart | avatar-ai/src/components/SimliAvatar.jsx:72-107 | a start while loading or connected does nothing; three attempts refuse with the limit error; the client starts exactly when an attempt is left and a client exists or can be made |
| AvatarRetry.CancelConnectTimer | avatar-ai/src/components/SimliAvatar.jsx:114-118 | a pending connection timer is cancelled once and nothing else changes |
| AvatarRetry.OnConnectionTimeout | avatar-ai/src/components/SimliAvatar.jsx:96-107 | the timeout fails the attempt only while still loading and unconnected |
| AvatarRetry.OnConnected | avatar-ai/src/components/SimliAvatar.jsx:111-134 | connecting ends loading, resets the attempt count, cancels the timer and schedules the priming audio |
| AvatarRetry.OnFailure | avatar-ai/src/components/SimliAvatar.jsx:149-194 | a failure records its message and keeps the count; a retry is scheduled exactly when fewer than three attempts were made |
| AvatarRetry.OnStop | avatar-ai/src/components/SimliAvatar.jsx:200-229 | stop resets every flag and the count, cancels exactly the pending timers, clears and closes the current client, and ends by notifying disconnected |
| AvatarRetry.OnSendAudio | avatar-ai/src/components/SimliAvatar.jsx:234-243 | audio is sent exactly when a client exists and is connected |
| AvatarRetry.StartPreservesValid | avatar-ai/src/components/SimliAvatar.jsx:72-107 | start keeps the count within three and the client invariant |
| AvatarRetry.StopPreservesValid | avatar-ai/src/components/SimliAvatar.jsx:200-229 | stop leaves no live client |
| AvatarRetry.NextPreservesValid | avatar-ai/src/components/SimliAvatar.jsx:72-243 | every callback keeps the invariant |
| AvatarRetry.StartsAppend | avatar-ai/src/components/SimliAvatar.jsx:89-93 | client starts are counted additively over concatenated effects |
| AvatarRetry.NextCountsStarts | avatar-ai/src/components/SimliAvatar.jsx:89-93 | apart from connect and stop, the attempt count grows by exactly the client starts a callback makes |
| AvatarRetry.FailureStartsNothing | avatar-ai/src/components/SimliAvatar.jsx:149-194 | a failure never starts the client itself; only the back-off timer does |
| AvatarRetry.RetriesAreBounded | avatar-ai/src/components/SimliAvatar.jsx:72-194 | without a connection or a stop, any run starts the client at most three times in total, under the current-state reading of the retry guards |
| AvatarRetry.ThreeFailuresThenGiveUp | avatar-ai/src/components/SimliAvatar.jsx:74-93 | three failed starts reach the limit and a fourth start is refused with the limit error |
| AvatarRetry.StopIdempotent | avatar-ai/src/components/SimliAvatar.jsx:200-229 | a second stop changes nothing and only repeats the notification |
| AvatarSpeech.IntSample | avatar-ai/src/components/SimliAvatarView.jsx:52 | the integer sample lies in the symmetric 16-bit range and equals the floored scaled value for in-range input |
| AvatarSpeech.ChunkSamples | avatar-ai/src/components/SimliAvatarView.jsx:26-33 | a chunk holds 800 in-range samples |
| AvatarSpeech.SpeechChunk | avatar-ai/src/components/SimliAvatarView.jsx:26-60 | a chunk is 1600 bytes that decode to its samples |
| AvatarSpeech.Tick | avatar-ai/src/components/SimliAvatarView.jsx:63-68 | a chunk is sent exactly when speaking, connected and the avatar handle reports connected |
| AvatarSpeech.Update | avatar-ai/src/components/SimliAvatarView.jsx:74-80 | silence is sent exactly on a change to connected and not speaking with the handle present |
| AvatarSpeech.SpeechAndSilenceExclusive | avatar-ai/src/components/SimliAvatarView.jsx:63-80 | speech and silence are never sent in the same state |
| AvatarSpeech.SilenceMatchesChunk | avatar-ai/src/components/SimliAvatarView.jsx:30-77 | silence is as long as a speech chunk and decodes to zero samples |
| Usage.UsageColor | create-simli/app/Components/chat/UsageTracker.tsx:22-26 | the colour is red above 8000, yellow above 5000 and green otherwise |
| Usage.UsageWarning | create-simli/app/Components/chat/UsageTracker.tsx:28-48 | the alert icon shows exactly above 5000, with the message for the band |
| Usage.BandOf | create-simli/app/Components/chat/UsageTracker.tsx:22-48 | the high band is exactly above 8000 and the normal band exactly up to 5000 |
| Usage.ColorAgreesWithWarning | create-simli/app/Components/chat/UsageTracker.tsx:22-48 | the colour and the warning always name the same band |
| Usage.BandMonotone | create-simli/app/Components/chat/UsageTracker.tsx:22-48 | more usage never gives a lower band |
| Usage.Mount | create-simli/app/Components/chat/UsageTracker.tsx:12-16 | mounting starts at zero usage, shown green, with the session clock set |
| Usage.AddUsage | create-simli/app/Components/chat/UsageTracker.tsx:18-20 | the total grows by exactly the characters added, and adding never lowers the band |
| Usage.RoundedSeconds | create-simli/app/Components/chat/UsageTracker.tsx:73 | the shown seconds are the nearest whole second, halves rounding up |
| Usage.Render | create-simli/app/Components/chat/UsageTracker.tsx:50-81 | nothing renders when hidden; otherwise the colour and warning follow the total, and the session age shows once started |
| AvatarWizard.TrimStart | create-simli/app/create-avatar/page.tsx:58 | leading whitespace is dropped and the rest is a suffix starting with a non-space |
| AvatarWizard.TrimEnd | create-simli/app/create-avatar/page.tsx:58 | trailing whitespace is dropped and the rest is a prefix ending with a non-space |
| AvatarWizard.Trim | create-simli/app/create-avatar/page.tsx:58 | a name trims to empty exactly when it is all whitespace |
| AvatarWizard.BlankConcat | create-simli/app/create-avatar/page.tsx:58 | two blank strings join to a blank string |
| AvatarWizard.ServerErrorOr | create-simli/app/create-avatar/page.tsx:76 | the server's error message is shown when it has one, the fallback otherwise |
| AvatarWizard.FirstMessage | create-simli/app/create-avatar/page.tsx:122 | the agent's greeting embeds the avatar name between the fixed phrases |
| AvatarWizard.StartImage | create-simli/app/create-avatar/page.tsx:57-70 | a blank name sets its error without a request; otherwise the image request is posted |
| AvatarWizard.FinishImage | create-simli/app/create-avatar/page.tsx:72-79 | success stores the image and moves to step two; failure shows the server error or the fallback |
| AvatarWizard.StartPrompt | create-simli/app/create-avatar/page.tsx:82-95 | a blank personality sets its error without a request; otherwise the prompt request is posted |
| AvatarWizard.FinishPrompt | create-simli/app/create-avatar/page.tsx:96-103 | success stores the prompt and moves to step three; failure shows the server error or the fallback |
| AvatarWizard.StartAgent | create-simli/app/create-avatar/page.tsx:106-124 | missing image or prompt sets its error; otherwise the agent is posted with the greeting |
| AvatarWizard.FinishAgent | create-simli/app/create-avatar/page.tsx:125-139 | a created agent navigates to its chat; failure shows the server error or the fallback; the step is kept |
| AvatarWizard.NextPreservesValid | create-simli/app/create-avatar/page.tsx:57-140 | every event keeps the wizard's invariant and never moves the step backwards |
| AvatarWizard.RunPreservesValid | create-simli/app/create-avatar/page.tsx:57-140 | any sequence of events keeps the invariant and the step never decreases |
| AvatarWizard.BlankNameRefused | create-simli/app/create-avatar/page.tsx:58-61 | a blank name is refused by the handler, and the disabled button ignores the click |
| AvatarWizard.ImageClickPosts | create-simli/app/create-avatar/page.tsx:57-70 | on step 1 with a non-blank name, the click starts loading, clears the error and posts the name and description |
| AvatarWizard.ImageDoneAdvances | create-simli/app/create-avatar/page.tsx:72-79 | an image answering the request in flight is stored, loading ends and the wizard moves to step 2 |
| AvatarWizard.PromptClickPosts | create-simli/app/create-avatar/page.tsx:82-95 | on step 2 with a non-blank personality, the click starts loading, clears the error and posts the personality text |
| AvatarWizard.PromptDoneAdvances | create-simli/app/create-avatar/page.tsx:96-103 | a prompt answering the request in flight is stored, loading ends and the wizard moves to step 3 |
| AvatarWizard.ImageStage | create-simli/app/create-avatar/page.tsx:57-80 | the image click posts the name and description, and success reaches step two |
| AvatarWizard.PromptStage | create-simli/app/create-avatar/page.tsx:82-104 | the prompt click posts the knowledge base, and success reaches step three |
| AvatarWizard.AgentStage | create-simli/app/create-avatar/page.tsx:106-140 | the create click posts the agent, and success navigates to the new chat |

## Left out

- The Simli SDK, WebSocket, `fetch`, `getUserMedia`, `atob`/`btoa` and timers are
  not executed. Their results are events, and their calls are effects.
- A thrown SDK `Initialize` and a throwing WebSocket constructor are not modelled.
- Of the JSON bodies, only `signed_url` and `agents` are read.
- Floating-point rounding is not modelled: samples and levels are exact reals.
  The NaN level of an empty worklet block is modelled as no level.
- The speech waveform in `SimliAvatarView.jsx` (sines, `Math.random` noise,
  envelope) is a parameter of the chunk.
- Closed clients and sockets emit no further events.
- The retry timer orphaned by a second failure in `SimliAvatar.jsx` is
  modelled as replaced by the new timer.
- `SimliAvatar.jsx` registers its listeners again on every start. The model
  registers them once.
- The initialisation cleanup branch in `SimliAvatar.jsx` is unreachable,
  because initialisation runs only without a client.
- AvatarRetry.RetriesAreBounded: the three-start bound holds under the
  current-state reading. As written, a retry timer calls a stale closure that
  sees zero attempts, so automatic retries are unbounded.
- CreateSimliConversation.OnStart: initialises through the corrected
  `Initialize` of the Findings table. That closes and releases the earlier
  client, which `startConnection` (SimliElevenLabsAvatar.tsx:315, calling
  :58-84) leaves live.
- CreateSimliConversation.StartPreservesValid: holds of the corrected program
  only. As written, a start after a rejected `start()` leaves two live clients,
  as `AsWrittenLeaksClient` shows.
- CreateSimliConversation.NextPreservesValid: holds of the corrected program
  only, for the same reason.
- AvatarRetry.Initialize: requires no current client, because the source only
  calls it then.
- The create-simli component dials the voice service after `start()` resolves,
  not on the client's connected event.
- In the create-simli component, loading stays set after a connect error until
  stop, as written.
- With a sink missing, the create-simli component restarts its earlier client,
  as written.
- `toLocaleString` formatting of the usage total is not modelled.
- URL encoding of the chat link in the creation wizard is not modelled.
- Voice selection is restricted to the listed voices.
- Styling, layout, logging and debugging panels are not modelled.
- Routing pages outside the components named above are not modelled.

## Findings

| source | as written | input that shows it | evidently intended | confidence | as-written member | corrected member |
|---|---|---|---|---|---|---|
| create-simli/app/Components/chat/SimliElevenLabsAvatar.tsx:58-84 | initialising a Simli client replaces the ref without closing the client it held | start; the client's `start()` rejects; start again | the earlier client is closed before a new one is created, so at most one client is live | not executed | CreateSimliConversation.InitializeAsWritten | CreateSimliConversation.Initialize |

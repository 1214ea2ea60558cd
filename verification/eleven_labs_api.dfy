/** The classification procedures around the conversational voice service's
    HTTP and WebSocket interfaces: agent validation and listing, the two
    variants of the signed-URL request, and the close-code classification.
    `fetch` is not performed: the caller supplies what it delivered. */
module ElevenLabsApi {
  import opened Common

  /** The parts of a JSON response body the components read. */
  datatype Json = Json(signedUrl: string, agents: Option<seq<string>>)

  /** What `fetch` delivered: a response whose body parses (`Ok`) or makes
      `response.json()` throw (`Err`), or a thrown exception. */
  datatype FetchOutcome =
    | Response(status: nat, statusText: string, body: Result<Json>)
    | Threw(message: string)

  /** `response.ok`. */
  predicate IsOkStatus(status: nat) {
    200 <= status <= 299
  }

  /** An authenticated GET: the URL and the `xi-api-key` header. */
  datatype Request = Get(url: string, apiKey: string)

  /** The result of an operation together with the request it issued, if any. */
  datatype Call<T> = Call(request: Option<Request>, result: T)

  const SignedUrlEndpoint := "https://api.elevenlabs.io/v1/convai/conversation/get_signed_url?agent_id="
  const AgentsEndpoint := "https://api.elevenlabs.io/v1/convai/agents"

  function SignedUrlRequest(apiKey: string, agentId: string): Request {
    Get(SignedUrlEndpoint + agentId, apiKey)
  }

  /** How a failed status is classified by every caller. */
  datatype StatusClass = NotFound | Unauthorized | Forbidden | OtherStatus(status: nat)

  function Classify(status: nat): (c: StatusClass)
    ensures c.OtherStatus? <==> status !in {404, 401, 403}
    ensures c.OtherStatus? ==> c.status == status
  {
    if status == 404 then NotFound
    else if status == 401 then Unauthorized
    else if status == 403 then Forbidden
    else OtherStatus(status)
  }

  /** If `a + x == b + y` where `a`, `b` are digit strings and `x`, `y`
      start with a non-digit, then `a == b`. */
  lemma DigitPrefixDetermined(a: string, b: string, x: string, y: string)
    requires AllDigits(a) && AllDigits(b)
    requires |x| > 0 && |y| > 0 && !IsDigit(x[0]) && !IsDigit(y[0])
    requires a + x == b + y
    ensures a == b
  {
    if |a| < |b| {
      CharAfterPrefix(a, x);
      assert false;
    } else if |b| < |a| {
      CharAfterPrefix(b, y);
      assert false;
    }
    assert a == (a + x)[..|a|];
    assert b == (b + y)[..|b|];
  }

  lemma CharAfterPrefix(a: string, x: string)
    ensures |x| > 0 ==> (a + x)[|a|] == x[0]
  {
  }

  lemma PrefixCancel(p: string, x: string, y: string)
    requires p + x == p + y
    ensures x == y
  {
    assert x == (p + x)[|p|..];
    assert y == (p + y)[|p|..];
  }

  // ---------------------------------------------------------------------
  // validateElevenLabsAgent

  /** `{valid, error}` as returned by the agent validation. */
  datatype Validation = Validation(valid: bool, error: Option<string>)

  function ValidationStatusMessage(agentId: string, status: nat): string {
    match Classify(status)
    case NotFound => "Agent '" + agentId + "' not found in your ElevenLabs account"
    case Unauthorized => "Invalid API key"
    case Forbidden => "Access denied to this agent"
    case OtherStatus(s) => "API error: " + NatToString(s)
  }

  /** Validates an agent: configuration problems are reported before any
      request, an ok response is valid, every failure is classified, and a
      thrown exception becomes an invalid result carrying its message. */
  function ValidateAgent(apiKey: Option<string>, agentId: Option<string>, outcome: FetchOutcome): (c: Call<Validation>)
    ensures !Present(apiKey) ==> c == Call(None, Validation(false, Some("ElevenLabs API key not found")))
    ensures Present(apiKey) && !Present(agentId) ==> c == Call(None, Validation(false, Some("Agent ID is required")))
    ensures c.request.Some? <==> Present(apiKey) && Present(agentId)
    ensures c.request.Some? ==> c.request.value == SignedUrlRequest(apiKey.value, agentId.value)
    ensures c.result.valid <==> c.request.Some? && outcome.Response? && IsOkStatus(outcome.status)
    ensures c.result.valid <==> c.result.error.None?
    ensures c.request.Some? && outcome.Threw? ==> c.result.error == Some(outcome.message)
    ensures c.request.Some? && outcome.Response? && !IsOkStatus(outcome.status) ==>
      c.result.error == Some(ValidationStatusMessage(agentId.value, outcome.status))
  {
    if !Present(apiKey) then Call(None, Validation(false, Some("ElevenLabs API key not found")))
    else if !Present(agentId) then Call(None, Validation(false, Some("Agent ID is required")))
    else
      var request := Some(SignedUrlRequest(apiKey.value, agentId.value));
      match outcome
      case Threw(m) => Call(request, Validation(false, Some(m)))
      case Response(status, _, _) =>
        if IsOkStatus(status) then Call(request, Validation(true, None))
        else Call(request, Validation(false, Some(ValidationStatusMessage(agentId.value, status))))
  }

  /** Distinct failure classes give distinct validation messages, and the
      generic message determines the status it reports. */
  lemma ValidationMessagesDistinguishStatus(agentId: string, s1: nat, s2: nat)
    requires ValidationStatusMessage(agentId, s1) == ValidationStatusMessage(agentId, s2)
    ensures Classify(s1) == Classify(s2)
  {
    var m1 := ValidationStatusMessage(agentId, s1);
    var c1, c2 := Classify(s1), Classify(s2);
    if c1 != c2 {
      if c1.OtherStatus? && c2.OtherStatus? {
        PrefixCancel("API error: ", NatToString(c1.status), NatToString(c2.status));
        NatToStringInjective(c1.status, c2.status);
      } else {
        ValidationMessageHead(agentId, s1);
        ValidationMessageHead(agentId, s2);
      }
    }
  }

  /** The first two characters of each class's validation message. */
  function ValidationHead(c: StatusClass): string {
    match c
    case NotFound => "Ag"
    case Unauthorized => "In"
    case Forbidden => "Ac"
    case OtherStatus(_) => "AP"
  }

  lemma ValidationMessageHead(agentId: string, status: nat)
    ensures |ValidationStatusMessage(agentId, status)| >= 2
    ensures ValidationStatusMessage(agentId, status)[..2] == ValidationHead(Classify(status))
  {
    var m := ValidationStatusMessage(agentId, status);
    match Classify(status)
    case NotFound =>
      var p := "Agent '";
      assert m == p + (agentId + "' not found in your ElevenLabs account");
      assert m[..2] == p[..2];
    case Unauthorized =>
      assert m[0] == 'I' && m[1] == 'n';
    case Forbidden =>
      assert m[0] == 'A' && m[1] == 'c';
    case OtherStatus(s) =>
      var p := "API error: ";
      assert m == p + NatToString(s);
      assert m[..2] == p[..2];
  }

  // ---------------------------------------------------------------------
  // listElevenLabsAgents

  /** Lists agents; every failure (missing key, non-ok status, unreadable
      body, exception) yields the empty list. */
  function ListAgents(apiKey: Option<string>, outcome: FetchOutcome): (c: Call<seq<string>>)
    ensures c.request.Some? <==> Present(apiKey)
    ensures c.request.Some? ==> c.request.value == Get(AgentsEndpoint, apiKey.value)
    ensures c.result != [] ==>
      && Present(apiKey) && outcome.Response? && IsOkStatus(outcome.status)
      && outcome.body.Ok? && outcome.body.value.agents == Some(c.result)
    ensures Present(apiKey) && outcome.Response? && IsOkStatus(outcome.status) && outcome.body.Ok? ==>
      c.result == outcome.body.value.agents.GetOr([])
  {
    if !Present(apiKey) then Call(None, [])
    else
      var request := Some(Get(AgentsEndpoint, apiKey.value));
      match outcome
      case Threw(_) => Call(request, [])
      case Response(status, _, body) =>
        if IsOkStatus(status) && body.Ok? then Call(request, body.value.agents.GetOr([]))
        else Call(request, [])
  }

  // ---------------------------------------------------------------------
  // getElevenLabsSignedUrl, avatar-ai variant

  /** The only check the avatar-ai signed-URL request makes before
      fetching: the key. */
  function SignedUrlBasicPrecheck(apiKey: Option<string>, agentId: string): (r: Result<Request>)
    ensures r.Ok? <==> Present(apiKey)
    ensures !Present(apiKey) ==> r == Err("ElevenLabs API key not found")
    ensures r.Ok? ==> r.value == SignedUrlRequest(apiKey.value, agentId)
  {
    if !Present(apiKey) then Err("ElevenLabs API key not found")
    else Ok(SignedUrlRequest(apiKey.value, agentId))
  }

  /** The avatar-ai component's signed-URL request: the thrown messages are
      the missing key and the non-ok status text. */
  function SignedUrlBasic(apiKey: Option<string>, agentId: string, outcome: FetchOutcome): (c: Call<Result<string>>)
    ensures c.request.Some? <==> Present(apiKey)
    ensures !Present(apiKey) ==> c.result == Err("ElevenLabs API key not found")
    ensures c.request.Some? ==> c.request.value == SignedUrlRequest(apiKey.value, agentId)
    ensures c.result.Ok? ==>
      && outcome.Response? && IsOkStatus(outcome.status) && outcome.body.Ok?
      && c.result.value == outcome.body.value.signedUrl
    ensures Present(apiKey) && outcome.Response? && !IsOkStatus(outcome.status) ==>
      c.result == Err("Failed to get signed URL: " + outcome.statusText)
    ensures Present(apiKey) && outcome.Response? && IsOkStatus(outcome.status) ==>
      c.result == (match outcome.body case Ok(json) => Ok(json.signedUrl) case Err(m) => Err(m))
    ensures Present(apiKey) && outcome.Threw? ==> c.result == Err(outcome.message)
  {
    match SignedUrlBasicPrecheck(apiKey, agentId)
    case Err(m) => Call(None, Err(m))
    case Ok(req) =>
      var request := Some(req);
      match outcome
      case Threw(m) => Call(request, Err(m))
      case Response(status, text, body) =>
        if !IsOkStatus(status) then Call(request, Err("Failed to get signed URL: " + text))
        else match body
          case Err(m) => Call(request, Err(m))
          case Ok(json) => Call(request, Ok(json.signedUrl))
  }

  // ---------------------------------------------------------------------
  // getElevenLabsSignedUrl, create-simli variant

  function SignedUrlStatusMessage(agentId: string, status: nat, statusText: string): string {
    match Classify(status)
    case NotFound => "Agent ID '" + agentId + "' not found. Please check your ElevenLabs dashboard and ensure the agent exists."
    case Unauthorized => "Invalid ElevenLabs API key. " + "Please check your NEXT_PUBLIC_ELEVENLABS_API_KEY in .env file."
    case Forbidden => "Access denied. " + "Please check if your API key has access to this agent."
    case OtherStatus(s) => "ElevenLabs API error: " + NatToString(s) + " - " + statusText
  }

  /** The configuration checks the create-simli signed-URL request makes
      before any request: the key first, then the agent id. */
  function SignedUrlPrecheck(apiKey: Option<string>, agentId: Option<string>): (r: Result<Request>)
    ensures r.Ok? <==> Present(apiKey) && Present(agentId)
    ensures !Present(apiKey) ==> r == Err("ElevenLabs API key not found in environment variables")
    ensures Present(apiKey) && !Present(agentId) ==> r == Err("Agent ID is required")
    ensures r.Ok? ==> r.value == SignedUrlRequest(apiKey.value, agentId.value)
  {
    if !Present(apiKey) then Err("ElevenLabs API key not found in environment variables")
    else if !Present(agentId) then Err("Agent ID is required")
    else Ok(SignedUrlRequest(apiKey.value, agentId.value))
  }

  /** The create-simli component's signed-URL request: a missing key and a
      missing agent id fail before any request, and each failed status is
      classified. */
  function SignedUrlChecked(apiKey: Option<string>, agentId: Option<string>, outcome: FetchOutcome): (c: Call<Result<string>>)
    ensures !Present(apiKey) ==> c == Call(None, Err("ElevenLabs API key not found in environment variables"))
    ensures Present(apiKey) && !Present(agentId) ==> c == Call(None, Err("Agent ID is required"))
    ensures c.request.Some? <==> Present(apiKey) && Present(agentId)
    ensures c.request.Some? ==> c.request.value == SignedUrlRequest(apiKey.value, agentId.value)
    ensures c.result.Ok? ==>
      && outcome.Response? && IsOkStatus(outcome.status) && outcome.body.Ok?
      && c.result.value == outcome.body.value.signedUrl
    ensures c.request.Some? && outcome.Response? && !IsOkStatus(outcome.status) ==>
      c.result == Err(SignedUrlStatusMessage(agentId.value, outcome.status, outcome.statusText))
    ensures c.request.Some? && outcome.Response? && IsOkStatus(outcome.status) ==>
      c.result == (match outcome.body case Ok(json) => Ok(json.signedUrl) case Err(m) => Err(m))
    ensures c.request.Some? && outcome.Threw? ==> c.result == Err(outcome.message)
  {
    match SignedUrlPrecheck(apiKey, agentId)
    case Err(m) => Call(None, Err(m))
    case Ok(req) =>
      var request := Some(req);
      match outcome
      case Threw(m) => Call(request, Err(m))
      case Response(status, text, body) =>
        if !IsOkStatus(status) then Call(request, Err(SignedUrlStatusMessage(agentId.value, status, text)))
        else match body
          case Err(m) => Call(request, Err(m))
          case Ok(json) => Call(request, Ok(json.signedUrl))
  }

  /** The two signed-URL variants agree wherever both reach the request:
      the same request, the same URL on success, the same message for a
      thrown exception or an unreadable body; they differ only in how a
      failed status is worded. */
  lemma SignedUrlVariantsAgree(apiKey: Option<string>, agentId: string, outcome: FetchOutcome)
    requires Present(apiKey) && agentId != ""
    ensures SignedUrlBasic(apiKey, agentId, outcome).request == SignedUrlChecked(apiKey, Some(agentId), outcome).request
    ensures SignedUrlBasic(apiKey, agentId, outcome).result.Ok? <==> SignedUrlChecked(apiKey, Some(agentId), outcome).result.Ok?
    ensures !(outcome.Response? && !IsOkStatus(outcome.status)) ==>
      SignedUrlBasic(apiKey, agentId, outcome).result == SignedUrlChecked(apiKey, Some(agentId), outcome).result
  {
  }

  /** Validation asks for the same signed URL as the create-simli request:
      the request is the same, a URL obtained means the agent is valid, and
      an agent found invalid gives no URL. A failed status is reported
      under the same class by both. */
  lemma ValidationMatchesSignedUrl(apiKey: Option<string>, agentId: Option<string>, outcome: FetchOutcome)
    ensures ValidateAgent(apiKey, agentId, outcome).request == SignedUrlChecked(apiKey, agentId, outcome).request
    ensures SignedUrlChecked(apiKey, agentId, outcome).result.Ok? ==> ValidateAgent(apiKey, agentId, outcome).result.valid
    ensures !ValidateAgent(apiKey, agentId, outcome).result.valid ==> SignedUrlChecked(apiKey, agentId, outcome).result.Err?
    ensures ValidateAgent(apiKey, agentId, outcome).result.valid ==>
      outcome.Response? && (SignedUrlChecked(apiKey, agentId, outcome).result.Ok? || outcome.body.Err?)
  {
  }

  /** Distinct failure classes give distinct signed-URL messages, and the
      generic message determines the status it reports. */
  lemma SignedUrlMessagesDistinguishStatus(agentId: string, s1: nat, t1: string, s2: nat, t2: string)
    requires SignedUrlStatusMessage(agentId, s1, t1) == SignedUrlStatusMessage(agentId, s2, t2)
    ensures Classify(s1) == Classify(s2)
  {
    var m1 := SignedUrlStatusMessage(agentId, s1, t1);
    var m2 := SignedUrlStatusMessage(agentId, s2, t2);
    var c1, c2 := Classify(s1), Classify(s2);
    if c1 != c2 {
      if c1.OtherStatus? && c2.OtherStatus? {
        var p := "ElevenLabs API error: ";
        var n1, n2 := NatToString(c1.status), NatToString(c2.status);
        assert m1 == p + (n1 + (" - " + t1));
        assert m2 == p + (n2 + (" - " + t2));
        PrefixCancel(p, n1 + (" - " + t1), n2 + (" - " + t2));
        DigitPrefixDetermined(n1, n2, " - " + t1, " - " + t2);
        NatToStringInjective(c1.status, c2.status);
      } else {
        SignedUrlMessageHead(agentId, s1, t1);
        SignedUrlMessageHead(agentId, s2, t2);
      }
    }
  }

  /** The first two characters of each class's signed-URL message. */
  function SignedUrlHead(c: StatusClass): string {
    match c
    case NotFound => "Ag"
    case Unauthorized => "In"
    case Forbidden => "Ac"
    case OtherStatus(_) => "El"
  }

  lemma SignedUrlMessageHead(agentId: string, status: nat, statusText: string)
    ensures |SignedUrlStatusMessage(agentId, status, statusText)| >= 2
    ensures SignedUrlStatusMessage(agentId, status, statusText)[..2] == SignedUrlHead(Classify(status))
  {
    match Classify(status)
    case NotFound => SignedUrlNotFoundHead(agentId, status, statusText);
    case Unauthorized => SignedUrlFixedHead(agentId, status, statusText);
    case Forbidden => SignedUrlFixedHead(agentId, status, statusText);
    case OtherStatus(_) => SignedUrlOtherHead(agentId, status, statusText);
  }

  lemma SignedUrlNotFoundHead(agentId: string, status: nat, statusText: string)
    requires Classify(status).NotFound?
    ensures |SignedUrlStatusMessage(agentId, status, statusText)| >= 2
    ensures SignedUrlStatusMessage(agentId, status, statusText)[..2] == "Ag"
  {
    var m := SignedUrlStatusMessage(agentId, status, statusText);
    var p := "Agent ID '";
    assert m == p + (agentId + "' not found. Please check your ElevenLabs dashboard and ensure the agent exists.");
    HeadOf(p, agentId + "' not found. Please check your ElevenLabs dashboard and ensure the agent exists.");
  }

  lemma SignedUrlFixedHead(agentId: string, status: nat, statusText: string)
    requires Classify(status).Unauthorized? || Classify(status).Forbidden?
    ensures |SignedUrlStatusMessage(agentId, status, statusText)| >= 2
    ensures SignedUrlStatusMessage(agentId, status, statusText)[..2] == SignedUrlHead(Classify(status))
  {
    var m := SignedUrlStatusMessage(agentId, status, statusText);
    if Classify(status).Unauthorized? {
      assert m[0] == 'I' && m[1] == 'n';
    } else {
      assert m[0] == 'A' && m[1] == 'c';
    }
  }

  lemma SignedUrlOtherHead(agentId: string, status: nat, statusText: string)
    requires Classify(status).OtherStatus?
    ensures |SignedUrlStatusMessage(agentId, status, statusText)| >= 2
    ensures SignedUrlStatusMessage(agentId, status, statusText)[..2] == "El"
  {
    var m := SignedUrlStatusMessage(agentId, status, statusText);
    var p := "ElevenLabs API error: ";
    assert m == p + (NatToString(status) + " - " + statusText);
    HeadOf(p, NatToString(status) + " - " + statusText);
  }

  /** The first two characters of a string with a long enough prefix. */
  lemma HeadOf(p: string, rest: string)
    requires |p| >= 2
    ensures |p + rest| >= 2 && (p + rest)[..2] == p[..2]
  {
  }

  // ---------------------------------------------------------------------
  // WebSocket close codes

  /** Normal closure (1000) and going away (1001), section 7.4.1 of RFC 6455. */
  predicate NormalClosure(code: nat) {
    code == 1000 || code == 1001
  }

  const QuotaExceededMessage := "ElevenLabs quota exceeded. " + "Please check your usage at elevenlabs.io or upgrade your plan."
  const KeyInvalidMessage := "ElevenLabs API key invalid or expired. " + "Please check your API key."

  /** The generic message for an abnormal close. */
  function DisconnectMessage(code: nat, reason: string): string {
    "ElevenLabs disconnected: " + (if reason != "" then reason else "Unknown reason") + " (Code: " + NatToString(code) + ")"
  }

  /** The error a close sets, if any: the service's dedicated codes 1002
      (quota) and 1008 (credential) get their own messages, a normal closure
      sets none, and any other code gets the generic message. */
  function CloseError(code: nat, reason: string): (e: Option<string>)
    ensures e.None? <==> NormalClosure(code)
    ensures code == 1002 ==> e == Some(QuotaExceededMessage)
    ensures code == 1008 ==> e == Some(KeyInvalidMessage)
    ensures e.Some? && code != 1002 && code != 1008 ==> e == Some(DisconnectMessage(code, reason))
  {
    if code == 1002 then Some(QuotaExceededMessage)
    else if code == 1008 then Some(KeyInvalidMessage)
    else if !NormalClosure(code) then Some(DisconnectMessage(code, reason))
    else None
  }

  /** With the same reason, distinct abnormal codes give distinct messages,
      which are never the quota or credential messages. */
  lemma CloseMessagesDistinguishCode(c1: nat, c2: nat, reason: string)
    requires DisconnectMessage(c1, reason) == DisconnectMessage(c2, reason)
    ensures c1 == c2
    ensures DisconnectMessage(c1, reason) != QuotaExceededMessage
    ensures DisconnectMessage(c1, reason) != KeyInvalidMessage
  {
    var r := if reason != "" then reason else "Unknown reason";
    var p := "ElevenLabs disconnected: " + r + " (Code: ";
    var m := DisconnectMessage(c1, reason);
    assert m == p + (NatToString(c1) + ")");
    assert DisconnectMessage(c2, reason) == p + (NatToString(c2) + ")");
    PrefixCancel(p, NatToString(c1) + ")", NatToString(c2) + ")");
    DigitPrefixDetermined(NatToString(c1), NatToString(c2), ")", ")");
    NatToStringInjective(c1, c2);
    var head := "ElevenLabs disconnected: ";
    assert m == head + (r + " (Code: " + NatToString(c1) + ")");
    assert m[11] == head[11] == 'd';
    assert QuotaExceededMessage[11] == 'q';
    assert KeyInvalidMessage[11] == 'A';
  }
}

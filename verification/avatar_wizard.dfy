/** The create-simli avatar-creation wizard: a name and description yield
    a generated image (step 1 to 2), a personality text yields a system
    prompt (step 2 to 3), and both create a conversational agent, after
    which the browser goes to the chat page. The three server calls are
    requests the model emits and outcomes it receives. */
module AvatarWizard {
  import opened Common

  const DefaultDescription := "portrait"
  const DefaultVoice := "21m00Tcm4TlvDq8ikWAM"
  /** The voice ids the voice `<select>` offers. */
  const Voices := ["21m00Tcm4TlvDq8ikWAM", "AZnzlk1XvdvUeBnXmlld", "EXAVITQu4vr4xnSDxMaL",
                   "ErXwobaYiN019PkySvjV", "MF3mGyEYCl7XYWbV9V6O", "TxGEqnHWrfWFTfGW9XjX"]
  const Language := "en"

  const NameMissing := "Please enter an avatar name"
  const PersonalityMissing := "Please describe your avatar's personality"
  const DataMissing := "Missing required data"
  const ImageFailed := "Failed to generate image"
  const PromptFailed := "Failed to generate prompt"
  const AgentFailed := "Failed to create agent"
  const NewAvatarId := "new"

  // ---------------------------------------------------------------------
  // String.prototype.trim

  /** The characters `String.prototype.trim` strips: ECMAScript's white
      space and line terminators. */
  predicate IsJsWhitespace(c: char) {
    var n := c as int;
    || 0x09 <= n <= 0x0D || n == 0x20 || n == 0xA0 || n == 0x1680
    || 0x2000 <= n <= 0x200A || n == 0x2028 || n == 0x2029 || n == 0x202F
    || n == 0x205F || n == 0x3000 || n == 0xFEFF
  }

  predicate Blank(s: string) {
    forall i :: 0 <= i < |s| ==> IsJsWhitespace(s[i])
  }

  /** Leading white space removed. */
  function TrimStart(s: string): (t: string)
    ensures |t| <= |s| && t == s[|s| - |t|..]
    ensures Blank(s[..|s| - |t|])
    ensures t != [] ==> !IsJsWhitespace(t[0])
  {
    if s != [] && IsJsWhitespace(s[0]) then
      var t := TrimStart(s[1..]);
      assert s[..|s| - |t|] == [s[0]] + s[1..][..|s| - 1 - |t|];
      t
    else s
  }

  /** Trailing white space removed. */
  function TrimEnd(s: string): (t: string)
    ensures |t| <= |s| && t == s[..|t|]
    ensures Blank(s[|t|..])
    ensures t != [] ==> !IsJsWhitespace(t[|t| - 1])
  {
    if s != [] && IsJsWhitespace(s[|s| - 1]) then
      var t := TrimEnd(s[..|s| - 1]);
      assert s[|t|..] == s[..|s| - 1][|t|..] + [s[|s| - 1]];
      t
    else s
  }

  /** `String.prototype.trim`: the longest middle slice that neither
      starts nor ends with white space. The wizard's guards test
      `!text.trim()`, which by this contract is `Blank(text)`, and are
      written that way. */
  function Trim(s: string): (t: string)
    ensures t == "" <==> Blank(s)
    ensures t != "" ==> !IsJsWhitespace(t[0]) && !IsJsWhitespace(t[|t| - 1])
  {
    var front := TrimStart(s);
    var t := TrimEnd(front);
    if t == "" then
      assert s == s[..|s| - |front|] + front;
      BlankConcat(s[..|s| - |front|], front);
      t
    else
      assert t[0] == front[0];
      assert !Blank(s) by {
        assert s[|s| - |front|] == front[0];
      }
      t
  }

  lemma BlankConcat(a: string, b: string)
    requires Blank(a) && Blank(b)
    ensures Blank(a + b)
  {
  }

  // ---------------------------------------------------------------------
  // The wizard

  /** What the agent-creation call sends. */
  datatype AgentBody = AgentBody(name: string, imageUrl: string, systemPrompt: string,
                                 voiceId: string, language: string, firstMessage: string)

  /** The three server calls, with the values read when they were made. */
  datatype Request =
    | GenerateImage(name: string, description: string)
    | GeneratePrompt(knowledgeBase: string)
    | CreateAgent(body: AgentBody)

  /** A server call's outcome: its data, or a failure with the `error`
      field of the failed response, if any. */
  datatype Remote<T> = Done(value: T) | Failed(serverError: Option<string>)

  /** What a created agent comes back with. */
  datatype Created = Created(agentId: string, dbRecordId: Option<string>)

  /** The chat page's query parameters. */
  datatype ChatLink = ChatLink(avatarId: string, name: string, agentId: string, imageUrl: string)

  datatype Effect = Post(request: Request) | Navigate(link: ChatLink)

  datatype Wizard = Wizard(
    step: nat,
    loading: bool,
    error: Option<string>,
    name: string,
    description: string,
    knowledgeBase: string,
    voiceId: string,
    image: Option<string>,
    prompt: Option<string>,
    pending: Option<Request>)

  const Initial := Wizard(1, false, None, "", DefaultDescription, "", DefaultVoice, None, None, None)

  datatype Event =
    | EditName(name: string)
    | EditDescription(description: string)
    | EditKnowledgeBase(knowledgeBase: string)
    | SelectVoice(voiceId: string)
    | ClickGenerateImage
    | ClickGeneratePrompt
    | ClickCreateAgent
    | ImageGenerated(image: Remote<string>)
    | PromptGenerated(prompt: Remote<string>)
    | AgentCreated(agent: Remote<Created>)

  datatype Step = Step(wizard: Wizard, effects: seq<Effect>)

  /** `error.response?.data?.error || fallback`. */
  function ServerErrorOr(serverError: Option<string>, fallback: string): (m: string)
    ensures Present(serverError) ==> m == serverError.value
    ensures !Present(serverError) ==> m == fallback
  {
    if Present(serverError) then serverError.value else fallback
  }

  /** The greeting the created agent opens with. */
  function FirstMessage(name: string): (m: string)
    ensures |m| >= 11 + |name|
    ensures m[..11] == "Hello! I'm " && m[11..11 + |name|] == name
    ensures m[11 + |name|..] == ". How can I help you today?"
  {
    "Hello! I'm " + name + ". How can I help you today?"
  }

  /** `handleGenerateImage` up to the request: a blank name is refused
      without a request; otherwise the request is made with the current
      name and description. */
  function StartImage(w: Wizard): (r: Step)
    ensures Blank(w.name) ==> r == Step(w.(error := Some(NameMissing)), [])
    ensures !Blank(w.name) ==>
      && r.wizard == w.(loading := true, error := None, pending := Some(GenerateImage(w.name, w.description)))
      && r.effects == [Post(GenerateImage(w.name, w.description))]
  {
    if Blank(w.name) then Step(w.(error := Some(NameMissing)), [])
    else
      var req := GenerateImage(w.name, w.description);
      Step(w.(loading := true, error := None, pending := Some(req)), [Post(req)])
  }

  /** The image outcome: success stores the image and moves to step 2;
      failure keeps the step and reports the server's error or the
      default. Loading ends either way. */
  function FinishImage(w: Wizard, outcome: Remote<string>): (r: Wizard)
    ensures !r.loading && r.pending.None?
    ensures outcome.Done? ==> r.step == 2 && r.image == Some(outcome.value) && r.error == w.error
    ensures outcome.Failed? ==>
      r.step == w.step && r.image == w.image && r.error == Some(ServerErrorOr(outcome.serverError, ImageFailed))
    ensures r.prompt == w.prompt && r.name == w.name
  {
    var done := w.(loading := false, pending := None);
    match outcome
    case Done(url) => done.(image := Some(url), step := 2)
    case Failed(e) => done.(error := Some(ServerErrorOr(e, ImageFailed)))
  }

  /** `handleGeneratePrompt` up to the request. */
  function StartPrompt(w: Wizard): (r: Step)
    ensures Blank(w.knowledgeBase) ==> r == Step(w.(error := Some(PersonalityMissing)), [])
    ensures !Blank(w.knowledgeBase) ==>
      && r.wizard == w.(loading := true, error := None, pending := Some(GeneratePrompt(w.knowledgeBase)))
      && r.effects == [Post(GeneratePrompt(w.knowledgeBase))]
  {
    if Blank(w.knowledgeBase) then Step(w.(error := Some(PersonalityMissing)), [])
    else
      var req := GeneratePrompt(w.knowledgeBase);
      Step(w.(loading := true, error := None, pending := Some(req)), [Post(req)])
  }

  /** The prompt outcome: success stores the prompt and moves to step 3. */
  function FinishPrompt(w: Wizard, outcome: Remote<string>): (r: Wizard)
    ensures !r.loading && r.pending.None?
    ensures outcome.Done? ==> r.step == 3 && r.prompt == Some(outcome.value) && r.error == w.error
    ensures outcome.Failed? ==>
      r.step == w.step && r.prompt == w.prompt && r.error == Some(ServerErrorOr(outcome.serverError, PromptFailed))
    ensures r.image == w.image && r.name == w.name
  {
    var done := w.(loading := false, pending := None);
    match outcome
    case Done(p) => done.(prompt := Some(p), step := 3)
    case Failed(e) => done.(error := Some(ServerErrorOr(e, PromptFailed)))
  }

  /** `handleCreateAgent` up to the request: refused unless both the
      prompt and the image are non-empty; the greeting names the avatar. */
  function StartAgent(w: Wizard): (r: Step)
    ensures !Present(w.prompt) || !Present(w.image) ==> r == Step(w.(error := Some(DataMissing)), [])
    ensures Present(w.prompt) && Present(w.image) ==>
      && r.wizard.loading && r.wizard.error.None? && r.wizard.step == w.step
      && r.wizard.pending.Some? && r.effects == [Post(r.wizard.pending.value)]
      && r.wizard.pending.value == CreateAgent(AgentBody(w.name, w.image.value, w.prompt.value, w.voiceId, Language, FirstMessage(w.name)))
  {
    if !Present(w.prompt) || !Present(w.image) then Step(w.(error := Some(DataMissing)), [])
    else
      var req := CreateAgent(AgentBody(w.name, w.image.value, w.prompt.value, w.voiceId, Language, FirstMessage(w.name)));
      Step(w.(loading := true, error := None, pending := Some(req)), [Post(req)])
  }

  /** The agent outcome: success goes to the chat page with the stored
      record's id (or "new"), the name and image sent, and the agent id;
      failure reports the server's error or the default. */
  function FinishAgent(w: Wizard, body: AgentBody, outcome: Remote<Created>): (r: Step)
    ensures !r.wizard.loading && r.wizard.pending.None? && r.wizard.step == w.step
    ensures outcome.Done? ==>
      && |r.effects| == 1 && r.effects[0].Navigate? && r.wizard.error == w.error
      && r.effects[0].link.name == body.name && r.effects[0].link.imageUrl == body.imageUrl
      && r.effects[0].link.agentId == outcome.value.agentId
      && (Present(outcome.value.dbRecordId) ==> r.effects[0].link.avatarId == outcome.value.dbRecordId.value)
      && (!Present(outcome.value.dbRecordId) ==> r.effects[0].link.avatarId == NewAvatarId)
    ensures outcome.Failed? ==>
      r.effects == [] && r.wizard.error == Some(ServerErrorOr(outcome.serverError, AgentFailed))
  {
    var done := w.(loading := false, pending := None);
    match outcome
    case Done(created) =>
      var avatarId := if Present(created.dbRecordId) then created.dbRecordId.value else NewAvatarId;
      Step(done, [Navigate(ChatLink(avatarId, body.name, created.agentId, body.imageUrl))])
    case Failed(e) => Step(done.(error := Some(ServerErrorOr(e, AgentFailed))), [])
  }

  /** One user action or server answer. A button is clickable only on its
      own step and, like the source's `disabled` props, not while loading
      (nor, for the first two, while its text is blank); an answer is
      taken only for the request in flight. */
  function Next(w: Wizard, e: Event): Step {
    match e
    case EditName(v) => Step(w.(name := v), [])
    case EditDescription(v) => Step(w.(description := v), [])
    case EditKnowledgeBase(v) => Step(w.(knowledgeBase := v), [])
    case SelectVoice(v) => if v in Voices then Step(w.(voiceId := v), []) else Step(w, [])
    case ClickGenerateImage =>
      if w.step == 1 && !w.loading && !Blank(w.name) then StartImage(w) else Step(w, [])
    case ClickGeneratePrompt =>
      if w.step == 2 && !w.loading && !Blank(w.knowledgeBase) then StartPrompt(w) else Step(w, [])
    case ClickCreateAgent =>
      if w.step == 3 && !w.loading then StartAgent(w) else Step(w, [])
    case ImageGenerated(outcome) =>
      if w.pending.Some? && w.pending.value.GenerateImage? then Step(FinishImage(w, outcome), []) else Step(w, [])
    case PromptGenerated(outcome) =>
      if w.pending.Some? && w.pending.value.GeneratePrompt? then Step(FinishPrompt(w, outcome), []) else Step(w, [])
    case AgentCreated(outcome) =>
      if w.pending.Some? && w.pending.value.CreateAgent? then FinishAgent(w, w.pending.value.body, outcome) else Step(w, [])
  }

  /** What every reachable wizard satisfies: the step is 1, 2 or 3; step 2
      has an image and step 3 a prompt too; a request is in flight exactly
      while loading, and it belongs to the current step; the voice is one
      the list offers. */
  predicate Valid(w: Wizard) {
    && 1 <= w.step <= 3
    && (w.step >= 2 ==> w.image.Some?)
    && (w.step == 3 ==> w.prompt.Some?)
    && (w.loading <==> w.pending.Some?)
    && (w.pending.Some? && w.pending.value.GenerateImage? ==> w.step == 1)
    && (w.pending.Some? && w.pending.value.GeneratePrompt? ==> w.step == 2)
    && (w.pending.Some? && w.pending.value.CreateAgent? ==> w.step == 3)
    && w.voiceId in Voices
  }

  /** Every event keeps `Valid`, and the step never goes back. */
  lemma NextPreservesValid(w: Wizard, e: Event)
    requires Valid(w)
    ensures Valid(Next(w, e).wizard)
    ensures Next(w, e).wizard.step >= w.step
  {
  }

  /** A run of events; the effects are concatenated. */
  function Run(w: Wizard, events: seq<Event>): Step
    decreases |events|
  {
    if events == [] then Step(w, [])
    else
      var first := Next(w, events[0]);
      var rest := Run(first.wizard, events[1..]);
      Step(rest.wizard, first.effects + rest.effects)
  }

  /** From the initial wizard, no run of events leaves the steps 1 to 3,
      and the step only moves forward. */
  lemma {:induction false} RunPreservesValid(w: Wizard, events: seq<Event>)
    requires Valid(w)
    ensures Valid(Run(w, events).wizard)
    ensures Run(w, events).wizard.step >= w.step
    decreases |events|
  {
    if events != [] {
      NextPreservesValid(w, events[0]);
      RunPreservesValid(Next(w, events[0]).wizard, events[1..]);
    }
  }

  /** A blank name is refused however the handler is reached: error set,
      step kept, nothing requested. */
  lemma BlankNameRefused(w: Wizard)
    requires Blank(w.name)
    ensures StartImage(w).wizard.step == w.step && StartImage(w).effects == []
    ensures StartImage(w).wizard.error == Some(NameMissing)
    ensures Next(w, ClickGenerateImage) == Step(w, [])
  {
  }

  /** A click on "generate image" with a non-blank name on step 1 posts
      the name and description and waits for the image. */
  lemma ImageClickPosts(w: Wizard)
    requires w.step == 1 && !w.loading && w.pending.None? && !Blank(w.name)
    ensures Next(w, ClickGenerateImage)
         == Step(w.(loading := true, error := None, pending := Some(GenerateImage(w.name, w.description))),
                 [Post(GenerateImage(w.name, w.description))])
  {
  }

  /** A generated image answering the request in flight is stored and
      moves the wizard to step 2. */
  lemma ImageDoneAdvances(w: Wizard, url: string)
    requires w.pending.Some? && w.pending.value.GenerateImage?
    ensures Next(w, ImageGenerated(Done(url))) == Step(w.(step := 2, image := Some(url), loading := false, pending := None), [])
  {
  }

  /** Step 1 of the documented path: a click with a non-blank name asks
      for an image, and its success moves to step 2 with that image. */
  lemma ImageStage(w: Wizard, url: string)
    requires w.step == 1 && !w.loading && w.pending.None? && !Blank(w.name)
    ensures Next(w, ClickGenerateImage).effects == [Post(GenerateImage(w.name, w.description))]
    ensures Next(Next(w, ClickGenerateImage).wizard, ImageGenerated(Done(url))).wizard
         == w.(step := 2, image := Some(url), error := None)
  {
    ImageClickPosts(w);
    ImageDoneAdvances(Next(w, ClickGenerateImage).wizard, url);
  }

  /** A click on "generate prompt" with a non-blank personality on step 2
      posts the personality text and waits for the prompt. */
  lemma PromptClickPosts(w: Wizard)
    requires w.step == 2 && !w.loading && w.pending.None? && !Blank(w.knowledgeBase)
    ensures Next(w, ClickGeneratePrompt)
         == Step(w.(loading := true, error := None, pending := Some(GeneratePrompt(w.knowledgeBase))),
                 [Post(GeneratePrompt(w.knowledgeBase))])
  {
  }

  /** A generated prompt answering the request in flight is stored and
      moves the wizard to step 3. */
  lemma PromptDoneAdvances(w: Wizard, prompt: string)
    requires w.pending.Some? && w.pending.value.GeneratePrompt?
    ensures Next(w, PromptGenerated(Done(prompt))) == Step(w.(step := 3, prompt := Some(prompt), loading := false, pending := None), [])
  {
  }

  /** Step 2: a click with a non-blank personality asks for a prompt, and
      its success moves to step 3 with that prompt. */
  lemma PromptStage(w: Wizard, prompt: string)
    requires w.step == 2 && !w.loading && w.pending.None? && !Blank(w.knowledgeBase)
    ensures Next(w, ClickGeneratePrompt).effects == [Post(GeneratePrompt(w.knowledgeBase))]
    ensures Next(Next(w, ClickGeneratePrompt).wizard, PromptGenerated(Done(prompt))).wizard
         == w.(step := 3, prompt := Some(prompt), error := None)
  {
    PromptClickPosts(w);
    PromptDoneAdvances(Next(w, ClickGeneratePrompt).wizard, prompt);
  }

  /** Step 3: with a non-empty image and prompt, a click creates the agent
      with the greeting for the name, and its success sends the browser to
      the chat with the stored record's id. */
  lemma AgentStage(w: Wizard, agentId: string, id: string)
    requires w.step == 3 && !w.loading && w.pending.None? && Present(w.image) && Present(w.prompt) && id != ""
    ensures Next(w, ClickCreateAgent).effects
         == [Post(CreateAgent(AgentBody(w.name, w.image.value, w.prompt.value, w.voiceId, Language, FirstMessage(w.name))))]
    ensures Next(Next(w, ClickCreateAgent).wizard, AgentCreated(Done(Created(agentId, Some(id))))).effects
         == [Navigate(ChatLink(id, w.name, agentId, w.image.value))]
  {
  }
}

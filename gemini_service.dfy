/**
 * The request shaping and reply cleaning of `analyzeSupplyChainData`.  The
 * model call and `JSON.parse` are foreign: they are parameters.
 */
module GeminiService {
  import opened Wrappers
  import opened JsString
  import opened Types

  const ImageModel := "gemini-3-pro-image-preview"
  const TextModel := "gemini-3-flash-preview"
  const PromptPrefix := "Raw Supply Chain Data for Analysis: "
  const ImageMimeType := "image/jpeg"
  const MissingKeyMessage := "API_KEY is not set in the environment variables."
  const NoTextMessage := "No response text received from the AI."
  const GenericFailure := "Failed to get analysis from ShieldChain AI. Please try again."
  const FenceOpen := "```json"
  const FenceClose := "```"

  /** One entry of `contents.parts`. */
  datatype Part = TextPart(text: string) | InlineData(mimeType: string, data: string)

  /** What is handed to `generateContent`: the model and the parts. */
  datatype Request = Request(model: string, parts: seq<Part>)

  /** How `generateContent` came back: it threw, or it replied with `text`. */
  datatype Reply = Threw | Replied(text: Option<string>)

  /** The model choice: the image model exactly when there is a non-empty image. */
  function ModelName(input: GeminiInput): (m: string)
    ensures m == ImageModel <==> Truthy(input.image)
    ensures m == TextModel <==> !Truthy(input.image)
  {
    if Truthy(input.image) then ImageModel else TextModel
  }

  /** `contents.parts`: the prompt text, with the image put in front of it
      (`unshift`) when there is one. */
  method BuildParts(input: GeminiInput) returns (parts: seq<Part>)
    ensures |parts| == if Truthy(input.image) then 2 else 1
    ensures parts[|parts| - 1] == TextPart(PromptPrefix + input.text)
    ensures Truthy(input.image) ==> parts[0] == InlineData(ImageMimeType, input.image.value)
  {
    parts := [TextPart(PromptPrefix + input.text)];
    if Truthy(input.image) {
      parts := [InlineData(ImageMimeType, input.image.value)] + parts;
    }
  }

  /** Whether the reply text is wrapped in a json markdown fence. */
  predicate Fenced(s: string) {
    StartsWith(s, FenceOpen) && EndsWith(s, FenceClose)
  }

  /** The opening and closing fences cannot overlap, so a fenced text holds
      at least the ten fence characters. */
  lemma FencedLength(s: string)
    requires Fenced(s)
    ensures |s| >= |FenceOpen| + |FenceClose|
  {
    assert s[..7] == FenceOpen && s[|s| - 3..] == FenceClose;
    assert s[|s| - 3] == '`' && s[4] == 's' && s[5] == 'o' && s[6] == 'n';
    if |s| < 10 {
      assert false;
    }
  }

  /** The fence stripping before `JSON.parse`. */
  function StripFence(s: string): (r: string)
    ensures Fenced(s) ==> |s| >= 10 && |r| <= |s| - 10
    ensures !Fenced(s) ==> r == s
  {
    if Fenced(s) then
      FencedLength(s);
      Trim(s[7..|s| - 3])
    else s
  }

  /** Stripping undoes fencing: a body wrapped in the fence comes back trimmed. */
  lemma StripFenceRoundTrip(body: string)
    ensures StripFence(FenceOpen + body + FenceClose) == Trim(body)
  {
    var s := FenceOpen + body + FenceClose;
    assert s[..7] == FenceOpen;
    assert s[|s| - 3..] == FenceClose;
    assert s[7..|s| - 3] == body;
  }

  /** A reply already free of a fence reaches `JSON.parse` unchanged. */
  lemma StripFenceUnfenced(s: string)
    requires !StartsWith(s, FenceOpen)
    ensures StripFence(s) == s
  {
  }

  /** The text handed to `JSON.parse`, or the error for a reply whose trimmed
      text is absent or empty. */
  function ReplyJson(text: Option<string>): (r: Result<string, string>)
    ensures r.Failure? <==> (text.None? || Trim(text.value) == "")
    ensures r.Failure? ==> r.error == NoTextMessage
    ensures r.Success? ==> r.value == StripFence(Trim(text.value))
  {
    if text.None? || Trim(text.value) == "" then Failure(NoTextMessage)
    else Success(StripFence(Trim(text.value)))
  }

  /** `analyzeSupplyChainData`.  `generate` stands for the model call and
      `parses` for whether `JSON.parse` accepts a text.  On success the result
      is the text that parsed; `sent` is the request that was made, if any. */
  method Analyze(apiKey: Option<string>, input: GeminiInput, generate: Request -> Reply,
                 parses: string -> bool)
    returns (outcome: Result<string, string>, sent: Option<Request>)
    ensures !Truthy(apiKey) ==> outcome == Failure(MissingKeyMessage) && sent == None
    ensures Truthy(apiKey) ==> sent.Some? && sent.value.model == ModelName(input)
    ensures Truthy(apiKey) ==>
              var parts := sent.value.parts;
              && |parts| == (if Truthy(input.image) then 2 else 1)
              && parts[|parts| - 1] == TextPart(PromptPrefix + input.text)
              && (Truthy(input.image) ==> parts[0] == InlineData(ImageMimeType, input.image.value))
    ensures Truthy(apiKey) && outcome.Failure? ==> outcome.error == GenericFailure
    ensures outcome.Success? <==>
              && Truthy(apiKey) && sent.Some?
              && generate(sent.value).Replied?
              && ReplyJson(generate(sent.value).text).Success?
              && parses(ReplyJson(generate(sent.value).text).value)
    ensures outcome.Success? ==> outcome.value == ReplyJson(generate(sent.value).text).value
  {
    if !Truthy(apiKey) {
      return Failure(MissingKeyMessage), None;
    }
    var modelName := ModelName(input);
    var parts := BuildParts(input);
    var request := Request(modelName, parts);
    sent := Some(request);
    var reply := generate(request);
    if reply.Threw? {
      return Failure(GenericFailure), sent;
    }
    var json := ReplyJson(reply.text);
    if json.Failure? || !parses(json.value) {
      return Failure(GenericFailure), sent;
    }
    outcome := Success(json.value);
  }
}

/** The image-generation state: the generation flag, the error banner, the chosen model, style,
    size and step count, and the append-only history of generated images; the form handler that
    runs one generation, and the helper that runs one for a prompt and reports the outcome as a
    pair in which exactly one side is set. */
module Image {
  import opened Wrappers
  import opened Text
  import opened Events
  import opened Env
  import Dict
  import Base64

  /** One history record: the composed prompt, the image as a data URI, and the Unix time of its
      arrival in decimal. */
  datatype GeneratedImage = GeneratedImage(prompt: string, imageB64: string, timestamp: string)

  /** An entry of the `styles` computed var; `caption` is its `label` key. */
  datatype Style = Style(name: string, caption: string, icon: string)

  /** An entry of the `sizes` computed var: the `"WxH"` value and its caption (the `label` key). */
  datatype Size = Size(value: string, caption: string)

  /** `IMAGE_MODELS`: display names and their Workers AI identifiers, in declaration order. */
  const ImageModels: seq<(string, string)> := [
    ("Stable Diffusion XL Base", "@cf/stabilityai/stable-diffusion-xl-base-1.0"),
    ("Stable Diffusion XL Lightning", "@cf/bytedance/stable-diffusion-xl-lightning"),
    ("Flux-1 Schnell", "@cf/black-forest-labs/flux-1-schnell"),
    ("Phoenix-1.0", "@cf/leonardo/phoenix-1.0"),
    ("Lucid-Origin", "@cf/leonardo/lucid-origin"),
    ("Dreamshaper-8-LCM", "@cf/lykon/dreamshaper-8-lcm")
  ]

  // The initial values of the settings fields.
  const DefaultModel: string := "Flux-1 Schnell"
  const DefaultStyle: string := "photorealistic"
  const DefaultSize: string := "1024x1024"
  const DefaultSteps: int := 20

  function Styles(): seq<Style> {
    [
      Style("photorealistic", "Photorealistic", "camera"),
      Style("anime", "Anime", "swords"),
      Style("digital-art", "Digital Art", "paintbrush-2"),
      Style("oil-painting", "Oil Painting", "palette"),
      Style("watercolor", "Watercolor", "paint-bucket"),
      Style("sketch", "Sketch", "pencil")
    ]
  }

  function Sizes(): seq<Size> {
    [Size("1024x1024", "Square"), Size("1024x768", "Landscape"), Size("768x1024", "Portrait")]
  }

  /** The `model_options` computed var: the model names, in order. */
  function ModelOptions(): seq<string> {
    Dict.Keys(ImageModels)
  }

  /** No model name is listed twice: the six names even differ in length. */
  lemma ModelNamesDistinct()
    ensures Dict.DistinctKeys(ImageModels)
  {
    var lengths := [24, 29, 14, 11, 12, 17];
    assert forall k :: 0 <= k < |ImageModels| ==> |ImageModels[k].0| == lengths[k];
  }

  /** Every offered model resolves to its identifier, and each initial setting is one of the
      offered choices. */
  lemma DefaultsAreOffered()
    ensures forall i :: 0 <= i < |ImageModels| ==>
              Dict.Get(ImageModels, ModelOptions()[i]) == Some(ImageModels[i].1)
    ensures DefaultModel in ModelOptions()
    ensures DefaultStyle == Styles()[0].name
    ensures DefaultSize == Sizes()[0].value
  {
    assert ModelOptions()[2] == DefaultModel;
    ModelNamesDistinct();
    forall i | 0 <= i < |ImageModels|
      ensures Dict.Get(ImageModels, ModelOptions()[i]) == Some(ImageModels[i].1)
    {
      Dict.GetEntry(ImageModels, i);
    }
  }

  // ---------------------------------------------------------------------------------------
  // Prompt and size

  /** The prompt sent and recorded: `f"{prompt}, {style} style"`. */
  function ComposePrompt(prompt: string, style: string): string {
    prompt + ", " + style + " style"
  }

  /** The composed prompt starts with the user's prompt, ends with the style clause, and so
      determines the user's prompt once the style is known. */
  lemma {:induction false} ComposedPromptParts(prompt: string, other: string, style: string)
    ensures StartsWith(ComposePrompt(prompt, style), prompt)
    ensures ComposePrompt(prompt, style)[|prompt|..] == ", " + style + " style"
    ensures ComposePrompt(prompt, style) == ComposePrompt(other, style) ==> prompt == other
  {
    var c := ComposePrompt(prompt, style);
    var tail := ", " + style + " style";
    assert c == prompt + tail;
    assert c[..|prompt|] == prompt;
    if c == ComposePrompt(other, style) {
      assert c == other + tail;
      assert |other| == |prompt|;
      assert c[..|other|] == other;
    }
  }

  /** `map(int, size.split("x"))` unpacked into a width and a height: exactly two pieces, each
      a decimal numeral. None where Python raises. */
  function ParseSize(size: string): Option<(nat, nat)> {
    var parts := Split(size, 'x');
    if |parts| == 2 && ParseNat(parts[0]).Some? && ParseNat(parts[1]).Some? then
      Some((ParseNat(parts[0]).value, ParseNat(parts[1]).value))
    else None
  }

  /** The `"WxH"` text of a width and a height. */
  function SizeText(width: nat, height: nat): string {
    Digits(width) + "x" + Digits(height)
  }

  /** A decimal numeral never contains the separator. */
  lemma DigitsHaveNoSeparator(n: nat)
    ensures 'x' !in Digits(n)
  {
    var d := Digits(n);
    forall k | 0 <= k < |d| ensures d[k] != 'x' {
      assert IsDigit(d[k]);
    }
  }

  /** Parsing the text of a size gives back its width and height. */
  lemma SizeRoundTrip(width: nat, height: nat)
    ensures ParseSize(SizeText(width, height)) == Some((width, height))
  {
    DigitsHaveNoSeparator(width);
    DigitsHaveNoSeparator(height);
    assert SizeText(width, height) == Digits(width) + ['x'] + Digits(height);
    SplitPair(Digits(width), Digits(height), 'x');
    ParseDigits(width);
    ParseDigits(height);
  }

  /** The numerals of the offered sizes. */
  lemma OfferedNumerals()
    ensures Digits(1024) == "1024" && Digits(768) == "768"
  {
    assert Digits(10) == Digits(1) + "0";
    assert Digits(102) == Digits(10) + "2";
    assert Digits(1024) == Digits(102) + "4";
    assert Digits(76) == Digits(7) + "6";
    assert Digits(768) == Digits(76) + "8";
  }

  /** Every offered size parses, to the width and height its text names. */
  lemma OfferedSizesParse()
    ensures ParseSize(Sizes()[0].value) == Some((1024, 1024))
    ensures ParseSize(Sizes()[1].value) == Some((1024, 768))
    ensures ParseSize(Sizes()[2].value) == Some((768, 1024))
  {
    OfferedNumerals();
    assert Sizes()[0].value == SizeText(1024, 1024);
    assert Sizes()[1].value == SizeText(1024, 768);
    assert Sizes()[2].value == SizeText(768, 1024);
    SizeRoundTrip(1024, 1024);
    SizeRoundTrip(1024, 768);
    SizeRoundTrip(768, 1024);
  }

  // ---------------------------------------------------------------------------------------
  // The response

  /** What `response.json()['result']['image']` gives: the body does not decode as JSON (a
      requests `JSONDecodeError`, which is a `RequestException`), or it decodes and the lookup
      either yields a value, as the f-string renders it, or raises, with the text of the error. */
  datatype JsonBody = Unparsable(reason: string) | Parsed(image: Result<string, string>)

  /** The HTTP exchange: the request fails (no connection, a timeout, or a status that
      `raise_for_status` rejects), with the text of the error; or a response arrives, with its
      optional `Content-Type` header, its bytes and what its JSON reading gives. */
  datatype ImageResponse =
    | Failed(reason: string)
    | Received(contentType: Option<string>, content: seq<Base64.byte>, json: JsonBody)

  /** The two `except` clauses: a `RequestException` and any other exception, each with its text. */
  datatype Failure = RequestFailure(reason: string) | UnexpectedFailure(detail: string)

  const PngType: string := "image/png"
  const JsonType: string := "application/json"
  const DataUriPrefix: string := "data:image/png;base64,"

  function UnexpectedType(contentType: string): string {
    "Unexpected content type: " + contentType
  }

  /** The image of a JSON body as a data URI, or the failure its reading raises. */
  function JsonImage(json: JsonBody): Result<string, Failure> {
    match json
    case Unparsable(reason) => Err(RequestFailure(reason))
    case Parsed(Err(detail)) => Err(UnexpectedFailure(detail))
    case Parsed(Ok(image)) => Ok(DataUriPrefix + image)
  }

  /** The choice of payload by content type: `image/png` first, then `application/json`. */
  function ImageData(contentType: string, content: seq<Base64.byte>, json: JsonBody): Result<string, Failure> {
    if Contains(contentType, PngType) then Ok(DataUriPrefix + Base64.Encode(content))
    else if Contains(contentType, JsonType) then JsonImage(json)
    else Err(UnexpectedFailure(UnexpectedType(contentType)))
  }

  /** The outcome of the request: the data URI of the image, or why there is none. A missing
      header reads as the empty content type. */
  function Outcome(response: ImageResponse): Result<string, Failure> {
    match response
    case Failed(reason) => Err(RequestFailure(reason))
    case Received(contentType, content, json) => ImageData(contentType.GetOr(""), content, json)
  }

  /** The dispatch in terms of where the media types occur in the header: a PNG body wins
      whatever else the header says, a JSON body is read only without it, and a header with
      neither is an error that names it. */
  lemma {:induction false} ContentTypeDispatch(contentType: string, content: seq<Base64.byte>, json: JsonBody)
    ensures (exists i :: OccursAt(contentType, PngType, i)) ==>
              ImageData(contentType, content, json) == Ok(DataUriPrefix + Base64.Encode(content))
    ensures (forall i :: !OccursAt(contentType, PngType, i)) && (exists i :: OccursAt(contentType, JsonType, i)) ==>
              ImageData(contentType, content, json) == JsonImage(json)
    ensures (forall i :: !OccursAt(contentType, PngType, i)) && (forall i :: !OccursAt(contentType, JsonType, i)) ==>
              ImageData(contentType, content, json) == Err(UnexpectedFailure(UnexpectedType(contentType)))
  {
    ContainsIff(contentType, PngType);
    ContainsIff(contentType, JsonType);
  }

  /** A PNG body comes back out of its data URI: the URI is the prefix followed by a base 64 text
      that decodes to exactly the bytes received. */
  lemma PngDataUriDecodes(contentType: string, content: seq<Base64.byte>, json: JsonBody)
    requires Contains(contentType, PngType)
    ensures ImageData(contentType, content, json).Ok?
    ensures StartsWith(ImageData(contentType, content, json).value, DataUriPrefix)
    ensures Base64.Decode(ImageData(contentType, content, json).value[|DataUriPrefix|..]) == Some(content)
  {
    var uri := DataUriPrefix + Base64.Encode(content);
    assert uri[..|DataUriPrefix|] == DataUriPrefix;
    assert uri[|DataUriPrefix|..] == Base64.Encode(content);
    Base64.DecodeEncode(content);
  }

  /** The request succeeds exactly when a response arrives whose header names PNG, or names JSON
      and the image lookup yields a value; every success is a PNG data URI. */
  lemma {:induction false} OutcomeSucceedsIff(response: ImageResponse)
    ensures Outcome(response).Ok? <==>
              && response.Received?
              && (|| Contains(response.contentType.GetOr(""), PngType)
                  || (Contains(response.contentType.GetOr(""), JsonType) && response.json.Parsed? && response.json.image.Ok?))
    ensures Outcome(response).Ok? ==> StartsWith(Outcome(response).value, DataUriPrefix)
  {
    var r := Outcome(response);
    if r.Ok? {
      assert r.value[..|DataUriPrefix|] == DataUriPrefix;
    }
  }

  // ---------------------------------------------------------------------------------------
  // The request

  /** `CLOUDFLARE_ACCOUNT_ID` and `CLOUDFLARE_AUTH_TOKEN`. */
  datatype ImageEnv = ImageEnv(accountId: Option<string>, token: Option<string>)

  predicate CredentialsSet(env: ImageEnv) {
    Configured(env.accountId) && Configured(env.token)
  }

  /** The model part of the URL: the identifier, or `None` as the f-string renders a missing
      lookup. */
  function ModelSegment(model: string): string {
    var id := Dict.Get(ImageModels, model);
    if id.Some? then id.value else "None"
  }

  function RunUrl(accountId: string, model: string): string {
    "https://api.cloudflare.com/client/v4/accounts/" + accountId + "/ai/run/" + ModelSegment(model)
  }

  /** The request sent: its URL, its bearer header, the JSON fields and the timeout. */
  datatype ImageRequest = ImageRequest(url: string, authorization: string, prompt: string, numSteps: int,
                                       width: nat, height: nat, timeoutSeconds: nat)

  const TimeoutSeconds: nat := 120
  const HelperSteps: int := 20

  function RequestFor(env: ImageEnv, model: string, prompt: string, steps: int, size: (nat, nat)): ImageRequest
    requires CredentialsSet(env)
  {
    ImageRequest(RunUrl(env.accountId.value, model), "Bearer " + env.token.value, prompt, steps,
                 size.0, size.1, TimeoutSeconds)
  }

  // The texts the handlers report.
  const EmptyPromptNotice: Event := Toast("Please enter a prompt.", 3000)
  const CredentialsBanner: string := "API credentials not configured."
  const HelperCredentialsError: string := "API credentials not configured for image generation."

  function RequestBanner(reason: string): string {
    "API Error: " + reason
  }

  function UnexpectedError(detail: string): string {
    "An unexpected error occurred: " + detail
  }

  /** What `_generate_image_from_prompt` does: it returns the pair `(image, error)`, or it raises
      before the request because the selected size does not parse. */
  datatype Reply = Returned(image: Option<string>, error: Option<string>) | RaisedOnSize

  class ImageGenerationState {
    var isGenerating: bool
    var selectedModel: string
    var imageHistory: seq<GeneratedImage>
    var errorMessage: string
    var selectedStyle: string
    var selectedSize: string
    var qualitySteps: int

    constructor ()
      ensures !isGenerating && selectedModel == DefaultModel && imageHistory == [] && errorMessage == ""
      ensures selectedStyle == DefaultStyle && selectedSize == DefaultSize && qualitySteps == DefaultSteps
    {
      isGenerating := false;
      selectedModel := DefaultModel;
      imageHistory := [];
      errorMessage := "";
      selectedStyle := DefaultStyle;
      selectedSize := DefaultSize;
      qualitySteps := DefaultSteps;
    }

    /** The `latest_image` computed var: the most recent record, if any. */
    function LatestImage(): (r: Option<GeneratedImage>)
      reads this
      ensures r.Some? <==> imageHistory != []
      ensures r.Some? ==> r.value == imageHistory[|imageHistory| - 1] && r.value in imageHistory
    {
      if imageHistory != [] then Some(imageHistory[|imageHistory| - 1]) else None
    }

    /** The part the two generators share once the credentials are known to be set: split the
        selected size (which raises, before any request, when it does not parse), send the
        request for the selected model, read the response, and append the record on success.
        `outcome` is None when the split raised. */
    method Submit(fullPrompt: string, steps: int, env: ImageEnv, response: ImageResponse, now: nat)
      returns (outcome: Option<Result<string, Failure>>, request: Option<ImageRequest>)
      requires CredentialsSet(env)
      modifies this`imageHistory
      ensures ParseSize(selectedSize).None? ==> outcome.None? && request.None? && imageHistory == old(imageHistory)
      ensures ParseSize(selectedSize).Some? ==>
                && outcome == Some(Outcome(response))
                && request == Some(RequestFor(env, selectedModel, fullPrompt, steps, ParseSize(selectedSize).value))
      ensures ParseSize(selectedSize).Some? && Outcome(response).Ok? ==>
                imageHistory == old(imageHistory) + [GeneratedImage(fullPrompt, Outcome(response).value, Digits(now))]
      ensures ParseSize(selectedSize).Some? && Outcome(response).Err? ==> imageHistory == old(imageHistory)
    {
      outcome := None;
      request := None;
      var size := ParseSize(selectedSize);
      if size.Some? {
        request := Some(RequestFor(env, selectedModel, fullPrompt, steps, size.value));
        var result := Outcome(response);
        if result.Ok? {
          imageHistory := imageHistory + [GeneratedImage(fullPrompt, result.value, Digits(now))];
        }
        outcome := Some(result);
      }
    }

    /** `generate_image`: validate the prompt, mark the generation as running, check the
        credentials, send the request for the selected model, size and step count, and record the
        image on success or put why there is none in the banner; the flag is cleared on every
        path past the credentials check except the size split that raises. `now` is the Unix
        time when the response is read. `flushed` is the running flag, banner and history that
        the bare `yield` sends to the page before the credentials are checked. */
    method GenerateImage(form: map<string, string>, env: ImageEnv, response: ImageResponse, now: nat)
      returns (events: seq<Event>, request: Option<ImageRequest>,
               ghost flushed: Option<(bool, string, seq<GeneratedImage>)>)
      modifies this`isGenerating, this`errorMessage, this`imageHistory
      ensures var prompt := Strip(FormField(form, "prompt"));
              && (prompt == "" <==> flushed.None?)
              && (prompt != "" ==> flushed == Some((true, "", old(imageHistory))))
      ensures |old(imageHistory)| <= |imageHistory| <= |old(imageHistory)| + 1
      ensures imageHistory[..|old(imageHistory)|] == old(imageHistory)
      ensures var prompt := Strip(FormField(form, "prompt"));
              prompt == "" ==>
                && events == [EmptyPromptNotice] && request.None?
                && isGenerating == old(isGenerating) && errorMessage == old(errorMessage)
                && imageHistory == old(imageHistory)
      ensures var prompt := Strip(FormField(form, "prompt"));
              prompt != "" && !CredentialsSet(env) ==>
                && events == [Flush] && request.None?
                && !isGenerating && errorMessage == CredentialsBanner && imageHistory == old(imageHistory)
      ensures var prompt := Strip(FormField(form, "prompt"));
              prompt != "" && CredentialsSet(env) && ParseSize(selectedSize).None? ==>
                && events == [Flush] && request.None?
                && isGenerating && errorMessage == "" && imageHistory == old(imageHistory)
      ensures var prompt := Strip(FormField(form, "prompt"));
              var fullPrompt := ComposePrompt(prompt, selectedStyle);
              var outcome := Outcome(response);
              prompt != "" && CredentialsSet(env) && ParseSize(selectedSize).Some? ==>
                && events == [Flush] && !isGenerating
                && request == Some(RequestFor(env, selectedModel, fullPrompt, qualitySteps, ParseSize(selectedSize).value))
                && (outcome.Ok? ==>
                      && imageHistory == old(imageHistory) + [GeneratedImage(fullPrompt, outcome.value, Digits(now))]
                      && LatestImage() == Some(GeneratedImage(fullPrompt, outcome.value, Digits(now)))
                      && errorMessage == "")
                && (outcome.Err? ==> imageHistory == old(imageHistory))
                && (outcome.Err? && outcome.error.RequestFailure? ==> errorMessage == RequestBanner(outcome.error.reason))
                && (outcome.Err? && outcome.error.UnexpectedFailure? ==> errorMessage == outcome.error.detail)
    {
      request := None;
      flushed := None;
      var prompt := Strip(FormField(form, "prompt"));
      if prompt == "" {
        events := [EmptyPromptNotice];
      } else {
        var fullPrompt := ComposePrompt(prompt, selectedStyle);
        isGenerating := true;
        errorMessage := "";
        events := [Flush];
        flushed := Some((isGenerating, errorMessage, imageHistory));
        if !CredentialsSet(env) {
          errorMessage := CredentialsBanner;
          isGenerating := false;
        } else {
          var outcome;
          outcome, request := Submit(fullPrompt, qualitySteps, env, response, now);
          if outcome.Some? {
            if outcome.value.Err? {
              errorMessage := if outcome.value.error.RequestFailure? then RequestBanner(outcome.value.error.reason)
                              else outcome.value.error.detail;
            }
            isGenerating := false;
          }
        }
      }
    }

    /** `_generate_image_from_prompt`: generate an image for `prompt` in `style` with the selected
        model and size and the fixed step count, record it on success, and return the pair
        `(image, error)`. `now` is the Unix time when the response is read. */
    method GenerateImageFromPrompt(prompt: string, style: string, env: ImageEnv, response: ImageResponse, now: nat)
      returns (reply: Reply, request: Option<ImageRequest>)
      modifies this`imageHistory
      ensures reply.Returned? ==> (reply.image.Some? <==> reply.error.None?)
      ensures reply.Returned? && reply.image.Some? ==> StartsWith(reply.image.value, DataUriPrefix)
      ensures reply.RaisedOnSize? <==> CredentialsSet(env) && ParseSize(selectedSize).None?
      ensures |old(imageHistory)| <= |imageHistory| <= |old(imageHistory)| + 1
      ensures imageHistory[..|old(imageHistory)|] == old(imageHistory)
      ensures !CredentialsSet(env) ==>
                reply == Returned(None, Some(HelperCredentialsError)) && request.None? && imageHistory == old(imageHistory)
      ensures CredentialsSet(env) && ParseSize(selectedSize).None? ==>
                request.None? && imageHistory == old(imageHistory)
      ensures var fullPrompt := ComposePrompt(prompt, style);
              var outcome := Outcome(response);
              CredentialsSet(env) && ParseSize(selectedSize).Some? ==>
                && request == Some(RequestFor(env, selectedModel, fullPrompt, HelperSteps, ParseSize(selectedSize).value))
                && (outcome.Ok? ==>
                      && reply == Returned(Some(outcome.value), None)
                      && imageHistory == old(imageHistory) + [GeneratedImage(fullPrompt, outcome.value, Digits(now))])
                && (outcome.Err? ==> imageHistory == old(imageHistory))
                && (outcome.Err? && outcome.error.RequestFailure? ==>
                      reply == Returned(None, Some(RequestBanner(outcome.error.reason))))
                && (outcome.Err? && outcome.error.UnexpectedFailure? ==>
                      reply == Returned(None, Some(UnexpectedError(outcome.error.detail))))
    {
      request := None;
      var fullPrompt := ComposePrompt(prompt, style);
      if !CredentialsSet(env) {
        reply := Returned(None, Some(HelperCredentialsError));
      } else {
        var outcome;
        outcome, request := Submit(fullPrompt, HelperSteps, env, response, now);
        OutcomeSucceedsIff(response);
        if outcome.None? {
          reply := RaisedOnSize;
        } else if outcome.value.Ok? {
          reply := Returned(Some(outcome.value.value), None);
        } else if outcome.value.error.RequestFailure? {
          reply := Returned(None, Some(RequestBanner(outcome.value.error.reason)));
        } else {
          reply := Returned(None, Some(UnexpectedError(outcome.value.error.detail)));
        }
      }
    }
  }
}

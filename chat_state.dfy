/** The chat conversation state: the message list, the streaming flag and the error banner, the
    submit handlers that open a turn, and the streaming handler that fills the assistant
    placeholder from the lines of a server-sent-event response. */
module Chat {
  import opened Wrappers
  import opened Text
  import opened Events
  import opened Env
  import Dict

  datatype Role = User | Assistant

  /** A message dict: `role`, `content`, and the optional `is_initial_greeting`. */
  datatype Message = Message(role: Role, content: string, isInitialGreeting: Option<bool>)

  /** Display names of the chat models and their Workers AI identifiers, in declaration order. */
  const CloudflareModels: seq<(string, string)> := [
    ("Llama 3.1 8B Instruct", "@cf/meta/llama-3.1-8b-instruct"),
    ("Llama 2 7B Chat", "@cf/meta/llama-2-7b-chat-int8"),
    ("Mistral 7B Instruct", "@cf/mistral/mistral-7b-instruct-v0.1")
  ]

  const DefaultModel: string := "Llama 3.1 8B Instruct"

  /** The `model_options` computed var: the model names, in order. */
  function ModelOptions(): seq<string> {
    Dict.Keys(CloudflareModels)
  }

  /** Every offered model, the default among them, resolves to its identifier. */
  lemma EveryModelOptionResolves()
    ensures DefaultModel in ModelOptions()
    ensures forall i :: 0 <= i < |CloudflareModels| ==>
              Dict.Get(CloudflareModels, ModelOptions()[i]) == Some(CloudflareModels[i].1)
  {
    assert ModelOptions()[0] == DefaultModel;
    forall i | 0 <= i < |CloudflareModels|
      ensures Dict.Get(CloudflareModels, ModelOptions()[i]) == Some(CloudflareModels[i].1)
    {
      Dict.GetEntry(CloudflareModels, i);
    }
  }

  // ---------------------------------------------------------------------------------------
  // Submitting a prompt

  /** The two messages an accepted submission appends: the prompt, then the empty assistant
      placeholder that the stream fills. */
  function Exchange(prompt: string): seq<Message> {
    [Message(User, prompt, None), Message(Assistant, "", Some(false))]
  }

  const EmptyPromptNotice: Event := Toast("Please enter a message.", 3000)
  const StreamHandler: string := "stream_cloudflare_response"

  /** The prompt a suggestion card submits. */
  function SuggestionPrompt(suggestionText: string): string {
    "Help me " + Lower(suggestionText)
  }

  /** A suggestion always yields a non-empty stripped prompt that keeps the "Help me" opening, so
      it is refused only while a stream is active. */
  lemma SuggestionPromptAccepted(suggestionText: string)
    ensures Strip(SuggestionPrompt(suggestionText)) != ""
    ensures StartsWith(Strip(SuggestionPrompt(suggestionText)), "Help me")
  {
    var s := SuggestionPrompt(suggestionText);
    assert s[..8] == "Help me ";
    assert TrimStart(s) == s;
    TrimEndKeepsPrefix(s, 7);
    assert s[..7] == "Help me";
  }

  /** Replacing the content of the last message, as `self.messages[-1]["content"] = ...` does. */
  function SetLast(messages: seq<Message>, content: string): (r: seq<Message>)
    requires messages != []
    ensures |r| == |messages|
    ensures r[..|r| - 1] == messages[..|messages| - 1]
    ensures r[|r| - 1] == messages[|messages| - 1].(content := content)
  {
    messages[..|messages| - 1] + [messages[|messages| - 1].(content := content)]
  }

  /** A turn opened on `history` and then written into ends with the history untouched, the
      prompt, and an assistant reply carrying the written content. */
  lemma TurnTranscript(history: seq<Message>, prompt: string, content: string)
    ensures SetLast(history + Exchange(prompt), content)
            == history + [Message(User, prompt, None), Message(Assistant, content, Some(false))]
  {
    var ms := history + Exchange(prompt);
    assert ms[..|ms| - 1] == history + [Message(User, prompt, None)];
  }

  /** Writing the content a message already has leaves the list as it is. */
  lemma {:induction false} SetLastSame(messages: seq<Message>)
    requires messages != []
    ensures SetLast(messages, messages[|messages| - 1].content) == messages
  {
    assert messages == messages[..|messages| - 1] + [messages[|messages| - 1]];
  }

  /** Only the last write to the placeholder survives. */
  lemma {:induction false} SetLastTwice(messages: seq<Message>, first: string, second: string)
    requires messages != []
    ensures SetLast(SetLast(messages, first), second) == SetLast(messages, second)
  {
  }

  // ---------------------------------------------------------------------------------------
  // The event stream

  /** One item of `response.iter_lines()`: bytes that decode as UTF-8 (possibly empty), or bytes
      whose decoding raises, with the text of that error. */
  datatype RawLine = Line(text: string) | Undecodable(reason: string)

  /** The `response` member of a decoded JSON object: absent, null, a string, or a value of another
      JSON type (named by its Python type, with its truth value). */
  datatype Field = Missing | Null | Str(s: string) | Other(typeName: string, truthy: bool)

  /** What `json.loads` makes of a payload: an error, a value that is not an object, or an object. */
  datatype Decoded = Invalid | NotObject | Object(response: Field)

  /** How iterating over the body ends: all lines read, or a transport error while reading. */
  datatype StreamEnd = Exhausted | Dropped(reason: string)

  /** The outcome of the `requests.post` call: no usable response (connection failure or an
      error status, with the exception's text), or an open stream of lines. */
  datatype ChatResponse = Refused(reason: string) | Opened(lines: seq<RawLine>, end: StreamEnd)

  /** What one line does to the loop: nothing, a fragment to accumulate, or an exception that leaves
      the loop for the generic handler. */
  datatype LineEffect = Skip | Fragment(text: string) | Raise(detail: string)

  const DataPrefix: string := "data: "
  const DoneSentinel: string := "[DONE]"

  /** The JSON text a line carries: only for a non-empty line with the exact `data: ` prefix whose
      stripped remainder is neither empty nor the `[DONE]` sentinel. */
  function Payload(text: string): Option<string> {
    if text != "" && StartsWith(text, DataPrefix) then
      var p := Strip(text[|DataPrefix|..]);
      if p == "" || p == DoneSentinel then None else Some(p)
    else None
  }

  /** The message of the TypeError raised by `str += value` for a value that is not a string. */
  function ConcatTypeError(typeName: string): string {
    "can only concatenate str (not \"" + typeName + "\") to str"
  }

  /** The effect of one line on the loop. */
  function Classify(line: RawLine, parse: string -> Decoded): LineEffect {
    match line
    case Undecodable(reason) => Raise(reason)
    case Line(text) =>
      match Payload(text)
      case None => Skip
      case Some(p) =>
        match parse(p)
        case Invalid => Skip
        case NotObject => Skip
        case Object(field) =>
          match field
          case Missing => Fragment("")
          case Null => Fragment("")
          case Str(s) => Fragment(s)
          case Other(typeName, truthy) => if truthy then Raise(ConcatTypeError(typeName)) else Fragment("")
  }

  /** A `data: ` line whose stripped payload is neither empty nor `[DONE]` adds exactly the
      `response` string of the object it decodes to, and `""` when the field is missing or null. */
  lemma DataLineFragment(text: string, parse: string -> Decoded)
    requires StartsWith(text, DataPrefix)
    requires var p := Strip(text[|DataPrefix|..]); p != "" && p != DoneSentinel
    ensures var p := Strip(text[|DataPrefix|..]);
            parse(p).Object? && parse(p).response.Str? ==> Classify(Line(text), parse) == Fragment(parse(p).response.s)
    ensures var p := Strip(text[|DataPrefix|..]);
            parse(p) == Object(Missing) || parse(p) == Object(Null) ==> Classify(Line(text), parse) == Fragment("")
  {
    assert Payload(text) == Some(Strip(text[|DataPrefix|..]));
  }

  /** The reading of one line by the loop. */
  function Reader(parse: string -> Decoded): RawLine -> LineEffect {
    line => Classify(line, parse)
  }

  /** The fragments the loop accumulates, in order, up to the first line that raises. */
  function Fragments(lines: seq<RawLine>, step: RawLine -> LineEffect): seq<string> {
    if lines == [] then []
    else
      match step(lines[0])
      case Skip => Fragments(lines[1..], step)
      case Fragment(t) => [t] + Fragments(lines[1..], step)
      case Raise(_) => []
  }

  /** The detail of the first line that raises, if any. */
  function Raised(lines: seq<RawLine>, step: RawLine -> LineEffect): Option<string> {
    if lines == [] then None
    else
      match step(lines[0])
      case Raise(d) => Some(d)
      case _ => Raised(lines[1..], step)
  }

  /** The in-order concatenation of the fragments. */
  function Concat(parts: seq<string>): string {
    if parts == [] then "" else parts[0] + Concat(parts[1..])
  }

  lemma {:induction false} ConcatSplit(a: seq<string>, b: seq<string>)
    ensures Concat(a + b) == Concat(a) + Concat(b)
  {
    if a != [] {
      assert (a + b)[0] == a[0];
      assert (a + b)[1..] == a[1..] + b;
      ConcatSplit(a[1..], b);
      calc {
        Concat(a + b);
        a[0] + Concat(a[1..] + b);
        a[0] + (Concat(a[1..]) + Concat(b));
        (a[0] + Concat(a[1..])) + Concat(b);
      }
    } else {
      assert a + b == b;
    }
  }

  /** Accumulating one more fragment extends the concatenation by that fragment. */
  lemma ConcatAppend(parts: seq<string>, t: string)
    ensures Concat(parts + [t]) == Concat(parts) + t
  {
    ConcatSplit(parts, [t]);
  }

  /** Reading the lines in two runs: when the first run raises nothing, the fragments are those of
      the first run followed by those of the second. */
  lemma {:induction false} FragmentsCompose(a: seq<RawLine>, b: seq<RawLine>, step: RawLine -> LineEffect)
    requires Raised(a, step).None?
    ensures Fragments(a + b, step) == Fragments(a, step) + Fragments(b, step)
    ensures Raised(a + b, step) == Raised(b, step)
  {
    if a != [] {
      assert (a + b)[0] == a[0];
      assert (a + b)[1..] == a[1..] + b;
      FragmentsCompose(a[1..], b, step);
      match step(a[0])
      case Skip =>
      case Fragment(t) =>
        assert Fragments(a + b, step) == [t] + Fragments(a[1..] + b, step);
    } else {
      assert a + b == b;
    }
  }

  /** What the line at `i` contributes to the fragments and the failure of the lines from `i` on. */
  lemma LineAt(lines: seq<RawLine>, i: nat, step: RawLine -> LineEffect)
    requires i < |lines|
    ensures step(lines[i]).Raise? ==>
              Fragments(lines[i..], step) == [] && Raised(lines[i..], step) == Some(step(lines[i]).detail)
    ensures step(lines[i]).Skip? ==>
              Fragments(lines[i..], step) == Fragments(lines[i + 1..], step)
    ensures step(lines[i]).Fragment? ==>
              Fragments(lines[i..], step) == [step(lines[i]).text] + Fragments(lines[i + 1..], step)
    ensures !step(lines[i]).Raise? ==> Raised(lines[i..], step) == Raised(lines[i + 1..], step)
  {
    assert lines[i..][0] == lines[i];
    assert lines[i..][1..] == lines[i + 1..];
  }

  /** A line without the `data: ` prefix, an empty or `[DONE]` payload, a payload that is not
      JSON or not an object, adds nothing wherever it stands and does not stop the loop. */
  lemma {:induction false} NoiseIgnored(a: seq<RawLine>, text: string, b: seq<RawLine>, parse: string -> Decoded)
    requires || !StartsWith(text, DataPrefix)
             || Strip(text[|DataPrefix|..]) in {"", DoneSentinel}
             || parse(Strip(text[|DataPrefix|..])) in {Invalid, NotObject}
    ensures Fragments(a + [Line(text)] + b, Reader(parse)) == Fragments(a + b, Reader(parse))
    ensures Raised(a + [Line(text)] + b, Reader(parse)) == Raised(a + b, Reader(parse))
  {
    assert Classify(Line(text), parse) == Skip;
    if a == [] {
      assert a + [Line(text)] + b == [Line(text)] + b;
      assert a + b == b;
      assert ([Line(text)] + b)[1..] == b;
    } else {
      assert (a + [Line(text)] + b)[0] == (a + b)[0] == a[0];
      assert (a + [Line(text)] + b)[1..] == a[1..] + [Line(text)] + b;
      assert (a + b)[1..] == a[1..] + b;
      NoiseIgnored(a[1..], text, b, parse);
    }
  }

  /** The contents written into the placeholder, in order, by the first `count` writes: the
      content of each write is the concatenation of the fragments accumulated by then. */
  function Published(fragments: seq<string>, count: nat): (r: seq<string>)
    requires count <= |fragments|
    ensures |r| == count
  {
    if count == 0 then [] else Published(fragments, count - 1) + [Concat(fragments[..count])]
  }

  /** The `j`-th write holds the first `j + 1` fragments. */
  lemma {:induction false} PublishedAt(fragments: seq<string>, count: nat, j: nat)
    requires j < count <= |fragments|
    ensures Published(fragments, count)[j] == Concat(fragments[..j + 1])
  {
    if j < count - 1 {
      PublishedAt(fragments, count - 1, j);
    }
  }

  /** The writes depend only on the fragments they have seen. */
  lemma {:induction false} PublishedPrefix(f: seq<string>, g: seq<string>, count: nat)
    requires count <= |f| && count <= |g| && f[..count] == g[..count]
    ensures Published(f, count) == Published(g, count)
  {
    if count > 0 {
      assert f[..count - 1] == f[..count][..count - 1];
      assert g[..count - 1] == g[..count][..count - 1];
      PublishedPrefix(f, g, count - 1);
    }
  }

  /** One more fragment adds one more write: the concatenation of all fragments so far. */
  lemma {:induction false} PublishedNext(f: seq<string>, t: string)
    ensures Published(f + [t], |f| + 1) == Published(f, |f|) + [Concat(f + [t])]
  {
    var g := f + [t];
    assert g[..|f|] == f[..|f|];
    PublishedPrefix(g, f, |f|);
    assert g[..|f| + 1] == g;
  }

  /** One write in the loop: the placeholder and the record of writes both move on by the
      fragment just accumulated. */
  lemma {:induction false} WriteStep(messages: seq<Message>, prior: string, done: seq<string>, t: string)
    requires messages != []
    ensures SetLast(SetLast(messages, Written(prior, done, |done|)), Concat(done) + t)
            == SetLast(messages, Written(prior, done + [t], |done| + 1))
    ensures Published(done + [t], |done| + 1) == Published(done, |done|) + [Concat(done) + t]
    ensures Concat(done + [t]) == Concat(done) + t
  {
    ConcatAppend(done, t);
    PublishedNext(done, t);
    assert (done + [t])[..|done| + 1] == done + [t];
    SetLastTwice(messages, Written(prior, done, |done|), Concat(done) + t);
  }

  /** The writes made over the first fragments are the same whatever follows them. */
  lemma {:induction false} PrefixWrites(done: seq<string>, rest: seq<string>)
    ensures (done + rest)[..|done|] == done
    ensures Published(done + rest, |done|) == Published(done, |done|)
  {
    assert (done + rest)[..|done|] == done[..|done|];
    PublishedPrefix(done + rest, done, |done|);
  }

  /** The loop's outcome when it finds the flag clear at its next write. */
  lemma {:induction false} CancelledEnd(prior: string, done: seq<string>, rest: seq<string>, closedAt: Option<nat>)
    requires rest != [] && closedAt == Some(|done|)
    ensures StopsEarly(done + rest, closedAt)
    ensures LoopWrites(done + rest, closedAt) == |done|
    ensures Written(prior, done + rest, |done|) == Written(prior, done, |done|)
    ensures Published(done + rest, |done|) == Published(done, |done|)
  {
    PrefixWrites(done, rest);
    assert done[..|done|] == done;
  }

  /** The loop's outcome when it reaches the end of the lines, or a line that raised, having
      written every fragment before it. */
  lemma {:induction false} FinishedEnd(prior: string, done: seq<string>, closedAt: Option<nat>)
    requires closedAt.Some? ==> |done| <= closedAt.value
    ensures !StopsEarly(done, closedAt)
    ensures LoopWrites(done, closedAt) == |done|
    ensures Written(prior, done, |done|) == Written(prior, done, LoopWrites(done, closedAt))
  {
  }

  /** Streamed content only grows: each write extends every earlier one. */
  lemma PublishedGrows(fragments: seq<string>, count: nat, j: nat, k: nat)
    requires count <= |fragments|
    requires j <= k < count
    ensures StartsWith(Published(fragments, count)[k], Published(fragments, count)[j])
  {
    assert fragments[..k + 1] == fragments[..j + 1] + fragments[j + 1..k + 1];
    ConcatSplit(fragments[..j + 1], fragments[j + 1..k + 1]);
    PublishedAt(fragments, count, j);
    PublishedAt(fragments, count, k);
    var p := Published(fragments, count);
    assert p[k] == p[j] + Concat(fragments[j + 1..k + 1]);
    assert p[k][..|p[j]|] == p[j];
  }

  // ---------------------------------------------------------------------------------------
  // The streaming handler as a whole

  /** The three environment variables the handler reads (absent = None). */
  datatype ChatEnv = ChatEnv(accountId: Option<string>, gatewayId: Option<string>, token: Option<string>)

  predicate CredentialsSet(env: ChatEnv) {
    Configured(env.accountId) && Configured(env.gatewayId) && Configured(env.token)
  }

  /** The request the handler sends: its URL, its bearer and content-type headers, the prompt,
      the stream flag and the timeout. */
  datatype ChatRequest = ChatRequest(url: string, authorization: string, contentType: string, prompt: string,
                                     stream: bool, timeoutSeconds: nat)

  const JsonContentType: string := "application/json"

  function GatewayUrl(accountId: string, gatewayId: string, modelId: string): string {
    "https://gateway.ai.cloudflare.com/v1/" + accountId + "/" + gatewayId + "/workers-ai/" + modelId
  }

  /** How a run of the handler ends. */
  datatype Exit =
    | MissingCredentials
    | InvalidModel
    | Cancelled
    | Completed
    | TransportError(reason: string)
    | UnexpectedError(detail: string)

  /** The index of the write attempt at which the handler first finds `is_streaming` false: at once
      when the flag was already clear, otherwise when an outside handler clears it. */
  function ClosedAt(liveAtStart: bool, clearedAt: Option<nat>): Option<nat> {
    if liveAtStart then clearedAt else Some(0)
  }

  /** The fragments of a response; none for a refused request. */
  function ResponseFragments(response: ChatResponse, step: RawLine -> LineEffect): seq<string> {
    if response.Opened? then Fragments(response.lines, step) else []
  }

  /** The loop finds the flag clear before it has written every fragment. */
  predicate StopsEarly(fragments: seq<string>, closedAt: Option<nat>) {
    closedAt.Some? && closedAt.value < |fragments|
  }

  /** How many writes the loop makes over `fragments`: every one, unless it finds the flag clear
      first, at the attempt where it does. */
  function LoopWrites(fragments: seq<string>, closedAt: Option<nat>): (n: nat)
    ensures n <= |fragments|
    ensures closedAt.Some? ==> n <= closedAt.value
    ensures StopsEarly(fragments, closedAt) <==> n < |fragments|
  {
    if StopsEarly(fragments, closedAt) then closedAt.value else |fragments|
  }

  /** How the handler ends once credentials and model are valid. */
  function StreamExit(response: ChatResponse, step: RawLine -> LineEffect, closedAt: Option<nat>): Exit {
    match response
    case Refused(reason) => TransportError(reason)
    case Opened(lines, end) =>
      if StopsEarly(Fragments(lines, step), closedAt) then Cancelled
      else if Raised(lines, step).Some? then UnexpectedError(Raised(lines, step).value)
      else if end.Dropped? then TransportError(end.reason)
      else Completed
  }

  /** How the handler ends. */
  function HandlerExit(env: ChatEnv, model: string, response: ChatResponse, step: RawLine -> LineEffect,
                       closedAt: Option<nat>): Exit
  {
    if !CredentialsSet(env) then MissingCredentials
    else if Dict.Get(CloudflareModels, model).None? then InvalidModel
    else StreamExit(response, step, closedAt)
  }

  /** How many times the placeholder is written during the loop. */
  function WriteCount(env: ChatEnv, model: string, response: ChatResponse, step: RawLine -> LineEffect,
                      closedAt: Option<nat>): nat
  {
    if !CredentialsSet(env) || Dict.Get(CloudflareModels, model).None? then 0
    else StreamWrites(response, step, closedAt)
  }

  /** How many times the placeholder is written once a request has been sent. */
  function StreamWrites(response: ChatResponse, step: RawLine -> LineEffect, closedAt: Option<nat>): nat {
    if response.Refused? then 0 else LoopWrites(Fragments(response.lines, step), closedAt)
  }

  /** Liveness of the writes: never at or past the attempt that finds the flag clear, exactly up to
      it when the stream is cancelled, none before a request is answered, and every fragment when
      the stream completes. */
  lemma WriteCountBounds(env: ChatEnv, model: string, response: ChatResponse, step: RawLine -> LineEffect,
                         closedAt: Option<nat>)
    ensures WriteCount(env, model, response, step, closedAt) <= |ResponseFragments(response, step)|
    ensures closedAt.Some? ==> WriteCount(env, model, response, step, closedAt) <= closedAt.value
    ensures HandlerExit(env, model, response, step, closedAt) == Cancelled ==>
              WriteCount(env, model, response, step, closedAt) == closedAt.value
    ensures response.Refused? || !CredentialsSet(env) || Dict.Get(CloudflareModels, model).None? ==>
              WriteCount(env, model, response, step, closedAt) == 0
    ensures HandlerExit(env, model, response, step, closedAt) == Completed ==>
              WriteCount(env, model, response, step, closedAt) == |ResponseFragments(response, step)|
  {
  }

  /** The content of the placeholder after `writes` writes: the prior content when there were
      none, otherwise the concatenation of the fragments written so far. */
  function Written(prior: string, fragments: seq<string>, writes: nat): string
    requires writes <= |fragments|
  {
    if writes == 0 then prior else Concat(fragments[..writes])
  }

  // The texts the handler writes into the placeholder and into the error banner.
  const CredentialsReply: string := "Cloudflare credentials are not set."
  const CredentialsBanner: string := "API credentials not configured."
  const ModelReply: string := "Invalid model selected."
  const ModelBanner: string := "Invalid model."

  function TransportReply(reason: string): string {
    "Sorry, I encountered an error. API Error: " + reason
  }

  function TransportBanner(reason: string): string {
    "API Error: " + reason
  }

  function UnexpectedReply(detail: string): string {
    "An unexpected error occurred: " + detail
  }

  /** The last message's final content: the fixed or error text of the exit, otherwise the last
      content written. */
  function FinalContent(prior: string, exit: Exit, fragments: seq<string>, writes: nat): string
    requires writes <= |fragments|
  {
    match exit
    case MissingCredentials => CredentialsReply
    case InvalidModel => ModelReply
    case TransportError(reason) => TransportReply(reason)
    case UnexpectedError(detail) => UnexpectedReply(detail)
    case _ => Written(prior, fragments, writes)
  }

  /** The stream stops because another handler cleared the flag while it ran (the flag was set
      when the handler started). That handler, `go_back_and_clear_chat`, also empties the
      conversation and the banner. */
  predicate ClearedMidStream(liveAtStart: bool, exit: Exit) {
    liveAtStart && exit == Cancelled
  }

  /** The message list after the handler: the empty list a mid-stream clear leaves, otherwise the
      list before it with the last message's content replaced. */
  function FinalMessages(before: seq<Message>, liveAtStart: bool, exit: Exit, fragments: seq<string>,
                         writes: nat): seq<Message>
    requires before != [] && writes <= |fragments|
  {
    if ClearedMidStream(liveAtStart, exit) then []
    else SetLast(before, FinalContent(before[|before| - 1].content, exit, fragments, writes))
  }

  /** The error banner after the handler. A mid-stream clear empties it; a completed stream, or
      one that finds the flag clear at its start, leaves it as it was. */
  function FinalError(prior: string, liveAtStart: bool, exit: Exit): string {
    match exit
    case MissingCredentials => CredentialsBanner
    case InvalidModel => ModelBanner
    case TransportError(reason) => TransportBanner(reason)
    case UnexpectedError(detail) => detail
    case Cancelled => if liveAtStart then "" else prior
    case Completed => prior
  }

  /** A stream that completes leaves in the placeholder exactly the in-order concatenation of the
      `response` fields of its accepted payloads. */
  lemma CompletedContentIsConcatenation(env: ChatEnv, model: string, response: ChatResponse,
                                        step: RawLine -> LineEffect, closedAt: Option<nat>)
    requires HandlerExit(env, model, response, step, closedAt) == Completed
    ensures FinalContent("", Completed, ResponseFragments(response, step),
                         WriteCount(env, model, response, step, closedAt))
            == Concat(Fragments(response.lines, step))
  {
    var f := Fragments(response.lines, step);
    assert f[..|f|] == f;
  }

  // ---------------------------------------------------------------------------------------
  // The state object

  class ChatState {
    var messages: seq<Message>
    var isStreaming: bool
    var selectedModel: string
    var errorMessage: string

    /** While a stream is active the conversation ends with a user prompt and the assistant
        message being streamed into. */
    ghost predicate Valid()
      reads this
    {
      isStreaming ==>
        |messages| >= 2 && messages[|messages| - 1].role == Assistant && messages[|messages| - 2].role == User
    }

    constructor ()
      ensures Valid()
      ensures messages == [] && !isStreaming && selectedModel == DefaultModel && errorMessage == ""
    {
      messages := [];
      isStreaming := false;
      selectedModel := DefaultModel;
      errorMessage := "";
    }

    /** `go_back_and_clear_chat`: forget the conversation and return to the start page. */
    method GoBackAndClearChat() returns (events: seq<Event>)
      modifies this
      ensures Valid()
      ensures messages == [] && !isStreaming && errorMessage == ""
      ensures selectedModel == old(selectedModel)
      ensures events == [Redirect("/")]
    {
      messages := [];
      isStreaming := false;
      errorMessage := "";
      events := [Redirect("/")];
    }

    /** `send_initial_message_and_navigate`: start a fresh conversation from the landing page. */
    method SendInitialMessageAndNavigate(form: map<string, string>) returns (events: seq<Event>)
      requires Valid()
      modifies this
      ensures Valid()
      ensures selectedModel == old(selectedModel)
      ensures var prompt := Strip(FormField(form, "prompt_input"));
              if prompt == "" || old(isStreaming) then
                && messages == old(messages) && isStreaming == old(isStreaming)
                && errorMessage == old(errorMessage)
                && events == (if prompt == "" then [EmptyPromptNotice] else [])
              else
                && messages == Exchange(prompt) && isStreaming && errorMessage == ""
                && events == [Chain(StreamHandler), Redirect("/chat")]
    {
      var prompt := Strip(FormField(form, "prompt_input"));
      if prompt == "" || isStreaming {
        events := if prompt == "" then [EmptyPromptNotice] else [];
        return;
      }
      messages := [];
      messages := messages + [Message(User, prompt, None)];
      messages := messages + [Message(Assistant, "", Some(false))];
      isStreaming := true;
      errorMessage := "";
      events := [Chain(StreamHandler), Redirect("/chat")];
    }

    /** `submit_suggestion_as_prompt`: submit a suggestion card as an initial message. */
    method SubmitSuggestionAsPrompt(suggestionText: string) returns (events: seq<Event>)
      requires Valid()
      modifies this
      ensures Valid()
      ensures selectedModel == old(selectedModel)
      ensures old(isStreaming) ==>
                messages == old(messages) && isStreaming && errorMessage == old(errorMessage) && events == []
      ensures !old(isStreaming) ==>
                && messages == Exchange(Strip(SuggestionPrompt(suggestionText))) && isStreaming
                && errorMessage == "" && events == [Chain(StreamHandler), Redirect("/chat")]
    {
      SuggestionPromptAccepted(suggestionText);
      events := SendInitialMessageAndNavigate(map["prompt_input" := SuggestionPrompt(suggestionText)]);
    }

    /** `send_chat_page_message`: continue the conversation from the chat page. */
    method SendChatPageMessage(form: map<string, string>) returns (events: seq<Event>)
      requires Valid()
      modifies this
      ensures Valid()
      ensures selectedModel == old(selectedModel)
      ensures var prompt := Strip(FormField(form, "chat_page_prompt_input"));
              if prompt == "" || old(isStreaming) then
                && messages == old(messages) && isStreaming == old(isStreaming)
                && errorMessage == old(errorMessage)
                && events == (if prompt == "" then [EmptyPromptNotice] else [])
              else
                && messages == old(messages) + Exchange(prompt) && isStreaming && errorMessage == ""
                && events == [Chain(StreamHandler)]
    {
      var prompt := Strip(FormField(form, "chat_page_prompt_input"));
      if prompt == "" || isStreaming {
        events := if prompt == "" then [EmptyPromptNotice] else [];
        return;
      }
      messages := messages + [Message(User, prompt, None)];
      messages := messages + [Message(Assistant, "", Some(false))];
      isStreaming := true;
      errorMessage := "";
      events := [Chain(StreamHandler)];
    }

    /** The `for line in response.iter_lines()` loop of the streaming handler: skip the lines
        that carry no fragment, accumulate the fragments, and before each write check that
        `is_streaming` is still set, leaving the loop when it is not (`cancelled`) or when a line
        raises (`failure`). `clearedAt` is the write attempt before which another handler clears
        the conversation, the banner and the flag, if one does; `published` records the
        successive contents written. */
    method ReadLines(lines: seq<RawLine>, step: RawLine -> LineEffect, clearedAt: Option<nat>)
      returns (failure: Option<string>, cancelled: bool, ghost published: seq<string>)
      requires |messages| >= 1
      modifies this`messages, this`isStreaming, this`errorMessage
      ensures var f := Fragments(lines, step);
              var closedAt := ClosedAt(old(isStreaming), clearedAt);
              && cancelled == StopsEarly(f, closedAt)
              && isStreaming == (old(isStreaming) && !cancelled)
              && failure == (if cancelled then None else Raised(lines, step))
              && (if old(isStreaming) && cancelled then messages == [] && errorMessage == ""
                  else
                    && messages == SetLast(old(messages), Written(old(messages)[|old(messages)| - 1].content, f, LoopWrites(f, closedAt)))
                    && errorMessage == old(errorMessage))
              && published == Published(f, LoopWrites(f, closedAt))
    {
      ghost var closedAt := ClosedAt(isStreaming, clearedAt);
      ghost var prior := messages[|messages| - 1].content;
      ghost var all := Fragments(lines, step);
      SetLastSame(messages);
      ghost var done: seq<string> := [];
      published := [];
      failure := None;
      cancelled := false;
      var accumulated := "";
      var writes := 0;
      var i := 0;
      while i < |lines|
        invariant 0 <= i <= |lines|
        invariant all == done + Fragments(lines[i..], step)
        invariant Raised(lines, step) == Raised(lines[i..], step)
        invariant writes == |done| && accumulated == Concat(done)
        invariant closedAt.Some? ==> writes <= closedAt.value
        invariant isStreaming == old(isStreaming) && errorMessage == old(errorMessage)
        invariant messages == SetLast(old(messages), Written(prior, done, writes))
        invariant published == Published(done, writes)
      {
        LineAt(lines, i, step);
        var effect := step(lines[i]);
        if effect.Raise? {
          failure := Some(effect.detail);
          break;
        } else if effect.Fragment? {
          if isStreaming && clearedAt == Some(writes) {
            // `go_back_and_clear_chat` runs in another handler before this check
            messages := [];
            isStreaming := false;
            errorMessage := "";
          }
          if !isStreaming {
            assert closedAt == Some(writes);
            cancelled := true;
            break;
          }
          assert closedAt.Some? ==> writes < closedAt.value;
          assert all == (done + [effect.text]) + Fragments(lines[i + 1..], step);
          accumulated := WriteFragment(old(messages), prior, done, accumulated, effect.text);
          PublishedNext(done, effect.text);
          done := done + [effect.text];
          published := published + [accumulated];
          writes := writes + 1;
        }
        i := i + 1;
      }
      if cancelled {
        CancelledEnd(prior, done, Fragments(lines[i..], step), closedAt);
      } else {
        if i == |lines| {
          assert lines[i..] == [];
        }
        assert all == done;
        FinishedEnd(prior, done, closedAt);
      }
    }

    /** One write of the loop: `accumulated_content += text_chunk` and the placeholder takes the
        accumulated text. */
    method WriteFragment(ghost base: seq<Message>, ghost prior: string, ghost done: seq<string>,
                         accumulated: string, text: string) returns (next: string)
      requires base != [] && accumulated == Concat(done)
      requires messages == SetLast(base, Written(prior, done, |done|))
      modifies this`messages
      ensures next == accumulated + text && next == Concat(done + [text])
      ensures messages == SetLast(base, Written(prior, done + [text], |done| + 1))
    {
      WriteStep(base, prior, done, text);
      next := accumulated + text;
      messages := SetLast(messages, next);
    }

    /** The handling of an opened response: the loop, then the `except` clauses for a line that
        raised and for a transport error while reading. */
    method ReadResponse(lines: seq<RawLine>, end: StreamEnd, step: RawLine -> LineEffect, clearedAt: Option<nat>)
      returns (ghost published: seq<string>)
      requires |messages| >= 1
      modifies this`messages, this`isStreaming, this`errorMessage
      ensures var f := Fragments(lines, step);
              var closedAt := ClosedAt(old(isStreaming), clearedAt);
              var exit := StreamExit(Opened(lines, end), step, closedAt);
              && messages == FinalMessages(old(messages), old(isStreaming), exit, f, LoopWrites(f, closedAt))
              && errorMessage == FinalError(old(errorMessage), old(isStreaming), exit)
              && published == Published(f, LoopWrites(f, closedAt))
              && isStreaming == (old(isStreaming) && !StopsEarly(f, closedAt))
    {
      ghost var f := Fragments(lines, step);
      ghost var closedAt := ClosedAt(isStreaming, clearedAt);
      ghost var exit := StreamExit(Opened(lines, end), step, closedAt);
      ghost var prior := messages[|messages| - 1].content;
      ghost var n := LoopWrites(f, closedAt);
      ghost var written := Written(prior, f, n);
      ghost var before := messages;
      var failure, cancelled;
      failure, cancelled, published := ReadLines(lines, step, clearedAt);
      if failure.Some? {
        assert exit == UnexpectedError(failure.value);
        assert FinalContent(prior, exit, f, n) == UnexpectedReply(failure.value);
        SetLastTwice(before, written, UnexpectedReply(failure.value));
        messages := SetLast(messages, UnexpectedReply(failure.value));
        errorMessage := failure.value;
      } else if !cancelled && end.Dropped? {
        assert exit == TransportError(end.reason);
        assert FinalContent(prior, exit, f, n) == TransportReply(end.reason);
        SetLastTwice(before, written, TransportReply(end.reason));
        messages := SetLast(messages, TransportReply(end.reason));
        errorMessage := TransportBanner(end.reason);
      } else {
        assert exit == Cancelled || exit == Completed;
        assert FinalContent(prior, exit, f, n) == written;
      }
    }

    /** The `try` block once the request is built: a refused request takes the transport-error
        path, an opened one is read to its end. */
    method ReceiveResponse(response: ChatResponse, step: RawLine -> LineEffect, clearedAt: Option<nat>)
      returns (ghost published: seq<string>)
      requires |messages| >= 1
      modifies this`messages, this`isStreaming, this`errorMessage
      ensures var f := ResponseFragments(response, step);
              var closedAt := ClosedAt(old(isStreaming), clearedAt);
              var exit := StreamExit(response, step, closedAt);
              var writes := StreamWrites(response, step, closedAt);
              && messages == FinalMessages(old(messages), old(isStreaming), exit, f, writes)
              && errorMessage == FinalError(old(errorMessage), old(isStreaming), exit)
              && published == Published(f, writes)
              && isStreaming == (old(isStreaming) && !StopsEarly(f, closedAt))
    {
      match response {
        case Refused(reason) =>
          messages := SetLast(messages, TransportReply(reason));
          errorMessage := TransportBanner(reason);
          published := [];
        case Opened(lines, end) =>
          published := ReadResponse(lines, end, step, clearedAt);
      }
    }

    /** `stream_cloudflare_response`: send the prompt (the message before the placeholder), read
        the event stream line by line, and write the accumulated text into the last message before
        each of which the handler checks that `is_streaming` is still set. `clearedAt` is the write
        attempt before which another handler clears the conversation, the banner and the flag, if
        one does; `published` records the successive contents written by the loop. */
    method StreamCloudflareResponse(env: ChatEnv, response: ChatResponse, parse: string -> Decoded,
                                    clearedAt: Option<nat>)
      returns (request: Option<ChatRequest>, ghost published: seq<string>)
      requires |messages| >= 2
      modifies this`messages, this`isStreaming, this`errorMessage
      ensures Valid() && !isStreaming
      ensures var closedAt := ClosedAt(old(isStreaming), clearedAt);
              var exit := HandlerExit(env, old(selectedModel), response, Reader(parse), closedAt);
              var fragments := ResponseFragments(response, Reader(parse));
              var writes := WriteCount(env, old(selectedModel), response, Reader(parse), closedAt);
              && messages == FinalMessages(old(messages), old(isStreaming), exit, fragments, writes)
              && errorMessage == FinalError(old(errorMessage), old(isStreaming), exit)
              && published == Published(fragments, writes)
      ensures (CredentialsSet(env) && Dict.Get(CloudflareModels, old(selectedModel)).Some?)
                ==> request == Some(ChatRequest(
                      GatewayUrl(env.accountId.value, env.gatewayId.value,
                                 Dict.Get(CloudflareModels, old(selectedModel)).value),
                      "Bearer " + env.token.value, JsonContentType, old(messages)[|old(messages)| - 2].content, true, 120))
      ensures !CredentialsSet(env) || Dict.Get(CloudflareModels, old(selectedModel)).None? ==> request.None?
    {
      ghost var closedAt := ClosedAt(isStreaming, clearedAt);
      ghost var exit := HandlerExit(env, selectedModel, response, Reader(parse), closedAt);
      published := [];
      request := None;
      var modelId := Dict.Get(CloudflareModels, selectedModel);
      if !CredentialsSet(env) {
        assert exit == MissingCredentials;
        messages := SetLast(messages, CredentialsReply);
        errorMessage := CredentialsBanner;
      } else if modelId.None? {
        assert exit == InvalidModel;
        messages := SetLast(messages, ModelReply);
        errorMessage := ModelBanner;
      } else {
        var prompt := messages[|messages| - 2].content;
        request := Some(ChatRequest(GatewayUrl(env.accountId.value, env.gatewayId.value, modelId.value),
                                    "Bearer " + env.token.value, JsonContentType, prompt, true, 120));
        assert exit == StreamExit(response, Reader(parse), closedAt);
        published := ReceiveResponse(response, Reader(parse), clearedAt);
      }
      isStreaming := false;
    }
  }
}

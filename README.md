# Chat and image-generation states, modelled in Dafny

This project models the state logic of a Reflex web app that talks to Cloudflare Workers AI. Two state objects hold that logic:

- `ChatState` keeps a conversation.
  - It holds a message list, an `is_streaming` flag and an error banner.
  - Its submit handlers open a turn: a user message plus an empty assistant placeholder.
  - `stream_cloudflare_response` reads the server-sent-event reply line by line. It keeps the exact `data: ` lines, strips them, and drops empty and `[DONE]` payloads. It decodes the JSON and accumulates each object's `response` field. Before every write into the placeholder it checks that the flag is still set. Every path ends with the flag cleared.
- `ImageGenerationState` runs image generations.
  - It composes `"<prompt>, <style> style"` and splits the `"WxH"` size.
  - It posts the request and picks the payload by content type: `image/png` is checked first, then `application/json`.
  - It appends a record to an append-only history only on success. `latest_image` shows the newest record.
  - The helper `_generate_image_from_prompt` reports `(image, error)`; exactly one side is set.

Modules:

- `Wrappers`: `Option` and `Result`.
- `Text`: the Python `str` operations used — `strip` with Python's whitespace set, `startswith`, substring `in`, `lower`, `split`, `str(int)` and `int(str)`.
- `Dict`: a dict literal as its ordered entries, with `keys()` and `get`.
- `Base64`: the encoding of section 4 of RFC 4648, with a decoder and the round trip.
- `Env`: how `all([...])` tests the environment variables.
- `Events`: the form a handler receives and the events it returns (toasts, redirects, chained handlers, flushes).
- `Chat` and `Image`: the two state classes, with the pure functions and lemmas that specify them.

The handlers are classes whose methods change their fields. External effects are parameters:

- `os.getenv` becomes an environment record of optional strings.
- `requests.post` becomes an abstract response value.
- `json.loads` becomes a function from payload text to a decoded shape.
- `time.time()` becomes the integer second it returns.
- Another handler, `go_back_and_clear_chat`, running mid-stream becomes an optional write index (`clearedAt`): the write attempt before which it empties the conversation and the banner and clears the flag.

Each method is proved against functions of its inputs and old state. Those functions carry the lemmas:

- The streamed content is the in-order concatenation of the fragments.
- Noise lines add nothing.
- Writes only grow.
- No write happens at or after the attempt that finds the flag clear.
- The PNG data URI decodes back to the bytes received.
- Content-type dispatch is stated by where the media types occur in the header.
- Offered sizes parse to their width and height.

## Model

| member | source | states |
|---|---|---|
| Chat.EveryModelOptionResolves | app/states/chat_state.py:15-30 | every name `model_options` lists resolves through `CLOUDFLARE_MODELS.get` to its own identifier, and the default model is one of them |
| Chat.ChatState.constructor | app/states/chat_state.py:22-26 | a new state has no messages, no stream, the default model and an empty banner |
| Chat.ChatState.GoBackAndClearChat | app/states/chat_state.py:32-37 | messages become `[]`, the flag false and the banner `""`; the handler redirects to `/` |
| Chat.ChatState.SendInitialMessageAndNavigate | app/states/chat_state.py:45-60 | an empty stripped prompt, or an active stream, changes nothing (a toast only for the empty prompt); otherwise the messages become exactly the user prompt and an empty non-greeting assistant placeholder, the flag is set, the banner cleared, and the stream handler is chained before the redirect to `/chat` |
| Chat.SuggestionPromptAccepted | app/states/chat_state.py:39-43 | the prompt built from any suggestion strips to a non-empty text that still starts with "Help me", so a suggestion is refused only while a stream is running |
| Chat.ChatState.SubmitSuggestionAsPrompt | app/states/chat_state.py:39-43 | with no active stream the conversation becomes that prompt and its placeholder; with one, nothing changes and no event is returned |
| Chat.ChatState.SendChatPageMessage | app/states/chat_state.py:62-75 | a rejected submission changes nothing; an accepted one appends exactly the stripped prompt and an empty placeholder after the untouched history, sets the flag, clears the banner and chains the stream handler |
| Chat.SetLast | app/states/chat_state.py:124 | writing the last message's content keeps the length and every earlier message, and changes only that content field |
| Chat.TurnTranscript | app/states/chat_state.py:69-72 | a turn opened on any history and then written into ends as that history, the prompt, and an assistant reply carrying the written text |
| Chat.SetLastTwice | app/states/chat_state.py:132-141 | of two writes into the placeholder only the second survives, which is why an error message replaces any partial stream |
| Chat.DataLineFragment | app/states/chat_state.py:109-120 | `Classify`, with `Payload` for the prefix and strip, reads one line; a `data: ` line whose stripped payload is neither empty nor `[DONE]` and decodes to an object with a string `response` adds exactly that string, and a missing or null `response` adds `""` |
| Chat.NoiseIgnored | app/states/chat_state.py:109-129 | through `Classify` and `Fragments`, a line without the prefix, an empty or `[DONE]` payload, or one that is undecodable JSON or not an object adds no fragment and does not stop the loop, wherever it stands |
| Chat.FragmentsCompose | app/states/chat_state.py:108-129 | reading two runs of lines, the first raising nothing, yields the fragments of the first followed by those of the second |
| Chat.ConcatSplit | app/states/chat_state.py:120 | the accumulated text of two runs of fragments is the text of the first followed by the text of the second |
| Chat.PublishedAt | app/states/chat_state.py:120-124 | the `j`-th write puts into the placeholder the concatenation of the first `j + 1` fragments |
| Chat.PublishedGrows | app/states/chat_state.py:120-124 | every write extends every earlier one |
| Chat.LoopWrites | app/states/chat_state.py:121-124 | the loop writes at most every fragment and never at or past the attempt that finds the flag clear; it stops early exactly when that attempt comes before the last fragment |
| Chat.CancelledEnd | app/states/chat_state.py:121-123 | a loop that finds the flag clear at its next write has made exactly the writes so far, whatever fragments follow |
| Chat.WriteCountBounds | app/states/chat_state.py:82-124 | credential and model failures and refused requests make no write; a cancelled stream makes exactly the writes before the cancelling check; a completed one writes every fragment |
| Chat.CompletedContentIsConcatenation | app/states/chat_state.py:108-129 | a stream that completes leaves in the placeholder exactly the in-order concatenation of the `response` fields of its accepted payloads |
| Chat.ChatState.ReadLines | app/states/chat_state.py:108-129 | each write goes through the helper method `WriteFragment` (lines 120 and 124: `+=`, then the placeholder takes the text); the loop reports cancellation exactly when the flag is seen clear before a fragment is written, and otherwise the first line that raises. When the other handler's clear stops it, the conversation and banner end empty, as that handler leaves them. Otherwise the only change is the placeholder, which ends with the accumulated text of the writes made (the prior content if none) |
| Chat.ChatState.ReadResponse | app/states/chat_state.py:103-142 | an opened response ends in the messages and banner its exit calls for. A completed stream leaves the streamed text in the placeholder; one that finds the flag already clear at its start makes no write and leaves the placeholder as it was. A clear during the stream leaves an empty conversation and banner. A line that raised gives the generic error text, and a transport failure while reading gives the "API Error" text |
| Chat.ChatState.ReceiveResponse | app/states/chat_state.py:103-142 | a refused request takes the "API Error" path with no write; an opened one is read as above |
| Chat.ChatState.StreamCloudflareResponse | app/states/chat_state.py:77-145 | on every path the flag ends false; missing credentials and an unknown model write their fixed texts and send nothing; otherwise the request goes to the gateway URL for the model's identifier with the bearer token, the JSON content type, the prompt before the placeholder, streaming on and a 120-second timeout. Then only the last message changes, as the exit of the stream says, except that a clear during the stream leaves no messages and an empty banner |
| Text.StripFacts | app/states/chat_state.py:47 | `strip` keeps a contiguous piece of its input that neither starts nor ends with whitespace |
| Text.StripEmptyIff | app/states/chat_state.py:47-48 | a prompt strips to empty exactly when it is all whitespace |
| Text.StripIdempotent | app/states/chat_state.py:112 | a plain property of `strip` (the handler strips once): stripping an already stripped text changes nothing |
| Text.Lower | app/states/chat_state.py:41 | lower-casing keeps the length and maps every character on its own |
| Dict.Keys | app/states/chat_state.py:30 | `list(d.keys())` lists the keys of the entries in order |
| Dict.GetSpec | app/states/chat_state.py:88 | `d.get(key)` succeeds exactly for listed keys and then yields the value of an entry with that key |
| Dict.GetEntry | app/states/image_state.py:84 | in a dict with distinct keys every entry is what a lookup of its key returns |
| Image.DefaultsAreOffered | app/states/image_state.py:17-57 | every name `model_options` lists resolves to its identifier, and the initial model, style and size are among the offered choices |
| Image.ImageGenerationState.constructor | app/states/image_state.py:27-34 | a new state is idle with an empty history and banner, the "Flux-1 Schnell" model, the photorealistic style, the square size and 20 steps |
| Image.ImageGenerationState.LatestImage | app/states/image_state.py:59-63 | `latest_image` is present exactly when the history is non-empty, and is then its last record |
| Image.ComposedPromptParts | app/states/image_state.py:72 | the prompt `ComposePrompt` builds (also used at line 130) starts with the user's prompt and ends with `", <style> style"`, so for a given style it determines the prompt |
| Text.SplitPair | app/states/image_state.py:83 | two separator-free pieces joined by `x` split back into exactly those two pieces |
| Text.JoinSplit | app/states/image_state.py:83 | splitting loses nothing: joining the pieces with the separator gives the original text |
| Text.ParseDigits | app/states/image_state.py:111 | `int(str(n)) == n` for every non-negative `n` |
| Image.SizeRoundTrip | app/states/image_state.py:83 | `ParseSize` models the split and the two `int` calls; the text `"WxH"` of any width and height splits and parses back to that width and height |
| Image.OfferedSizesParse | app/states/image_state.py:47-53 | the three offered sizes parse to 1024×1024, 1024×768 and 768×1024 |
| Text.ContainsIff | app/states/image_state.py:99 | substring `in` holds exactly when the substring occurs at some position |
| Image.ContentTypeDispatch | app/states/image_state.py:98-107 | `ImageData` picks the payload: a header in which `image/png` occurs yields the PNG data URI of the body whatever else it says; without it, one in which `application/json` occurs yields the JSON image; a header with neither is an error naming it |
| Base64.Encode | app/states/image_state.py:100 | the encoding of `n` bytes has `4 * ceil(n / 3)` symbols |
| Base64.DecodeEncode | app/states/image_state.py:100 | decoding the base 64 text of any bytes gives back those bytes |
| Image.PngDataUriDecodes | app/states/image_state.py:99-100 | a PNG response becomes `data:image/png;base64,` followed by a text that decodes to exactly the bytes received |
| Image.OutcomeSucceedsIff | app/states/image_state.py:93-122 | `Outcome` gives the result of the `try` block: the request succeeds exactly when a response arrives whose header names PNG, or names JSON and the image lookup yields a value; every success is a PNG data URI |
| Image.ImageGenerationState.Submit | app/states/image_state.py:83-114 | the request is `RequestFor`, whose URL `RunUrl` ends in `ModelSegment` (the model's identifier, or "None" for an unknown name, lines 84-85); a size that does not split into two numerals raises before any request; otherwise the request is sent for the selected model and the parsed width and height, and the history grows by exactly the new record on success and stays as it was on failure |
| Image.ImageGenerationState.GenerateImage | app/states/image_state.py:65-125 | the history only ever grows, by at most one record, and earlier records are untouched. An empty stripped prompt only toasts and flushes nothing. Any other prompt flushes, through the bare `yield`, the state with `is_generating` set, an empty banner and the history as it was. Then missing credentials set the fixed banner, send nothing and clear the flag. Otherwise `quality_steps` steps and the composed prompt are sent; success appends the record with the data URI and the decimal time and makes it `latest_image`; a request failure shows "API Error: …" and any other failure its own text; the flag ends false |
| Image.ImageGenerationState.GenerateImageFromPrompt | app/states/image_state.py:127-177 | when the helper returns, exactly one of image and error is set, and the image is a PNG data URI. Missing credentials give `(None, "API credentials not configured for image generation.")` with no request and no history change. Otherwise 20 steps are sent; success returns the URI and appends its record; failures return the "API Error" or "An unexpected error occurred" text and leave the history unchanged |

## Left out

- Concurrency: `async with self`, background events and yields are not modelled as interleavings. The handlers run sequentially. The one interleaving modelled, another handler clearing `is_streaming` during a stream, is the `clearedAt` input.
- Chat.ChatState.ReadLines, Chat.ChatState.StreamCloudflareResponse: a clear followed by a new submit before the old loop's next check is not modelled. Nothing ties `is_streaming` to the run that set it. The old loop therefore finds the flag set again and writes its stale accumulated text into the new turn's placeholder. Its `finally` then clears the new turn's flag, so the new stream stops at its next check. In the model a clear always stops the old loop.
- Chat.ChatState.StreamCloudflareResponse: requires at least two messages. With none, the handler raises `IndexError` on every path. With exactly one, the credential and model paths write `messages[-1]` and return normally, and only the request path raises, on `messages[-2]`. The precondition also excludes that one-message case, which the handler survives. Both submit handlers append two messages before chaining it.
- Chat.ChatState.ReadLines, Chat.ChatState.ReadResponse: the other handler's clear is modelled only at a write check, where the loop stops at once. A clear after which the loop makes no further write check is not modelled. After such a clear, a line that raises or a dropped connection would make the `except` clause write `messages[-1]` on the emptied list and raise `IndexError`.
- Chat.ChatState.ReadLines: the lines of `iter_lines()` are given as a finished list. The chunking of the body is not modelled, and empty lines are lines whose text is `""`.
- `json.loads` is the `parse` parameter, so the grammar of JSON is not modelled. Of a decoded object only the `response` field is seen. The error of `text_chunk or ""` on a truthy non-string value is the `TypeError` message that Python's `+=` gives.
- `requests.post` and `raise_for_status` are an abstract response value. Connection errors, time-outs and error statuses are one `Failed` or `Refused` case with the exception's text.
- The text Python gives an exception (`str(e)`) is a string carried by the response value, not computed.
- `response.json()` and the `['result']['image']` lookup are one abstract `JsonBody`. An undecodable body is a `RequestException` in `requests`, so it takes the "API Error" path. Any value found is taken as rendered by the f-string.
- Image.ParseSize: it accepts only ASCII digit runs. Python's `int` also accepts a sign, surrounding whitespace, underscores and non-ASCII decimal digits (such as Arabic-Indic digits); the model treats such sizes as raising. The offered sizes are unaffected.
- Text.Lower: it lower-cases ASCII letters only. Python's `str.lower` also maps other Unicode letters.
- Image.ImageGenerationState.GenerateImage: when the size does not parse, the handler raises after setting `is_generating`. The model leaves the flag set and sends nothing, as the source does, but does not model the exception itself.
- Logging (`logging.exception`, `logging.error`) is left out; it changes no state.
- Toasts, redirects, chained handlers and the bare `yield` are returned as events and not performed. The one exception is Chat.ChatState.SubmitSuggestionAsPrompt. It performs the send it chains inline and returns that send's events, not the single chained event the handler yields. It therefore returns no event while a stream is active, where the handler still yields the chained event, which then changes nothing.
- The `tool_call_status` and `image_b64` fields read by the message bubble: no file of the modelled core writes them. Nothing in the modelled core calls the tool-call path `_generate_image_from_prompt`; it is modelled as a method of its own.
- The Reflex setters for `selected_model`, `selected_style`, `selected_size` and `quality_steps` are generated by the framework and not part of the core files. The model's methods read these fields as they are.
- All of `app/components` and `app/pages`: layout only.

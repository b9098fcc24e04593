# Truth Tortoise: conversation state and AI proxy, in Dafny

This project models the two pieces of logic behind the "Truth Tortoise"
assistant widget of the character-browsing site:

- **The widget's conversation state** (`components/features/ai/TruthTortoise.tsx`),
  module `Tortoise` in `truth_tortoise.dfy`. The class `TruthTortoise` holds
  the same four pieces of state as the component: `open`, `input` (the draft),
  `messages` (the transcript) and `loading`, plus the optional page `context`
  prop. `sendMessage` is split into `Begin`, which runs up to the first
  `await` (`await fetch`), and `Complete`, which runs after it. `Outcome`
  stands for what both awaits, `fetch` and `res.json()`, produce together.
  `Begin` trims the draft and drops the submission when the result is empty or
  a request is in flight. Otherwise it appends a `User` message, clears the
  draft, sets `loading` and returns the outbound prompt. `Complete` takes what
  the round trip produced as an `Outcome` and appends exactly one `Assistant`
  message. It then clears `loading`. `Send` composes the two steps. `Toggle`,
  `Close` and `SetInput` are the launcher button, the Close button and the text
  area's `onChange`. `Valid()` is the transcript invariant: no entry has empty
  content.
- **The proxy handler** (`app/api/ai/route.ts`), module `AiRoute` in
  `ai_route.dfy`. `BuildRequest(prompt)` is the one upstream request each
  call sends: the fixed model id and the prompt behind the fixed instruction.
  The answer is the total function `Handle` from the upstream reply to
  `Text(s) | Error(status, msg)`; the prompt does not affect it. `ExtractText` is the optional chain
  `output?.[0]?.content?.[0]?.text` as an explicit `Option`.

`Tortoise.ClientBody` joins the two. It says what the widget's `res.json()`
reads from each endpoint reply. The two scenario methods at the end of
`truth_tortoise.dfy` are clients of the contracts. `SingleFlight` drops a
second submission while the first is in flight. `AskWithContext` runs a
question with page context end to end.

Two behaviours of the code are worth spelling out:

- The widget never checks `res.ok`. A non-ok upstream status arrives as the JSON
  body `{error: 'AI request failed'}`, which has no `text` field, so the
  transcript shows `'No response yet.'`. The apology
  `'Something went wrong. Try again.'` appears only when `fetch` or
  `res.json()` throws (`EndpointFailureShowsPlaceholder`,
  `EndpointNeverApologises`), which includes every case where the route
  itself throws.
- The handler reads only `output[0].content[0].text`. The reference
  definition `FirstAvailableText` instead takes the earliest text anywhere in
  the nesting. `ExtractAgreesWhenPresent` shows the two agree whenever the
  handler finds a text. `LaterTextIgnored` shows the handler answers `''`
  when only a later entry carries text, while `FirstAvailableText` finds one.

## Model

| member | source | states |
|---|---|---|
| AiRoute.UpstreamInput | app/api/ai/route.ts:14 | the upstream input is exactly the fixed instruction followed by the caller's prompt, unchanged |
| AiRoute.BuildRequest | app/api/ai/route.ts:6-16 | each invocation builds one request with the fixed model id `gpt-4.1-mini` and the instruction-prefixed prompt |
| AiRoute.ExtractText | app/api/ai/route.ts:23 | a text is found iff the output array, its entry 0, that entry's content array, its fragment 0 and that fragment's text all exist; it is that fragment's text |
| AiRoute.Handle | app/api/ai/route.ts:18-24 | the reply is an error iff the upstream status is not ok, and then it is always 500 / `AI request failed`; otherwise it is the success shape with the extracted text, or `''` when there is none |
| AiRoute.FailureIgnoresBody | app/api/ai/route.ts:18-20 | for a non-ok status the reply does not depend on the upstream body |
| AiRoute.OnlyFirstFragmentMatters | app/api/ai/route.ts:23 | on an ok status two bodies whose first output has the same first fragment get the same reply, whatever else they carry |
| AiRoute.FirstTextIn | app/api/ai/route.ts:23 | reference reading: the text of the earliest fragment that has one, absent iff no fragment has one |
| AiRoute.FirstAvailableText | app/api/ai/route.ts:23 | reference reading across all outputs: absent iff no output carries a fragment with text |
| AiRoute.ExtractAgreesWhenPresent | app/api/ai/route.ts:23 | whenever the index-0 path yields a text, `FirstAvailableText` yields the same text |
| AiRoute.LaterTextIgnored | app/api/ai/route.ts:23 | text only in a later output still gives `{text: ''}`, although `FirstAvailableText` finds a text |
| Tortoise.TrimStart | components/features/ai/TruthTortoise.tsx:48 | result is a suffix of the input that starts with a non-space, and everything removed is white space |
| Tortoise.TrimEnd | components/features/ai/TruthTortoise.tsx:48 | result is a prefix of the input that ends with a non-space, and everything removed is white space |
| Tortoise.Trim | components/features/ai/TruthTortoise.tsx:48-49 | the trimmed draft has no white space at either end, and it is empty iff the draft is all white space (including the empty draft) |
| Tortoise.TrimStartSkips | components/features/ai/TruthTortoise.tsx:48 | leading white space in front of text is removed exactly |
| Tortoise.TrimEndSkips | components/features/ai/TruthTortoise.tsx:48 | trailing white space after text is removed exactly |
| Tortoise.TrimPadded | components/features/ai/TruthTortoise.tsx:48 | trimming recovers the text between any leading and trailing runs of white space |
| Tortoise.TrimSurrounded | components/features/ai/TruthTortoise.tsx:48 | the trimmed draft is a slice of the draft with only white space before and after it |
| Tortoise.TrimIdempotent | components/features/ai/TruthTortoise.tsx:48 | trimming twice is trimming once |
| Tortoise.TrimUnpadded | components/features/ai/TruthTortoise.tsx:48 | a draft with no white space at either end is stored as typed |
| Tortoise.ComposePrompt | components/features/ai/TruthTortoise.tsx:59-61 | with a present, non-empty context the prompt splits into `Context: `, the context, `\nUser question: ` and the trimmed draft; otherwise it is exactly the trimmed draft |
| Tortoise.Reply | components/features/ai/TruthTortoise.tsx:69-79 | the assistant content is never empty: a non-empty body text as is, `No response yet.` for a missing or empty text, the apology when something threw |
| Tortoise.ClientBody | components/features/ai/TruthTortoise.tsx:69-70 | the client reads a `text` exactly from the success shape; the error shape parses to a body without text, whatever its status |
| Tortoise.EndpointFailureShowsPlaceholder | components/features/ai/TruthTortoise.tsx:69-74 | any non-ok upstream status, passed through the endpoint, shows `No response yet.` |
| Tortoise.MissingTextShowsPlaceholder | components/features/ai/TruthTortoise.tsx:69-74 | an ok upstream reply with missing or empty text at the index-0 path shows `No response yet.` |
| Tortoise.EndpointNeverApologises | components/features/ai/TruthTortoise.tsx:75-79 | whatever `Handle` returns, the client shows the apology only when the upstream text is literally the apology |
| Tortoise.TruthTortoise.constructor | components/features/ai/TruthTortoise.tsx:35-38 | a new widget is closed, with an empty draft, an empty transcript and no request in flight |
| Tortoise.TruthTortoise.SetInput | components/features/ai/TruthTortoise.tsx:139 | typing replaces the draft and changes nothing else |
| Tortoise.TruthTortoise.Toggle | components/features/ai/TruthTortoise.tsx:152 | the launcher flips `open` and never changes the transcript, the draft or `loading` |
| Tortoise.TruthTortoise.Close | components/features/ai/TruthTortoise.tsx:104 | Close sets `open` false and never changes the transcript, the draft or `loading` |
| Tortoise.TruthTortoise.Begin | components/features/ai/TruthTortoise.tsx:47-61 | rejected iff the trimmed draft is empty or a request is in flight, and then nothing changes; otherwise exactly one user message with the trimmed draft is appended after the unchanged transcript, the draft is cleared, `loading` is set and the prompt is the composed one; the transcript invariant is kept |
| Tortoise.TruthTortoise.Complete | components/features/ai/TruthTortoise.tsx:63-82 | exactly one assistant message with the outcome's reply is appended, `loading` ends false in every outcome, draft and visibility are untouched; the transcript invariant is kept |
| Tortoise.TruthTortoise.Send | components/features/ai/TruthTortoise.tsx:47-83 | a submission is rejected iff the trimmed draft is empty or a request is in flight, and then nothing changes; an accepted one sends the composed prompt, appends the user message and then the assistant message, clears the draft and leaves the widget idle |

## Left out

- Rendering: the JSX, `TurtleIcon`, class-name selection and the `useEffect` that focuses the text area. `components/layout/Header.tsx` is static markup and is not part of this model.
- I/O: `fetch`, `request.json()`, `res.json()`, `NextResponse` and the HTTP headers. The upstream reply is the input `AiRoute.Upstream`. The widget's round trip is the input `Tortoise.Outcome`: a parsed body whose `text` may be missing, or `Threw`. A JSON `null` body, whose `.text` access throws, is one of the `Threw` cases.
- The `OPENAI_API_KEY` read and the `Authorization` header. A missing key shows up as a non-ok upstream status, which `Handle` covers.
- Exceptions the handler does not catch: a malformed request body and `fetch` throwing in the route, an ok upstream reply that is not JSON, and an ok upstream reply whose JSON is `null` (reading `data.output` then throws). The route has no handling for them: the request then answers without a JSON body, the widget's `res.json()` throws, and the transcript shows the apology (the `Threw` outcome of `Tortoise.Reply`).
- AiRoute.BuildRequest: the prompt is always a string. A request body without a string `prompt` (for example `{}`) makes the route send the instruction followed by `undefined` upstream, which is not modelled.
- Message ids built from `Date.now()`: they come from the clock and are not guaranteed unique. `Message` has no id.
- React's asynchronous scheduling and state batching. In particular, `sendMessage` reads `input`, `messages` and `loading` from the render it was created in. The model runs `Begin` and `Complete` in sequence on the current state, and other events (`SetInput`, `Toggle`) may run in between.
- Non-string JSON values in `text`, for example a number, are not modelled. `text` is a string or absent.
- Tortoise.IsSpace: `trim` removes a fixed set of white-space characters (space, tab, line feed, carriage return, vertical tab, form feed, no-break space, byte-order mark), not JavaScript's full Unicode white-space and line-terminator set.

# Excuse email generator: the LLM call pipeline

This project models the core of the excuse email service in Dafny. The core is
the LLM call behind the generate endpoint. A validated excuse request
(category, tone, seriousness 1..5, recipient, sender, ETA) is rendered into a
prompt. The prompt is posted once to a model serving endpoint. The endpoint's
loosely shaped reply is normalised into a `{subject, body}` reply, or every
failure is mapped to an HTTP error status.

The model is functional. The HTTP client is a parameter `server: Post ->
Upstream`, which answers the one POST with a response (status and text), a
timeout or a client fault. Two library routines are parameters too, gathered in
`PyJson.Library`: `json.loads` (`None` stands for `JSONDecodeError`) and
`str()` of a value that is not already a string. The environment is a
`Config` value holding the optional token and the endpoint URL.

Modules:

- `Wrappers` (`wrappers.dfy`): `Option` and `Result`.
- `Text` (`text.dfy`): Python's `str.strip()`, `str.split(sep)`,
  `sep.join(...)` and substring test, with the split/join round trips.
- `PyJson` (`json_value.dfy`): decoded JSON values. It also holds the Python
  operations the pipeline applies to them (`in`, `[key]`, `[0]`, `len`,
  `.get`, `json.loads`, `str`), each with the exception Python raises on a
  value of the wrong shape.
- `ExcusePrompt` (`excuse_prompt.dfy`): the request, its validation, the
  prompt template, the payload and the headers.
- `Normalizer` (`normalizer.dfy`): the response normaliser.
- `LlmCall` (`llm_call.dfy`): the token check, the single POST, the error
  mapping, the generate endpoint and request validation.
- `Scenarios` (`scenarios.dfy`): concrete envelopes taken through the
  normaliser.

Some of the code's behaviour is easy to misread:

- A missing token gives status 500, not a service-unavailable status
  (app.py:78-82).
- A malformed envelope raises an HTTPException inside the `try`, so the
  catch-all handler re-wraps it (app.py:172-176, 190-195). The client sees
  status 500 with an "Unexpected error" detail.
- `predictions` need not be a list. A non-empty string passes the envelope
  check at app.py:134, and its first character becomes the prediction
  (`Scenarios.StringPredictions`). A digit then parses to a number, so `.get`
  raises `AttributeError` and the call fails with 500
  (`Scenarios.DigitPrediction`).
- Reply fields are not guaranteed to be non-empty strings. The JSON path copies
  whatever values the model's JSON holds. The fallback gives an empty subject
  exactly when the raw text is all whitespace (`Normalizer.FallbackEmptiness`,
  `Scenarios.EmptyText`).

## Model

| member | source | states |
|---|---|---|
| `ExcusePrompt.Validate` | excuse-gen-app/src/app.py:64 | A request is accepted exactly when 1 <= seriousness <= 5, unchanged. Otherwise it is rejected with the offending value and never clamped. |
| `LlmCall.HandleRequest` | excuse-gen-app/src/app.py:64 | An out-of-range seriousness is answered with 422 before anything else. An in-range request is answered exactly as the generate endpoint answers it, never with a validation error. Every successful response has success true and no error. |
| `LlmCall.SeriousnessBoundary` | excuse-gen-app/src/app.py:64 | Seriousness 0 and 6 are rejected with 422. Seriousness 1 and 5 go on to the generate endpoint. |
| `ExcusePrompt.PromptRoundTrip` | excuse-gen-app/src/app.py:85-103 | Every field appears verbatim after its label on its own context line. Reading the six context lines of the prompt gives back the request it was built from. |
| `ExcusePrompt.FillRoundTrip` | excuse-gen-app/src/app.py:85-103 | Whatever template text surrounds the context lines, reading the six lines after the text before them gives back the request, for fields without a line break. |
| `ExcusePrompt.FillSplits` | excuse-gen-app/src/app.py:85-103 | The prompt starts with the text before the context lines. Split at line breaks, the rest is the context lines in template order, then the lines of the text after them. |
| `ExcusePrompt.ContextLinesSingle` | excuse-gen-app/src/app.py:88-94 | There are six context lines, and none has a line break when no field has one. |
| `ExcusePrompt.ReadContextLines` | excuse-gen-app/src/app.py:88-94 | Each labelled context line yields its field back, including the seriousness from its "n/5" rendering. |
| `ExcusePrompt.PayloadCarriesPrompt` | excuse-gen-app/src/app.py:106-114 | The payload holds exactly one `dataframe_records` record with exactly one message. That message has role `user` and the prompt as content. |
| `LlmCall.BuildPost` | excuse-gen-app/src/app.py:116-127 | The POST goes to the configured endpoint URL with a 30-second timeout. Its body carries the prompt as its single user message. The headers are exactly `Authorization: Bearer <token>` and `Content-Type: application/json`. |
| `LlmCall.CallLlm` | excuse-gen-app/src/app.py:76-195 | A missing or empty token gives 500 whatever the endpoint would answer. A reply needs a 2xx response and has success true and no error. An error other than 500 or 504 is the endpoint's own non-2xx status with its text. |
| `LlmCall.ErrorClassification` | excuse-gen-app/src/app.py:178-195 | Non-2xx gives that status with the response text. A timeout gives 504 and a client fault gives 500. A 2xx response can only fail with 500 from the catch-all. |
| `LlmCall.ReplyIsNormalized` | excuse-gen-app/src/app.py:128-171 | A reply of the call is the normaliser's reply for the document the 2xx response text loads to. Conversely, a 2xx response whose document normalises is answered with exactly that reply. |
| `LlmCall.SinglePost` | excuse-gen-app/src/app.py:78-128 | The outcome depends on the endpoint only through its answer to the one POST built from the request. Without a token the endpoint is not consulted. |
| `LlmCall.MissingPredictionsIsServerError` | excuse-gen-app/src/app.py:134-176 | A document without `predictions`, or with an empty list, gives 500 carrying the re-wrapped malformed-envelope error, never a reply. |
| `LlmCall.GenerateExcuse` | excuse-gen-app/src/app.py:198-212 | Errors of the call pass through unchanged. A reply with string subject and body becomes the response unchanged. Any other reply fails response-model validation with 500. |
| `Normalizer.Normalize` | excuse-gen-app/src/app.py:134-176 | A reply has success true and no error. A reply needs an object document whose `predictions` is a non-empty list or string. A missing or empty `predictions` gives the malformed-envelope fault. |
| `Normalizer.NormalizeStringPredictions` | excuse-gen-app/src/app.py:134-171 | For a non-empty string `predictions`, the outcome is the interpretation of the raw text of its first character, which is that character. Every reply satisfies `ReplyFor` for it. |
| `Normalizer.NormalizeUsesFirstPrediction` | excuse-gen-app/src/app.py:134-171 | For a non-empty `predictions` list the outcome depends on the first prediction alone. Every reply satisfies `ReplyFor` for that prediction's raw text. |
| `Normalizer.FirstPresent` | excuse-gen-app/src/app.py:140-147 | Returns the first key of the ordered list present in the object, or reports that none is present. |
| `Normalizer.RawText` | excuse-gen-app/src/app.py:138-149 | Raw-text priority: `candidates[0].message.content`, else `content`, else `text`, else `str()` of the object. A non-object prediction always uses `str()`. |
| `Normalizer.Interpret` | excuse-gen-app/src/app.py:151-171 | Non-string raw text is a `TypeError`. A failure happens only when the text parses to something other than a dict. Every reply has success true and no error. |
| `Normalizer.InterpretMeansReplyFor` | excuse-gen-app/src/app.py:151-171 | A raw text yields exactly the replies `ReplyFor` describes, in both directions. A dict gives `subject` (default "Excuse Email") and `body` (default the raw text). Non-JSON text gives the first-newline reading. |
| `Normalizer.Fallback` | excuse-gen-app/src/app.py:160-164 | Let t be the stripped text. If t has a newline, subject + "\n" + body == t and the subject has no newline. Otherwise subject == t and body is the unstripped raw text. |
| `Normalizer.FallbackUnique` | excuse-gen-app/src/app.py:160-164 | The fallback reading is unique: the subject is the text before the first newline and the body is the rest. |
| `Normalizer.FallbackOfLines` | excuse-gen-app/src/app.py:160-164 | A first line and a rest, joined by a newline with no edge whitespace, fall back to exactly that line and rest. |
| `Normalizer.FallbackOfLine` | excuse-gen-app/src/app.py:160-164 | A single line with no edge whitespace is both the subject and the body of its fallback reading. |
| `Normalizer.FallbackEmptiness` | excuse-gen-app/src/app.py:162-164 | The fallback subject is empty exactly when the raw text is all whitespace. Text with a line break after stripping gives a non-empty subject and body. |
| `Text.Strip` | excuse-gen-app/src/app.py:162 | The result is a slice of the input with only whitespace cut from both ends. It has no whitespace at either end, and it is empty exactly when the input is all whitespace. |
| `Text.StripKeeps` | excuse-gen-app/src/app.py:162 | A string without edge whitespace strips to itself. |
| `Text.Split` | excuse-gen-app/src/app.py:162 | There is always at least one piece, so the "Excuse Email" branch of app.py:163 is dead. No piece contains the separator. There is more than one piece exactly when the separator occurs. The pieces join back to the input. |
| `Text.SplitJoin` | excuse-gen-app/src/app.py:162-164 | Splitting the join of separator-free pieces gives the pieces back. |
| `Text.SplitJoinPrefix` | excuse-gen-app/src/app.py:162-164 | Splitting joined separator-free pieces followed by a tail gives the pieces, then the tail's pieces. |
| `Text.SplitAfterHead` | excuse-gen-app/src/app.py:162-164 | A string split at its first separator gives the head, then the pieces of the rest. |
| `Text.IndexOf` | excuse-gen-app/src/app.py:162 | The first position of a character that occurs in the string. |
| `Text.IndexOfIs` | excuse-gen-app/src/app.py:162 | A position holding the character with no occurrence before it is the one `IndexOf` finds. |
| `Scenarios.ContentJson` | excuse-gen-app/src/app.py:142-159 | `{"predictions":[{"content":"{\"subject\":\"S\",\"body\":\"B\"}"}]}` gives subject S and body B. |
| `Scenarios.CandidatesJson` | excuse-gen-app/src/app.py:140-159 | The same reply nested as `candidates[0].message.content` gives subject S and body B. |
| `Scenarios.BodyOnlyJson` | excuse-gen-app/src/app.py:152-159 | A JSON reply with only `body` gets the subject "Excuse Email". |
| `Scenarios.PlainTextLines` | excuse-gen-app/src/app.py:160-171 | Non-JSON "Running Late\nSorry, traffic is bad." gives subject "Running Late" and body "Sorry, traffic is bad.". |
| `Scenarios.PlainTextReply` | excuse-gen-app/src/app.py:144-171 | Any `content` text that is not JSON gives a reply with its fallback subject and body. |
| `Scenarios.EmptyText` | excuse-gen-app/src/app.py:144-171 | An empty `text` is accepted with empty subject and body. |
| `Scenarios.StringPredictions` | excuse-gen-app/src/app.py:134-171 | `{"predictions": "abc"}` is accepted: the prediction is "a", and as plain text it gives subject "a" and body "a". |
| `Scenarios.DigitPrediction` | excuse-gen-app/src/app.py:134-159 | `{"predictions": "1 excuse"}` passes the envelope check, but its prediction "1" parses to a number, so reading `subject` from it raises `AttributeError`. |
| `Scenarios.NoPredictions` | excuse-gen-app/src/app.py:134-176 | `{}` and `{"predictions": []}` both give the malformed-envelope fault. |

## Left out

- Application setup, CORS, the request-logging middleware and every logging call (app.py:20-49): framework plumbing with no effect on outcomes.
- Health, ping, metrics and debug endpoints, static-file discovery and serving, the startup hook and the server entry point (app.py:214-364): they return constants or read the filesystem and environment.
- The HTTP client itself, its 30-second timer and async/await (app.py:122-128): the `server` parameter gives the client's outcome. `Post.timeoutSeconds` records the bound.
- How `response.json()` decodes the response bytes: it is modelled as `json.loads` on the response text, so a 2xx body that is not JSON gives the catch-all 500 (app.py:130, 190-195). The byte decoding itself is not modelled.
- The internals of `json.loads` and of `str()` on non-strings: they are library code, so they are parameters (`PyJson.Library`).
- Reading the token and URL from the environment: they come in as `Config`.
- Exception message texts: each `Detail` constructor stands for one message the code builds. The text of `str(e)` inside "Unexpected error: ..." is abstracted to the `Fault` it came from.
- Pydantic's type coercion of request fields: only the 1..5 range check is modelled. The 422 status of a rejected request is the web framework's default for request validation errors.
- `LlmCall.GenerateExcuse`: the response model is assumed to accept only JSON strings for `subject` and `body`, as Pydantic 2 does. Pydantic 1 would also coerce numbers.
- `PyJson.Json`: numbers are integers only, so floats are not modelled. Wherever the code meets a JSON float, it treats it as it treats an integer: as `content` (`json.loads` raises `TypeError`, app.py:151-153), as `predictions` (`len` raises `TypeError`, app.py:134), as the document the raw text parses to (`.get` raises `AttributeError`, app.py:155), or as a reply field (the response model rejects it, app.py:204-212). So `JNumber` stands for both. The text `str()` gives a float is part of the `str()` parameter.
- `PyJson.Json`: an object is a map, so the key order of a decoded object is not modelled, and neither is how `json.loads` treats duplicate keys. `str()` of a dict (app.py:147, 149) renders keys in document order, so two envelopes that differ only in key order can give different raw text in Python. In the model they give the same input to the `str()` parameter.
- `ExcusePrompt.PromptRoundTrip`: it holds only for text fields without a line break. A field containing one spills onto further prompt lines. `ExcusePrompt.Prompt` still embeds such a field verbatim.
- `ExcusePrompt.FillRoundTrip`: for the same reason, it holds only for text fields without a line break, whatever the surrounding template text.
- `PyJson.JString`: a Dafny `char` is a Unicode scalar value, so a string holding a lone surrogate (which `json.loads` yields for the text `"\ud800"`) is outside the model. `Text.Strip`, `Text.Split` and `PyJson.Index0` would treat such a character like any other character that is neither whitespace nor a line break.
- `Text.Strip`: whitespace is the fixed set of code points Python's `str.isspace()` accepts. It is written out in `Text.IsSpace` rather than taken from a Unicode database.

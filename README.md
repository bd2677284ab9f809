# uopenai request construction, in Dafny

`uopenai` is a small async client for a chat-completion API. This project
models the part of it that has local behaviour to prove. That part is how
the client builds the request it sends and how it judges the response:

- **the `OpenAI` client** (`Core.OpenAI`). The class keeps the API key and a
  header set. The constructor builds the header set the way `__init__`
  does. It writes the bearer token and the JSON content type, and then adds
  the organization header when the organization is truthy.
- **`call`** (`Core.OpenAI.Call`). The URL is `https://api.openai.com/v1/`
  followed by the endpoint. The POST carries the stored headers. A status
  other than 200 becomes an `OpenAIError` whose message is
  `Error: <status> - <text>`. A 200 body goes to the decoder.
- **`complete`** (`Core.OpenAI.Complete`). One loop walks the six option
  names in their fixed order and copies every option that is not `None`.
  A second loop dumps each message to `{role, content}`. The `messages` key
  goes last. Extra keyword arguments are never copied.
- **`easy_complete`** (`Core.OpenAI.EasyComplete`). It builds a one-message
  transcript whose role is `system` and whose content is the prompt, and
  hands it to `complete`.

A request body is a `Dicts.Dict<Value>`: an ordered sequence of key/value
pairs. Python dictionaries keep insertion order, so this is also the order
of the keys on the wire. `Dicts.Put` models `d[k] = v`. `Dicts.Lookup`
models `d[k]`.

The network is not modelled. The POST is a parameter
`transport: Post -> Response`: it takes the URL, headers and body that would
be sent and returns the status and body text. JSON parsing plus pydantic
validation of a 200 body is a second parameter,
`decode: string -> Result<T, string>`. Both are uninterpreted, so every
property holds for any server and any decoder.

The model follows the code where the library's own documentation describes
more than the code does:

- an empty message list is sent to the server and is not rejected locally;
- `response_format` is passed through as a plain string and is not wrapped
  as `{type: "json_object"}`;
- a `json=True` keyword argument goes into `**payload` and is dropped, as in
  tests/__init__.py:73;
- `easy_complete` always sends a single `system` message and returns the
  whole `Answer`. It does not extract JSON and does not check for empty
  choices.

Files: `wrappers.dfy` holds Option and Result. `dicts.dfy` holds ordered
dictionaries. `decimal.dfy` holds Python's `str(int)` and its inverse.
`core.dfy` models src/uopenai/core.py.

## Model

| member | source | states |
|---|---|---|
| `Core.OpenAI.constructor` | src/uopenai/core.py:39-43 | stores the key; the header set equals `AuthHeaders(apiKey, organization)`. The organization header is added, by dictionary assignment, only for a truthy organization |
| `Core.AuthHeaders` | src/uopenai/core.py:41-43 | `Authorization` is `"Bearer " + apiKey` and `Content-Type` is `application/json`. `OpenAI-Organization` is present iff the organization is neither `None` nor empty, and then equals it. No other header is present |
| `Core.OpenAI.Call` | src/uopenai/core.py:45-53 | the transport is called with `OAI_V1 + endpoint`, the stored headers and the payload. The result is a success iff the status is 200 and the decoder succeeds, and then it is the decoder's value. Any other status gives `OpenAIError("Error: <status> - <text>")`. A 200 whose decoding fails gives the decoder's error |
| `Core.StatusMessageRoundTrip` | src/uopenai/core.py:50-51 | the status and the raw body text can both be read back, unchanged, from the error message |
| `Core.StatusMessageInjective` | src/uopenai/core.py:51 | two different (status, body) pairs never give the same error message |
| `Core.DecoderOnlyOnSuccess` | src/uopenai/core.py:50-53 | for a non-200 response, the result of `call` does not depend on the decoder, so the body is not decoded |
| `Core.OpenAI.Complete` | src/uopenai/core.py:55-78 | the two loops build exactly `RequestPayload(messages, options)`. The result is `call` on `chat/completions` with that body and the stored headers. Nothing is rejected locally, so an empty transcript is sent too. Extra keyword arguments do not affect the result |
| `Core.OptionsMirrorArguments` | src/uopenai/core.py:68-70 | each of the six option keys is in the request iff its argument is not `None`, and then it carries that argument |
| `Core.RequestKeysOrdered` | src/uopenai/core.py:68-76 | request keys appear in strictly increasing position in the order model, max_tokens, presence_penalty, frequency_penalty, response_format, temperature, messages. `messages` is always the last entry |
| `Core.ExtraKwargsDropped` | src/uopenai/core.py:62-70 | every request key is `messages` or one of the six option names. So no key passed through `**payload` (such as `json`) ever appears in the request |
| `Core.DefaultRequest` | src/uopenai/core.py:56-76 | with all arguments at their defaults, the request is exactly `{model: "gpt-3.5-turbo", messages: [...]}` |
| `Core.OnlyModelSupplied` | src/uopenai/core.py:68-70 | when the model is the only option that is not `None`, the options part of the request is exactly `{model: ...}` |
| `Core.MessagesInOrder` | src/uopenai/core.py:72-76 | `messages` in the request is a list as long as the transcript. Element i is `{role: messages[i].role, content: messages[i].content}` |
| `Core.DumpAllInOrder` | src/uopenai/core.py:72-74 | the dumped list has one `{role, content}` object per message, in transcript order |
| `Core.EmptyTranscriptIsSent` | src/uopenai/core.py:72-77 | an empty message list produces `messages: []` in the request. There is no local error |
| `Core.OpenAI.EasyComplete` | src/uopenai/core.py:80-82 | the result is `complete` on the transcript `[Message("system", prompt)]`, with the options passed through unchanged |
| `Core.SystemPromptRequest` | src/uopenai/core.py:81 | the `messages` of the `easy_complete` request is exactly `[{role: "system", content: prompt}]` |
| `Core.ChatbotRequest` | tests/__init__.py:18-23 | the test's two-message transcript with model `gpt-4-turbo-preview` gives exactly `{model, messages}` and no other key |
| `Core.SuppliedLookup` | src/uopenai/core.py:68-70 | after the option loop, a walked option maps to its argument exactly when that argument is not `None`. An option that was not walked is absent |
| `Core.SuppliedRanked` | src/uopenai/core.py:68-70 | after walking the first m options, every key present is one of them, in walking order |
| `Core.NotYetSupplied` | src/uopenai/core.py:68-70 | when the loop reaches an option, its key is not yet in the request, so the assignment appends |
| `Core.MessagesNotAnOption` | src/uopenai/core.py:76 | `messages` is never among the option keys, so `req["messages"] = ...` appends at the end |
| `Dicts.Put` | src/uopenai/core.py:70 | `d[k] = v` appends a new key at the end and keeps the key order when the key is already present |
| `Dicts.PutLookup` | src/uopenai/core.py:43 | after `d[k] = v`, `k` maps to `v` and every other key maps to what it mapped to before |
| `Dicts.Lookup` | src/uopenai/core.py:69 | `d[k]` is present iff `k` is a key, and then it is a pair stored in `d` |
| `Dicts.LookupAppend` | src/uopenai/core.py:76 | a lookup in `a + b` finds a key of `a` in `a` and any other key in `b` |
| `Decimal.IntRoundTrip` | src/uopenai/core.py:51 | parsing `str(status)` gives back the status, for negative statuses too |
| `Decimal.NatRoundTrip` | src/uopenai/core.py:51 | parsing the decimal digits of a natural number gives back the number |
| `Decimal.IntToString` | src/uopenai/core.py:51 | `str(n)` is non-empty and contains no space. It starts with `-` iff `n` is negative |

## Left out

- The HTTP POST (src/uopenai/core.py:48-49) is left out: `httpx.AsyncClient`, async/await, connections and the default timeout. It is the `transport` parameter. Transport exceptions (timeouts, refused connections, DNS) are not modelled, because they come from the network library and propagate unchanged.
- `response.json()` and `model_validate` (src/uopenai/core.py:52-53) are the `decode` parameter, because JSON parsing and pydantic validation are foreign libraries. The coercion of `created` into a `datetime` is part of that parameter, and `DateTime` is an opaque type.
- Serialising the body to JSON text is done by `httpx` and is not modelled. The body is kept as a structured `Value`.
- Penalties and temperature are Python floats that the code only passes through. They are an opaque type `Float`, and no arithmetic is done on them.
- `deepcopy` (src/uopenai/core.py:41) copies a literal that was just built, so it has no observable effect and is not modelled.
- The records `Message`, `Choice`, `Usage` and `Answer` (src/uopenai/core.py:10-32) are plain datatypes. Pydantic's field validation is part of the decoder.
- tests/__init__.py is not modelled as tests, because every test calls the live API. Only its concrete request shape is restated (`Core.ChatbotRequest`).
- Core.OpenAI.EasyComplete: requires that no extra keyword argument is named `messages` or `prompt`. With `messages`, Python raises `TypeError` when the arguments are forwarded to `complete`, and that error path is not modelled. `prompt` can never reach `**kwargs`.
- Core.OpenAI.Complete: the values of extra keyword arguments are modelled as `Value`, not as arbitrary Python objects. They are never read.

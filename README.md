# gpt-wrapper, modelled in Dafny

This project models the core of `gpt-wrapper`, a thin Python client for a
chat-completion HTTP API, and a connectivity diagnostic script:

- `GPTWrapper` in `app.py` (default model `gpt-3.5-turbo`, with
  `list_available_models`) and in `gpt_wrapper.py` (default model `gpt-4`).
  Each resolves the API key (explicit argument, else the `OPENAI_API_KEY`
  environment value, else `ValueError`). Each fixes the JSON content type and
  the `Authorization: Bearer <key>` header of section 2.1 of RFC 6750. Each
  builds the chat-completion body `{model, messages, temperature, max_tokens,
  **kwargs}` and turns every `RequestException` into `{"error": msg}`.
  `simple_completion` reads `choices[0].message.content` and reports errors as
  text.
- `check_api_connection` in `api-diagnostic.py`: key masking, the model-id
  list, the availability test for three common models, the choice of a chat
  model, the test request, the defaulted reading of its reply, and the advice
  for a 404 or 401 status.

The HTTP library is replaced by a function `send: Request -> Outcome` that the
caller supplies. An `Outcome` is either a transport failure with its message,
or a status code with the decoded body. The environment variable is an
`Option<string>` parameter.

Files and modules:

| file | module | contents |
|---|---|---|
| `wrappers.dfy` | `Wrappers` | `Option`, `Result`, Python truthiness of an optional string |
| `text.dfy` | `Text` | substring test (`in`), ASCII lower-casing, decimal text |
| `json.dfy` | `Json` | decoded JSON values, dictionaries as ordered entries, `d[k] = v`, `{**a, **b}`, `str`/`repr` |
| `chat.dfy` | `Chat` | rules shared by both wrappers: key resolution, headers, endpoints, payload, outcome normalisation, reply reading, model listing |
| `app.dfy` | `App` | class `Wrapper` of `app.py` |
| `gpt_wrapper.dfy` | `GptWrapper` | class `Wrapper` of `gpt_wrapper.py` |
| `diagnostic.dfy` | `Diagnostic` | `check_api_connection` as a function returning a `Report` |

Python exceptions that the code does not catch are modelled as values:
`Reply.RaisesTypeError` for `simple_completion`, and `Listing.Raises` for the
id comprehension. Exceptions that the diagnostic's outer handler catches end
its run with `ConnectionError`.

Two consequences of the Python code that its docstrings do not spell out:

- `temperature`, `max_tokens` and `messages` are named parameters of
  `chat_completion`, so `**kwargs` never holds them. An extra option can
  override only `model` (`KwargsOk`, `PayloadValues`).
- An HTTP error status does not raise out of `chat_completion`. `HTTPError`
  is a `RequestException`, so a 4xx/5xx status yields `{"error": msg}` like a
  transport failure (`Normalise`).

## Model

| member | source | states |
|---|---|---|
| `Text.Contains` | api-diagnostic.py:42 | Python `p in s` holds exactly when `p` occurs in `s` at some position |
| `Json.Get` | app.py:92-93 | `d[k]` exists exactly when `k` is among the keys of `d` |
| `Json.GetFinds` | app.py:92-96 | the value `d[k]` gives is the one paired with `k` in the first entry holding `k` |
| `Json.GetOr` | api-diagnostic.py:64 | `d.get(k, default)` is `d[k]` when present and the default otherwise |
| `Json.Put` | app.py:45-51 | `d[k] = v` keeps an existing key in its place and appends a new key at the end |
| `Json.PutGet` | app.py:45-51 | after `d[k] = v`, `d[k]` is `v` and every other key reads as before |
| `Json.MergeKeys` | app.py:45-51 | the keys of `{**base, **extra}` (`Json.Merge`) are those of both sides and no other, with the keys of `base` first in their order |
| `Json.MergeGet` | gpt_wrapper.py:41-47 | in `{**base, **extra}` (`Json.Merge`) a key given in `extra` takes the extra value (later entries win), any other key keeps its base value |
| `Json.Str` | app.py:93 | `str` of a string value is the string itself |
| `Chat.ResolveKey` | app.py:15-17 | construction fails exactly when both the explicit key and the environment value are falsy; otherwise the key is the first truthy of the two, and never empty |
| `Chat.AuthHeadersCarryKey` | app.py:21-24 | the headers are exactly `Content-Type: application/json` and `Authorization` holding `Bearer ` followed by the key |
| `Chat.AuthHeadersInjective` | gpt_wrapper.py:21-24 | different keys give different headers: the key can be recovered from the Authorization header |
| `Chat.ChatEndpoint` | gpt_wrapper.py:39 | the endpoint is the base URL followed by `/chat/completions` |
| `Chat.ChatEndpointKeepsTrailingSlash` | app.py:39 | no slash is removed: a base URL ending in `/` gives `//chat/completions` |
| `Chat.ModelsEndpoint` | app.py:108 | the listing endpoint is the base URL followed by `/models` |
| `Chat.MessagesJson` | app.py:86-88 | each message becomes a `{"role", "content"}` object, one for one and in order |
| `Chat.PayloadKeys` | app.py:45-51 | the body starts with `model`, `messages`, `temperature`, `max_tokens` and holds those and the extra keys, nothing else |
| `Chat.PayloadValues` | gpt_wrapper.py:41-47 | an extra `model` overrides the client's model; `messages`, `temperature` and `max_tokens` keep the values passed; every extra key carries its extra value |
| `Chat.Normalise` | app.py:53-70 | a transport failure or a 4xx/5xx status gives an object whose only key is `"error"`, holding the failure text; any other outcome gives the decoded body unchanged |
| `Chat.Conversation` | app.py:83-88 | the conversation is `[system, user]` when the system message is truthy and `[user]` otherwise; the last message is the user prompt |
| `Chat.ErrorKeyWins` | app.py:92-93 | a response with an `"error"` key reads as `"Error: "` followed by that value, even when `choices` is also present |
| `Chat.ErrorObjectShown` | app.py:92-93 | an error value that is not a string is shown by its Python `repr` (`Json.Repr`): `{"message": "bad"}` reads as `Error: {'message': 'bad'}` |
| `Chat.ContentOfFirstChoice` | app.py:95-96 | a well-shaped response yields the `content` of the first choice's `message` |
| `Chat.StubbedReplyYieldsContent` | gpt_wrapper.py:80-81 | a 200 reply `{"choices": [{"message": {"role": "assistant", "content": "Hi!"}}]}` yields `"Hi!"` |
| `Chat.MissingChoicesReadAsParseError` | app.py:95-98 | a missing `choices` key or an empty `choices` list yields a string beginning `"Error parsing response: "` instead of raising |
| `Chat.MissingContentReadsAsParseError` | app.py:95-98 | a first choice without `message`, or a message without `content`, yields a string beginning `"Error parsing response: "` instead of raising |
| `Chat.ReplyTypeErrors` | app.py:92-98 | `ReadReply` lets `TypeError` escape for a response that is not an object and for a first choice that is not an object; a `choices` object raises `KeyError: 0`, which is caught and reported as `Error parsing response: 0` |
| `Chat.FailedCallReadsAsError` | gpt_wrapper.py:77-78 | after a failed call the reply is `"Error: "` followed by the failure text; the content lookup is never reached |
| `Chat.IdsOf` | app.py:114 | the comprehension succeeds exactly when every entry is an object with an `id`; it then gives the ids in order, one per entry; otherwise the first bad entry raises `KeyError` (an object) or `TypeError` (anything else) |
| `Chat.ModelIds` | app.py:114 | a `data` list gives the ids of its entries; a string or object `data` lists nothing when empty and otherwise raises `TypeError`, since iterating it yields strings; any other `data` raises `TypeError` |
| `Chat.IdsFromBody` | app.py:113-114 | a body that is not an object raises `AttributeError` (and nothing else does); a missing `data` lists nothing; otherwise the listing of `data` |
| `Chat.ListModels` | app.py:110-117 | a request or HTTP failure gives `[]`; an exception escapes only from a successful response, and is then the one the body's listing raises |
| `Chat.ListModelsOfBody` | app.py:112-114 | a successful body without `data` lists nothing; one whose `data` entries all have ids lists those ids in order |
| `Chat.ListingExamples` | app.py:108-117 | a 500 response lists nothing; `{"data": [{"id": "gpt-4"}, {"id": "gpt-3.5-turbo"}]}` lists both ids in that order |
| `App.Wrapper.constructor` | app.py:19-24 | the fields are set once: key, model, base URL, and the headers derived from the key |
| `App.Wrapper.Create` | app.py:6-17 | construction fails exactly when no truthy key is found; otherwise a new client holds the resolved key, the model (default `gpt-3.5-turbo`) and the base URL (default `https://api.openai.com/v1`) |
| `App.Wrapper.ChatCompletion` | app.py:26-70 | one POST of the merged body to the chat endpoint with the fixed headers; a failure becomes `{"error": msg}`, any other outcome returns the body |
| `App.Wrapper.SimpleCompletion` | app.py:72-98 | sends the conversation with the default temperature and token limit and reads the reply; a failed call yields `"Error: "` followed by the failure text |
| `App.Wrapper.ListAvailableModels` | app.py:101-117 | one GET of the models endpoint; any request or HTTP failure yields `[]`, otherwise the ids of `data` |
| `GptWrapper.Wrapper.constructor` | gpt_wrapper.py:19-24 | the fields are set once: key, model, base URL, and the headers derived from the key |
| `GptWrapper.Wrapper.Create` | gpt_wrapper.py:6-17 | construction fails exactly when no truthy key is found; otherwise a new client holds the resolved key, the model (default `gpt-4`) and the base URL (default `https://api.openai.com/v1`) |
| `GptWrapper.Wrapper.ChatCompletion` | gpt_wrapper.py:26-55 | one POST of the merged body to the chat endpoint with the fixed headers; a failure becomes `{"error": msg}`, any other outcome returns the body |
| `GptWrapper.Wrapper.SimpleCompletion` | gpt_wrapper.py:57-83 | sends the conversation with the default temperature and token limit and reads the reply; a failed call yields `"Error: "` followed by the failure text |
| `Diagnostic.MaskKey` | api-diagnostic.py:17 | a key longer than ten characters masks to its first five characters, `...`, and its last four (twelve in all); a shorter key masks to `****` |
| `Diagnostic.MaskIgnoresMiddle` | api-diagnostic.py:17 | two long keys that share their first five and last four characters mask alike |
| `Diagnostic.MissingKeyStopsEarly` | api-diagnostic.py:10-14 | the run stops with no request exactly when the environment value is falsy, whatever the network would answer |
| `Diagnostic.PyIn` | api-diagnostic.py:42 | `name in m` is a substring test on a string id, element membership on a list id, key membership on an object id, and raises on any other id |
| `Diagnostic.AnyIn` | api-diagnostic.py:42 | `any` is true exactly at a first hit with no raising test before it, raises exactly when a test raises before any hit, and is false only when every test is false; on string ids it is true exactly when some id contains the name |
| `Diagnostic.Availability` | api-diagnostic.py:41-45 | one verdict per common model, in order, each the `any` test for that name; the run fails exactly when one of the tests raises |
| `Diagnostic.ChooseChatModel` | api-diagnostic.py:52 | the chat model is the first id, in response order, whose lower-cased form contains `gpt`, or `gpt-3.5-turbo` when none does; a non-string id reached first raises |
| `Diagnostic.TestPayloadShape` | api-diagnostic.py:54-58 | the test body holds exactly the chosen model, a single user message `Hello!`, and `max_tokens` 10, with no temperature |
| `Diagnostic.DefaultedContentCases` | api-diagnostic.py:64 | for `DefaultedContent`: a missing `choices`, `message` or `content` gives `""`; an empty `choices` list raises, and so does `.get` on a body that is not an object |
| `Diagnostic.AdviceFor` | api-diagnostic.py:71-79 | model and access advice exactly for 404, key and billing advice exactly for 401, none otherwise |
| `Diagnostic.RunStages` | api-diagnostic.py:10-87 | for `Diagnose` (through `CheckModels` and `TestChat`): a run with a key reports the masked key; a listing transport failure or a listing that raises ends in a connection error; the listing fails exactly on a non-200 status, which it reports; a run that reaches the test completion reports the listed ids, the availability verdicts and chat model derived from them, and the status, advice or content of the test request it sent |
| `Diagnostic.ChatTriedIsConsistent` | api-diagnostic.py:37-79 | a run that reaches the test completion reports each common model as available exactly when some listed id answers `name in m` with true (for string ids: contains the name), and a chat model that is the fallback or a listed id; advice comes only with 404 or 401 |
| `Diagnostic.NonStringIdReachesChat` | api-diagnostic.py:41-52 | ids `gpt-4` and `[]` pass every availability test without raising and choose `gpt-4`, so a run with a non-string id can reach the test completion |
| `Diagnostic.StubbedRunReport` | api-diagnostic.py:27-79 | with ids `whisper-1` and `GPT-4o` and a 404 test reply, no common model is available, `GPT-4o` is chosen, and the 404 advice is given |

## Left out

- The HTTP calls (`requests.post`, `requests.get`) are the `send` parameter. The library's own behaviour, redirects and timeouts are not modelled.
- Reading `os.environ` is the `env` parameter.
- Every `print` is left out: the debug output of `app.py`, the `json.dumps` of the payload, and the response-header dumps. The diagnostic's display, including the model count at line 34 and the `.strip()` at line 65, is left out too. The count equals the length of the id list whenever the run goes on. The `AttributeError` that `.strip()` raises on non-string content is modelled.
- JSON decoding (`response.json()`) is left out. Bodies arrive decoded, so decode errors are not modelled. Objects are assumed to have distinct keys: `Json.Get` takes the first entry, while Python's decoder keeps the last.
- Exception messages are opaque strings. A transport failure carries its message. An HTTP status that `raise_for_status` rejects carries the `HTTPError` text in `Outcome.errorText`. The texts of `KeyError` and `IndexError` follow Python's form.
- `Json.Str`: the `repr` of containers does not model Python's choice of quotes or its escaping inside strings. Numbers are shown as their JSON literal.
- `Text.Lower` lower-cases ASCII letters only. For the `gpt` test this gives the same answer as Python's Unicode `lower()`, because no non-ASCII character lower-cases to `g`, `p` or `t`.
- `temperature` and `max_tokens` are opaque JSON values (`JNumber` literals); no arithmetic is done on them.
- The messages argument of `chat_completion` is typed as a sequence of `Message`. Python accepts any list.
- The client's attributes are `const`. Python would let a caller reassign them after construction, and the source never does.
- The `if __name__ == "__main__"` demo blocks of all three files are left out.

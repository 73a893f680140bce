/** The request-building and response-interpreting rules shared by the two
    `GPTWrapper` classes (app.py and gpt_wrapper.py). The HTTP library is
    replaced by a value of type `Outcome` that the caller's `send` function
    produces for a request. */
module Chat {
  import opened Wrappers
  import opened Text
  import opened Json

  const DefaultBaseUrl := "https://api.openai.com/v1"
  const DefaultTemperature := JNumber("0.7")
  const DefaultMaxTokens := JNumber("1000")

  // ---------------------------------------------------------------------------
  // The HTTP boundary

  datatype Request =
    | HttpGet(url: string, headers: map<string, string>)
    | HttpPost(url: string, headers: map<string, string>, body: Json)

  /** What the HTTP library gives back: a transport failure (connection error,
      timeout, DNS failure) with its message, or a response with its status
      code, its decoded body, and the text `raise_for_status` would put in
      the `HTTPError` it raises for that status. */
  datatype Outcome =
    | Transport(error: string)
    | Http(status: int, body: Json, errorText: string)

  /** `raise_for_status` raises for the client-error (4xx) and server-error
      (5xx) classes of sections 15.5 and 15.6 of RFC 9110. */
  predicate RaisesForStatus(status: int)
  {
    400 <= status < 600
  }

  /** The outcome becomes a `RequestException` inside `chat_completion`. */
  predicate Failed(o: Outcome)
  {
    o.Transport? || RaisesForStatus(o.status)
  }

  /** The message of that `RequestException`. */
  function FailureText(o: Outcome): string
    requires Failed(o)
  {
    if o.Transport? then o.error else o.errorText
  }

  // ---------------------------------------------------------------------------
  // Construction

  datatype ConfigError = MissingApiKey

  /** `api_key or os.environ.get("OPENAI_API_KEY")`, then the `ValueError`
      when the result is falsy. */
  function ResolveKey(explicit: Option<string>, env: Option<string>): (r: Result<string, ConfigError>)
    ensures r.Failure? <==> !Truthy(explicit) && !Truthy(env)
    ensures r.Success? ==> r.value != ""
    ensures Truthy(explicit) ==> r == Success(explicit.value)
    ensures !Truthy(explicit) && Truthy(env) ==> r == Success(env.value)
  {
    var resolved := if Truthy(explicit) then explicit else env;
    if Truthy(resolved) then Success(resolved.value) else Failure(MissingApiKey)
  }

  const BearerPrefix := "Bearer "

  /** The fixed request headers: a JSON content type and the bearer scheme of
      section 2.1 of RFC 6750. */
  function AuthHeaders(key: string): map<string, string>
  {
    map["Content-Type" := "application/json", "Authorization" := BearerPrefix + key]
  }

  /** The headers have exactly two entries, and the credential can be read
      back from the Authorization header after the `Bearer ` prefix. */
  lemma AuthHeadersCarryKey(key: string)
    ensures AuthHeaders(key).Keys == {"Content-Type", "Authorization"}
    ensures AuthHeaders(key)["Content-Type"] == "application/json"
    ensures |AuthHeaders(key)["Authorization"]| == |key| + 7
    ensures AuthHeaders(key)["Authorization"][..7] == "Bearer "
    ensures AuthHeaders(key)["Authorization"][7..] == key
  {
  }

  /** Two different credentials give two different Authorization headers. */
  lemma AuthHeadersInjective(k1: string, k2: string)
    requires AuthHeaders(k1) == AuthHeaders(k2)
    ensures k1 == k2
  {
    AuthHeadersCarryKey(k1);
    AuthHeadersCarryKey(k2);
  }

  // ---------------------------------------------------------------------------
  // Requests

  /** `f"{base_url}/chat/completions"`. */
  function ChatEndpoint(baseUrl: string): (url: string)
    ensures |url| == |baseUrl| + 17
    ensures url[..|baseUrl|] == baseUrl
    ensures url[|baseUrl|..] == "/chat/completions"
  {
    baseUrl + "/chat/completions"
  }

  /** `f"{base_url}/models"`. */
  function ModelsEndpoint(baseUrl: string): (url: string)
    ensures |url| == |baseUrl| + 7
    ensures url[..|baseUrl|] == baseUrl
    ensures url[|baseUrl|..] == "/models"
  {
    baseUrl + "/models"
  }

  /** No slash is removed: a base URL ending in `/` gives a doubled slash. */
  lemma ChatEndpointKeepsTrailingSlash()
    ensures ChatEndpoint("https://api.openai.com/v1/") == "https://api.openai.com/v1//chat/completions"
  {
  }

  datatype Role = System | User | Assistant

  function RoleName(r: Role): string
  {
    match r
    case System => "system"
    case User => "user"
    case Assistant => "assistant"
  }

  datatype Message = Message(role: Role, content: string)

  /** `{"role": ..., "content": ...}`. */
  function MessageJson(m: Message): Json
  {
    JObject([("role", JString(RoleName(m.role))), ("content", JString(m.content))])
  }

  function MessagesJson(ms: seq<Message>): (js: seq<Json>)
    ensures |js| == |ms|
    ensures forall i :: 0 <= i < |ms| ==> js[i] == MessageJson(ms[i])
  {
    seq(|ms|, i requires 0 <= i < |ms| => MessageJson(ms[i]))
  }

  /** The named parameters of `chat_completion`. Python binds these names to
      the parameters, so they can never arrive in `**kwargs`. */
  const NamedParameters := ["self", "messages", "temperature", "max_tokens"]

  /** What Python guarantees of `**kwargs`: a dictionary (no key twice) that
      holds none of the named parameters. */
  predicate KwargsOk(extra: Fields)
  {
    DistinctKeys(extra) && forall n :: n in NamedParameters ==> n !in Keys(extra)
  }

  /** The dictionary display of the four named entries. */
  function NamedFields(model: string, messages: seq<Message>, temperature: Json, maxTokens: Json): Fields
  {
    [("model", JString(model)),
     ("messages", JArray(MessagesJson(messages))),
     ("temperature", temperature),
     ("max_tokens", maxTokens)]
  }

  /** The request body: the four named entries followed by `**kwargs`. */
  function Payload(model: string, messages: seq<Message>, temperature: Json, maxTokens: Json, extra: Fields): Json
  {
    JObject(Merge(NamedFields(model, messages, temperature, maxTokens), extra))
  }

  /** The body starts with `model`, `messages`, `temperature`, `max_tokens`,
      and holds those and the extra keys and nothing else. */
  lemma PayloadKeys(model: string, messages: seq<Message>, temperature: Json, maxTokens: Json, extra: Fields)
    ensures var f := Payload(model, messages, temperature, maxTokens, extra).fields;
      && |f| >= 4
      && Keys(f)[..4] == ["model", "messages", "temperature", "max_tokens"]
      && forall k :: k in Keys(f) <==> k in ["model", "messages", "temperature", "max_tokens"] || k in Keys(extra)
  {
    var base := NamedFields(model, messages, temperature, maxTokens);
    MergeKeys(base, extra);
    assert Keys(base) == ["model", "messages", "temperature", "max_tokens"];
  }

  /** An extra `model` overrides the client's model; the other named entries
      keep the values passed, because no extra key can clash with them; every
      extra key carries its extra value. */
  lemma PayloadValues(model: string, messages: seq<Message>, temperature: Json, maxTokens: Json, extra: Fields)
    requires KwargsOk(extra)
    ensures var f := Payload(model, messages, temperature, maxTokens, extra).fields;
      && Get(f, "model") == (if "model" in Keys(extra) then Get(extra, "model") else Some(JString(model)))
      && Get(f, "messages") == Some(JArray(MessagesJson(messages)))
      && Get(f, "temperature") == Some(temperature)
      && Get(f, "max_tokens") == Some(maxTokens)
      && forall k :: k in Keys(extra) ==> Get(f, k) == Get(extra, k)
  {
    var base := NamedFields(model, messages, temperature, maxTokens);
    var f := Merge(base, extra);
    assert "messages" in NamedParameters && "temperature" in NamedParameters && "max_tokens" in NamedParameters;
    assert Get(base, "model") == Some(JString(model));
    assert Get(base, "messages") == Some(JArray(MessagesJson(messages)));
    assert base[1..][1..] == base[2..] && base[2..][1..] == base[3..];
    assert Get(base, "temperature") == Get(base[1..], "temperature") == Get(base[2..], "temperature") == Some(temperature);
    assert Get(base, "max_tokens") == Get(base[1..], "max_tokens") == Get(base[2..], "max_tokens")
      == Get(base[3..], "max_tokens") == Some(maxTokens);
    MergeGet(base, extra, "model");
    MergeGet(base, extra, "messages");
    MergeGet(base, extra, "temperature");
    MergeGet(base, extra, "max_tokens");
    forall k | k in Keys(extra) ensures Get(f, k) == Get(extra, k) {
      MergeGet(base, extra, k);
    }
  }

  /** `requests.post(endpoint, headers=self.headers, json=payload)`. */
  function ChatRequest(baseUrl: string, headers: map<string, string>, payload: Json): Request
  {
    HttpPost(ChatEndpoint(baseUrl), headers, payload)
  }

  // ---------------------------------------------------------------------------
  // chat_completion: outcome normalisation

  /** `{"error": str(e)}`. */
  function ErrorBody(msg: string): Json
  {
    JObject([("error", JString(msg))])
  }

  /** What `chat_completion` returns for an outcome: a failed call returns an
      object whose only key is `"error"`, holding the failure text; any other
      outcome returns the decoded body unchanged. */
  function Normalise(o: Outcome): (r: Json)
    ensures Failed(o) ==>
      && r.JObject?
      && Keys(r.fields) == ["error"]
      && Get(r.fields, "error") == Some(JString(FailureText(o)))
    ensures !Failed(o) ==> o.Http? && r == o.body
  {
    if Failed(o) then ErrorBody(FailureText(o)) else o.body
  }

  // ---------------------------------------------------------------------------
  // simple_completion

  /** The conversation `simple_completion` sends: the system message first
      when it is truthy, then the user prompt. */
  function Conversation(prompt: string, systemMessage: Option<string>): (c: seq<Message>)
    ensures |c| == if Truthy(systemMessage) then 2 else 1
    ensures c[|c| - 1] == Message(User, prompt)
    ensures Truthy(systemMessage) ==> c[0] == Message(System, systemMessage.value)
  {
    (if Truthy(systemMessage) then [Message(System, systemMessage.value)] else []) + [Message(User, prompt)]
  }

  /** One step of a chained subscript `v[key]`. */
  datatype Key = Field(name: string) | Position(index: nat)

  /** The result of a chained subscript: the value found, the `KeyError` or
      `IndexError` that `simple_completion` catches, or the `TypeError` it
      does not (subscripting a list with a string, or a number at all). */
  datatype Lookup =
    | Found(value: Json)
    | KeyMissing(key: Key)
    | IndexOutOfRange(container: string)
    | WrongType

  /** Python's `v[key]` on a decoded JSON value. */
  function Subscript(v: Json, key: Key): Lookup
  {
    match (v, key)
    case (JObject(f), Field(n)) => if n in Keys(f) then Found(Get(f, n).value) else KeyMissing(key)
    case (JObject(_), Position(_)) => KeyMissing(key)
    case (JArray(items), Position(i)) => if i < |items| then Found(items[i]) else IndexOutOfRange("list")
    case (JString(s), Position(i)) => if i < |s| then Found(JString([s[i]])) else IndexOutOfRange("string")
    case _ => WrongType
  }

  /** `v[k0][k1]...`, stopping at the first step that raises. */
  function Path(v: Json, keys: seq<Key>): Lookup
    decreases |keys|
  {
    if keys == [] then Found(v)
    else match Subscript(v, keys[0])
      case Found(w) => Path(w, keys[1..])
      case failure => failure
  }

  /** `response["choices"][0]["message"]["content"]`. */
  const ContentPath := [Field("choices"), Position(0), Field("message"), Field("content")]

  /** `str(e)` of a caught `KeyError` or `IndexError`. */
  function LookupErrorText(l: Lookup): string
    requires l.KeyMissing? || l.IndexOutOfRange?
  {
    match l
    case KeyMissing(Field(n)) => "'" + n + "'"
    case KeyMissing(Position(i)) => NatText(i)
    case IndexOutOfRange(container) => container + " index out of range"
  }

  /** What `simple_completion` returns, or the `TypeError` that escapes it. */
  datatype Reply = Returned(value: Json) | RaisesTypeError

  const ErrorPrefix := "Error: "
  const ParsePrefix := "Error parsing response: "

  /** `simple_completion` after the call: the error key first, then the
      content lookup with its `KeyError`/`IndexError` turned into text. A
      response that is not an object makes `"error" in response` or the
      first subscript raise `TypeError`. */
  function ReadReply(response: Json): Reply
  {
    if !response.JObject? then RaisesTypeError
    else if "error" in Keys(response.fields) then
      Returned(JString(ErrorPrefix + Str(Get(response.fields, "error").value)))
    else match Path(response, ContentPath)
      case Found(content) => Returned(content)
      case WrongType => RaisesTypeError
      case failure => Returned(JString(ParsePrefix + LookupErrorText(failure)))
  }

  /** Precedence of the error key: whatever else the object holds (`choices`
      included), a response with an `"error"` key reads as `"Error: "`
      followed by that value. */
  lemma ErrorKeyWins(fields: Fields)
    requires "error" in Keys(fields)
    ensures ReadReply(JObject(fields)) == Returned(JString(ErrorPrefix + Str(Get(fields, "error").value)))
  {
  }

  /** An error value that is not a string is shown as Python shows it: an
      error object appears as a dictionary `repr`. */
  lemma ErrorObjectShown()
    ensures ReadReply(JObject([("error", JObject([("message", JString("bad"))]))]))
      == Returned(JString(ErrorPrefix + "{'message': 'bad'}"))
  {
    MessageObjectRepr();
    assert Keys([("error", JObject([("message", JString("bad"))]))]) == ["error"];
  }

  /** A well-shaped reply yields the content of its first choice, whatever the
      other choices and keys hold. */
  lemma {:induction false} ContentOfFirstChoice(fields: Fields, first: Fields, message: Fields, rest: seq<Json>)
    requires "error" !in Keys(fields)
    requires Get(fields, "choices") == Some(JArray([JObject(first)] + rest))
    requires Get(first, "message") == Some(JObject(message))
    requires "content" in Keys(message)
    ensures ReadReply(JObject(fields)) == Returned(Get(message, "content").value)
  {
  }

  /** The stubbed exchange: a 200 response
      `{"choices": [{"message": {"role": "assistant", "content": "Hi!"}}]}`
      makes `simple_completion` return `"Hi!"`. */
  lemma StubbedReplyYieldsContent(text: string)
    ensures var message := [("role", JString("assistant")), ("content", JString("Hi!"))];
      var body := JObject([("choices", JArray([JObject([("message", JObject(message))])]))]);
      ReadReply(Normalise(Http(200, body, text))) == Returned(JString("Hi!"))
  {
    var message := [("role", JString("assistant")), ("content", JString("Hi!"))];
    var first := [("message", JObject(message))];
    assert Get(message, "content") == Get(message[1..], "content") == Some(JString("Hi!"));
    assert [JObject(first)] + [] == [JObject(first)];
    ContentOfFirstChoice([("choices", JArray([JObject(first)]))], first, message, []);
  }

  /** A reply with no `choices` key, or with an empty `choices` list, is
      reported as a parse error instead of raising. */
  lemma {:induction false} MissingChoicesReadAsParseError(fields: Fields)
    requires "error" !in Keys(fields)
    requires "choices" !in Keys(fields) || Get(fields, "choices") == Some(JArray([]))
    ensures ReadReply(JObject(fields)).Returned?
    ensures var r := ReadReply(JObject(fields)).value;
      r.JString? && |r.s| > |ParsePrefix| && r.s[..|ParsePrefix|] == ParsePrefix
  {
  }

  /** A first choice without `message`, or a message without `content`, is
      reported as a parse error instead of raising. */
  lemma {:induction false} MissingContentReadsAsParseError(fields: Fields, first: Fields, rest: seq<Json>)
    requires "error" !in Keys(fields)
    requires Get(fields, "choices") == Some(JArray([JObject(first)] + rest))
    requires "message" !in Keys(first) || exists m :: Get(first, "message") == Some(JObject(m)) && "content" !in Keys(m)
    ensures ReadReply(JObject(fields)).Returned?
    ensures var r := ReadReply(JObject(fields)).value;
      r.JString? && |r.s| > |ParsePrefix| && r.s[..|ParsePrefix|] == ParsePrefix
  {
  }

  /** The `TypeError`s that escape `simple_completion`: a response that is
      not an object, and a first choice that is not an object (`["message"]`
      on a list, a string, a number or `None`). A `choices` object instead
      raises `KeyError: 0`, which is caught. */
  lemma {:induction false} ReplyTypeErrors(response: Json, fields: Fields, first: Json, rest: seq<Json>, choices: Fields)
    ensures !response.JObject? ==> ReadReply(response) == RaisesTypeError
    ensures "error" !in Keys(fields) && Get(fields, "choices") == Some(JArray([first] + rest)) && !first.JObject? ==>
      ReadReply(JObject(fields)) == RaisesTypeError
    ensures "error" !in Keys(fields) && Get(fields, "choices") == Some(JObject(choices)) ==>
      ReadReply(JObject(fields)) == Returned(JString(ParsePrefix + "0"))
  {
  }

  /** A failed call never reaches the content lookup: `simple_completion`
      returns `"Error: "` followed by the failure text. */
  lemma FailedCallReadsAsError(o: Outcome)
    requires Failed(o)
    ensures ReadReply(Normalise(o)) == Returned(JString(ErrorPrefix + FailureText(o)))
  {
    assert Keys(Normalise(o).fields) == ["error"];
  }

  // ---------------------------------------------------------------------------
  // list_available_models, and the same comprehension in the diagnostic

  /** Exceptions that escape: neither `list_available_models` nor the
      comprehension catches them. */
  datatype Uncaught = KeyError(key: string) | TypeError | AttributeError

  datatype Listing = Listed(ids: seq<Json>) | Raises(error: Uncaught)

  /** `model["id"]` for one entry of `data`. */
  predicate HasId(m: Json)
  {
    m.JObject? && "id" in Keys(m.fields)
  }

  /** `[model["id"] for model in items]`: the ids in order, or the exception
      raised by the first entry that has none. */
  function IdsOf(items: seq<Json>): (r: Listing)
    ensures r.Listed? <==> forall i :: 0 <= i < |items| ==> HasId(items[i])
    ensures r.Listed? ==>
      && |r.ids| == |items|
      && forall i :: 0 <= i < |items| ==> Some(r.ids[i]) == Get(items[i].fields, "id")
    ensures r.Raises? ==>
      exists i ::
        && 0 <= i < |items|
        && !HasId(items[i])
        && (forall j :: 0 <= j < i ==> HasId(items[j]))
        && r.error == (if items[i].JObject? then KeyError("id") else TypeError)
  {
    if items == [] then Listed([])
    else if !items[0].JObject? then Raises(TypeError)
    else if "id" !in Keys(items[0].fields) then Raises(KeyError("id"))
    else
      var rest := IdsOf(items[1..]);
      if rest.Raises? then
        assert forall i :: 1 <= i < |items| ==> items[i] == items[1..][i - 1];
        rest
      else
        Listed([Get(items[0].fields, "id").value] + rest.ids)
  }

  /** What `for model in data` runs over: the elements of a list, the
      one-character strings of a string, the keys of an object; `None` for a
      value Python cannot iterate. */
  function Elements(data: Json): Option<seq<Json>>
  {
    match data
    case JArray(items) => Some(items)
    case JString(s) => Some(seq(|s|, i requires 0 <= i < |s| => JString([s[i]])))
    case JObject(f) => Some(seq(|f|, i requires 0 <= i < |f| => JString(f[i].0)))
    case _ => None
  }

  /** The comprehension over the value found under `data`. A list gives the
      ids of its entries. A string or an object is iterable but yields
      strings, which `["id"]` rejects, so only an empty one lists nothing;
      any other value raises `TypeError` at once. */
  function ModelIds(data: Json): (r: Listing)
    ensures data.JArray? ==> r == IdsOf(data.items)
    ensures !data.JArray? ==> (r.Listed? <==> data == JString("") || data == JObject([]))
    ensures !data.JArray? && r.Listed? ==> r.ids == []
    ensures !data.JArray? && r.Raises? ==> r.error == TypeError
  {
    match Elements(data)
    case None => Raises(TypeError)
    case Some(items) =>
      var r := IdsOf(items);
      assert !data.JArray? && items != [] ==> !HasId(items[0]);
      assert r.Raises? && !data.JArray? ==> r.error == TypeError by {
        if r.Raises? && !data.JArray? {
          var i :| 0 <= i < |items| && !HasId(items[i]) && r.error == (if items[i].JObject? then KeyError("id") else TypeError);
          assert items[i].JString?;
        }
      }
      r
  }

  /** `response.json().get("data", [])` and the comprehension over it: a
      body that is not an object has no `.get` (`AttributeError`), and a
      missing `data` lists nothing. */
  function IdsFromBody(body: Json): (r: Listing)
    ensures r == Raises(AttributeError) <==> !body.JObject?
    ensures body.JObject? && "data" !in Keys(body.fields) ==> r == Listed([])
    ensures body.JObject? && "data" in Keys(body.fields) ==> r == ModelIds(Get(body.fields, "data").value)
  {
    if !body.JObject? then Raises(AttributeError)
    else ModelIds(GetOr(body.fields, "data", JArray([])))
  }

  /** What `list_available_models` returns for an outcome: `[]` on any
      request or HTTP error; an exception escapes only from a successful
      response. */
  function ListModels(o: Outcome): (r: Listing)
    ensures Failed(o) ==> r == Listed([])
    ensures !Failed(o) ==> o.Http? && r == IdsFromBody(o.body)
    ensures r.Raises? ==> o.Http? && !RaisesForStatus(o.status)
  {
    if Failed(o) then Listed([]) else IdsFromBody(o.body)
  }

  /** A body without `data` lists nothing; a body whose `data` entries all
      have ids lists those ids, in order. */
  lemma ListModelsOfBody(fields: Fields, status: int, text: string)
    requires !RaisesForStatus(status)
    ensures "data" !in Keys(fields) ==> ListModels(Http(status, JObject(fields), text)) == Listed([])
    ensures forall items: seq<Json> ::
      Get(fields, "data") == Some(JArray(items)) && (forall i :: 0 <= i < |items| ==> HasId(items[i])) ==>
      var r := ListModels(Http(status, JObject(fields), text));
      r.Listed? && |r.ids| == |items| && forall i :: 0 <= i < |items| ==> Some(r.ids[i]) == Get(items[i].fields, "id")
  {
  }

  /** The listing examples: a 500 response lists nothing, and
      `{"data": [{"id": "gpt-4"}, {"id": "gpt-3.5-turbo"}]}` lists both ids
      in that order. */
  lemma ListingExamples(body: Json, text: string)
    ensures ListModels(Http(500, body, text)) == Listed([])
    ensures var data := JArray([JObject([("id", JString("gpt-4"))]), JObject([("id", JString("gpt-3.5-turbo"))])]);
      ListModels(Http(200, JObject([("data", data)]), text)) == Listed([JString("gpt-4"), JString("gpt-3.5-turbo")])
  {
    var items := [JObject([("id", JString("gpt-4"))]), JObject([("id", JString("gpt-3.5-turbo"))])];
    var last := items[1..];
    assert last == [JObject([("id", JString("gpt-3.5-turbo"))])] && last[1..] == [];
    assert Keys([("id", JString("gpt-4"))]) == ["id"];
    assert Keys([("id", JString("gpt-3.5-turbo"))]) == ["id"];
    assert IdsOf(last) == Listed([JString("gpt-3.5-turbo")] + IdsOf([]).ids);
    assert IdsOf(items) == Listed([JString("gpt-4")] + IdsOf(last).ids);
  }
}

/** `GPTWrapper` of app.py: default model `gpt-3.5-turbo`, with model listing. */
module App {
  import opened Wrappers
  import opened Json
  import opened Chat

  const DefaultModel := "gpt-3.5-turbo"

  class Wrapper {
    const apiKey: string
    const model: string
    const baseUrl: string
    const headers: map<string, string>

    /** The state `__init__` leaves: a non-empty credential and the headers
        derived from it. */
    ghost predicate Valid()
    {
      apiKey != "" && headers == AuthHeaders(apiKey)
    }

    /** The field assignments of `__init__`, once the credential is resolved. */
    constructor (apiKey: string, model: string, baseUrl: string)
      requires apiKey != ""
      ensures Valid()
      ensures this.apiKey == apiKey && this.model == model && this.baseUrl == baseUrl
    {
      this.apiKey := apiKey;
      this.model := model;
      this.baseUrl := baseUrl;
      this.headers := AuthHeaders(apiKey);
    }

    /** `GPTWrapper(api_key, model, base_url)` with `env` standing for
        `os.environ.get("OPENAI_API_KEY")`: the `ValueError` when neither
        is truthy, otherwise a client holding the first truthy of the two. */
    static method Create(env: Option<string>, apiKey: Option<string> := None,
                         model: string := DefaultModel, baseUrl: string := DefaultBaseUrl)
      returns (r: Result<Wrapper, ConfigError>)
      ensures r.Failure? <==> !Truthy(apiKey) && !Truthy(env)
      ensures r.Success? ==>
        && fresh(r.value)
        && r.value.Valid()
        && r.value.apiKey == ResolveKey(apiKey, env).value
        && r.value.model == model
        && r.value.baseUrl == baseUrl
    {
      var key := if Truthy(apiKey) then apiKey else env;
      if !Truthy(key) {
        return Failure(MissingApiKey);
      }
      var w := new Wrapper(key.value, model, baseUrl);
      return Success(w);
    }

    /** `chat_completion`: one POST of the merged payload; a transport
        failure or a 4xx/5xx status comes back as `{"error": msg}`, anything
        else as the decoded body. */
    method ChatCompletion(messages: seq<Message>, send: Request -> Outcome,
                          temperature: Json := DefaultTemperature, maxTokens: Json := DefaultMaxTokens,
                          extra: Fields := [])
      returns (r: Json)
      requires KwargsOk(extra)
      ensures var o := send(ChatRequest(baseUrl, headers, Payload(model, messages, temperature, maxTokens, extra)));
        && (Failed(o) ==> r == ErrorBody(FailureText(o)))
        && (!Failed(o) ==> r == o.body)
    {
      var endpoint := baseUrl + "/chat/completions";
      var payload := Payload(model, messages, temperature, maxTokens, extra);
      var response := send(HttpPost(endpoint, headers, payload));
      match response
      case Transport(e) =>
        r := ErrorBody(e);
      case Http(status, body, errorText) =>
        if RaisesForStatus(status) {
          r := ErrorBody(errorText);
        } else {
          r := body;
        }
    }

    /** `simple_completion`: the conversation grown by appends, one call with
        the default temperature and token limit, then the reply read with the
        error key first. */
    method SimpleCompletion(prompt: string, send: Request -> Outcome, systemMessage: Option<string> := None)
      returns (r: Reply)
      ensures var o := send(ChatRequest(baseUrl, headers,
                              Payload(model, Conversation(prompt, systemMessage), DefaultTemperature, DefaultMaxTokens, [])));
        && r == ReadReply(Normalise(o))
        && (Failed(o) ==> r == Returned(JString(ErrorPrefix + FailureText(o))))
    {
      var messages: seq<Message> := [];
      if Truthy(systemMessage) {
        messages := messages + [Message(System, systemMessage.value)];
      }
      messages := messages + [Message(User, prompt)];
      assert messages == Conversation(prompt, systemMessage);
      var response := ChatCompletion(messages, send);
      r := ReadReply(response);
      ghost var o := send(ChatRequest(baseUrl, headers, Payload(model, messages, DefaultTemperature, DefaultMaxTokens, [])));
      if Failed(o) {
        FailedCallReadsAsError(o);
      }
    }

    /** `list_available_models`: one GET of `/models`; `[]` on any request or
        HTTP error, otherwise the `id` of every entry of `data`, in order. */
    method ListAvailableModels(send: Request -> Outcome) returns (r: Listing)
      ensures var o := send(HttpGet(ModelsEndpoint(baseUrl), headers));
        && r == ListModels(o)
        && (Failed(o) ==> r == Listed([]))
    {
      var endpoint := baseUrl + "/models";
      var response := send(HttpGet(endpoint, headers));
      if Failed(response) {
        return Listed([]);
      }
      r := IdsFromBody(response.body);
    }
  }
}

/** The decisions inside `check_api_connection` of api-diagnostic.py. Every
    `print` is dropped; what the run concludes is returned as a `Report`. */
module Diagnostic {
  import opened Wrappers
  import opened Text
  import opened Json
  import opened Chat

  const ModelsUrl := "https://api.openai.com/v1/models"
  const ChatUrl := "https://api.openai.com/v1/chat/completions"
  const CommonModels := ["gpt-3.5-turbo", "gpt-4", "text-embedding-ada-002"]
  const FallbackChatModel := "gpt-3.5-turbo"

  /** The key as displayed: its first five and last four characters around
      `...` when it is longer than ten characters, `****` otherwise. */
  function MaskKey(key: string): (masked: string)
    ensures |key| > 10 ==>
      && |masked| == 12
      && masked[..5] == key[..5]
      && masked[5..8] == "..."
      && masked[8..] == key[|key| - 4..]
    ensures |key| <= 10 ==> masked == "****"
  {
    if |key| > 10 then key[..5] + "..." + key[|key| - 4..] else "****"
  }

  /** The mask shows nothing of the middle of a long key: two keys that agree
      on their first five and last four characters mask alike. */
  lemma MaskIgnoresMiddle(k1: string, k2: string)
    requires |k1| > 10 && |k2| > 10
    requires k1[..5] == k2[..5] && k1[|k1| - 4..] == k2[|k2| - 4..]
    ensures MaskKey(k1) == MaskKey(k2)
  {
  }

  /** Python's `name in m` for one entry of `model_ids`: a substring test on
      a string, membership on a list or the keys of an object, and a
      `TypeError` (here `None`) on anything else. */
  function PyIn(name: string, m: Json): (r: Option<bool>)
    ensures r.None? <==> !(m.JString? || m.JArray? || m.JObject?)
    ensures m.JString? ==> r == Some(IsSubstring(name, m.s))
    ensures m.JArray? ==> r == Some(exists i :: 0 <= i < |m.items| && m.items[i] == JString(name))
    ensures m.JObject? ==> r == Some(exists i :: 0 <= i < |m.fields| && m.fields[i].0 == name)
  {
    match m
    case JString(s) => Some(Contains(s, name))
    case JArray(items) => Some(JString(name) in items)
    case JObject(f) => Some(name in Keys(f))
    case _ => None
  }

  /** `any(name in m for m in ids)`, which stops at the first hit: true at
      the first id that contains `name` when no test before it raised,
      `None` at the first test that raises before any hit. On string ids it
      holds exactly when some id contains `name`. */
  function AnyIn(name: string, ids: seq<Json>): (r: Option<bool>)
    ensures r == Some(true) <==>
      exists i :: 0 <= i < |ids| && PyIn(name, ids[i]) == Some(true) && forall j :: 0 <= j < i ==> PyIn(name, ids[j]) == Some(false)
    ensures r.None? <==>
      exists i :: 0 <= i < |ids| && PyIn(name, ids[i]).None? && forall j :: 0 <= j < i ==> PyIn(name, ids[j]) == Some(false)
    ensures r == Some(false) ==> forall i :: 0 <= i < |ids| ==> PyIn(name, ids[i]) == Some(false)
    ensures (forall i :: 0 <= i < |ids| ==> ids[i].JString?) ==>
      r == Some(exists i :: 0 <= i < |ids| && IsSubstring(name, ids[i].s))
  {
    if ids == [] then Some(false)
    else match PyIn(name, ids[0])
      case None => None
      case Some(true) => Some(true)
      case Some(false) =>
        var rest := AnyIn(name, ids[1..]);
        assert forall i :: 1 <= i < |ids| ==> ids[i] == ids[1..][i - 1];
        rest
  }

  /** The availability test run for each common model in turn (the loop that
      only prints); `None` when one of the tests raises. */
  function Availability(names: seq<string>, ids: seq<Json>): (r: Option<seq<bool>>)
    ensures r.None? <==> exists k :: 0 <= k < |names| && AnyIn(names[k], ids).None?
    ensures r.Some? ==>
      && |r.value| == |names|
      && forall k :: 0 <= k < |names| ==> Some(r.value[k]) == AnyIn(names[k], ids)
  {
    if names == [] then Some([])
    else match AnyIn(names[0], ids)
      case None => None
      case Some(first) =>
        var rest := Availability(names[1..], ids);
        assert forall k :: 1 <= k < |names| ==> names[k] == names[1..][k - 1];
        if rest.None? then None else Some([first] + rest.value)
  }

  /** `'gpt' in m.lower()`. */
  ghost predicate IsChatModel(m: string)
  {
    IsSubstring("gpt", Lower(m))
  }

  /** `next((m for m in ids if 'gpt' in m.lower()), 'gpt-3.5-turbo')`: the
      first id naming a GPT model, or the fallback; `None` when an id that
      is not a string is reached first (`.lower()` raises). */
  function ChooseChatModel(ids: seq<Json>): (r: Option<string>)
    ensures (forall i :: 0 <= i < |ids| ==> ids[i].JString?) ==> r.Some?
    ensures r.Some? ==>
      || (exists i ::
            && 0 <= i < |ids|
            && ids[i] == JString(r.value)
            && IsChatModel(r.value)
            && forall j :: 0 <= j < i ==> ids[j].JString? && !IsChatModel(ids[j].s))
      || (&& r.value == FallbackChatModel
          && forall j :: 0 <= j < |ids| ==> ids[j].JString? && !IsChatModel(ids[j].s))
    ensures r.None? ==>
      exists i ::
        && 0 <= i < |ids|
        && !ids[i].JString?
        && forall j :: 0 <= j < i ==> ids[j].JString? && !IsChatModel(ids[j].s)
  {
    if ids == [] then Some(FallbackChatModel)
    else if !ids[0].JString? then None
    else if Contains(Lower(ids[0].s), "gpt") then Some(ids[0].s)
    else
      var rest := ChooseChatModel(ids[1..]);
      assert forall i :: 1 <= i < |ids| ==> ids[i] == ids[1..][i - 1];
      assert !IsChatModel(ids[0].s);
      rest
  }

  /** The test request body: the chosen model, one user message `Hello!`,
      and `max_tokens` 10. */
  function TestPayload(model: string): Json
  {
    JObject([("model", JString(model)),
             ("messages", JArray([MessageJson(Message(User, "Hello!"))])),
             ("max_tokens", JNumber("10"))])
  }

  /** The test body carries exactly `model`, `messages` and `max_tokens`, no
      temperature, and a conversation of a single user message. */
  lemma TestPayloadShape(model: string)
    ensures Keys(TestPayload(model).fields) == ["model", "messages", "max_tokens"]
    ensures "temperature" !in Keys(TestPayload(model).fields)
    ensures Get(TestPayload(model).fields, "model") == Some(JString(model))
    ensures Get(TestPayload(model).fields, "messages") == Some(JArray([MessageJson(Message(User, "Hello!"))]))
    ensures Get(TestPayload(model).fields, "max_tokens") == Some(JNumber("10"))
  {
    var f := TestPayload(model).fields;
    assert f[1..][1..] == f[2..];
    assert Get(f, "max_tokens") == Get(f[1..], "max_tokens") == Get(f[2..], "max_tokens") == Some(JNumber("10"));
  }

  /** `body.get('choices', [{}])[0].get('message', {}).get('content', '')`;
      `None` when a step raises (the outer handler catches it). */
  function DefaultedContent(body: Json): Option<Json>
  {
    if !body.JObject? then None
    else
      var choices := GetOr(body.fields, "choices", JArray([JObject([])]));
      match Subscript(choices, Position(0))
      case Found(first) =>
        if !first.JObject? then None
        else
          var message := GetOr(first.fields, "message", JObject([]));
          if !message.JObject? then None
          else Some(GetOr(message.fields, "content", JString("")))
      case _ => None
  }

  /** Missing `choices`, `message` or `content` default to the empty
      content; an empty `choices` list raises, and so does `.get` on a body
      that is not an object. */
  lemma DefaultedContentCases(body: Json, fields: Fields, first: Fields, rest: seq<Json>)
    ensures !body.JObject? ==> DefaultedContent(body) == None
    ensures "choices" !in Keys(fields) ==> DefaultedContent(JObject(fields)) == Some(JString(""))
    ensures Get(fields, "choices") == Some(JArray([])) ==> DefaultedContent(JObject(fields)) == None
    ensures Get(fields, "choices") == Some(JArray([JObject(first)] + rest)) ==>
      && ("message" !in Keys(first) ==> DefaultedContent(JObject(fields)) == Some(JString("")))
      && (forall m: Fields :: Get(first, "message") == Some(JObject(m)) ==>
            DefaultedContent(JObject(fields)) == Some(GetOr(m, "content", JString(""))))
  {
  }

  datatype Advice = CheckModelAndAccess | CheckKeyAndBilling | NoAdvice

  /** The remedies suggested after a failed test completion. */
  function AdviceFor(status: int): (a: Advice)
    ensures a == CheckModelAndAccess <==> status == 404
    ensures a == CheckKeyAndBilling <==> status == 401
    ensures a == NoAdvice <==> status != 404 && status != 401
  {
    if status == 404 then CheckModelAndAccess
    else if status == 401 then CheckKeyAndBilling
    else NoAdvice
  }

  datatype ChatCheck = Replied(content: string) | Rejected(status: int, advice: Advice)

  /** Where a run of the diagnostic ends. */
  datatype Report =
    | MissingKey
    | ListingFailed(maskedKey: string, status: int)
    | ChatTried(maskedKey: string, modelIds: seq<Json>, available: seq<bool>, chatModel: string, chat: ChatCheck)
    | ConnectionError(maskedKey: string)

  /** `check_api_connection`, with `env` for the environment variable and
      `send` for the two requests it makes. */
  function Diagnose(env: Option<string>, send: Request -> Outcome): Report
  {
    if !Truthy(env) then MissingKey
    else
      var masked := MaskKey(env.value);
      var headers := AuthHeaders(env.value);
      match send(HttpGet(ModelsUrl, headers))
      case Transport(_) => ConnectionError(masked)
      case Http(status, body, _) =>
        if status != 200 then ListingFailed(masked, status)
        else match IdsFromBody(body)
          case Raises(_) => ConnectionError(masked)
          case Listed(ids) => CheckModels(masked, headers, ids, send)
  }

  /** After a successful listing: the availability tests, the choice of a
      chat model, and the test completion with it. */
  function CheckModels(masked: string, headers: map<string, string>, ids: seq<Json>, send: Request -> Outcome): Report
  {
    var available := Availability(CommonModels, ids);
    var chatModel := ChooseChatModel(ids);
    if available.None? || chatModel.None? then ConnectionError(masked)
    else
      TestChat(masked, ids, available.value, chatModel.value,
               send(HttpPost(ChatUrl, headers, TestPayload(chatModel.value))))
  }

  /** The verdict on the test completion. */
  function TestChat(masked: string, ids: seq<Json>, available: seq<bool>, chatModel: string, o: Outcome): Report
  {
    match o
    case Transport(_) => ConnectionError(masked)
    case Http(status, body, _) =>
      if status == 200 then
        match DefaultedContent(body)
        case Some(JString(content)) => ChatTried(masked, ids, available, chatModel, Replied(content))
        case _ => ConnectionError(masked)
      else ChatTried(masked, ids, available, chatModel, Rejected(status, AdviceFor(status)))
  }

  /** Without a key in the environment the run stops before any request,
      whatever the network would answer; with one it always goes further. */
  lemma MissingKeyStopsEarly(env: Option<string>, send: Request -> Outcome)
    ensures Diagnose(env, send) == MissingKey <==> !Truthy(env)
  {
  }

  /** Each stage of a run with a key: the listing request, the listing
      verdict, and for a run that reaches the test completion the ids,
      availability verdicts and chat model it derived and the verdict on the
      test request it sent. A failed request or an exception ends the run
      with `ConnectionError`. */
  lemma {:induction false} RunStages(env: Option<string>, send: Request -> Outcome)
    requires Truthy(env)
    ensures var r := Diagnose(env, send);
      var listing := send(HttpGet(ModelsUrl, AuthHeaders(env.value)));
      && r != MissingKey
      && r.maskedKey == MaskKey(env.value)
      && (listing.Transport? ==> r.ConnectionError?)
      && (r.ListingFailed? <==> listing.Http? && listing.status != 200)
      && (r.ListingFailed? ==> r.status == listing.status)
      && (listing.Http? && listing.status == 200 && IdsFromBody(listing.body).Raises? ==> r.ConnectionError?)
    ensures var r := Diagnose(env, send);
      var listing := send(HttpGet(ModelsUrl, AuthHeaders(env.value)));
      r.ChatTried? ==>
        && listing.Http? && listing.status == 200
        && IdsFromBody(listing.body) == Listed(r.modelIds)
        && Availability(CommonModels, r.modelIds) == Some(r.available)
        && ChooseChatModel(r.modelIds) == Some(r.chatModel)
        && var test := send(HttpPost(ChatUrl, AuthHeaders(env.value), TestPayload(r.chatModel)));
          && test.Http?
          && (r.chat.Replied? ==> test.status == 200 && DefaultedContent(test.body) == Some(JString(r.chat.content)))
          && (r.chat.Rejected? ==> test.status == r.chat.status != 200 && r.chat.advice == AdviceFor(test.status))
  {
    var r := Diagnose(env, send);
    var headers := AuthHeaders(env.value);
    var listing := send(HttpGet(ModelsUrl, headers));
    if listing.Http? && listing.status == 200 && IdsFromBody(listing.body).Listed? {
      var ids := IdsFromBody(listing.body).ids;
      assert r == CheckModels(MaskKey(env.value), headers, ids, send);
    }
  }

  /** A run that reaches the test completion reports, for each common model,
      whether some listed id answers `name in m` with true, which on string
      ids is whether some id contains the name; its chat model is the
      fallback or a listed id naming a GPT model; advice accompanies only a
      404 or a 401. */
  lemma {:induction false} ChatTriedIsConsistent(env: Option<string>, send: Request -> Outcome)
    requires Diagnose(env, send).ChatTried?
    ensures var r := Diagnose(env, send);
      && |r.available| == |CommonModels|
      && (forall k :: 0 <= k < |CommonModels| ==>
            (r.available[k] <==> exists i :: 0 <= i < |r.modelIds| && PyIn(CommonModels[k], r.modelIds[i]) == Some(true)))
      && (r.chatModel == FallbackChatModel || JString(r.chatModel) in r.modelIds)
    ensures var r := Diagnose(env, send);
      (forall i :: 0 <= i < |r.modelIds| ==> r.modelIds[i].JString?) ==>
        forall k :: 0 <= k < |CommonModels| ==>
          (r.available[k] <==> exists i :: 0 <= i < |r.modelIds| && IsSubstring(CommonModels[k], r.modelIds[i].s))
    ensures var r := Diagnose(env, send);
      r.chat.Rejected? ==> r.chat.status != 200 && (r.chat.advice != NoAdvice <==> r.chat.status in {401, 404})
  {
    RunStages(env, send);
    var r := Diagnose(env, send);
    forall k | 0 <= k < |CommonModels|
      ensures r.available[k] <==> exists i :: 0 <= i < |r.modelIds| && PyIn(CommonModels[k], r.modelIds[i]) == Some(true)
    {
      assert Some(r.available[k]) == AnyIn(CommonModels[k], r.modelIds);
    }
  }

  /** A run can reach the test completion with an id that is not a string:
      `in` on a list does not raise, and `gpt-4` is picked before `.lower()`
      reaches the list. */
  lemma NonStringIdReachesChat()
    ensures var ids := [JString("gpt-4"), JArray([])];
      && Availability(CommonModels, ids).Some?
      && ChooseChatModel(ids) == Some("gpt-4")
  {
    var ids := [JString("gpt-4"), JArray([])];
    assert Lower("gpt-4") == "gpt-4";
    assert Contains("gpt-4", "gpt");
    forall k | 0 <= k < |CommonModels| ensures AnyIn(CommonModels[k], ids).Some? {
      assert PyIn(CommonModels[k], ids[0]).Some? && PyIn(CommonModels[k], ids[1]).Some?;
    }
  }

  /** A pattern whose first character does not occur in `s` is not in `s`. */
  lemma FirstCharAbsent(s: string, p: string)
    requires p != [] && p[0] !in s
    ensures !Contains(s, p)
  {
  }

  const StubIds := [JString("whisper-1"), JString("GPT-4o")]
  const StubListing := JArray([JObject([("id", JString("whisper-1"))]), JObject([("id", JString("GPT-4o"))])])

  lemma StubListingIds()
    ensures IdsFromBody(JObject([("data", StubListing)])) == Listed(StubIds)
  {
    assert Keys([("data", StubListing)]) == ["data"];
    assert Keys([("id", JString("whisper-1"))]) == ["id"];
    assert Keys([("id", JString("GPT-4o"))]) == ["id"];
    assert StubListing.items[1..][1..] == [];
  }

  lemma StubNotIn(name: string)
    requires name in CommonModels
    ensures AnyIn(name, StubIds) == Some(false)
  {
    FirstCharAbsent("whisper-1", name);
    FirstCharAbsent("GPT-4o", name);
    assert PyIn(name, StubIds[0]) == Some(false);
    assert PyIn(name, StubIds[1]) == Some(false);
    assert StubIds[1..][1..] == [];
  }

  lemma StubAvailability()
    ensures Availability(CommonModels, StubIds) == Some([false, false, false])
  {
    var names := CommonModels;
    forall k | 0 <= k < |names| ensures AnyIn(names[k], StubIds) == Some(false) {
      StubNotIn(names[k]);
    }
    var r := Availability(names, StubIds);
    assert r.Some? && |r.value| == 3;
    assert Some(r.value[0]) == Some(false) && Some(r.value[1]) == Some(false) && Some(r.value[2]) == Some(false);
    assert r.value == [false, false, false];
  }

  lemma StubChatModel()
    ensures ChooseChatModel(StubIds) == Some("GPT-4o")
  {
    assert Lower("GPT-4o") == "gpt-4o";
    assert Lower("whisper-1") == "whisper-1";
    FirstCharAbsent("whisper-1", "gpt");
  }

  lemma StubMask()
    ensures MaskKey("sk-0123456789abcdef") == "sk-01...cdef"
  {
  }

  /** The network of the stubbed run: the listing answers 200 with
      `StubListing` under `data`, the test completion answers 404. */
  function StubNetwork(req: Request): Outcome
  {
    if req.HttpGet? then Http(200, JObject([("data", StubListing)]), "")
    else Http(404, JObject([]), "404 Client Error")
  }

  /** A stubbed run: the listing holds `whisper-1` and `GPT-4o`, and the test
      completion answers 404. No common model is reported available (the
      availability test is case-sensitive), `GPT-4o` is picked for the test
      (the chat-model choice lowercases), and the 404 advice is given. */
  lemma StubbedRunReport()
    ensures Diagnose(Some("sk-0123456789abcdef"), StubNetwork)
      == ChatTried("sk-01...cdef", StubIds, [false, false, false], "GPT-4o", Rejected(404, CheckModelAndAccess))
  {
    var key := "sk-0123456789abcdef";
    var masked := "sk-01...cdef";
    var headers := AuthHeaders(key);
    StubListingIds();
    StubAvailability();
    StubChatModel();
    StubMask();
    assert Truthy(Some(key));
    assert StubNetwork(HttpGet(ModelsUrl, headers)) == Http(200, JObject([("data", StubListing)]), "");
    assert Diagnose(Some(key), StubNetwork) == CheckModels(masked, headers, StubIds, StubNetwork);
    assert StubNetwork(HttpPost(ChatUrl, headers, TestPayload("GPT-4o"))) == Http(404, JObject([]), "404 Client Error");
    assert CheckModels(masked, headers, StubIds, StubNetwork)
      == TestChat(masked, StubIds, [false, false, false], "GPT-4o", Http(404, JObject([]), "404 Client Error"));
  }
}

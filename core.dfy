/** The request construction of the `uopenai` chat-completion client
    (src/uopenai/core.py): the response records, the `OpenAI` client with its
    header set, the payload that `complete` assembles, the status gate of
    `call`, and the one-message transcript of `easy_complete`.

    The HTTP POST itself is the `transport` parameter, a function from the
    request that would be sent to the response that came back; JSON parsing
    and pydantic validation of a 200 body are the `decode` parameter. */
module Core {
  import opened Wrappers
  import opened Dicts
  import Decimal

  /** `OAI_V1`, the prefix of every request URL. */
  const BaseUrl: string := "https://api.openai.com/v1/"
  const ChatEndpoint: string := "chat/completions"
  const DefaultModel: string := "gpt-3.5-turbo"

  /** A Python float (penalties, temperature): carried, never computed on. */
  type Float(==)
  /** The `datetime` that validation makes of `created`. */
  type DateTime(==)

  /** A JSON-serialisable Python value, as handed to the HTTP layer. */
  datatype Value =
    | Null
    | Bool(b: bool)
    | Int(i: int)
    | Num(f: Float)
    | Str(s: string)
    | Arr(items: seq<Value>)
    | Obj(fields: Dict<Value>)

  datatype Message = Message(role: string, content: string)

  datatype Choice = Choice(index: int, message: Message, logprobs: Option<Value>, finishReason: Option<string>)

  datatype Usage = Usage(promptTokens: int, completionTokens: int, totalTokens: int)

  datatype Answer = Answer(
    id: string,
    object: string,
    choices: seq<Choice>,
    created: DateTime,
    model: string,
    systemFingerprint: string,
    usage: Usage)

  /** `OpenAIError` is what `call` raises on a non-200 status; `DecodeError`
      stands for whatever `response.json()` or `model_validate` raise. */
  datatype Error = OpenAIError(message: string) | DecodeError(reason: string)

  /** What the transport is asked to send: URL, headers and JSON body. */
  datatype Post = Post(url: string, headers: Dict<string>, json: Dict<Value>)

  /** What came back: the status code and the body text. */
  datatype Response = Response(status: int, text: string)

  /** The six named optional arguments of `complete`; `None` is Python's `None`. */
  datatype Options = Options(
    model: Option<string>,
    maxTokens: Option<int>,
    presencePenalty: Option<Float>,
    frequencyPenalty: Option<Float>,
    responseFormat: Option<string>,
    temperature: Option<Float>)

  /** The arguments `complete` sees when the caller names none of them. */
  function DefaultOptions(): Options
  {
    Options(Some(DefaultModel), None, None, None, None, None)
  }

  /** The option names `complete` walks. */
  datatype OptionName = Model | MaxTokens | PresencePenalty | FrequencyPenalty | ResponseFormat | Temperature

  /** The request key of an option: the Python parameter name. */
  function Key(n: OptionName): string
  {
    match n
    case Model => "model"
    case MaxTokens => "max_tokens"
    case PresencePenalty => "presence_penalty"
    case FrequencyPenalty => "frequency_penalty"
    case ResponseFormat => "response_format"
    case Temperature => "temperature"
  }

  /** The order in which `complete` walks the options. */
  const OptionOrder: seq<OptionName> :=
    [Model, MaxTokens, PresencePenalty, FrequencyPenalty, ResponseFormat, Temperature]

  const MessagesKey: string := "messages"

  /** Names Python binds to named parameters of `complete` (`self`,
      `messages` and the six options), so they never reach its `**payload`. */
  predicate IsParameterName(k: string)
  {
    k == "self" || k == MessagesKey || Rank(k) < |OptionOrder|
  }

  /** Keyword arguments that land in `**payload`. */
  predicate KwargsOnly(extra: Dict<Value>)
  {
    forall i :: 0 <= i < |extra| ==> !IsParameterName(extra[i].0)
  }

  function StrParam(x: Option<string>): Option<Value>
  {
    if x.Some? then Some(Str(x.value)) else None
  }

  function IntParam(x: Option<int>): Option<Value>
  {
    if x.Some? then Some(Int(x.value)) else None
  }

  function NumParam(x: Option<Float>): Option<Value>
  {
    if x.Some? then Some(Num(x.value)) else None
  }

  /** `params[opt]` among `complete`'s local variables, None for `None`. */
  function Param(o: Options, n: OptionName): Option<Value>
  {
    match n
    case Model => StrParam(o.model)
    case MaxTokens => IntParam(o.maxTokens)
    case PresencePenalty => NumParam(o.presencePenalty)
    case FrequencyPenalty => NumParam(o.frequencyPenalty)
    case ResponseFormat => StrParam(o.responseFormat)
    case Temperature => NumParam(o.temperature)
  }

  function Entry(n: OptionName, v: Option<Value>): Dict<Value>
  {
    if v.Some? then [(Key(n), v.value)] else []
  }

  /** The entries for those of `names` whose argument is not `None`, in the order of `names`. */
  function Supplied(o: Options, names: seq<OptionName>): Dict<Value>
  {
    if names == [] then []
    else
      var last := names[|names| - 1];
      Supplied(o, names[..|names| - 1]) + Entry(last, Param(o, last))
  }

  /** `msg.model_dump()`. */
  function Dump(m: Message): Value
  {
    Obj([("role", Str(m.role)), ("content", Str(m.content))])
  }

  /** The dumped messages, in transcript order. */
  function DumpAll(messages: seq<Message>): seq<Value>
  {
    if messages == [] then []
    else DumpAll(messages[..|messages| - 1]) + [Dump(messages[|messages| - 1])]
  }

  /** The body `complete` posts for `messages` and the named arguments. */
  function RequestPayload(messages: seq<Message>, o: Options): Dict<Value>
  {
    Supplied(o, OptionOrder) + [(MessagesKey, Arr(DumpAll(messages)))]
  }

  /** Python truthiness of an `Optional[str]`: neither `None` nor empty. */
  predicate Truthy(s: Option<string>)
  {
    s.Some? && s.value != ""
  }

  /** The header set a client holds. */
  function AuthHeaders(apiKey: string, organization: Option<string>): (h: Dict<string>)
    ensures Lookup(h, "Authorization") == Some("Bearer " + apiKey)
    ensures Lookup(h, "Content-Type") == Some("application/json")
    ensures Lookup(h, "OpenAI-Organization") == if Truthy(organization) then Some(organization.value) else None
    ensures |h| == if Truthy(organization) then 3 else 2
  {
    [("Authorization", "Bearer " + apiKey), ("Content-Type", "application/json")]
    + if Truthy(organization) then [("OpenAI-Organization", organization.value)] else []
  }

  /** The text of the `OpenAIError` raised for a non-200 response. */
  function StatusMessage(status: int, text: string): string
  {
    "Error: " + Decimal.IntToString(status) + " - " + text
  }

  class OpenAI {
    const apiKey: string
    var authHeader: Dict<string>

    /** Stores the key and builds the header set, adding the organization
        header only for a truthy organization. */
    constructor (apiKey: string, organization: Option<string>)
      ensures this.apiKey == apiKey
      ensures authHeader == AuthHeaders(apiKey, organization)
    {
      this.apiKey := apiKey;
      authHeader := [("Authorization", "Bearer " + apiKey), ("Content-Type", "application/json")];
      new;
      if Truthy(organization) {
        authHeader := Put(authHeader, "OpenAI-Organization", organization.value);
      }
    }

    /** `call`: post `payload` to the endpoint with the stored headers and
        gate the response on its status. */
    function Call<T>(endpoint: string, payload: Dict<Value>, transport: Post -> Response,
                     decode: string -> Result<T, string>): (r: Result<T, Error>)
      reads this
      ensures var response := transport(Post(BaseUrl + endpoint, authHeader, payload));
        && (r.Success? <==> response.status == 200 && decode(response.text).Success?)
        && (r.Success? ==> r.value == decode(response.text).value)
        && (response.status != 200 ==> r == Failure(OpenAIError(StatusMessage(response.status, response.text))))
        && (response.status == 200 && decode(response.text).Failure? ==>
              r == Failure(DecodeError(decode(response.text).error)))
    {
      var response := transport(Post(BaseUrl + endpoint, authHeader, payload));
      if response.status != 200 then
        Failure(OpenAIError(StatusMessage(response.status, response.text)))
      else
        decode(response.text).MapFailure(e => DecodeError(e))
    }

    /** `complete`: assemble the request body and call the chat endpoint. */
    method Complete(messages: seq<Message>, options: Options, extra: Dict<Value>,
                    transport: Post -> Response, decode: string -> Result<Answer, string>)
      returns (r: Result<Answer, Error>)
      requires KwargsOnly(extra)
      ensures r == Call(ChatEndpoint, RequestPayload(messages, options), transport, decode)
    {
      var req: Dict<Value> := [];
      for i := 0 to |OptionOrder|
        invariant req == Supplied(options, OptionOrder[..i])
      {
        var opt := OptionOrder[i];
        var value := Param(options, opt);
        assert OptionOrder[..i + 1][..i] == OptionOrder[..i];
        if value.Some? {
          NotYetSupplied(options, i);
          req := Put(req, Key(opt), value.value);
        }
      }
      assert OptionOrder[..|OptionOrder|] == OptionOrder;

      var reqMessages: seq<Value> := [];
      for i := 0 to |messages|
        invariant reqMessages == DumpAll(messages[..i])
      {
        assert messages[..i + 1][..i] == messages[..i];
        reqMessages := reqMessages + [Dump(messages[i])];
      }
      assert messages[..|messages|] == messages;

      MessagesNotAnOption(options);
      req := Put(req, MessagesKey, Arr(reqMessages));
      r := Call(ChatEndpoint, req, transport, decode);
    }

    /** `easy_complete`: a one-message transcript, the prompt as a system
        message, sent with the remaining arguments passed through. */
    method EasyComplete(prompt: string, options: Options, extra: Dict<Value>,
                        transport: Post -> Response, decode: string -> Result<Answer, string>)
      returns (r: Result<Answer, Error>)
      requires KwargsOnly(extra)
      requires forall i :: 0 <= i < |extra| ==> extra[i].0 != "prompt"
      ensures r == Call(ChatEndpoint, RequestPayload([Message("system", prompt)], options), transport, decode)
    {
      var messages := [Message("system", prompt)];
      r := Complete(messages, options, extra, transport, decode);
    }
  }

  // Properties of the request body

  /** Option keys are pairwise different and different from `messages`. */
  lemma KeysDistinct()
    ensures forall m, n :: Key(m) == Key(n) ==> m == n
    ensures forall n :: Key(n) != MessagesKey
  {
  }

  /** Lookup in the supplied options: a walked option maps to its argument
      exactly when that is not `None`; an option not walked is absent. */
  lemma {:induction false} SuppliedLookup(o: Options, names: seq<OptionName>, n: OptionName)
    requires forall i, j :: 0 <= i < j < |names| ==> names[i] != names[j]
    ensures Lookup(Supplied(o, names), Key(n)) == if n in names then Param(o, n) else None
  {
    if names != [] {
      var init, last := names[..|names| - 1], names[|names| - 1];
      assert names == init + [last];
      SuppliedLookup(o, init, n);
      LookupAppend(Supplied(o, init), Entry(last, Param(o, last)), Key(n));
      KeysDistinct();
      if n == last {
        assert n !in init;
      }
    }
  }

  /** `messages` is never among the supplied options. */
  lemma MessagesNotAnOption(o: Options)
    ensures MessagesKey !in Keys(Supplied(o, OptionOrder))
  {
    SuppliedRanked(o, |OptionOrder|);
    assert OptionOrder[..|OptionOrder|] == OptionOrder;
  }

  /** When `complete` reaches option `i`, its key is not in the request yet. */
  lemma NotYetSupplied(o: Options, i: nat)
    requires i < |OptionOrder|
    ensures Key(OptionOrder[i]) !in Keys(Supplied(o, OptionOrder[..i]))
  {
    var walked := OptionOrder[..i];
    forall a, b | 0 <= a < b < |walked| ensures walked[a] != walked[b] {
      assert Position(walked[a]) == a && Position(walked[b]) == b;
    }
    assert Position(OptionOrder[i]) == i;
    assert forall a :: 0 <= a < |walked| ==> Position(walked[a]) == a;
    SuppliedLookup(o, walked, OptionOrder[i]);
  }

  /** Each option key is in the request iff its argument is not `None`, and
      then carries that argument. */
  lemma OptionsMirrorArguments(messages: seq<Message>, o: Options)
    ensures var req := RequestPayload(messages, o);
      && Lookup(req, "model") == (if o.model.Some? then Some(Str(o.model.value)) else None)
      && Lookup(req, "max_tokens") == (if o.maxTokens.Some? then Some(Int(o.maxTokens.value)) else None)
      && Lookup(req, "presence_penalty") == (if o.presencePenalty.Some? then Some(Num(o.presencePenalty.value)) else None)
      && Lookup(req, "frequency_penalty") == (if o.frequencyPenalty.Some? then Some(Num(o.frequencyPenalty.value)) else None)
      && Lookup(req, "response_format") == (if o.responseFormat.Some? then Some(Str(o.responseFormat.value)) else None)
      && Lookup(req, "temperature") == (if o.temperature.Some? then Some(Num(o.temperature.value)) else None)
  {
    forall n: OptionName
      ensures Lookup(RequestPayload(messages, o), Key(n)) == Param(o, n)
    {
      SuppliedLookup(o, OptionOrder, n);
      LookupAppend(Supplied(o, OptionOrder), [(MessagesKey, Arr(DumpAll(messages)))], Key(n));
      KeysDistinct();
    }
    assert Key(Model) == "model" && Key(MaxTokens) == "max_tokens";
    assert Key(PresencePenalty) == "presence_penalty" && Key(FrequencyPenalty) == "frequency_penalty";
    assert Key(ResponseFormat) == "response_format" && Key(Temperature) == "temperature";
  }

  /** Where `complete` walks an option. */
  function Position(n: OptionName): (p: nat)
    ensures p < |OptionOrder| && OptionOrder[p] == n
  {
    match n
    case Model => 0
    case MaxTokens => 1
    case PresencePenalty => 2
    case FrequencyPenalty => 3
    case ResponseFormat => 4
    case Temperature => 5
  }

  /** Position of a request key in the fixed order; `messages` comes after every option. */
  function Rank(key: string): nat
  {
    if key == "model" then 0
    else if key == "max_tokens" then 1
    else if key == "presence_penalty" then 2
    else if key == "frequency_penalty" then 3
    else if key == "response_format" then 4
    else if key == "temperature" then 5
    else 6
  }

  lemma PositionInOrder(k: nat)
    requires k < |OptionOrder|
    ensures Position(OptionOrder[k]) == k
  {
  }

  lemma RankOfKey(n: OptionName)
    ensures Rank(Key(n)) == Position(n)
  {
  }

  /** Every key of `d` ranks before position `m`. */
  predicate RanksBelow(d: Dict<Value>, m: nat)
  {
    forall i :: 0 <= i < |d| ==> Rank(d[i].0) < m
  }

  /** The keys of `d` appear in strictly increasing rank. */
  predicate InRankOrder(d: Dict<Value>)
  {
    forall i, j :: 0 <= i < j < |d| ==> Rank(d[i].0) < Rank(d[j].0)
  }

  lemma {:induction false} SuppliedRanked(o: Options, m: nat)
    requires m <= |OptionOrder|
    ensures RanksBelow(Supplied(o, OptionOrder[..m]), m)
    ensures InRankOrder(Supplied(o, OptionOrder[..m]))
  {
    if m > 0 {
      var last := OptionOrder[m - 1];
      assert OptionOrder[..m][..m - 1] == OptionOrder[..m - 1];
      var init := Supplied(o, OptionOrder[..m - 1]);
      var d := init + Entry(last, Param(o, last));
      assert Supplied(o, OptionOrder[..m]) == d;
      SuppliedRanked(o, m - 1);
      RankOfKey(last);
      PositionInOrder(m - 1);
      assert forall i :: |init| <= i < |d| ==> d[i].0 == Key(last);
    } else {
      assert OptionOrder[..m] == [];
    }
  }

  /** The keys of the request appear in the order model, max_tokens,
      presence_penalty, frequency_penalty, response_format, temperature,
      with `messages` always last. */
  lemma RequestKeysOrdered(messages: seq<Message>, o: Options)
    ensures var req := RequestPayload(messages, o);
      && |req| >= 1 && req[|req| - 1] == (MessagesKey, Arr(DumpAll(messages)))
      && (forall i, j :: 0 <= i < j < |req| ==> Rank(req[i].0) < Rank(req[j].0))
  {
    SuppliedRanked(o, |OptionOrder|);
    assert OptionOrder[..|OptionOrder|] == OptionOrder;
  }

  /** Only the six option keys and `messages` are ever sent, so nothing
      passed through `**payload` reaches the request. */
  lemma ExtraKwargsDropped(messages: seq<Message>, o: Options, extra: Dict<Value>)
    requires KwargsOnly(extra)
    ensures var req := RequestPayload(messages, o);
      && (forall i :: 0 <= i < |req| ==> req[i].0 == MessagesKey || Rank(req[i].0) < |OptionOrder|)
      && (forall i, j :: 0 <= i < |req| && 0 <= j < |extra| ==> req[i].0 != extra[j].0)
  {
    SuppliedRanked(o, |OptionOrder|);
    assert OptionOrder[..|OptionOrder|] == OptionOrder;
  }

  /** With every argument left at its default, the request is exactly the
      default model and the messages. */
  lemma DefaultRequest(messages: seq<Message>)
    ensures RequestPayload(messages, DefaultOptions())
      == [("model", Str(DefaultModel)), (MessagesKey, Arr(DumpAll(messages)))]
  {
    OnlyModelSupplied(DefaultOptions());
  }

  /** When `model` is the only argument given, it is the only option sent. */
  lemma OnlyModelSupplied(o: Options)
    requires o.model.Some?
    requires o.maxTokens.None? && o.presencePenalty.None? && o.frequencyPenalty.None?
    requires o.responseFormat.None? && o.temperature.None?
    ensures Supplied(o, OptionOrder) == [("model", Str(o.model.value))]
  {
    var model := [("model", Str(o.model.value))];
    assert OptionOrder[..1][..0] == [];
    assert Supplied(o, OptionOrder[..1]) == model;
    assert OptionOrder[..2][..1] == OptionOrder[..1];
    assert Supplied(o, OptionOrder[..2]) == model;
    assert OptionOrder[..3][..2] == OptionOrder[..2];
    assert Supplied(o, OptionOrder[..3]) == model;
    assert OptionOrder[..4][..3] == OptionOrder[..3];
    assert Supplied(o, OptionOrder[..4]) == model;
    assert OptionOrder[..5][..4] == OptionOrder[..4];
    assert Supplied(o, OptionOrder[..5]) == model;
    assert OptionOrder[..6][..5] == OptionOrder[..5];
    assert OptionOrder[..6] == OptionOrder;
  }

  /** The dumped transcript has one `{role, content}` object per message, in order. */
  lemma {:induction false} DumpAllInOrder(messages: seq<Message>)
    ensures |DumpAll(messages)| == |messages|
    ensures forall i :: 0 <= i < |messages| ==>
      DumpAll(messages)[i] == Obj([("role", Str(messages[i].role)), ("content", Str(messages[i].content))])
  {
    if messages != [] {
      DumpAllInOrder(messages[..|messages| - 1]);
    }
  }

  /** `messages` in the request keeps the transcript's length and order. */
  lemma MessagesInOrder(messages: seq<Message>, o: Options)
    ensures Lookup(RequestPayload(messages, o), MessagesKey) == Some(Arr(DumpAll(messages)))
    ensures |DumpAll(messages)| == |messages|
    ensures forall i :: 0 <= i < |messages| ==>
      DumpAll(messages)[i] == Obj([("role", Str(messages[i].role)), ("content", Str(messages[i].content))])
  {
    DumpAllInOrder(messages);
    MessagesNotAnOption(o);
    LookupAppend(Supplied(o, OptionOrder), [(MessagesKey, Arr(DumpAll(messages)))], MessagesKey);
  }

  /** An empty transcript is not rejected locally: it is sent as `messages: []`. */
  lemma EmptyTranscriptIsSent(o: Options)
    ensures Lookup(RequestPayload([], o), MessagesKey) == Some(Arr([]))
  {
    MessagesInOrder([], o);
  }

  /** The transcript of `easy_complete` is the single system message holding the prompt. */
  lemma SystemPromptRequest(prompt: string, o: Options)
    ensures Lookup(RequestPayload([Message("system", prompt)], o), MessagesKey)
      == Some(Arr([Obj([("role", Str("system")), ("content", Str(prompt))])]))
  {
    var ms := [Message("system", prompt)];
    MessagesInOrder(ms, o);
    assert DumpAll(ms) == [Dump(ms[0])];
  }

  /** The two-message transcript with an explicit model is sent with exactly
      `model` and `messages`. */
  lemma ChatbotRequest()
    ensures RequestPayload(
        [Message("system", "You are a chatbot."), Message("user", "What is your name?")],
        DefaultOptions().(model := Some("gpt-4-turbo-preview")))
      == [("model", Str("gpt-4-turbo-preview")),
          (MessagesKey, Arr([
            Obj([("role", Str("system")), ("content", Str("You are a chatbot."))]),
            Obj([("role", Str("user")), ("content", Str("What is your name?"))])]))]
  {
    var ms := [Message("system", "You are a chatbot."), Message("user", "What is your name?")];
    OnlyModelSupplied(DefaultOptions().(model := Some("gpt-4-turbo-preview")));
    DumpAllInOrder(ms);
    assert DumpAll(ms) == [Dump(ms[0]), Dump(ms[1])];
  }

  // Properties of the status gate

  /** Index of the first space in `s`, or `|s|` when there is none. */
  function FirstSpace(s: string): (k: nat)
    ensures k <= |s|
  {
    if s == [] || s[0] == ' ' then 0 else 1 + FirstSpace(s[1..])
  }

  /** A space-free prefix followed by a space ends at the first space. */
  lemma {:induction false} FirstSpaceAfter(x: string, y: string)
    requires ' ' !in x && |y| > 0 && y[0] == ' '
    ensures FirstSpace(x + y) == |x|
  {
    if x != [] {
      assert (x + y)[1..] == x[1..] + y;
      FirstSpaceAfter(x[1..], y);
    } else {
      assert x + y == y;
    }
  }

  /** Reads the status and the body back out of an `OpenAIError` message:
      the status runs up to the first space after `Error: `. */
  function ParseStatusMessage(m: string): Option<(int, string)>
  {
    if |m| < 7 || m[..7] != "Error: " then None
    else
      var rest := m[7..];
      var k := FirstSpace(rest);
      if k + 3 <= |rest| && rest[k..k + 3] == " - " then Some((Decimal.ParseInt(rest[..k]), rest[k + 3..]))
      else None
  }

  /** The error message keeps the status and the raw body text: both can be
      read back out of it unchanged. */
  lemma StatusMessageRoundTrip(status: int, text: string)
    ensures ParseStatusMessage(StatusMessage(status, text)) == Some((status, text))
  {
    var digits := Decimal.IntToString(status);
    var m := StatusMessage(status, text);
    assert m[..7] == "Error: ";
    var rest := m[7..];
    assert rest == digits + (" - " + text);
    FirstSpaceAfter(digits, " - " + text);
    assert rest[..|digits|] == digits;
    assert rest[|digits|..|digits| + 3] == " - ";
    assert rest[|digits| + 3..] == text;
    Decimal.IntRoundTrip(status);
  }

  /** Hence different statuses or bodies never produce the same message. */
  lemma StatusMessageInjective(s1: int, t1: string, s2: int, t2: string)
    requires StatusMessage(s1, t1) == StatusMessage(s2, t2)
    ensures s1 == s2 && t1 == t2
  {
    StatusMessageRoundTrip(s1, t1);
    StatusMessageRoundTrip(s2, t2);
  }

  /** A non-200 response fails the same way whatever the decoder: the body is never decoded. */
  lemma DecoderOnlyOnSuccess<T>(client: OpenAI, endpoint: string, payload: Dict<Value>,
                                transport: Post -> Response,
                                decode1: string -> Result<T, string>, decode2: string -> Result<T, string>)
    requires transport(Post(BaseUrl + endpoint, client.authHeader, payload)).status != 200
    ensures client.Call(endpoint, payload, transport, decode1) == client.Call(endpoint, payload, transport, decode2)
  {
  }
}

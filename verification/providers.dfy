/**
 * The provider client `commizard.llm_providers`, as its unit tests pin it:
 * the transport result, the buffered request, the status-code texts, the
 * model listing, single-shot generation and the model register.
 *
 * The network is an input: a request's outcome is a `NetOutcome` (a reply
 * with a status and a body, or one of the five transport exception kinds of
 * the `requests` library).
 */
module Providers {
  import opened Wrappers
  import opened Text
  import opened Json

  // ---------------------------------------------------------------- transport result

  /** The exception families of `requests` that a request can raise, in the order they are caught. */
  datatype TransportKind = ConnectionFailure | HttpFailure | TooManyRedirects | TimedOut | Ambiguous

  /** The negative sentinel return code of each transport failure. */
  function SentinelCode(kind: TransportKind): (code: int)
    ensures -5 <= code <= -1
  {
    match kind
    case ConnectionFailure => -1
    case HttpFailure => -2
    case TooManyRedirects => -3
    case TimedOut => -4
    case Ambiguous => -5
  }

  /** How a call ended: it raised a transport exception, or the server answered with a status. */
  datatype Status = Transport(kind: TransportKind) | Answered(code: nat)

  /** What `HttpResponse.response` holds: decoded JSON, the raw text, or nothing. */
  datatype Payload = JsonBody(value: Json) | TextBody(text: string) | NoBody

  datatype HttpResponse = HttpResponse(response: Payload, status: Status) {

    /** `return_code`: the HTTP status, or the sentinel of the transport failure. */
    function ReturnCode(): (code: int)
      ensures status.Answered? ==> code == status.code
      ensures status.Transport? ==> code == SentinelCode(status.kind)
    {
      match status
      case Answered(c) => c
      case Transport(k) => SentinelCode(k)
    }

    /** `is_error()`: the call never reached the server. */
    predicate IsError()
      ensures IsError() <==> status.Transport?
    {
      ReturnCode() < 0
    }

    /** `err_message()`: empty for an answered call, the fixed text of the failure otherwise. */
    function ErrMessage(): (msg: string)
      ensures msg == "" <==> !IsError()
    {
      match status
      case Answered(_) => ""
      case Transport(k) => TransportMessage(k)
    }
  }

  function TransportMessage(kind: TransportKind): (msg: string)
    ensures msg != ""
  {
    match kind
    case ConnectionFailure => "can't connect to the server"
    case HttpFailure => "HTTP error occurred"
    case TooManyRedirects => "too many redirects"
    case TimedOut => "the request timed out"
    case Ambiguous => "There was an ambiguous error"
  }

  /** A response is an error exactly when its return code is negative, and then its code is one of -1..-5 and its message the fixed one. */
  lemma ErrorIffNegative(r: HttpResponse)
    ensures r.IsError() <==> r.status.Transport?
    ensures r.IsError() ==> -5 <= r.ReturnCode() <= -1 && r.ErrMessage() == TransportMessage(r.status.kind)
    ensures !r.IsError() ==> r.ReturnCode() >= 0 && r.ErrMessage() == ""
  {
  }

  /** The sentinel codes and their messages tell the five failures apart. */
  lemma {:induction false} SentinelsDistinct(a: TransportKind, b: TransportKind)
    ensures SentinelCode(a) == SentinelCode(b) <==> a == b
    ensures TransportMessage(a) == TransportMessage(b) <==> a == b
  {
    match a {
      case ConnectionFailure =>
      case HttpFailure =>
      case TooManyRedirects =>
      case TimedOut =>
      case Ambiguous =>
    }
  }

  // ---------------------------------------------------------------- buffered request

  /** The outcome of one network call: the server's reply, or the exception `requests` raised. */
  datatype NetOutcome =
    | Reply(code: nat, decoded: Option<Json>, text: string)
    | Raised(kind: TransportKind)

  /** Keyword arguments passed through to `requests.request`. */
  datatype KwArg = KwJson(value: Json) | KwText(text: string) | KwFlag(flag: bool) | KwSeconds(seconds: real) | KwTimeout(connect: real, read: real)

  /** A call to `requests.request(verb, url, **kwargs)`. */
  datatype Call = Call(verb: string, url: string, kwargs: map<string, KwArg>)

  /** A call made and the response it produced. */
  datatype Exchange = Exchange(call: Call, response: HttpResponse)

  /** The verbs `HttpRequest` accepts once upper-cased. */
  const ValidMethods: set<string> := {"GET", "HEAD", "POST", "PUT", "DELETE", "CONNECT", "OPTIONS", "TRACE", "PATCH"}

  /** The response stored for a network outcome: JSON when the body decodes, the raw text otherwise, nothing after an exception. */
  function ResponseOf(net: NetOutcome): (r: HttpResponse)
    ensures r.IsError() <==> net.Raised?
    ensures net.Raised? ==> r.response == NoBody && r.ReturnCode() == SentinelCode(net.kind)
    ensures net.Reply? ==> r.ReturnCode() == net.code
    ensures net.Reply? && net.decoded.Some? ==> r.response == JsonBody(net.decoded.value)
    ensures net.Reply? && net.decoded.None? ==> r.response == TextBody(net.text)
  {
    match net
    case Reply(code, decoded, text) =>
      HttpResponse(if decoded.Some? then JsonBody(decoded.value) else TextBody(text), Answered(code))
    case Raised(kind) => HttpResponse(NoBody, Transport(kind))
  }

  /**
   * `HttpRequest(verbName, url, **kwargs)` / `http_request`: upper-cases the verb,
   * refuses an unknown one before any call, otherwise makes the call and
   * records its response.
   */
  function HttpRequest(verbName: string, url: string, kwargs: map<string, KwArg>, net: NetOutcome): (r: Result<Exchange, string>)
    ensures r.Success? <==> Upper(verbName) in ValidMethods
    ensures r.Failure? ==> r.error == Upper(verbName) + " is not a valid method."
    ensures r.Success? ==> r.value.call == Call(Upper(verbName), url, kwargs)
    ensures r.Success? ==> r.value.response == ResponseOf(net)
  {
    var verb := Upper(verbName);
    if verb !in ValidMethods then Failure(verb + " is not a valid method.")
    else Success(Exchange(Call(verb, url, kwargs), ResponseOf(net)))
  }

  /** A refused verb is refused whatever the network would have done: no call is made. */
  lemma InvalidMethodMakesNoCall(verbName: string, url: string, kwargs: map<string, KwArg>, n1: NetOutcome, n2: NetOutcome)
    requires Upper(verbName) !in ValidMethods
    ensures HttpRequest(verbName, url, kwargs, n1) == HttpRequest(verbName, url, kwargs, n2)
    ensures HttpRequest(verbName, url, kwargs, n1).Failure?
  {
  }

  /** Any reply that reached the server, whatever its status (503 included), is not an error and has no error message. */
  lemma ReplyIsNeverError(verbName: string, url: string, kwargs: map<string, KwArg>, net: NetOutcome)
    requires Upper(verbName) in ValidMethods && net.Reply?
    ensures HttpRequest(verbName, url, kwargs, net).Success?
    ensures !HttpRequest(verbName, url, kwargs, net).value.response.IsError()
    ensures HttpRequest(verbName, url, kwargs, net).value.response.ErrMessage() == ""
    ensures HttpRequest(verbName, url, kwargs, net).value.response.ReturnCode() == net.code
  {
  }

  // ---------------------------------------------------------------- status texts

  const ServiceUnavailableDetail: string :=
    "Service Unavailable - Ollama service is not responding.\n"
    + "Please do let the dev team know if this keeps happening.\n"

  const InternalServerErrorDetail: string :=
    "Internal Server Error - Ollama encountered an unexpected error.\n"
    + "Suggestions:\n"
    + "  • The model may have run out of memory (RAM/VRAM)\n"
    + "  • Try restarting Ollama: ollama serve\n"
    + "  • Check Ollama logs for detailed error information\n"
    + "  • Consider using a smaller model if resources are limited"

  const ClientErrorDetail: string :=
    "Client Error - This appears to be a configuration or request issue.\n"
    + "Suggestions:\n"
    + "  • Verify your request parameters and model name\n"
    + "  • Check Ollama documentation: https://github.com/ollama/ollama/blob/main/docs/api.md\n"
    + "  • Review your commizard configuration"

  const ServerErrorDetail: string :=
    "Server Error - This appears to be an issue with the Ollama service.\n"
    + "Suggestions:\n"
    + "  • Try restarting Ollama: ollama serve\n"
    + "  • Check Ollama logs for more information\n"
    + "  • Wait a moment and try again"

  const UnexpectedDetail: string :=
    "Unexpected response.\n"
    + "Check the Ollama documentation or server logs for more details."

  /** The part of a status text after "Error <code>: ", chosen by band: 503 and 500 have their own, then 4xx, 5xx and the rest. */
  function StatusDetail(code: int): string {
    if code == 503 then ServiceUnavailableDetail
    else if code == 500 then InternalServerErrorDetail
    else if 400 <= code <= 499 then ClientErrorDetail
    else if 500 <= code <= 599 then ServerErrorDetail
    else UnexpectedDetail
  }

  /** `get_error_message(code)`: "Error <code>" followed by the text of the code's band. */
  function GetErrorMessage(code: int): (msg: string)
    ensures |msg| >= 6 && msg[..6] == "Error "
  {
    "Error " + DecimalString(code) + ": " + StatusDetail(code)
  }

  /** The text between "Error " and the first colon: where a status text names its code. */
  function CodeField(msg: string): string
    requires |msg| >= 6
  {
    msg[6..][..CharIndex(msg[6..], ':')]
  }

  /** Every status text starts with "Error <code>:" naming the code it was made for. */
  lemma ErrorMessageNamesCode(code: int)
    ensures |GetErrorMessage(code)| >= 6 && GetErrorMessage(code)[..6] == "Error "
    ensures CodeField(GetErrorMessage(code)) == DecimalString(code)
  {
    var d := DecimalString(code);
    var body := ": " + StatusDetail(code);
    var m := GetErrorMessage(code);
    assert m[6..] == d + body;
    CharIndexAfter(d, body, ':');
  }

  /** Different codes never share a status text. */
  lemma ErrorMessageInjective(a: int, b: int)
    requires GetErrorMessage(a) == GetErrorMessage(b)
    ensures a == b
  {
    ErrorMessageNamesCode(a);
    ErrorMessageNamesCode(b);
    DecimalInjective(a, b);
  }

  lemma ThreeDigits(n: nat)
    requires 100 <= n <= 999
    ensures |NatString(n)| == 3
  {
    assert NatString(n) == NatString(n / 10) + [DigitChar(n % 10)];
    assert NatString(n / 10) == NatString(n / 10 / 10) + [DigitChar(n / 10 % 10)];
  }

  /** 503 has its fixed service-unavailable text. */
  lemma Text503()
    ensures GetErrorMessage(503) == "Error 503: " + ServiceUnavailableDetail
  {
    assert NatString(503) == NatString(50) + [DigitChar(3)];
    assert NatString(50) == NatString(5) + [DigitChar(0)];
    assert DecimalString(503) == "503";
  }

  /** 500 has the detailed internal-server-error text. */
  lemma Text500()
    ensures GetErrorMessage(500) == "Error 500: " + InternalServerErrorDetail
  {
    assert NatString(500) == NatString(50) + [DigitChar(0)];
    assert NatString(50) == NatString(5) + [DigitChar(0)];
    assert DecimalString(500) == "500";
  }

  /** 499 falls in the client-error band. */
  lemma Text499()
    ensures GetErrorMessage(499) == "Error 499: " + ClientErrorDetail
  {
    assert NatString(499) == NatString(49) + [DigitChar(9)];
    assert NatString(49) == NatString(4) + [DigitChar(9)];
    assert DecimalString(499) == "499";
  }

  /** 599 falls in the server-error band. */
  lemma Text599()
    ensures GetErrorMessage(599) == "Error 599: " + ServerErrorDetail
  {
    assert NatString(599) == NatString(59) + [DigitChar(9)];
    assert NatString(59) == NatString(5) + [DigitChar(9)];
    assert DecimalString(599) == "599";
  }

  /** 999 is outside both bands: an unexpected response. */
  lemma Text999()
    ensures GetErrorMessage(999) == "Error 999: " + UnexpectedDetail
  {
    assert NatString(999) == NatString(99) + [DigitChar(9)];
    assert NatString(99) == NatString(9) + [DigitChar(9)];
    assert DecimalString(999) == "999";
  }

  /** The 500 text is the detailed server-error variant: longer than any other 4xx or 5xx text, 503's included. */
  lemma DetailedInternalServerError(code: int)
    requires 400 <= code <= 599 && code != 500
    ensures |GetErrorMessage(500)| > |GetErrorMessage(code)|
  {
    ThreeDigits(code);
    ThreeDigits(500);
  }

  // ---------------------------------------------------------------- model listing

  datatype ModelInfo = ModelInfo(name: string, parameterSize: string)

  /** What `list_locals` gives back: nothing (a failed call or an empty body), the models, or a body it cannot read (it raises). */
  datatype Listing = NotListed | Listed(models: seq<ModelInfo>) | ListingMalformed

  /** An entry of the listing that has a string `name` and a string `details.parameter_size`. */
  predicate IsModelEntry(item: Json) {
    && Member(item, "name").Some? && Member(item, "name").value.JStr?
    && Member(item, "details").Some?
    && Member(Member(item, "details").value, "parameter_size").Some?
    && Member(Member(item, "details").value, "parameter_size").value.JStr?
  }

  /** The `[name, details.parameter_size]` pair of each entry, in server order; nothing when an entry lacks one. */
  function Entries(items: seq<Json>): (r: Option<seq<ModelInfo>>)
    ensures r.Some? <==> forall i :: 0 <= i < |items| ==> IsModelEntry(items[i])
    ensures r.Some? ==> |r.value| == |items|
    ensures r.Some? ==> forall i :: 0 <= i < |items| ==>
      Member(items[i], "name") == Some(JStr(r.value[i].name))
    ensures r.Some? ==> forall i :: 0 <= i < |items| ==>
      (var d := Member(items[i], "details"); d.Some? && Member(d.value, "parameter_size") == Some(JStr(r.value[i].parameterSize)))
  {
    if items == [] then Some([])
    else
      var item := items[0];
      assert forall i :: 1 <= i < |items| ==> items[1..][i - 1] == items[i];
      if IsModelEntry(item) then
        var name := Member(item, "name").value.s;
        var size := Member(Member(item, "details").value, "parameter_size").value.s;
        match Entries(items[1..])
        case Some(rest) => Some([ModelInfo(name, size)] + rest)
        case None => None
      else None
  }

  /** `list_locals()` on the reply of the listing endpoint. */
  function ListLocals(reply: HttpResponse): (r: Listing)
    ensures reply.IsError() ==> r == NotListed
    ensures reply.response.NoBody? || reply.response == JsonBody(JNull) ==> r == NotListed
    ensures r.Listed? ==> reply.response.JsonBody?
    ensures !reply.IsError() && reply.response.TextBody? ==> r == ListingMalformed
    ensures !reply.IsError() && reply.response.JsonBody? && reply.response.value != JNull ==>
      match Member(reply.response.value, "models")
      case Some(JArr(items)) =>
        (Entries(items).Some? ==> r == Listed(Entries(items).value)) && (Entries(items).None? ==> r == ListingMalformed)
      case _ => r == ListingMalformed
  {
    if reply.IsError() then NotListed
    else match reply.response
      case NoBody => NotListed
      case TextBody(_) => ListingMalformed
      case JsonBody(body) =>
        if body == JNull then NotListed
        else match Member(body, "models")
          case Some(JArr(items)) =>
            (match Entries(items) case Some(ms) => Listed(ms) case None => ListingMalformed)
          case _ => ListingMalformed
  }

  /** Two well-formed entries, extra detail fields included, list as their two pairs in order; an empty `models` array lists nothing. */
  lemma ListLocalsExample(code: nat)
    ensures var m1 := JObj(map["name" := JStr("model1"), "details" := JObj(map["quant" := JStr("bacon"), "parameter_size" := JStr("5b")])]);
      var m2 := JObj(map["name" := JStr("model2"), "details" := JObj(map["happy" := JBool(false), "parameter_size" := JStr("135m")])]);
      ListLocals(HttpResponse(JsonBody(JObj(map["models" := JArr([m1, m2])])), Answered(code)))
        == Listed([ModelInfo("model1", "5b"), ModelInfo("model2", "135m")])
    ensures ListLocals(HttpResponse(JsonBody(JObj(map["models" := JArr([])])), Answered(code))) == Listed([])
  {
    var m1 := JObj(map["name" := JStr("model1"), "details" := JObj(map["quant" := JStr("bacon"), "parameter_size" := JStr("5b")])]);
    var m2 := JObj(map["name" := JStr("model2"), "details" := JObj(map["happy" := JBool(false), "parameter_size" := JStr("135m")])]);
    assert IsModelEntry(m1) && IsModelEntry(m2);
    assert [m1, m2][1..] == [m2];
  }

  /** The names of the listed models, in order. */
  function Names(models: seq<ModelInfo>): (names: seq<string>)
    ensures |names| == |models|
    ensures forall i :: 0 <= i < |models| ==> names[i] == models[i].name
  {
    seq(|models|, i requires 0 <= i < |models| => models[i].name)
  }

  // ---------------------------------------------------------------- generation

  const NoModelMessage: string :=
    "No model selected. You must use the start command to specify which model to use before generating.\n"
    + "Example: start model_name"

  const UnknownLoadProblemMessage: string :=
    "There was an unknown problem loading the model.\n"
    + " Please report this issue."

  /** `generate` returns a `(code, text)` pair, or raises when a 200 reply lacks `choices[0].message.content`. */
  datatype GenOutcome = Generated(code: int, text: string) | MalformedReply

  /** `choices[0].message.content` of a reply body, when it is a string. */
  function ReplyContent(body: Json): Option<string> {
    match Member(body, "choices")
    case Some(choices) =>
      (match First(choices)
       case Some(choice) =>
         (match Member(choice, "message")
          case Some(message) =>
            (match Member(message, "content")
             case Some(JStr(content)) => Some(content)
             case _ => None)
          case None => None)
       case None => None)
    case None => None
  }

  /**
   * `generate(prompt)`, given the selected model and the reply of the
   * chat-completion request (which is only made when a model is selected).
   */
  function Generate(selected: Option<string>, reply: HttpResponse): (r: GenOutcome)
    ensures selected.None? ==> r == Generated(1, NoModelMessage)
    ensures selected.Some? && reply.IsError() ==> r == Generated(1, reply.ErrMessage())
    ensures selected.Some? && !reply.IsError() && reply.ReturnCode() != 200 ==>
      r == Generated(reply.ReturnCode(), GetErrorMessage(reply.ReturnCode()))
    ensures r.Generated? && r.code == 0 ==> selected.Some? && !reply.IsError() && (reply.ReturnCode() == 200 || reply.ReturnCode() == 0)
  {
    if selected.None? then Generated(1, NoModelMessage)
    else if reply.IsError() then Generated(1, reply.ErrMessage())
    else if reply.ReturnCode() != 200 then Generated(reply.ReturnCode(), GetErrorMessage(reply.ReturnCode()))
    else match reply.response
      case JsonBody(body) =>
        (match ReplyContent(body) case Some(text) => Generated(0, text) case None => MalformedReply)
      case _ => MalformedReply
  }

  /** Without a selected model the outcome does not depend on any reply: no request is made. */
  lemma GenerateWithoutModelMakesNoRequest(r1: HttpResponse, r2: HttpResponse)
    ensures Generate(None, r1) == Generate(None, r2) == Generated(1, NoModelMessage)
  {
  }

  /** A 200 reply with content yields success with the content verbatim; no other reply yields code 0. */
  lemma GenerateSuccess(model: string, reply: HttpResponse)
    ensures Generate(Some(model), reply) == Generated(0, reply.response.value.fields["choices"].items[0].fields["message"].fields["content"].s)
      <== reply.status == Answered(200) && reply.response.JsonBody? && ReplyContent(reply.response.value).Some?
  {
    if reply.status == Answered(200) && reply.response.JsonBody? && ReplyContent(reply.response.value).Some? {
      var body := reply.response.value;
      assert Member(body, "choices").Some?;
    }
  }

  /** `request_load_model(model)`: a POST to `<base>api/generate` naming the model, with a 0.3 s connect and 600 s read timeout. */
  function RequestLoadModel(baseUrl: string, model: string, net: NetOutcome): (r: Exchange)
    ensures HttpRequest("POST", baseUrl + "api/generate", r.call.kwargs, net) == Success(r)
    ensures r.call.kwargs.Keys == {"json", "timeout"}
    ensures r.call.kwargs["json"] == KwJson(JObj(map["model" := JStr(model)]))
    ensures r.call.kwargs["timeout"] == KwTimeout(0.3, 600.0)
  {
    assert Upper("POST") == "POST";
    Exchange(
      Call("POST", baseUrl + "api/generate",
           map["json" := KwJson(JObj(map["model" := JStr(model)])), "timeout" := KwTimeout(0.3, 600.0)]),
      ResponseOf(net))
  }

  // ---------------------------------------------------------------- model register

  /** How `unload_model` ended. */
  datatype UnloadReport = NothingToUnload | Unloaded(model: string) | UnloadFailed(message: string)

  /** How `select_model` answers a load reply. */
  function LoadAnswer(model: string, load: HttpResponse): (r: (int, string))
    ensures r.0 == 0 <==> (load.status == Answered(200) && Member(PayloadJson(load.response), "done_reason") == Some(JStr("load")))
    ensures load.IsError() ==> r == (1, "failed to load " + model + ": " + load.ErrMessage())
    ensures !load.IsError() && load.ReturnCode() != 200 ==> r == (1, GetErrorMessage(load.ReturnCode()))
    ensures r.0 == 0 ==> r.1 == model + " loaded."
    ensures load.status == Answered(200) && Member(PayloadJson(load.response), "done_reason") != Some(JStr("load")) ==>
      r == (1, UnknownLoadProblemMessage)
  {
    if load.IsError() then (1, "failed to load " + model + ": " + load.ErrMessage())
    else if load.ReturnCode() != 200 then (1, GetErrorMessage(load.ReturnCode()))
    else if Member(PayloadJson(load.response), "done_reason") == Some(JStr("load")) then (0, model + " loaded.")
    else (1, UnknownLoadProblemMessage)
  }

  /** The JSON of a payload; text and nothing read as `null`. */
  function PayloadJson(p: Payload): Json {
    if p.JsonBody? then p.value else JNull
  }

  /** The module-level registers `selected_model`, `available_models` and `gen_message`, as a value. */
  datatype Snapshot = Snapshot(selectedModel: Option<string>, availableModels: Option<seq<string>>, genMessage: Option<string>)

  class Registers {
    var selectedModel: Option<string>
    var availableModels: Option<seq<string>>
    var genMessage: Option<string>

    function Values(): Snapshot
      reads this
    {
      Snapshot(selectedModel, availableModels, genMessage)
    }

    constructor ()
      ensures selectedModel == None && availableModels == None && genMessage == None
    {
      selectedModel, availableModels, genMessage := None, None, None;
    }

    /** `init_model_list()`: keeps the names of a listing; a failed listing leaves the register as it was. */
    method InitModelList(listing: Listing)
      modifies this
      ensures listing.Listed? ==> availableModels == Some(Names(listing.models))
      ensures !listing.Listed? ==> availableModels == old(availableModels)
      ensures selectedModel == old(selectedModel) && genMessage == old(genMessage)
    {
      if listing.Listed? {
        availableModels := Some(Names(listing.models));
      }
    }

    /** `select_model(model)` on the reply of `request_load_model(model)`: selects the model only when it loaded. */
    method SelectModel(model: string, load: HttpResponse) returns (code: int, message: string)
      modifies this
      ensures (code, message) == LoadAnswer(model, load)
      ensures code == 0 ==> selectedModel == Some(model)
      ensures code != 0 ==> selectedModel == old(selectedModel)
      ensures availableModels == old(availableModels) && genMessage == old(genMessage)
    {
      code, message := LoadAnswer(model, load).0, LoadAnswer(model, load).1;
      if code == 0 {
        selectedModel := Some(model);
      }
    }

    /** `unload_model()`, given the reply the unload request gets when one is made. */
    method UnloadModel(reply: HttpResponse) returns (report: UnloadReport)
      modifies this
      ensures old(selectedModel).None? ==> report == NothingToUnload && selectedModel == None
      ensures old(selectedModel).Some? && reply.IsError() ==>
        report == UnloadFailed(reply.ErrMessage()) && selectedModel == old(selectedModel)
      ensures old(selectedModel).Some? && !reply.IsError() ==>
        report == Unloaded(old(selectedModel).value) && selectedModel == None
      ensures availableModels == old(availableModels) && genMessage == old(genMessage)
    {
      match selectedModel
      case None => report := NothingToUnload;
      case Some(m) =>
        if reply.IsError() {
          report := UnloadFailed(reply.ErrMessage());
        } else {
          report := Unloaded(m);
          selectedModel := None;
        }
    }
  }
}

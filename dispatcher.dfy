/** The JSON-RPC dispatcher of the servo bridge: `MCPServer.handle_request`.
    The one HTTP POST it can make is replaced by its outcome, a parameter, so
    handling a request is a function of the tool registry, the decoded
    request and that outcome. */
module Dispatcher {
  import opened JsonValues

  const ProtocolVersion := "2024-11-05"
  const ServerName := "esp32-servo-controller"
  const ServerVersion := "0.1.2"
  const ToolsVersion := "0.1.0"
  const ServoToolName := "control_servo"
  /** JSON-RPC 2.0 "Method not found" (section 5.1 of the JSON-RPC 2.0 Specification). */
  const MethodNotFound := -32601
  const MethodNotFoundPrefix := "Metot bulunamadı: "

  /** What the POST to the device's `/servo` endpoint gives: a status code with
      the body text, or an exception raised while connecting, waiting (the
      5-second timeout) or reading the body. */
  datatype HttpOutcome =
    | Status(code: int, body: string)
    | TransportError(message: string)

  /** Handling either raises (the loop catches it) or returns a response or None. */
  datatype Handled = Raised | Returned(response: Option<Json>)

  /** The registry `__init__` builds: one tool, `control_servo`, taking an
      integer angle between 0 and 180. */
  function ServoTools(): (t: Json)
    ensures t.JArray? && |t.items| == 1
    ensures At(t.items[0], ["name"]) == Some(JString(ServoToolName))
  {
    JArray([
      JObject([
        ("name", JString(ServoToolName)),
        ("description", JString("ESP32'ye bağlı servoyu belirtilen açıya ayarlar.")),
        ("inputSchema", JObject([
          ("type", JString("object")),
          ("properties", JObject([
            ("angle", JObject([
              ("type", JString("integer")),
              ("minimum", JInt(0)),
              ("maximum", JInt(180)),
              ("description", JString("Servonun hareket edeceği açı (0-180 derece arası)."))
            ]))
          ])),
          ("required", JArray([JString("angle")]))
        ]))
      ])
    ])
  }

  function InitializeResult(tools: Json): Json
  {
    JObject([
      ("protocolVersion", JString(ProtocolVersion)),
      ("serverInfo", JObject([("name", JString(ServerName)), ("version", JString(ServerVersion))])),
      ("capabilities", JObject([
        ("tools", JObject([("version", JString(ToolsVersion)), ("tools", tools)]))
      ]))
    ])
  }

  function Reply(id: Json, result: Json): Json
  {
    JObject([("jsonrpc", JString("2.0")), ("id", id), ("result", result)])
  }

  function ErrorReply(id: Json, code: int, message: string): Json
  {
    JObject([
      ("jsonrpc", JString("2.0")),
      ("id", id),
      ("error", JObject([("code", JInt(code)), ("message", JString(message))]))
    ])
  }

  function TextItem(text: string): Json
  {
    JObject([("type", JString("text")), ("text", JString(text))])
  }

  const SuccessMark := '✅'
  const FailureMark := '❌'

  /** The text of the single content item a `control_servo` call returns,
      following the device's answer: success names the angle, a non-200
      status names the code and the body, an exception names its message.
      Success and failure are told apart by the leading mark. */
  function ServoText(angle: Json, http: HttpOutcome): (text: string)
    ensures text != []
    ensures text[0] == SuccessMark <==> http.Status? && http.code == 200
    ensures text[0] == FailureMark <==> !(http.Status? && http.code == 200)
    ensures http.Status? && http.code == 200 ==> IsInfix(PyStr(angle), text)
    ensures http.Status? && http.code != 200 ==>
              IsInfix(IntToString(http.code), text) && IsSuffix(http.body, text)
    ensures http.TransportError? ==> IsSuffix(http.message, text)
  {
    match http
    case Status(code, body) =>
      if code == 200 then
        var pre := [SuccessMark] + " Servo başarıyla ";
        var post := " derece açısına ayarlandı!";
        InfixOfConcat(pre, PyStr(angle), post);
        pre + PyStr(angle) + post
      else
        var pre := [FailureMark] + " Hata: ESP32'den ";
        var post := " kodu döndü. Yanıt: " + body;
        InfixOfConcat(pre, IntToString(code), post);
        assert (pre + IntToString(code) + post)[|pre + IntToString(code) + post| - |body|..] == body;
        pre + IntToString(code) + post
    case TransportError(message) =>
      var pre := [FailureMark] + " ESP32'ye bağlanılamadı veya bir hata oluştu: ";
      assert (pre + message)[|pre|..] == message;
      pre + message
  }

  /** `r` is a JSON-RPC 2.0 response for the request id `id`: exactly the
      members "jsonrpc": "2.0", "id" (echoed unchanged) and one of "result" or
      "error", in the order the server writes them. */
  predicate IsResponseTo(r: Json, id: Json)
  {
    && r.JObject?
    && |r.fields| == 3
    && r.fields[0] == ("jsonrpc", JString("2.0"))
    && r.fields[1] == ("id", id)
    && r.fields[2].0 in {"result", "error"}
  }

  predicate IsResultResponse(r: Json, id: Json)
  {
    IsResponseTo(r, id) && r.fields[2].0 == "result"
  }

  predicate IsErrorResponse(r: Json, id: Json)
  {
    IsResponseTo(r, id) && r.fields[2].0 == "error"
  }

  /** `MCPServer.handle_request`. Python's `dict.get` reads an absent id as
      None, exactly like an explicit null id. */
  function HandleRequest(tools: Json, request: Json, http: HttpOutcome): (h: Handled)
    ensures h.Returned? && h.response.Some? ==>
              request.JObject? && IsResponseTo(h.response.value, Get(request.fields, "id"))
  {
    if !request.JObject? then Raised  // `request.get` on a list, string, number or None
    else
      var methodName := Get(request.fields, "method");
      var params := GetOr(request.fields, "params", JObject([]));
      var id := Get(request.fields, "id");
      if methodName == JString("initialize") then
        Returned(Some(Reply(id, InitializeResult(tools))))
      else if methodName == JString("tools/list") then
        Returned(Some(Reply(id, JObject([("tools", tools)]))))
      else if methodName == JString("tools/call") && !params.JObject? then
        Raised  // `params.get` on a value that is not a dict
      else if methodName == JString("tools/call") && Get(params.fields, "name") == JString(ServoToolName) then
        var arguments := GetOr(params.fields, "arguments", JObject([]));
        if !arguments.JObject? then Raised  // `arguments.get` on a value that is not a dict
        else
          var angle := Get(arguments.fields, "angle");
          Returned(Some(Reply(id, JObject([("content", JArray([TextItem(ServoText(angle, http))]))]))))
      else if id == JNull then
        Returned(None)
      else
        Returned(Some(ErrorReply(id, MethodNotFound, MethodNotFoundPrefix + PyStr(methodName))))
  }

  // ---------------------------------------------------------------------------
  // Reference classification of requests, independent of HandleRequest

  function MethodOf(fields: seq<(string, Json)>): Json { Get(fields, "method") }
  function ParamsOf(fields: seq<(string, Json)>): Json { GetOr(fields, "params", JObject([])) }
  function IdOf(fields: seq<(string, Json)>): Json { Get(fields, "id") }

  /** A `tools/call` naming `control_servo` whose params and arguments are objects. */
  predicate IsServoCall(fields: seq<(string, Json)>)
  {
    var params := ParamsOf(fields);
    && MethodOf(fields) == JString("tools/call")
    && params.JObject?
    && Get(params.fields, "name") == JString(ServoToolName)
    && GetOr(params.fields, "arguments", JObject([])).JObject?
  }

  /** The methods the dispatcher answers itself. */
  predicate IsKnown(fields: seq<(string, Json)>)
  {
    MethodOf(fields) in {JString("initialize"), JString("tools/list")} || IsServoCall(fields)
  }

  /** Requests whose handling raises: not an object, or a `tools/call` whose
      params (or, for `control_servo`, whose arguments) are not an object. */
  predicate IsMalformed(request: Json)
  {
    if !request.JObject? then true
    else
      var params := ParamsOf(request.fields);
      && MethodOf(request.fields) == JString("tools/call")
      && (|| !params.JObject?
          || (Get(params.fields, "name") == JString(ServoToolName)
              && !GetOr(params.fields, "arguments", JObject([])).JObject?))
  }

  /** Everything else reaches the notification/error rule at the end:
      an unknown or missing method, or a `tools/call` of an unknown tool. */
  predicate FallsThrough(request: Json)
  {
    request.JObject? && !IsMalformed(request) && !IsKnown(request.fields)
  }

  lemma RaisesExactlyOnMalformed(tools: Json, request: Json, http: HttpOutcome)
    ensures HandleRequest(tools, request, http).Raised? <==> IsMalformed(request)
  {
  }

  /** `initialize`, `tools/list` and a well-formed `control_servo` call are
      answered whatever the id is, absent and null included. */
  lemma KnownMethodsAlwaysAnswer(tools: Json, fields: seq<(string, Json)>, http: HttpOutcome)
    requires IsKnown(fields)
    ensures var h := HandleRequest(tools, JObject(fields), http);
            h.Returned? && h.response.Some? && IsResultResponse(h.response.value, IdOf(fields))
  {
  }

  /** The registry advertised by `initialize` (under capabilities.tools.tools)
      and by `tools/list` (under tools) is the same list. */
  lemma InitializeAndListAgree(tools: Json, init: seq<(string, Json)>, list: seq<(string, Json)>,
                               http: HttpOutcome)
    requires MethodOf(init) == JString("initialize")
    requires MethodOf(list) == JString("tools/list")
    ensures var a := HandleRequest(tools, JObject(init), http);
            var b := HandleRequest(tools, JObject(list), http);
            && a.Returned? && a.response.Some? && b.Returned? && b.response.Some?
            && At(a.response.value, ["result", "capabilities", "tools", "tools"]) == Some(tools)
            && At(b.response.value, ["result", "tools"]) == Some(tools)
  {
    var p := ["result", "capabilities", "tools", "tools"];
    var r := Reply(IdOf(init), InitializeResult(tools));
    var ir := InitializeResult(tools);
    var caps := ir.fields[2].1;
    var toolsCap := caps.fields[0].1;
    LookupFound(r.fields, "result", 2);
    LookupFound(ir.fields, "capabilities", 2);
    LookupFound(caps.fields, "tools", 0);
    LookupFound(toolsCap.fields, "tools", 1);
    AtFromStep(r, p, 0, ir);
    AtFromStep(ir, p, 1, caps);
    AtFromStep(caps, p, 2, toolsCap);
    AtFromStep(toolsCap, p, 3, tools);

    var q := ["result", "tools"];
    var listed := JObject([("tools", tools)]);
    var r' := Reply(IdOf(list), listed);
    LookupFound(r'.fields, "result", 2);
    LookupFound(listed.fields, "tools", 0);
    AtFromStep(r', q, 0, listed);
    AtFromStep(listed, q, 1, tools);
  }

  /** A `control_servo` call always yields a result, never an error, holding
      exactly one text item whose text follows the HTTP outcome (ServoText). */
  lemma ServoCallYieldsOneTextItem(tools: Json, fields: seq<(string, Json)>, http: HttpOutcome)
    requires IsServoCall(fields)
    ensures var h := HandleRequest(tools, JObject(fields), http);
            && h.Returned? && h.response.Some?
            && IsResultResponse(h.response.value, IdOf(fields))
            && var angle := Get(GetOr(ParamsOf(fields).fields, "arguments", JObject([])).fields, "angle");
               At(h.response.value, ["result", "content"])
                 == Some(JArray([JObject([("type", JString("text")), ("text", JString(ServoText(angle, http)))])]))
  {
    var angle := Get(GetOr(ParamsOf(fields).fields, "arguments", JObject([])).fields, "angle");
    var content := JArray([TextItem(ServoText(angle, http))]);
    var result := JObject([("content", content)]);
    var r := Reply(IdOf(fields), result);
    var p := ["result", "content"];
    LookupFound(r.fields, "result", 2);
    LookupFound(result.fields, "content", 0);
    AtFromStep(r, p, 0, result);
    AtFromStep(result, p, 1, content);
  }

  /** On the fall-through path no response is produced exactly when the id
      reads as None, i.e. is absent or null. */
  lemma FallthroughSilentIffNoId(tools: Json, request: Json, http: HttpOutcome)
    requires FallsThrough(request)
    ensures HandleRequest(tools, request, http) == Returned(None) <==> IdOf(request.fields) == JNull
  {
  }

  /** On the fall-through path with an id, the response is the JSON-RPC error
      -32601 whose message ends with the method as Python prints it. */
  lemma FallthroughWithIdIsMethodNotFound(tools: Json, request: Json, http: HttpOutcome)
    requires FallsThrough(request) && IdOf(request.fields) != JNull
    ensures var h := HandleRequest(tools, request, http);
            && h.Returned? && h.response.Some?
            && IsErrorResponse(h.response.value, IdOf(request.fields))
            && At(h.response.value, ["error", "code"]) == Some(JInt(MethodNotFound))
            && var m := At(h.response.value, ["error", "message"]);
               m.Some? && m.value.JString? && IsSuffix(PyStr(MethodOf(request.fields)), m.value.s)
  {
    var name := PyStr(MethodOf(request.fields));
    var msg := MethodNotFoundPrefix + name;
    assert msg[|msg| - |name|..] == name;
    var err := JObject([("code", JInt(MethodNotFound)), ("message", JString(msg))]);
    var r := ErrorReply(IdOf(request.fields), MethodNotFound, msg);
    LookupFound(r.fields, "error", 2);
    LookupFound(err.fields, "code", 0);
    LookupFound(err.fields, "message", 1);
    AtFromStep(r, ["error", "code"], 0, err);
    AtFromStep(err, ["error", "code"], 1, JInt(MethodNotFound));
    AtFromStep(r, ["error", "message"], 0, err);
    AtFromStep(err, ["error", "message"], 1, JString(msg));
  }

  /** A call of an unknown tool is reported as an unknown method named
      "tools/call", not as an unknown tool. */
  lemma UnknownToolReportedAsToolsCall(tools: Json, fields: seq<(string, Json)>, http: HttpOutcome)
    requires MethodOf(fields) == JString("tools/call")
    requires ParamsOf(fields).JObject? && Get(ParamsOf(fields).fields, "name") != JString(ServoToolName)
    requires IdOf(fields) != JNull
    ensures HandleRequest(tools, JObject(fields), http)
            == Returned(Some(ErrorReply(IdOf(fields), MethodNotFound, MethodNotFoundPrefix + "tools/call")))
  {
  }

  /** An explicit `"id": null`, wherever it sits among the members, is handled
      exactly like an absent id. */
  lemma NullIdHandledAsAbsentId(tools: Json, a: seq<(string, Json)>, b: seq<(string, Json)>, http: HttpOutcome)
    requires "id" !in Keys(a) && "id" !in Keys(b)
    ensures HandleRequest(tools, JObject(a + [("id", JNull)] + b), http) == HandleRequest(tools, JObject(a + b), http)
  {
    var explicit := a + [("id", JNull)] + b;
    assert explicit == a + ([("id", JNull)] + b);
    LookupPast(a, [("id", JNull)] + b, "id");
    LookupCons(("id", JNull), b, "id");
    LookupPast(a, b, "id");
    LookupFromAbsent(b, "id", 0);
    forall k | k != "id"
      ensures Lookup(explicit, k) == Lookup(a + b, k)
    {
      LookupSkip(a, ("id", JNull), b, k);
    }
  }

  /** Consequence: an unknown method with a null id gets no answer, although
      section 4.1 of JSON-RPC 2.0 calls such a request a call, not a
      notification, and expects an error response. */
  lemma NullIdUnknownMethodIsSilent(tools: Json, http: HttpOutcome)
    ensures HandleRequest(tools, JObject([("id", JNull), ("method", JString("foo"))]), http) == Returned(None)
  {
  }

  /** Every response is a non-empty dict, so the loop's `if response:` test
      is the same as "handling returned something". */
  lemma ResponsesAreTruthy(tools: Json, request: Json, http: HttpOutcome)
    ensures var h := HandleRequest(tools, request, http);
            h.Returned? && h.response.Some? ==> Truthy(h.response.value)
  {
  }

  /** The one tool the registry advertises is the one `tools/call` executes. */
  lemma AdvertisedToolIsCallable(id: Json, angle: Json, http: HttpOutcome)
    ensures var tools := ServoTools();
            var name := At(tools.items[0], ["name"]).value;
            var call := [
              ("id", id), ("method", JString("tools/call")),
              ("params", JObject([("name", name), ("arguments", JObject([("angle", angle)]))]))];
            var h := HandleRequest(tools, JObject(call), http);
            h.Returned? && h.response.Some? && IsResultResponse(h.response.value, id)
  {
    var name := JString(ServoToolName);
    var params := JObject([("name", name), ("arguments", JObject([("angle", angle)]))]);
    var call := [("id", id), ("method", JString("tools/call")), ("params", params)];
    LookupFound(call, "id", 0);
    LookupFound(call, "method", 1);
    LookupFound(call, "params", 2);
    LookupFound(params.fields, "name", 0);
    LookupFound(params.fields, "arguments", 1);
    assert IsServoCall(call);
  }

  /** The schema's bounds are not enforced: an angle of 500 is forwarded and,
      when the device answers 200, reported as a success. */
  lemma OutOfRangeAngleIsForwarded(tools: Json)
    ensures var args := JObject([("angle", JInt(500))]);
            var call := [
              ("id", JInt(1)), ("method", JString("tools/call")),
              ("params", JObject([("name", JString(ServoToolName)), ("arguments", args)]))];
            var h := HandleRequest(tools, JObject(call), Status(200, ""));
            && h.Returned? && h.response.Some?
            && IsResultResponse(h.response.value, JInt(1))
            && At(h.response.value, ["result", "content"])
                 == Some(JArray([TextItem(ServoText(JInt(500), Status(200, "")))]))
  {
    var args := JObject([("angle", JInt(500))]);
    var params := JObject([("name", JString(ServoToolName)), ("arguments", args)]);
    var call := [("id", JInt(1)), ("method", JString("tools/call")), ("params", params)];
    LookupFound(call, "id", 0);
    LookupFound(call, "method", 1);
    LookupFound(call, "params", 2);
    LookupFound(params.fields, "name", 0);
    LookupFound(params.fields, "arguments", 1);
    LookupFound(args.fields, "angle", 0);
    ServoCallYieldsOneTextItem(tools, call, Status(200, ""));
  }
}

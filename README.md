# ESP32 servo MCP bridge — Dafny model

This project models the core of `esp32-mcp.py`, a bridge that speaks line-delimited
JSON-RPC 2.0 (the Model Context Protocol's tool calls) on standard input and output and
turns a `tools/call` of its one tool, `control_servo`, into an HTTP POST to an ESP32
servo controller.

Three modules, one per concern:

- `JsonValues` (`json.dfy`): decoded JSON as Python sees it. Objects are ordered lists of
  key/value pairs, like a Python dict. `Get` is Python's `dict.get`, so an absent key and
  an explicit `null` both read as `JNull` (Python's `None`). The module also gives
  `PyStr` (what an f-string prints), `IntToString`, Python truthiness, and a path walk
  `At` through nested objects.
- `Dispatcher` (`dispatcher.dfy`): `MCPServer.handle_request` as the pure function
  `HandleRequest(tools, request, http)`. The HTTP POST is replaced by its outcome,
  `HttpOutcome`: a status code with a body, or a transport exception with a message.
  Handling either returns an optional response or raises (`Handled.Raised`). The module
  also holds the fixed tool registry `ServoTools` and the lemmas about dispatch.
- `Server` (`server.dfy`): the class `McpServer`. Its registry is a `const` field, set by
  the constructor (`__init__`) and never changed. Its method `Run` is the read loop
  `MCPServer.run`, proved equal to the fold `Transcript` over the sequence of reads.
  Each read is either the empty read that ends the stream, or a line that decoded (or
  failed to decode), paired with the device's answer for that line.

Behaviour of the code worth knowing, which the model keeps as written:

- `initialize`, `tools/list` and `tools/call control_servo` are answered even when the
  request has no id; only the fall-through path (unknown or missing method, unknown
  tool) treats a missing id as a notification. See `KnownMethodsAlwaysAnswer`.
- The id is read with `dict.get`, so `"id": null` is handled like a missing id, and an
  unknown method with a null id gets no answer. Section 4.1 of the JSON-RPC 2.0
  Specification defines a notification as a request without an `id` member, so a
  request with a null id is a call that expects a response. See
  `NullIdHandledAsAbsentId` and `NullIdUnknownMethodIsSilent`.
- An unknown method is answered with error code -32601, the "Method not found" code of
  section 5.1 of the JSON-RPC 2.0 Specification, with the message
  `"Metot bulunamadı: <method>"`.
- A `tools/call` of an unknown tool is reported as method not found for the method
  `tools/call` (`UnknownToolReportedAsToolsCall`).

## Model

| member | source | states |
|---|---|---|
| `Dispatcher.ServoTools` | esp32-mcp.py:20-37 | the registry is a one-element list whose tool is named `control_servo` |
| `Server.McpServer.constructor` | esp32-mcp.py:18-37 | the server's registry is `ServoTools()`; the field is `const`, so nothing changes it later |
| `Dispatcher.HandleRequest` | esp32-mcp.py:39-116 | every response it returns is a JSON-RPC 2.0 response to a dict request: exactly `jsonrpc: "2.0"`, the request's id echoed unchanged (absent read as None), and one of `result`/`error` |
| `Dispatcher.ServoText` | esp32-mcp.py:88-95 | the tool's text starts with ✅ exactly on status 200 and with ❌ otherwise; on 200 it contains the angle as Python prints it; on another status it contains the status code and ends with the body; on an exception it ends with the exception message |
| `Dispatcher.RaisesExactlyOnMalformed` | esp32-mcp.py:41-81 | handling raises exactly when the request is not a dict, or is a `tools/call` whose params are not a dict, or a `control_servo` call whose arguments are not a dict |
| `Dispatcher.KnownMethodsAlwaysAnswer` | esp32-mcp.py:45-103 | `initialize`, `tools/list` and a well-formed `control_servo` call always get a result response, whatever the id, absent or null included |
| `Dispatcher.InitializeAndListAgree` | esp32-mcp.py:56-73 | `initialize`'s `result.capabilities.tools.tools` and `tools/list`'s `result.tools` are both exactly the server's registry |
| `Dispatcher.ServoCallYieldsOneTextItem` | esp32-mcp.py:80-103 | a `control_servo` call gets a result response (never an error) whose `result.content` is exactly one `{"type": "text"}` item carrying `ServoText` of the angle and the HTTP outcome, for every outcome |
| `Dispatcher.FallthroughSilentIffNoId` | esp32-mcp.py:105-109 | on the fall-through path (unknown or missing method, unknown tool) there is no response if and only if the id is absent or null |
| `Dispatcher.FallthroughWithIdIsMethodNotFound` | esp32-mcp.py:111-116 | on the fall-through path with a non-null id the response is an error with code -32601 whose message ends with the method as Python prints it |
| `Dispatcher.UnknownToolReportedAsToolsCall` | esp32-mcp.py:75-116 | a `tools/call` naming another tool, with an id, gets the -32601 error for the method `tools/call` |
| `Dispatcher.NullIdHandledAsAbsentId` | esp32-mcp.py:43 | a request with `"id": null` among its members, in any position, is handled exactly like the same request without that member |
| `Dispatcher.NullIdUnknownMethodIsSilent` | esp32-mcp.py:105-109 | a concrete witness: the request `{"id": null, "method": "foo"}` gets no response at all (the general rule is `FallthroughSilentIffNoId`) |
| `Dispatcher.ResponsesAreTruthy` | esp32-mcp.py:132-135 | every response is a non-empty dict, so `if response:` writes every response handling returns |
| `Dispatcher.AdvertisedToolIsCallable` | esp32-mcp.py:22-80 | calling the tool by the name the registry advertises yields a result response |
| `Dispatcher.OutOfRangeAngleIsForwarded` | esp32-mcp.py:81-89 | the schema's 0-180 bound is not enforced: angle 500 with a 200 answer gives a success result |
| `JsonValues.IntToString` | esp32-mcp.py:92 | `str` of an integer is digits after an optional leading minus, minus exactly for negatives, with no leading zero, and `int` (`ParseInt`) reads it back as the same integer |
| `JsonValues.NatToString` | esp32-mcp.py:92 | the decimal digits of a natural number spell exactly that number (`DigitsValue`) and have no leading zero |
| `JsonValues.PyStr` | esp32-mcp.py:89 | what `{angle}` prints in an f-string, and `{method}` in the error message at line 115: a string is itself, an integer a numeral `int` reads back as that integer, None is `None`, booleans `True`/`False`, a list is bracketed and a dict braced |
| `JsonValues.LookupSkip` | esp32-mcp.py:41-43 | `dict.get` of a key does not depend on an entry under another key, wherever that entry sits in the object |
| `Server.Emitted` | esp32-mcp.py:129-141 | a line writes at most one value, and only a JSON-RPC response to the id of a dict request on that line; whenever handling returns a response, exactly that response is written, and whatever is written is the response handling returned, so a line handled as a notification (None) writes nothing |
| `Server.McpServer.Run` | esp32-mcp.py:118-141 | the loop writes exactly `Transcript` of its reads |
| `Server.TranscriptAppend` | esp32-mcp.py:123-141 | the output for reads `a` then `b` (no end of input in `a`) is the output for `a` followed by the output for `b`: responses come out in input order |
| `Server.StopsAtEndOfInput` | esp32-mcp.py:126-128 | nothing read after the first empty read is handled |
| `Server.SilentLineIsSkipped` | esp32-mcp.py:130-141 | a line that writes nothing does not change what the other lines write |
| `Server.MalformedLineIsSkipped` | esp32-mcp.py:129-141 | a line that fails to decode writes nothing and the loop goes on |
| `Server.RaisingLineIsSkipped` | esp32-mcp.py:130-141 | a line whose handling raises writes nothing and the loop goes on |
| `Server.UnansweredLineIsSkipped` | esp32-mcp.py:105-109 | a line whose handling returns None writes nothing and the loop goes on: the output is that of the other lines |
| `Server.NotificationLineIsSkipped` | esp32-mcp.py:105-109 | a concrete witness: the line `{"method": "foo"}` writes nothing, wherever it is read |
| `Server.AtMostOneResponsePerLine` | esp32-mcp.py:130-135 | the output is never longer than the input |
| `Server.OutputIsOnlyResponses` | esp32-mcp.py:129-135 | every value written is a JSON-RPC response echoing the id of a line that was read |
| `Server.AnsweredInPlace` | esp32-mcp.py:123-135 | a line whose handling returns a response (a known method, or a fall-through with an id) writes exactly that response, between the output of the lines before and after it |
| `Server.RecoversAfterMalformedLine` | esp32-mcp.py:129-141 | a malformed line followed by `tools/list` with id 1 writes one response: the result for id 1 listing the registry |

## Left out

- The HTTP call (esp32-mcp.py:83-87): the aiohttp session, the 5-second timeout, the
  device address `ESP32_IP` and the form body `{"angle": str(angle)}` are not modelled.
  Their only effect on the model is the `HttpOutcome` parameter. An exception raised
  while reading a non-200 body is one more `TransportError`.
- asyncio (esp32-mcp.py:121, 125, 143-151): the event loop, `run_in_executor`,
  `asyncio.run`, `main` and the `KeyboardInterrupt` handler are process plumbing. The
  model is sequential, which is the order the single-task loop imposes.
- Standard input, standard output, flushing and every diagnostic print to standard error:
  I/O. `Run` takes the reads as a sequence and returns the values it would write.
- `json.loads` and `json.dumps`: library code. A line is modelled as already decoded
  (`Parsed.Decoded`) or failing to decode (`Parsed.Malformed`). Output is the response
  value, not its serialized text.
- The `except EOFError` branch (esp32-mcp.py:137-139): it stops the loop exactly like an
  empty read, so it is folded into `EndOfInput`.
- Failures of the output write itself (a closed standard output) are not modelled.
- JSON floating-point numbers are not in the `Json` datatype.
- JsonValues.PyStr: for a list or dict it quotes every string inside with single quotes
  and escapes nothing (through `JsonValues.Repr`); Python switches to double quotes for a
  string that contains a single quote and escapes special characters, so the contract
  states only the brackets for those values.
- `JsonValues.Lookup` returns the first entry under a key. `json.loads` keeps only the
  last of repeated keys, so the model assumes decoded objects have distinct keys, as a
  Python dict does.
- esp32-http.py: a one-shot interactive test client made only of an HTTP POST,
  `input()` and `print`. It is not part of this model.

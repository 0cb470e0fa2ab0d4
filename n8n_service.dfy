/**
 * The webhook client (`N8nService.sendMessage`): one POST to the configured workflow URL, and the
 * mapping of what came back to either a display value or one of three error messages.
 *
 * The request itself is not performed: what the transport delivered (`Transport`) and what
 * `JSON.parse` made of the body (`ParseOutcome`) are inputs, and `JSON.stringify` is the
 * parameter `stringify`. The result is a JavaScript value, because a truthy field that is not a
 * string (an object, say) is handed back as it is.
 */
module N8nService {
  import opened Common
  import opened JsText
  import opened Json

  const NotConfiguredMessage := "n8n Webhook URL is not configured. " + "Please set it in the Settings panel."
  const ConnectivityMessage := "Could not connect to n8n. " + "This is likely a CORS issue. "
    + "Ensure your n8n instance allows requests from this origin or check your internet connection."
  const UpstreamPrefix := "n8n Error ("
  const UpstreamInfix := "): "
  const NoContentReply := "Workflow executed successfully, but returned no content."

  /** The fields of a reply object that are shown, in priority order. */
  const ReplyKeys: seq<string> := ["output", "response", "message", "text"]

  /** What the response carried: its status line and its whole body as text. */
  datatype HttpResponse = HttpResponse(status: nat, statusText: string, body: string)

  /**
   * The outcome of the request: `fetch` threw (network failure, CORS refusal); or it delivered a
   * response whose body could not be read (`response.text()` rejected, outside any `try`, with the
   * runtime's own error message); or it delivered a response and its whole body.
   */
  datatype Transport = TransportFailure | BodyUnreadable(reason: string) | Received(response: HttpResponse)

  /** What `JSON.parse(body)` did: threw, or produced a value. */
  datatype ParseOutcome = NotJson | Parsed(value: Json)

  /** The three kinds of failure the client reports. */
  datatype ErrorKind =
    | ConfigError
    | ConnectivityError
    | UpstreamError(status: nat, detail: string)

  /** `response.ok`: a status in the range 200-299. */
  predicate IsOk(status: nat) {
    200 <= status <= 299
  }

  /** The message of the error the client throws for each kind of failure. */
  function ErrorMessage(k: ErrorKind): (m: string)
    ensures m != ""
    ensures k.UpstreamError? ==>
              |UpstreamPrefix| + |k.detail| <= |m| && m[..|UpstreamPrefix|] == UpstreamPrefix
              && m[|m| - |k.detail|..] == k.detail
  {
    match k
    case ConfigError => NotConfiguredMessage
    case ConnectivityError => ConnectivityMessage
    case UpstreamError(status, detail) => UpstreamPrefix + NatToString(status) + UpstreamInfix + detail
  }

  /** `String(v)` for a primitive JSON value. */
  function PrimitiveString(v: Json): (r: string)
    requires !v.JArr? && !v.JObj?
    ensures v.JNull? ==> r == "null"
    ensures v.JBool? ==> r == (if v.b then "true" else "false")
    ensures v.JNum? ==> r == IntToString(v.n)
    ensures v.JStr? ==> r == v.s
  {
    match v
    case JNull => "null"
    case JBool(b) => if b then "true" else "false"
    case JNum(n) => IntToString(n)
    case JStr(s) => s
  }

  /**
   * The display value for a successful, non-blank body. A body that does not parse is shown as it
   * is; a non-empty array is judged by its first element; an object (or an empty array) shows its
   * first truthy reply field or, failing that, its serialisation; a primitive shows its string form.
   * Reading a field of a `null` first element throws inside the `try`, whose handler returns the
   * body as it is.
   */
  function Normalise(body: string, parsed: ParseOutcome, stringify: Json -> string): (r: Json)
    ensures parsed.NotJson? ==> r == JStr(body)
    ensures r.JStr? || (parsed.Parsed? && Truthy(r) && Source(parsed.value).JObj?
                        && r in Source(parsed.value).fields.Values)
  {
    match parsed
    case NotJson => JStr(body)
    case Parsed(data) =>
      if data.JArr? && |data.items| > 0 then
        var first := data.items[0];
        if first.JNull? then JStr(body)
        else OrChain(first, ReplyKeys, if first.JStr? then first else JStr(stringify(first)))
      else if data.JArr? || data.JObj? then
        OrChain(data, ReplyKeys, JStr(stringify(data)))
      else
        JStr(PrimitiveString(data))
  }

  /**
   * `N8nService.sendMessage(webhookUrl, message, sessionId)`: `Ok` with the value to display, or
   * `Err` with the message of the error it throws. The message and session id only travel in the
   * request body, which is not modelled, so they are not parameters here.
   */
  function SendMessage(webhookUrl: string, transport: Transport, parsed: ParseOutcome,
                       stringify: Json -> string): (r: Result<Json, string>)
    ensures r.Err? <==>
              webhookUrl == "" || transport.TransportFailure? || transport.BodyUnreadable?
              || !IsOk(transport.response.status)
    ensures r.Err? && (webhookUrl == "" || !transport.BodyUnreadable?) ==> exists k :: ErrorMessage(k) == r.error
    ensures webhookUrl != "" && transport.BodyUnreadable? ==> r == Err(transport.reason)
  {
    if webhookUrl == "" then Err(ErrorMessage(ConfigError))
    else match transport
      case TransportFailure => Err(ErrorMessage(ConnectivityError))
      case BodyUnreadable(reason) => Err(reason)
      case Received(response) =>
        if !IsOk(response.status) then
          var detail := if response.body != "" then response.body else response.statusText;
          Err(ErrorMessage(UpstreamError(response.status, detail)))
        else if Trim(response.body) == "" then Ok(JStr(NoContentReply))
        else Ok(Normalise(response.body, parsed, stringify))
  }

  /** The number of decimal digits at the start of `s`. */
  function DigitRun(s: string): (n: nat)
    ensures n <= |s| && AllDigits(s[..n])
    ensures n < |s| ==> !IsDigit(s[n])
    decreases |s|
  {
    if s != [] && IsDigit(s[0]) then 1 + DigitRun(s[1..]) else 0
  }

  /** Which kind of failure an error message reports, if it is one of the client's messages. */
  function ClassifyError(msg: string): Option<ErrorKind> {
    if msg == NotConfiguredMessage then Some(ConfigError)
    else if msg == ConnectivityMessage then Some(ConnectivityError)
    else if |msg| >= |UpstreamPrefix| && msg[..|UpstreamPrefix|] == UpstreamPrefix then
      var rest := msg[|UpstreamPrefix|..];
      var n := DigitRun(rest);
      if 0 < n && n + |UpstreamInfix| <= |rest| && rest[n..n + |UpstreamInfix|] == UpstreamInfix then
        Some(UpstreamError(ParseNat(rest[..n]), rest[n + |UpstreamInfix|..]))
      else None
    else None
  }

  lemma {:induction false} DigitRunOfDigits(a: string, b: string)
    requires AllDigits(a)
    requires b == [] || !IsDigit(b[0])
    ensures DigitRun(a + b) == |a|
    decreases |a|
  {
    if a != [] {
      assert (a + b)[1..] == a[1..] + b;
      DigitRunOfDigits(a[1..], b);
    } else {
      assert a + b == b;
    }
  }

  /**
   * The three kinds of failure are told apart by their messages alone, and an upstream failure's
   * message gives back its status and detail: the message determines the failure.
   */
  lemma ClassifyErrorMessage(k: ErrorKind)
    ensures ClassifyError(ErrorMessage(k)) == Some(k)
  {
    if k.UpstreamError? {
      UpstreamMessageClassified(k.status, k.detail);
    } else {
      assert NotConfiguredMessage != ConnectivityMessage by {
        assert NotConfiguredMessage[0] != ConnectivityMessage[0];
      }
    }
  }

  /** An upstream failure's message is neither fixed message, and gives back its status and detail. */
  lemma UpstreamMessageClassified(status: nat, detail: string)
    ensures ClassifyError(ErrorMessage(UpstreamError(status, detail))) == Some(UpstreamError(status, detail))
  {
    var digits := NatToString(status);
    var msg := ErrorMessage(UpstreamError(status, detail));
    assert msg[..|UpstreamPrefix|] == UpstreamPrefix;
    assert msg[4] == UpstreamPrefix[4] != NotConfiguredMessage[4];
    assert msg[0] == UpstreamPrefix[0] != ConnectivityMessage[0];
    var rest := msg[|UpstreamPrefix|..];
    assert rest == digits + (UpstreamInfix + detail);
    DigitRunOfDigits(digits, UpstreamInfix + detail);
    UpstreamRestParts(digits, detail);
    ParseNatToString(status);
  }

  /** The pieces of `digits + "): " + detail` at the positions `ClassifyError` reads them. */
  lemma UpstreamRestParts(digits: string, detail: string)
    ensures var rest := digits + (UpstreamInfix + detail);
      rest[..|digits|] == digits
      && rest[|digits|..|digits| + |UpstreamInfix|] == UpstreamInfix
      && rest[|digits| + |UpstreamInfix|..] == detail
  {
    var rest := digits + (UpstreamInfix + detail);
    assert rest[|digits|..] == UpstreamInfix + detail;
  }


  /** An empty URL fails with the configuration error, whatever the transport would have done. */
  lemma EmptyUrlFailsFirst(transport: Transport, parsed: ParseOutcome, stringify: Json -> string)
    ensures SendMessage("", transport, parsed, stringify) == Err(ErrorMessage(ConfigError))
  {
  }

  /** A transport failure always yields the one connectivity message. */
  lemma TransportFailureIsConnectivityError(url: string, parsed: ParseOutcome, stringify: Json -> string)
    requires url != ""
    ensures SendMessage(url, TransportFailure, parsed, stringify) == Err(ErrorMessage(ConnectivityError))
  {
  }

  /**
   * A status outside 200-299 fails with the status and the body, or the status text when the
   * body is empty. The status is checked before the body, so an empty error reply is a failure,
   * not the canned "no content" success.
   */
  lemma NonOkStatusIsUpstreamError(url: string, response: HttpResponse, parsed: ParseOutcome,
                                   stringify: Json -> string)
    requires url != "" && !IsOk(response.status)
    ensures var detail := if response.body != "" then response.body else response.statusText;
      SendMessage(url, Received(response), parsed, stringify) == Err(ErrorMessage(UpstreamError(response.status, detail)))
    ensures SendMessage(url, Received(response), parsed, stringify) != Ok(JStr(NoContentReply))
  {
  }

  /** A successful reply whose body is empty or only whitespace gives the canned text. */
  lemma BlankBodyIsNoContent(url: string, response: HttpResponse, parsed: ParseOutcome,
                             stringify: Json -> string)
    requires url != "" && IsOk(response.status)
    ensures AllWhitespace(response.body) ==> SendMessage(url, Received(response), parsed, stringify) == Ok(JStr(NoContentReply))
    ensures !AllWhitespace(response.body) ==> SendMessage(url, Received(response), parsed, stringify) == Ok(Normalise(response.body, parsed, stringify))
  {
    TrimEmptyIff(response.body);
  }

  /** A body that is not JSON is shown verbatim. */
  lemma NotJsonShownVerbatim(body: string, stringify: Json -> string)
    ensures Normalise(body, NotJson, stringify) == JStr(body)
  {
  }

  /**
   * The reply fields in priority order, with JavaScript truthiness: `output` wins when it is
   * truthy, then `response`, then `message`, then `text`; a falsy or absent field is passed over,
   * and when all four are falsy the fallback is used.
   */
  lemma ReplyFieldPriority(v: Json, fallback: Json)
    requires !v.JNull?
    ensures TruthyField(v, "output") ==> OrChain(v, ReplyKeys, fallback) == Field(v, "output").value
    ensures !TruthyField(v, "output") && TruthyField(v, "response") ==>
      OrChain(v, ReplyKeys, fallback) == Field(v, "response").value
    ensures !TruthyField(v, "output") && !TruthyField(v, "response") && TruthyField(v, "message") ==>
      OrChain(v, ReplyKeys, fallback) == Field(v, "message").value
    ensures (!TruthyField(v, "output") && !TruthyField(v, "response") && !TruthyField(v, "message")
             && TruthyField(v, "text")) ==> OrChain(v, ReplyKeys, fallback) == Field(v, "text").value
    ensures (!TruthyField(v, "output") && !TruthyField(v, "response") && !TruthyField(v, "message")
             && !TruthyField(v, "text")) ==> OrChain(v, ReplyKeys, fallback) == fallback
  {
    var i := FirstTruthyIndex(v, ReplyKeys);
    assert ReplyKeys[0] == "output" && ReplyKeys[1] == "response";
    assert ReplyKeys[2] == "message" && ReplyKeys[3] == "text";
    if TruthyField(v, "output") {
      assert i == 0;
    } else if TruthyField(v, "response") {
      assert i == 1;
    } else if TruthyField(v, "message") {
      assert i == 2;
    } else if TruthyField(v, "text") {
      assert i == 3;
    }
  }

  /** An object, or an empty array, shows its first truthy reply field, else its serialisation. */
  lemma ObjectReply(body: string, data: Json, stringify: Json -> string)
    requires data.JObj? || data == JArr([])
    ensures Normalise(body, Parsed(data), stringify) == OrChain(data, ReplyKeys, JStr(stringify(data)))
    ensures data == JArr([]) ==> Normalise(body, Parsed(data), stringify) == JStr(stringify(data))
  {
  }

  /**
   * A non-empty array is judged by its first element: its first truthy reply field, else the
   * element itself when it is a string, else the element's serialisation; a `null` first element
   * makes the raw body the reply.
   */
  lemma ArrayReply(body: string, first: Json, rest: seq<Json>, stringify: Json -> string)
    ensures first.JNull? ==> Normalise(body, Parsed(JArr([first] + rest)), stringify) == JStr(body)
    ensures first.JStr? ==> Normalise(body, Parsed(JArr([first] + rest)), stringify) == first
    ensures !first.JNull? ==>
              Normalise(body, Parsed(JArr([first] + rest)), stringify)
              == OrChain(first, ReplyKeys, if first.JStr? then first else JStr(stringify(first)))
  {
    if first.JStr? {
      assert forall j :: 0 <= j < |ReplyKeys| ==> !TruthyField(first, ReplyKeys[j]);
    }
  }

  /** A primitive value shows its string form: `null` reads "null", `42` reads "42". */
  lemma PrimitiveReply(body: string, data: Json, stringify: Json -> string)
    requires !data.JArr? && !data.JObj?
    ensures Normalise(body, Parsed(data), stringify) == JStr(PrimitiveString(data))
    ensures Normalise(body, Parsed(JNull), stringify) == JStr("null")
    ensures Normalise(body, Parsed(JNum(42)), stringify) == JStr("42")
  {
    assert IntToString(42) == NatToString(42) == NatToString(4) + [DigitChar(2)];
  }

  /** The value whose reply fields are consulted: the first element of a non-empty array, else the value. */
  function Source(data: Json): Json {
    if data.JArr? && |data.items| > 0 then data.items[0] else data
  }

  /**
   * A configured request whose body was read with a 2xx status always succeeds, whatever the body;
   * and what it shows is a string (the body, the canned text, a serialisation, a string element or
   * a primitive's string form), or a truthy field of the parsed object (or of the first element of
   * the parsed array).
   */
  lemma ReplyShape(url: string, transport: Transport, parsed: ParseOutcome, stringify: Json -> string)
    requires url != "" && transport.Received? && IsOk(transport.response.status)
    ensures SendMessage(url, transport, parsed, stringify).Ok?
    ensures var v := SendMessage(url, transport, parsed, stringify).value;
      v.JStr? || (parsed.Parsed? && Truthy(v) && Source(parsed.value).JObj?
                  && v in Source(parsed.value).fields.Values)
  {
  }

  /** Sample webhook replies and what the chat shows for each. */
  lemma SampleReplies(url: string, stringify: Json -> string)
    requires url != ""
    ensures Normalise("[{\"output\":\"hi\"}]", Parsed(JArr([JObj(map["output" := JStr("hi")])])), stringify) == JStr("hi")
    ensures Normalise("{\"text\":\"yo\"}", Parsed(JObj(map["text" := JStr("yo")])), stringify) == JStr("yo")
    ensures var x1 := JObj(map["x" := JNum(1)]);
      Normalise("{\"x\":1}", Parsed(x1), stringify) == JStr(stringify(x1))
    ensures Normalise("not json", NotJson, stringify) == JStr("not json")
    ensures SendMessage(url, Received(HttpResponse(200, "OK", "")), NotJson, stringify) == Ok(JStr(NoContentReply))
  {
    OutputFieldExample(stringify);
    TextFieldExample(stringify);
    NoReplyFieldExample(stringify);
  }

  /** `[{"output":"hi"}]` shows "hi". */
  lemma OutputFieldExample(stringify: Json -> string)
    ensures Normalise("[{\"output\":\"hi\"}]", Parsed(JArr([JObj(map["output" := JStr("hi")])])), stringify) == JStr("hi")
  {
    var hi := JObj(map["output" := JStr("hi")]);
    assert TruthyField(hi, ReplyKeys[0]);
  }

  /** `{"text":"yo"}` shows "yo". */
  lemma TextFieldExample(stringify: Json -> string)
    ensures Normalise("{\"text\":\"yo\"}", Parsed(JObj(map["text" := JStr("yo")])), stringify) == JStr("yo")
  {
    var yo := JObj(map["text" := JStr("yo")]);
    ReplyFieldPriority(yo, JStr(stringify(yo)));
  }

  /** `{"x":1}` has no reply field, so it shows its serialisation. */
  lemma NoReplyFieldExample(stringify: Json -> string)
    ensures var x1 := JObj(map["x" := JNum(1)]);
      Normalise("{\"x\":1}", Parsed(x1), stringify) == JStr(stringify(x1))
  {
    var x1 := JObj(map["x" := JNum(1)]);
    ReplyFieldPriority(x1, JStr(stringify(x1)));
  }

}

/**
 * The server-side proxy route `/api/synthesize`: an early-return validation chain
 * over the JSON request body, the vendor request body it builds, and the mapping
 * of the vendor's reply onto the route's own JSON reply.
 *
 * The vendor call, the Base64 encoding of its audio bytes, the server's API key and
 * the development-mode switch are inputs of `Handle`.
 */
module SynthesizeRoute {
  import opened Wrappers
  import opened JsBuiltins
  import Config

  /** `req.body` after Next.js parsing: an object, or anything else (`undefined`, a string, ...). */
  datatype Body = NonObject | Object(fields: map<string, Json>)

  /** An incoming request: its HTTP method (`req.method`) and parsed body. */
  datatype Request = Request(verb: string, body: Body)

  /** What `JSON.parse(await response.text())` gives on an error reply. */
  datatype VendorErrorBody =
    | Unreadable                        // `response.text()` rejected
    | NotJson                           // `JSON.parse` threw
    | ParsedNonObject                   // `null` or a scalar: `.error` is undefined or throws
    | ParsedObject(error: Option<Json>) // an object, with its `error` field if present

  /** The outcome of the `fetch` to the vendor endpoint. */
  datatype VendorReply =
    | FetchFailed(message: string)
    | Replied(ok: bool, status: nat, errorBody: VendorErrorBody, audioBase64: string)

  /** The JSON body sent to the vendor. `sampleRate` is absent unless supplied truthy. */
  datatype RequestBody = RequestBody(
    model: Json, input: string, voice: Json, speed: Json, gain: Json,
    responseFormat: Json, stream: bool, sampleRate: Option<Json>)

  /** The `data` object of a successful reply. */
  datatype ProxyData = ProxyData(
    audioContent: Option<string>, audioUrl: Option<string>, format: Json,
    mimeType: Option<string>, durationTenths: Option<int>)

  datatype ResponseBody = ErrorBody(error: string) | SuccessBody(message: string, data: ProxyData)

  /** The route's reply, and the vendor request it sent if it sent one. */
  datatype Response = Response(status: nat, body: ResponseBody, forwarded: Option<RequestBody>)

  const MethodNotAllowed: string := "方法不允许"
  const InvalidInput: string := "请提供有效的文本内容"
  const TooLong: string := "文本内容超出最大长度限制 (" + NatToString(Config.MaxTextLength) + "字符)"
  const ConfigError: string := "API配置错误，请联系管理员"
  const InternalError: string := "服务器内部错误，请稍后再试"
  const SuccessMessage: string := "语音合成成功"
  const CallFailedPrefix: string := "API调用失败: "
  const RequestFailedPrefix: string := "API请求失败: "
  const Marker: string := "<|endofprompt|>"
  const MockAudioUrl: string := "/api/audio-mock"

  /** `getMimeType`: a total lookup with `audio/mpeg` as the fallback. */
  function GetMimeType(format: string): (m: string)
    ensures StartsWith(m, "audio/")
    ensures format == "mp3" ==> m == "audio/mpeg"
    ensures format in {"wav", "opus", "pcm"} ==> m == "audio/" + format
    ensures format !in {"mp3", "wav", "opus", "pcm"} ==> m == "audio/mpeg"
  {
    var mimeTypes := map["mp3" := "audio/mpeg", "wav" := "audio/wav",
                         "opus" := "audio/opus", "pcm" := "audio/pcm"];
    if format in mimeTypes then mimeTypes[format] else "audio/mpeg"
  }

  /** Every supported format has its own MIME type, and no two share one. */
  lemma MimeTypesDistinct()
    ensures forall f, g | f in Config.SupportedFormats && g in Config.SupportedFormats && f != g ::
              GetMimeType(f) != GetMimeType(g)
  {
  }

  /** Line 76-78: prepend the marker unless the input already contains it. */
  function WithMarker(input: string): (r: string)
    ensures Contains(input, Marker) ==> r == input
    ensures !Contains(input, Marker) ==> r == Marker + input
  {
    if Contains(input, Marker) then input else Marker + input
  }

  /** The marked input always contains the marker and still ends with the original text. */
  lemma WithMarkerContainsMarker(input: string)
    ensures Contains(WithMarker(input), Marker)
    ensures |WithMarker(input)| >= |input| && WithMarker(input)[|WithMarker(input)| - |input|..] == input
  {
    if !Contains(input, Marker) {
      PrefixContained(Marker, input);
    }
  }

  /** Marking twice is marking once. */
  lemma WithMarkerIdempotent(input: string)
    ensures WithMarker(WithMarker(input)) == WithMarker(input)
  {
    WithMarkerContainsMarker(input);
  }

  /** The message carried by the error thrown for a non-ok vendor reply (lines 126-141). */
  function VendorErrorMessage(status: nat, body: VendorErrorBody): (m: string)
    ensures body.ParsedObject? && body.error.Some? && Truthy(body.error.value) ==>
              m == ToJsString(body.error.value)
    ensures !(body.ParsedObject? && body.error.Some? && Truthy(body.error.value)) ==>
              m == RequestFailedPrefix + NatToString(status)
  {
    var fallback := RequestFailedPrefix + NatToString(status);
    match body
    case ParsedObject(Some(e)) => if Truthy(e) then ToJsString(e) else fallback
    case _ => fallback
  }

  /** A field of the body object, `None` for `undefined`. */
  function Field(fields: map<string, Json>, key: string): Option<Json> {
    if key in fields then Some(fields[key]) else None
  }

  /** The destructuring default: used only when the field is absent, not when it is falsy. */
  function FieldOr(fields: map<string, Json>, key: string, default: Json): (j: Json)
    ensures key in fields ==> j == fields[key]
    ensures key !in fields ==> j == default
  {
    Field(fields, key).GetOr(default)
  }

  /**
   * Lines 21-29 evaluate every default before any check. The default for `voice`,
   * `TTS_CONFIG.VOICES.FEMALE[0].value`, throws (`VOICES` has no `FEMALE` entry), so the
   * body destructures without throwing only when it is an object that carries `voice`.
   */
  predicate Destructures(body: Body) {
    body.Object? && "voice" in body.fields
  }

  /** Line 42: `!input || input.trim() === ''`, for a string or a falsy `input`. */
  predicate InputMissingOrBlank(input: Option<Json>) {
    input.None? || !Truthy(input.value) || (input.value.JStr? && IsBlank(input.value.s))
  }

  /** Builds the vendor request body and then updates it in place, as lines 60-78 do. */
  method BuildRequestBody(model: Json, input: string, voice: Json, speed: Json, gain: Json,
                          responseFormat: Json, sampleRate: Option<Json>)
    returns (rb: RequestBody)
    ensures rb.model == model && rb.voice == voice && rb.speed == speed && rb.gain == gain
    ensures rb.responseFormat == responseFormat && !rb.stream
    ensures rb.sampleRate.Some? <==> sampleRate.Some? && Truthy(sampleRate.value)
    ensures rb.sampleRate.Some? ==> rb.sampleRate == sampleRate
    ensures Contains(rb.input, Marker) && rb.input == WithMarker(input)
  {
    rb := RequestBody(model, input, voice, speed, gain, responseFormat, false, None);
    if sampleRate.Some? && Truthy(sampleRate.value) {
      rb := rb.(sampleRate := sampleRate);
    }
    if !Contains(input, Marker) {
      rb := rb.(input := Marker + input);
    }
    WithMarkerContainsMarker(input);
  }

  /** The route handler `handler(req, res)`. */
  method Handle(req: Request, apiKeyPresent: bool, mockMode: bool, vendor: VendorReply)
    returns (res: Response)
    // 1. any method but POST: 405, whatever the body
    ensures req.verb != "POST" ==> res == Response(405, ErrorBody(MethodNotAllowed), None)
    // 2. the defaults throw before validation: generic 500, even for an empty input
    ensures req.verb == "POST" && !Destructures(req.body) ==>
              res == Response(500, ErrorBody(InternalError), None)
    // 3. missing, falsy or whitespace-only input: 400
    ensures req.verb == "POST" && Destructures(req.body)
            && InputMissingOrBlank(Field(req.body.fields, "input")) ==>
              res == Response(400, ErrorBody(InvalidInput), None)
    // 4. a truthy input that is not a string has no `trim`: generic 500
    ensures req.verb == "POST" && Destructures(req.body)
            && (var i := Field(req.body.fields, "input");
                i.Some? && Truthy(i.value) && !i.value.JStr?) ==>
              res == Response(500, ErrorBody(InternalError), None)
    // 5. too long, measured before the marker is added: 400; then 6. no key: 500
    ensures req.verb == "POST" && Destructures(req.body)
            && (var i := Field(req.body.fields, "input"); i.Some? && i.value.JStr? && !IsBlank(i.value.s)) ==>
              var i := Field(req.body.fields, "input");
              && (|i.value.s| > Config.MaxTextLength ==> res == Response(400, ErrorBody(TooLong), None))
              && (|i.value.s| <= Config.MaxTextLength && !apiKeyPresent ==>
                    res == Response(500, ErrorBody(ConfigError), None))
    // past every check: mock reply, or exactly one vendor request and its mapped reply
    ensures req.verb == "POST" && Destructures(req.body)
            && (var i := Field(req.body.fields, "input");
                i.Some? && i.value.JStr? && !IsBlank(i.value.s) && |i.value.s| <= Config.MaxTextLength)
            && apiKeyPresent ==>
              var i := Field(req.body.fields, "input");
              var fields := req.body.fields;
              var text := i.value.s;
              var format := FieldOr(fields, "response_format", JStr(Config.DefaultFormat));
              if mockMode then
                res == Response(200, SuccessBody(SuccessMessage,
                         ProxyData(None, Some(MockAudioUrl), format, None, Some(|text|))), None)
              else
                && res.forwarded.Some?
                && var rb := res.forwarded.value;
                && rb.input == WithMarker(text) && !rb.stream && rb.responseFormat == format
                && rb.model == FieldOr(fields, "model", JStr(Config.DefaultModel))
                && rb.voice == fields["voice"]
                && rb.speed == FieldOr(fields, "speed", JNum(Config.DefaultSpeed))
                && rb.gain == FieldOr(fields, "gain", JNum(Config.DefaultGain))
                && (rb.sampleRate.Some? <==> "sample_rate" in fields && Truthy(fields["sample_rate"]))
                && (rb.sampleRate.Some? ==> rb.sampleRate.value == fields["sample_rate"])
                && match vendor
                   case FetchFailed(m) =>
                     res.status == 500 && res.body == ErrorBody(CallFailedPrefix + m)
                   case Replied(ok, status, errorBody, audio) =>
                     if ok then
                       res.status == 200 && res.body == SuccessBody(SuccessMessage,
                         ProxyData(Some(audio), None, format, Some(GetMimeType(ToJsString(format))), None))
                     else
                       res.status == 500
                       && res.body == ErrorBody(CallFailedPrefix + VendorErrorMessage(status, errorBody))
    // no vendor request is sent unless every check passed
    ensures res.forwarded.Some? ==> res.status in {200, 500} && !mockMode && apiKeyPresent
  {
    if req.verb != "POST" {
      return Response(405, ErrorBody(MethodNotAllowed), None);
    }
    if !Destructures(req.body) {
      // `req.body` is not an object, or `voice` is absent and its default throws
      Config.NoTopLevelFemale();
      return Response(500, ErrorBody(InternalError), None);
    }
    var fields := req.body.fields;
    var input := Field(fields, "input");
    var model := FieldOr(fields, "model", JStr(Config.DefaultModel));
    var voice := fields["voice"];
    var speed := FieldOr(fields, "speed", JNum(Config.DefaultSpeed));
    var gain := FieldOr(fields, "gain", JNum(Config.DefaultGain));
    var format := FieldOr(fields, "response_format", JStr(Config.DefaultFormat));
    var sampleRate := Field(fields, "sample_rate");

    if input.None? || !Truthy(input.value) {
      return Response(400, ErrorBody(InvalidInput), None);
    }
    if !input.value.JStr? {
      // `input.trim` is not a function: the outer catch
      return Response(500, ErrorBody(InternalError), None);
    }
    var text := input.value.s;
    var blank := CheckBlank(text);
    if blank {
      return Response(400, ErrorBody(InvalidInput), None);
    }
    if |text| > Config.MaxTextLength {
      return Response(400, ErrorBody(TooLong), None);
    }
    if !apiKeyPresent {
      return Response(500, ErrorBody(ConfigError), None);
    }

    var requestBody := BuildRequestBody(model, text, voice, speed, gain, format, sampleRate);

    if mockMode {
      return Response(200, SuccessBody(SuccessMessage,
        ProxyData(None, Some(MockAudioUrl), format, None, Some(|text|))), None);
    }

    match vendor
    case FetchFailed(m) =>
      res := Response(500, ErrorBody(CallFailedPrefix + m), Some(requestBody));
    case Replied(ok, status, errorBody, audio) =>
      if !ok {
        var message := VendorErrorMessage(status, errorBody);
        res := Response(500, ErrorBody(CallFailedPrefix + message), Some(requestBody));
      } else {
        var data := ProxyData(Some(audio), None, format, Some(GetMimeType(ToJsString(format))), None);
        res := Response(200, SuccessBody(SuccessMessage, data), Some(requestBody));
      }
  }
}

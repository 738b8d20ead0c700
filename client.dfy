/**
 * The browser-side client `synthesizeSpeech(text, options)`: it fills in defaults
 * for the options, asks the proxy route for audio (or, in development mode, answers
 * with the mock resource itself), and rewrites inline Base64 audio into a `data:` URL
 * in the form of section 3 of RFC 2397.
 *
 * What the `fetch` to the proxy gives (a rejection, or a status and a body that may
 * not parse as JSON) and the development-mode switch are inputs; a thrown error is
 * the `Threw` outcome with its message.
 */
module Client {
  import opened Wrappers
  import opened JsBuiltins
  import Config
  import Route = SynthesizeRoute

  /** The `options` argument; `None` is an absent property. */
  datatype Options = Options(
    model: Option<string>, voice: Option<string>, speed: Option<int>, gain: Option<int>,
    format: Option<string>, sampleRate: Option<int>)

  /** The JSON payload posted to the proxy route. `sampleRate` `None` is `undefined` (dropped). */
  datatype Payload = Payload(
    model: string, input: string, voice: string, speed: int, gain: int,
    responseFormat: string, sampleRate: Option<int>)

  /** What `synthesizeSpeech` resolves to: its own mock object, or the proxy's JSON body. */
  datatype ClientResult =
    | MockResult(audioUrl: string, format: string, durationTenths: int)
    | ServerResult(body: Route.ResponseBody)

  datatype Outcome = Returned(result: ClientResult) | Threw(message: string)

  /** The engine's message for reading index 0 of `undefined` (`TTS_CONFIG.VOICES.FEMALE[0]`). */
  const LookupErrorMessage: string := "Cannot read properties of undefined (reading '0')"
  const RequestFailed: string := "语音合成请求失败"
  const SynthesisFailed: string := "语音合成失败，请重试"
  const DataScheme: string := "data:"
  const Base64Tag: string := ";base64,"

  /** The `data:<mime>;base64,<payload>` URL of section 3 of RFC 2397. */
  function DataUrl(mime: string, payload: string): (u: string)
    ensures StartsWith(u, DataScheme)
    ensures |u| == |mime| + |payload| + 13
  {
    DataScheme + mime + Base64Tag + payload
  }

  /** Reads a Base64 `data:` URL back into its media type and payload. */
  function ParseDataUrl(u: string): Option<(string, string)> {
    if !StartsWith(u, DataScheme) then None
    else
      var rest := u[|DataScheme|..];
      match IndexOf(rest, ',')
      case None => None
      case Some(k) =>
        var meta := rest[..k];
        if |meta| >= 7 && meta[|meta| - 7..] == ";base64" then Some((meta[..|meta| - 7], rest[k + 1..]))
        else None
  }

  /** A media type without a comma survives the trip through a data URL, and so does the payload. */
  lemma DataUrlRoundTrip(mime: string, payload: string)
    requires ',' !in mime
    ensures ParseDataUrl(DataUrl(mime, payload)) == Some((mime, payload))
  {
    var u := DataUrl(mime, payload);
    var rest := u[|DataScheme|..];
    assert rest == mime + Base64Tag + payload;
    var k := |mime| + 7;
    assert rest[k] == ',';
    assert rest[..k] == mime + ";base64";
    assert ',' !in rest[..k];
    assert IndexOf(rest, ',') == Some(k);
    assert rest[k + 1..] == payload;
  }

  /** The MIME type for inline audio: `d.mimeType || "audio/" + (d.format || fallbackFormat)`. */
  function InlineMime(d: Route.ProxyData, fallbackFormat: string): (m: string)
    ensures StrTruthy(d.mimeType) ==> m == d.mimeType.value
    ensures !StrTruthy(d.mimeType) ==>
              m == "audio/" + (if Truthy(d.format) then ToJsString(d.format) else fallbackFormat)
  {
    StrOr(d.mimeType, "audio/" + (if Truthy(d.format) then ToJsString(d.format) else fallbackFormat))
  }

  /** Lines 74-80: present inline audio is rewritten as a data URL; everything else is kept. */
  function InlineAsDataUrl(d: Route.ProxyData, fallbackFormat: string): (d': Route.ProxyData)
    ensures d' == d.(audioContent := d'.audioContent)
    ensures StrTruthy(d.audioContent) ==>
              d'.audioContent == Some(DataUrl(InlineMime(d, fallbackFormat), d.audioContent.value))
    ensures !StrTruthy(d.audioContent) ==> d' == d
  {
    if StrTruthy(d.audioContent) then
      d.(audioContent := Some(DataUrl(InlineMime(d, fallbackFormat), d.audioContent.value)))
    else d
  }

  /** `response.ok`: a 2xx status. */
  predicate ReplyOk(status: nat) {
    200 <= status <= 299
  }

  /** What `response.json()` gives: the route's JSON body, or a parse failure and its message. */
  datatype ReplyBody = Unparsable(message: string) | Parsed(json: Route.ResponseBody)

  /** What the `fetch` to the proxy route gives (lines 54-60). */
  datatype ProxyReply =
    | Rejected(message: string)             // `fetch` rejected: the route could not be reached
    | Answered(status: nat, body: ReplyBody)

  /** The reply makes `synthesizeSpeech` throw: unreachable route, non-JSON body, or a non-ok status. */
  predicate Fails(reply: ProxyReply) {
    reply.Rejected? || reply.body.Unparsable? || !ReplyOk(reply.status)
  }

  /** The `data` of a successful, ok, parsed reply, if there is one. */
  function ServedData(reply: ProxyReply): Option<Route.ProxyData> {
    if reply.Answered? && ReplyOk(reply.status) && reply.body.Parsed? && reply.body.json.SuccessBody?
    then Some(reply.body.json.data)
    else None
  }

  /** Line 67: the message thrown for a non-ok reply, `errorData.error || fallback`. */
  function ReplyErrorMessage(body: Route.ResponseBody): (m: string)
    ensures m != ""
    ensures body.ErrorBody? && body.error != "" ==> m == body.error
    ensures !(body.ErrorBody? && body.error != "") ==> m == RequestFailed
  {
    match body
    case ErrorBody(e) => Or(e, RequestFailed)
    case SuccessBody(_, _) => RequestFailed
  }

  /** The format the client asks for: `options.format || DEFAULT_FORMAT`. */
  function RequestedFormat(options: Options): (f: string)
    ensures f != ""
    ensures StrTruthy(options.format) ==> f == options.format.value
    ensures !StrTruthy(options.format) ==> f == Config.DefaultFormat
  {
    StrOr(options.format, Config.DefaultFormat)
  }

  /**
   * The payload of lines 12-27, or `None` where building it throws: a falsy voice falls
   * back to `TTS_CONFIG.VOICES.FEMALE[0].value`, which does not exist.
   */
  function PayloadFor(text: string, options: Options): (payload: Option<Payload>)
    ensures payload.None? <==> !StrTruthy(options.voice)
    ensures payload.Some? ==>
              var p := payload.value;
              && p.input == text && p.voice == options.voice.value
              && p.model == StrOr(options.model, Config.DefaultModel)
              && p.speed == IntOr(options.speed, Config.DefaultSpeed)
              && p.gain == IntOr(options.gain, Config.DefaultGain)
              && p.responseFormat == RequestedFormat(options)
              && (IntTruthy(options.sampleRate) ==> p.sampleRate == options.sampleRate)
              && (!IntTruthy(options.sampleRate) ==> p.sampleRate == Config.DefaultRateFor(p.responseFormat))
  {
    if !StrTruthy(options.voice) then None
    else
      var format := RequestedFormat(options);
      Some(Payload(StrOr(options.model, Config.DefaultModel), text, options.voice.value,
                   IntOr(options.speed, Config.DefaultSpeed), IntOr(options.gain, Config.DefaultGain),
                   format, if IntTruthy(options.sampleRate) then options.sampleRate else Config.DefaultRateFor(format)))
  }

  /** A supported format always gets a sample rate in the payload, explicit or default. */
  lemma PayloadHasRate(text: string, options: Options)
    requires StrTruthy(options.voice)
    requires RequestedFormat(options) in Config.SupportedFormats || IntTruthy(options.sampleRate)
    ensures PayloadFor(text, options).value.sampleRate.Some?
  {
  }

  /** Builds the payload and then assigns its sample rate, as lines 12-27 do. */
  method BuildPayload(text: string, options: Options) returns (payload: Option<Payload>)
    ensures payload == PayloadFor(text, options)
  {
    if !StrTruthy(options.voice) {
      // the default `TTS_CONFIG.VOICES.FEMALE[0].value` throws
      Config.NoTopLevelFemale();
      return None;
    }
    var p := Payload(StrOr(options.model, Config.DefaultModel), text, options.voice.value,
                     IntOr(options.speed, Config.DefaultSpeed), IntOr(options.gain, Config.DefaultGain),
                     RequestedFormat(options), None);
    if IntTruthy(options.sampleRate) {
      p := p.(sampleRate := options.sampleRate);
    } else {
      p := p.(sampleRate := Config.DefaultRateFor(p.responseFormat));
    }
    payload := Some(p);
  }

  /**
   * `synthesizeSpeech(text, options)`; `posted` is the payload sent to the proxy, if any,
   * and `reply` is what sending it gives.
   */
  method SynthesizeSpeech(text: string, options: Options, mockMode: bool, reply: ProxyReply)
    returns (out: Outcome, posted: Option<Payload>)
    // a falsy voice makes the default lookup throw; the error is rethrown with its message
    ensures !StrTruthy(options.voice) ==> out == Threw(LookupErrorMessage) && posted.None?
    // development mode: the mock object, with `audioUrl` at the top level and no `data`
    ensures StrTruthy(options.voice) && mockMode ==>
              posted.None? && out == Returned(MockResult(Route.MockAudioUrl, RequestedFormat(options), |text|))
    // otherwise exactly one request to the proxy, carrying the payload of lines 12-27
    ensures StrTruthy(options.voice) && !mockMode ==> posted.Some? && posted == PayloadFor(text, options)
    // an unreachable route or a body that is not JSON: the error is rethrown with its message
    ensures StrTruthy(options.voice) && !mockMode && reply.Rejected? ==>
              out == Threw(Or(reply.message, SynthesisFailed))
    ensures StrTruthy(options.voice) && !mockMode && reply.Answered? && reply.body.Unparsable? ==>
              out == Threw(Or(reply.body.message, SynthesisFailed))
    // a non-ok status throws the route's `error`, or the fixed fallback
    ensures StrTruthy(options.voice) && !mockMode && reply.Answered? && reply.body.Parsed?
            && !ReplyOk(reply.status) ==>
              out == Threw(ReplyErrorMessage(reply.body.json))
    // an ok reply is returned, with inline audio rewritten into a data URL
    ensures StrTruthy(options.voice) && !mockMode && reply.Answered? && reply.body.Parsed?
            && ReplyOk(reply.status) ==>
              out.Returned? && out.result.ServerResult?
              && match reply.body.json
                 case ErrorBody(_) => out.result.body == reply.body.json
                 case SuccessBody(m, d) =>
                   out.result.body == Route.SuccessBody(m, InlineAsDataUrl(d, RequestedFormat(options)))
    // with a voice and outside development mode, it throws exactly on a failing reply
    ensures StrTruthy(options.voice) && !mockMode ==> (out.Threw? <==> Fails(reply))
    ensures out.Threw? ==> out.message != ""
  {
    var payload := BuildPayload(text, options);
    if payload.None? {
      return Threw(Or(LookupErrorMessage, SynthesisFailed)), None;
    }
    var p := payload.value;
    if mockMode {
      return Returned(MockResult(Route.MockAudioUrl, p.responseFormat, |text|)), None;
    }
    posted := Some(p);
    if reply.Rejected? {
      return Threw(Or(reply.message, SynthesisFailed)), posted;
    }
    if reply.body.Unparsable? {
      return Threw(Or(reply.body.message, SynthesisFailed)), posted;
    }
    if !ReplyOk(reply.status) {
      var message := ReplyErrorMessage(reply.body.json);
      return Threw(Or(message, SynthesisFailed)), posted;
    }
    var data := reply.body.json;
    if data.SuccessBody? && StrTruthy(data.data.audioContent) {
      data := data.(data := InlineAsDataUrl(data.data, p.responseFormat));
    }
    out := Returned(ServerResult(data));
  }
}

/**
 * The home page's form state and its submit handler `handleGenerateSpeech`: a blank
 * text is refused locally; otherwise the error is cleared, `isProcessing` is raised
 * for the duration of one client call, and the outcome either becomes an audio result
 * (its source chosen in a fixed priority order) or an error message that also
 * discards the previous result.
 *
 * The notification, the three-second auto-dismiss and the rendering are not modelled.
 */
module HomePage {
  import opened Wrappers
  import opened JsBuiltins
  import Config
  import Route = SynthesizeRoute
  import Client
  import FormatSelector

  /** The `audioResult` state handed to the player. */
  datatype AudioResult = AudioResult(src: string, mimeType: string, format: string)

  /** One call of `synthesizeSpeech`, with the value of `isProcessing` when it was made. */
  datatype ClientCall = ClientCall(text: string, options: Client.Options, busy: bool)

  function EmptyTextError(language: string): string {
    if language == "zh" then "请输入要转换的文本内容" else "Please enter text to convert"
  }

  function FailedFallback(language: string): string {
    if language == "zh" then "语音合成失败" else "Speech synthesis failed"
  }

  function ErrorFallback(language: string): string {
    if language == "zh" then "语音合成过程中发生错误，请重试"
    else "An error occurred during speech synthesis, please try again"
  }

  /** `result.data`: the mock object has none. */
  function ResultData(result: Client.ClientResult): Option<Route.ProxyData> {
    match result
    case ServerResult(SuccessBody(_, d)) => Some(d)
    case _ => None
  }

  /** `result.success` is truthy. */
  predicate ResultSucceeded(result: Client.ClientResult) {
    result.MockResult? || result.body.SuccessBody?
  }

  /** `result.error`, with `""` standing for `undefined`. */
  function ResultError(result: Client.ClientResult): string {
    match result
    case ServerResult(ErrorBody(e)) => e
    case _ => ""
  }

  /** `result.data?.format || format`. */
  function ResultFormat(data: Option<Route.ProxyData>, format: string): string {
    if data.Some? && Truthy(data.value.format) then ToJsString(data.value.format) else format
  }

  /**
   * Lines 76-93: a `data:` URL as it is, else Base64 content wrapped into one, else the
   * audio URL, else the empty source.
   */
  function AudioSource(data: Option<Route.ProxyData>, format: string): (src: string)
    ensures data.None? ==> src == ""
    ensures data.Some? && StrTruthy(data.value.audioContent)
            && StartsWith(data.value.audioContent.value, Client.DataScheme) ==>
              src == data.value.audioContent.value
    ensures data.Some? && StrTruthy(data.value.audioContent)
            && !StartsWith(data.value.audioContent.value, Client.DataScheme) ==>
              src == Client.DataUrl(Client.InlineMime(data.value, format), data.value.audioContent.value)
    ensures data.Some? && !StrTruthy(data.value.audioContent) && StrTruthy(data.value.audioUrl) ==>
              src == data.value.audioUrl.value
    ensures data.Some? && !StrTruthy(data.value.audioContent) && !StrTruthy(data.value.audioUrl) ==>
              src == ""
    ensures src != "" ==> data.Some? && (StartsWith(src, Client.DataScheme) || data.value.audioUrl == Some(src))
  {
    match data
    case None => ""
    case Some(d) =>
      if StrTruthy(d.audioContent) && StartsWith(d.audioContent.value, Client.DataScheme) then
        d.audioContent.value
      else if StrTruthy(d.audioContent) then
        Client.DataUrl(Client.InlineMime(d, format), d.audioContent.value)
      else if StrTruthy(d.audioUrl) then
        d.audioUrl.value
      else ""
  }

  /** Lines 95-99: the result handed to the player after a success. */
  function AudioResultFor(result: Client.ClientResult, format: string): (r: AudioResult)
    ensures r.format == ResultFormat(ResultData(result), format)
    ensures r.mimeType == StrOr(if result.ServerResult? && result.body.SuccessBody? then result.body.data.mimeType else None,
                               "audio/" + r.format)
  {
    var data := ResultData(result);
    var mime := if data.Some? then data.value.mimeType else None;
    AudioResult(AudioSource(data, format), StrOr(mime, "audio/" + ResultFormat(data, format)), ResultFormat(data, format))
  }

  /**
   * In development mode the client answers with `audioUrl` at the top level and no
   * `data`, so the page finds no source at all.
   */
  lemma MockResultHasNoSource(url: string, mockFormat: string, tenths: int, format: string)
    ensures AudioResultFor(Client.MockResult(url, mockFormat, tenths), format)
            == AudioResult("", "audio/" + format, format)
  {
  }

  /**
   * The page's own wrapping agrees with the client's: whether or not the client has
   * already rewritten Base64 content into a data URL, the page plays the same source.
   */
  lemma SourceAgreesWithClient(d: Route.ProxyData, format: string)
    requires StrTruthy(d.audioContent) ==> !StartsWith(d.audioContent.value, Client.DataScheme)
    ensures AudioSource(Some(Client.InlineAsDataUrl(d, format)), format) == AudioSource(Some(d), format)
    ensures StrTruthy(d.audioContent) ==>
              AudioSource(Some(Client.InlineAsDataUrl(d, format)), format)
              == Client.DataUrl(Client.InlineMime(d, format), d.audioContent.value)
  {
    if StrTruthy(d.audioContent) {
      var u := Client.DataUrl(Client.InlineMime(d, format), d.audioContent.value);
      assert StrTruthy(Some(u)) && StartsWith(u, Client.DataScheme);
    }
  }

  /**
   * Line 64: the page's call of `synthesizeSpeech`, with what its answer means for the
   * audio result the page then builds from it (lines 74-99).
   */
  method Synthesize(text: string, options: Client.Options, format: string, mockMode: bool,
                    reply: Client.ProxyReply)
    returns (out: Client.Outcome)
    requires StrTruthy(options.voice) && Client.RequestedFormat(options) == format
    // the client throws exactly when the reply fails, and never for want of a voice
    ensures out.Threw? <==> !mockMode && Client.Fails(reply)
    // development mode: a success whose audio result has an empty source
    ensures mockMode ==>
              out.Returned? && ResultSucceeded(out.result)
              && AudioResultFor(out.result, format) == AudioResult("", "audio/" + format, format)
    // inline audio from the proxy: a success whose source is the client's data URL
    ensures !mockMode && Client.ServedData(reply).Some?
            && StrTruthy(Client.ServedData(reply).value.audioContent)
            && !StartsWith(Client.ServedData(reply).value.audioContent.value, Client.DataScheme) ==>
              out.Returned? && ResultSucceeded(out.result)
              && AudioResultFor(out.result, format).src ==
                   Client.DataUrl(Client.InlineMime(Client.ServedData(reply).value, format),
                                  Client.ServedData(reply).value.audioContent.value)
  {
    var posted;
    out, posted := Client.SynthesizeSpeech(text, options, mockMode, reply);
    if mockMode {
      MockResultHasNoSource(Route.MockAudioUrl, format, |text|, format);
    } else if Client.ServedData(reply).Some?
              && !(StrTruthy(Client.ServedData(reply).value.audioContent)
                   && StartsWith(Client.ServedData(reply).value.audioContent.value, Client.DataScheme)) {
      SourceAgreesWithClient(Client.ServedData(reply).value, format);
    }
  }

  class Home {
    var language: string
    var text: string
    var voice: string
    var speed: int
    var gain: int
    var format: string
    var sampleRate: Option<int>
    var isProcessing: bool
    var error: string
    var showSuccess: bool
    var audioResult: Option<AudioResult>
    /** Every call made to `synthesizeSpeech`. */
    ghost var calls: seq<ClientCall>

    /**
     * The language has a voice catalogue, the voice is one a picker offers, the format
     * is one the format selector offers, and the sample rate is one that format allows
     * (the selector's effect restores that after every format change).
     */
    ghost predicate Valid()
      reads this`language, this`voice, this`format, this`sampleRate
    {
      && language in Config.Voices && voice in Config.VoiceValues() && format in Config.SupportedFormats
      && sampleRate.Some? && sampleRate.value in Config.RatesFor(format)
    }

    /** Lines 13-43: the initial state. */
    constructor ()
      ensures Valid()
      ensures language == Config.DefaultLanguage && text == ""
      ensures voice == Config.FirstFemaleVoice(Config.DefaultLanguage).value
      ensures speed == Config.DefaultSpeed && gain == Config.DefaultGain && format == Config.DefaultFormat
      ensures sampleRate == Config.DefaultRateFor(Config.DefaultFormat)
      ensures !isProcessing && error == "" && !showSuccess && audioResult.None? && calls == []
    {
      Config.LanguagesHaveVoices();
      Config.FirstFemaleVoiceOffered(Config.DefaultLanguage);
      language, text := Config.DefaultLanguage, "";
      voice := Config.FirstFemaleVoice(Config.DefaultLanguage).value;
      speed, gain, format := Config.DefaultSpeed, Config.DefaultGain, Config.DefaultFormat;
      sampleRate := Config.DefaultRateFor(Config.DefaultFormat);
      isProcessing, error, showSuccess, audioResult := false, "", false, None;
      calls := [];
    }

    /**
     * A language button (line 180). The effect of lines 28-30 depends on `language`,
     * so it resets the voice to the language's first female voice only when the
     * clicked language differs from the active one.
     */
    method SetLanguage(lang: string)
      requires Valid()
      requires lang in Config.Voices  // the buttons offer only the ids of `LANGUAGES`
      modifies this`language, this`voice
      ensures Valid()
      ensures language == lang
      ensures lang == old(language) ==> voice == old(voice)
      ensures lang != old(language) ==> voice == Config.FirstFemaleVoice(lang).value
    {
      if lang != language {
        Config.FirstFemaleVoiceOffered(lang);
        voice := Config.FirstFemaleVoice(lang).value;
      }
      language := lang;
    }

    /** The voice picker's `onChange`: one of the offered voices. */
    method SetVoice(v: string)
      requires Valid() && v in Config.VoiceValues()
      modifies this`voice
      ensures Valid() && voice == v
    {
      voice := v;
    }

    /**
     * The format selector's `onFormatChange` (line 339), followed by the selector's effect
     * for the new format, which calls `onSampleRateChange` (line 341) with the format's
     * default when the current rate is not allowed.
     */
    method SetFormat(f: string)
      requires Valid() && f in Config.SupportedFormats
      modifies this`format, this`sampleRate
      ensures Valid() && format == f
      ensures sampleRate == FormatSelector.CoercedRate(f, old(sampleRate))
      ensures old(sampleRate.value) in Config.RatesFor(f) ==> sampleRate == old(sampleRate)
      ensures old(sampleRate.value) !in Config.RatesFor(f) ==> sampleRate == Config.DefaultRateFor(f)
    {
      format := f;
      var selector := new FormatSelector.Selector(f);
      var rateChange := selector.Effect(f, sampleRate);
      if rateChange.Some? {
        sampleRate := rateChange.value;
      }
    }

    /** The rate list's `onChange` (line 341): one of the rates the list offers for the format. */
    method SetSampleRate(rate: int)
      requires Valid() && rate in Config.RatesFor(format)
      modifies this`sampleRate
      ensures Valid() && sampleRate == Some(rate)
    {
      sampleRate := Some(rate);
    }

    /** The speed slider's `onChange` (line 310). */
    method SetSpeed(v: int)
      requires Valid()
      modifies this`speed
      ensures Valid() && speed == v
    {
      speed := v;
    }

    /** The gain slider's `onChange` (line 323). */
    method SetGain(v: int)
      requires Valid()
      modifies this`gain
      ensures Valid() && gain == v
    {
      gain := v;
    }

    /** The text editor's `onChange`. */
    method SetText(t: string)
      modifies this`text
      ensures text == t
    {
      text := t;
    }

    /** Line 380: the submit button is disabled while a request is in flight or the text is blank. */
    function SubmitDisabled(): (disabled: bool)
      reads this
      ensures disabled <==> isProcessing || IsBlank(text)
    {
      TrimEmptyIffBlank(text);
      isProcessing || Trim(text) == ""
    }

    /**
     * Lines 74-157: the error, result and notification state after the client's answer
     * `out`, starting from the error `error0` and the notification flag `shown0`.
     */
    ghost predicate SettledAfter(out: Client.Outcome, error0: string, shown0: bool)
      reads this`error, this`audioResult, this`showSuccess, this`language, this`format
    {
      && (out.Threw? ==>
            error == Or(out.message, ErrorFallback(language)) && audioResult.None? && showSuccess == shown0)
      && (out.Returned? && !ResultSucceeded(out.result) ==>
            error == Or(Or(ResultError(out.result), FailedFallback(language)), ErrorFallback(language))
            && audioResult.None? && showSuccess == shown0)
      && (out.Returned? && ResultSucceeded(out.result) ==>
            error == error0 && showSuccess && audioResult == Some(AudioResultFor(out.result, format)))
    }

    /**
     * Lines 74-160: the state after the client's answer, whichever way it went, and the
     * `finally` that ends processing.
     */
    method Settle(out: Client.Outcome)
      modifies this`error, this`audioResult, this`showSuccess, this`isProcessing
      ensures SettledAfter(out, old(error), old(showSuccess)) && !isProcessing
      ensures out.Returned? && ResultSucceeded(out.result) ==> audioResult == Some(AudioResultFor(out.result, format))
      ensures !(out.Returned? && ResultSucceeded(out.result)) ==> audioResult.None?
    {
      match out {
        case Threw(message) =>
          error := Or(message, ErrorFallback(language));
          audioResult := None;
        case Returned(result) =>
          if ResultSucceeded(result) {
            audioResult := Some(AudioResultFor(result, format));
            showSuccess := true;
          } else {
            var thrown := Or(ResultError(result), FailedFallback(language));
            error := Or(thrown, ErrorFallback(language));
            audioResult := None;
          }
      }
      isProcessing := false;
    }

    /** The options object of lines 56-62. */
    function CurrentOptions(): (options: Client.Options)
      reads this`voice, this`speed, this`gain, this`format, this`sampleRate
      ensures options.model.None? && options.voice == Some(voice) && options.format == Some(format)
      ensures options.speed == Some(speed) && options.gain == Some(gain) && options.sampleRate == sampleRate
      ensures Valid() ==>
                StrTruthy(options.voice) && Client.RequestedFormat(options) == format
                && IntTruthy(options.sampleRate)
    {
      Client.Options(None, Some(voice), Some(speed), Some(gain), Some(format), sampleRate)
    }

    /**
     * In every valid state, the payload the client builds from the page's options carries
     * the page's text, voice and format, and a sample rate that format allows.
     */
    lemma PayloadCarriesSettings()
      requires Valid()
      ensures Client.PayloadFor(text, CurrentOptions())
              == Some(Client.Payload(Config.DefaultModel, text, voice, IntOr(Some(speed), Config.DefaultSpeed),
                                     IntOr(Some(gain), Config.DefaultGain), format, sampleRate))
      ensures sampleRate.Some? && sampleRate.value in Config.RatesFor(format)
    {
    }

    /**
     * Lines 52-160: the call for a non-blank text. `reply` is what the client's `fetch` to
     * the proxy route gives; `out` is the client's answer. The settings (language, text,
     * voice, speed, gain, format, sample rate) lie outside the `modifies` frame, so they
     * and `Valid()`, which reads only them, are unchanged.
     */
    method Submit(mockMode: bool, reply: Client.ProxyReply) returns (out: Client.Outcome)
      requires Valid()
      modifies this`error, this`isProcessing, this`calls, this`audioResult, this`showSuccess
      // exactly one call, made while `isProcessing` is true, and it is false afterwards
      ensures calls == old(calls) + [ClientCall(text, old(CurrentOptions()), true)] && !isProcessing
      ensures SettledAfter(out, "", old(showSuccess))
      // the page's voice is never falsy: the client throws exactly when the reply fails
      ensures out.Threw? <==> !mockMode && Client.Fails(reply)
      // development mode: success, but with an empty source
      ensures mockMode ==> audioResult == Some(AudioResult("", "audio/" + format, format))
      // inline audio from the proxy ends up as the data URL the client built
      ensures !mockMode && Client.ServedData(reply).Some?
              && StrTruthy(Client.ServedData(reply).value.audioContent)
              && !StartsWith(Client.ServedData(reply).value.audioContent.value, Client.DataScheme) ==>
                audioResult.Some? && audioResult.value.src ==
                  Client.DataUrl(Client.InlineMime(Client.ServedData(reply).value, format),
                                 Client.ServedData(reply).value.audioContent.value)
    {
      error := "";
      isProcessing := true;

      var options := CurrentOptions();
      calls := calls + [ClientCall(text, options, isProcessing)];
      out := Synthesize(text, options, format, mockMode, reply);
      Settle(out);
    }

    /**
     * `handleGenerateSpeech`: a blank text is refused; any other text is submitted.
     * `outcome` is the client's answer, `None` when the client is not called. As for
     * `Submit`, the `modifies` frame leaves the settings unchanged.
     */
    method HandleGenerateSpeech(mockMode: bool, reply: Client.ProxyReply) returns (ghost outcome: Option<Client.Outcome>)
      requires Valid()
      modifies this`error, this`isProcessing, this`calls, this`audioResult, this`showSuccess
      ensures Valid()
      // a blank text is refused without calling the client or touching `isProcessing`
      ensures IsBlank(text) ==>
                && outcome.None? && error == EmptyTextError(language) && isProcessing == old(isProcessing)
                && audioResult == old(audioResult) && showSuccess == old(showSuccess) && calls == old(calls)
      // otherwise exactly one call, made while `isProcessing` is true, and it is false afterwards
      ensures !IsBlank(text) ==>
                && outcome.Some?
                && calls == old(calls) + [ClientCall(text, old(CurrentOptions()), true)]
                && !isProcessing
      ensures !IsBlank(text) ==> SettledAfter(outcome.value, "", old(showSuccess))
      // the page's voice is never falsy: the client throws exactly when the reply fails
      ensures !IsBlank(text) ==> (outcome.value.Threw? <==> !mockMode && Client.Fails(reply))
      // development mode: success, but with an empty source
      ensures !IsBlank(text) && mockMode ==> audioResult == Some(AudioResult("", "audio/" + format, format))
      // inline audio from the proxy ends up as the data URL the client built
      ensures !IsBlank(text) && !mockMode && Client.ServedData(reply).Some?
              && StrTruthy(Client.ServedData(reply).value.audioContent)
              && !StartsWith(Client.ServedData(reply).value.audioContent.value, Client.DataScheme) ==>
                audioResult.Some? && audioResult.value.src ==
                  Client.DataUrl(Client.InlineMime(Client.ServedData(reply).value, format),
                                 Client.ServedData(reply).value.audioContent.value)
    {
      var blank := CheckBlank(text);
      if blank {
        error := EmptyTextError(language);
        outcome := None;
        return;
      }
      var out := Submit(mockMode, reply);
      outcome := Some(out);
    }
  }
}

# tts_creator core, modelled in Dafny

tts_creator is a Next.js text-to-speech web application. The browser page collects a text
and the voice settings. The client helper posts them to the server route `/api/synthesize`.
That route validates the request, forwards it to the vendor's speech endpoint and returns
the audio as Base64. The client rewrites the Base64 into a `data:` URL (section 3 of
RFC 2397). The page picks a playable source from the reply, and the audio player turns
that source into something an `<audio>` element can play.

This project models that core, one Dafny module per source file:

- `Config` (src/config/index.js): the voice, format and sample-rate tables, and the
  consistency between them.
- `SynthesizeRoute` (src/pages/api/synthesize.js): the route handler as an early-return
  chain over an abstract request body, API-key flag, development-mode flag and vendor
  reply. It also covers the vendor request body, which is built and then updated in
  place, and `getMimeType`.
- `Client` (src/utils/api.js): `synthesizeSpeech`. This covers payload defaults, the
  sample-rate default, error mapping and the data-URL rewrite, with a parser that reads
  the URL back.
- `FormatSelector` (src/components/UI/FormatSelector.js): the rate list, the effect that
  coerces the sample rate, and the disabled guards.
- `HomePage` (src/pages/index.js): the page's form state as a class, the submit handler
  `handleGenerateSpeech`, and the priority order in which the audio source is chosen.
- `AudioPlayer` (src/components/AudioPlayer/Player.js): the player as a class. It covers
  source resolution, the byte-copy loop, blob revocation (tracked in ghost state),
  element events, play/pause, seek and download.
- `AudioUtils` (src/utils/audio.js): `formatDuration` and `isTextTooLong`.
- `JsBuiltins` and `Wrappers`: the JavaScript built-ins these files rely on, written out.
  These are `trim`, `startsWith`, `includes`, `padStart`, the second field of `split('/')`
  (written with an `indexOf` helper), number-to-string, truthiness and `||` fallbacks.

Two quirks of the code are modelled as they behave:

- Both the route (synthesize.js:24) and the client (api.js:15) use
  `TTS_CONFIG.VOICES.FEMALE[0]` as the default voice. `VOICES` is keyed only by `en` and
  `zh`, so evaluating that default throws.
  - In the route, a body without a `voice` field, or a body that is not an object, gets
    the generic 500 before any validation. This holds even when the input is empty.
  - In the client, a falsy `voice` option makes `synthesizeSpeech` throw.
- In development mode the client returns its own mock object, with `audioUrl` at the top
  level and no `data`. The page reads the source only from `data`, so it ends up with an
  empty source (`HomePage.MockResultHasNoSource`).

Behaviour that follows the code rather than the application's documentation:

- The player's seek writes the chosen value unclamped. Only the range input bounds it
  (`AudioPlayer.SeekPastEnd`).
- A failed synthesis clears the previous audio result instead of keeping it.
- The client does not validate the text; only the page and the route do.
- The player revokes its previous blob URL only when the source or the type changes, not on unmount.
- The route forwards whatever sample rate it receives, without checking it against the
  format's list.
- The client also passes any truthy `sample_rate` option through unchecked
  (api.js:22-23). On the page, the rate is kept within the format's list only by the
  format selector's effect: every format change is followed by that effect
  (`HomePage.Home.SetFormat`), and the page's invariant records the result.
- The client's `fetch` to the route can reject, and a reply body can fail to parse as
  JSON (api.js:54, 65 and 70). Either error is rethrown with its own message (api.js:88-91).

## Model

| member | source | states |
|---|---|---|
| JsBuiltins.TrimEmptyIffBlank | src/pages/api/synthesize.js:42 | `s.trim() === ''` holds exactly when every character of `s` is ECMAScript whitespace |
| JsBuiltins.CheckBlank | src/pages/index.js:47 | the blank test as a statement: true exactly for whitespace-only strings |
| JsBuiltins.NatToStringRoundTrip | src/utils/audio.js:16 | the decimal numeral printed for a whole number reads back as that number |
| Config.FirstFemaleVoice | src/config/index.js:27-62 | `VOICES[key].FEMALE[0].value` is defined exactly for the language keys; it is a non-empty voice of that catalogue |
| Config.FirstFemaleVoiceOffered | src/config/index.js:38-60 | each language's first female voice is one of the voices a picker offers |
| Config.RatesFor | src/components/UI/FormatSelector.js:18 | `SAMPLE_RATES[format] \|\| []` is non-empty exactly for supported formats and contains the format's default |
| Config.DefaultRateFor | src/config/index.js:79-84 | a default rate exists exactly for supported formats and is in that format's rate list |
| Config.DefaultRatesAllowed | src/config/index.js:70-84 | every supported format has a rate list and a default, and the default lies in the list |
| Config.DefaultFormatSupported | src/config/index.js:68-70 | the default format is a supported format |
| Config.FormatKeysAgree | src/config/index.js:70-84 | both per-format tables are keyed by exactly the supported formats, and every rate list is non-empty |
| Config.OpusOnly48000 | src/config/index.js:76-83 | opus allows only 48000 Hz, and that is its default |
| Config.LanguagesHaveVoices | src/config/index.js:22-62 | every offered language, the default one included, has a voice catalogue with a first female voice |
| Config.NoTopLevelFemale | src/config/index.js:27-62 | `VOICES.FEMALE` is undefined, so `VOICES.FEMALE[0]` has no value |
| SynthesizeRoute.GetMimeType | src/pages/api/synthesize.js:187-196 | mp3 maps to audio/mpeg; wav, opus and pcm map to audio/<format>; anything else falls back to audio/mpeg |
| SynthesizeRoute.MimeTypesDistinct | src/pages/api/synthesize.js:187-196 | no two supported formats share a MIME type |
| SynthesizeRoute.WithMarker | src/pages/api/synthesize.js:76-78 | the marker is prepended exactly when the input does not already contain it |
| SynthesizeRoute.WithMarkerContainsMarker | src/pages/api/synthesize.js:76-78 | the forwarded input always contains the marker and still ends with the user's text |
| SynthesizeRoute.WithMarkerIdempotent | src/pages/api/synthesize.js:76-78 | marking twice is the same as marking once |
| SynthesizeRoute.VendorErrorMessage | src/pages/api/synthesize.js:126-141 | the vendor's JSON `error` field when it parses and is truthy, otherwise `API请求失败: <status>` |
| SynthesizeRoute.FieldOr | src/pages/api/synthesize.js:21-29 | a destructuring default replaces only an absent field, never a present falsy one |
| SynthesizeRoute.BuildRequestBody | src/pages/api/synthesize.js:60-78 | the vendor body echoes the fields and has `stream` false; `sample_rate` is present exactly when the supplied one is truthy; the input carries the marker |
| SynthesizeRoute.Handle | src/pages/api/synthesize.js:7-182 | 405 for non-POST; generic 500 when the defaults throw; 400 for missing or blank input; 500 for a non-string input; 400 above 5000 characters, measured before the marker; 500 without an API key; then either the mock reply or one vendor request with its reply mapped; no request is sent unless every check passed |
| Client.DataUrl | src/utils/api.js:79 | a `data:<mime>;base64,<payload>` URL starts with `data:` and adds 13 characters |
| Client.DataUrlRoundTrip | src/utils/api.js:78-79 | parsing the data URL gives back the media type (when it has no comma) and the payload |
| Client.InlineMime | src/utils/api.js:78 | `mimeType \|\| "audio/" + (format \|\| requested format)` |
| Client.InlineAsDataUrl | src/utils/api.js:74-85 | present inline audio is replaced by its data URL; every other field, and data without inline audio, is unchanged |
| Client.ReplyErrorMessage | src/utils/api.js:64-67 | a non-ok reply's message is the server's `error` when that is non-empty, otherwise the fixed fallback `语音合成请求失败`; it is never empty |
| Client.RequestedFormat | src/utils/api.js:18 | the requested format is the format option when it is truthy, otherwise the default format; it is never empty |
| Client.PayloadFor | src/utils/api.js:12-27 | there is no payload exactly when the voice is falsy, because the default lookup throws; otherwise the text is passed through; model, speed and gain fall back to their defaults when falsy; the format is the requested one; the sample rate is the truthy option, unchecked, or else the format's default |
| Client.PayloadHasRate | src/utils/api.js:22-27 | a supported requested format, or a truthy rate option, always leaves a sample rate in the payload |
| Client.BuildPayload | src/utils/api.js:12-27 | building the payload and then assigning its sample rate gives exactly `PayloadFor` |
| Client.SynthesizeSpeech | src/utils/api.js:9-92 | a falsy voice throws, and nothing is posted. Development mode returns the top-level mock object. Otherwise exactly the payload `PayloadFor` is posted. A rejected fetch or a body that is not JSON is rethrown with its message. A non-ok reply throws the server's message or its fallback. An ok reply is returned with inline audio rewritten as a data URL. With a voice, outside development mode, it throws exactly when the reply fails. A thrown message is never empty |
| FormatSelector.CoercedRate | src/components/UI/FormatSelector.js:27-31 | an allowed rate is kept, and any other rate becomes the format's default. A rate results exactly for a supported format, and it is then one of that format's allowed rates |
| FormatSelector.CoercedRateIdempotent | src/components/UI/FormatSelector.js:23-31 | running the coercion on its own result changes nothing |
| FormatSelector.UnknownFormatClearsRate | src/components/UI/FormatSelector.js:23-31 | an unknown format has no rates, and its rate is replaced by undefined |
| FormatSelector.IsRecommended | src/components/UI/FormatSelector.js:83 | a rate is marked recommended exactly when the format is supported and the rate is its default |
| FormatSelector.OneRecommendedRate | src/components/UI/FormatSelector.js:83 | exactly the format's default rate is marked recommended |
| FormatSelector.FormatClick | src/components/UI/FormatSelector.js:62 | a format click reaches the parent exactly when the selector is enabled |
| FormatSelector.RateSelectDisabled | src/components/UI/FormatSelector.js:78 | the rate list is locked when the form is disabled or there is at most one rate to choose; it is unlocked when the form is enabled and there are two or more |
| FormatSelector.OnlyOpusRateLocked | src/components/UI/FormatSelector.js:78 | on an enabled form, the rate list is locked for opus and for no other supported format |
| FormatSelector.Selector.constructor | src/components/UI/FormatSelector.js:17-19 | the initial rate list is the initial format's list |
| FormatSelector.Selector.Effect | src/components/UI/FormatSelector.js:22-32 | the list becomes the format's list; `onSampleRateChange(default)` is called exactly when the current rate is not in it; the resulting rate is the coerced rate |
| AudioUtils.JsRem | src/utils/audio.js:14 | JavaScript `%` with a positive divisor: a non-negative dividend gives the ordinary remainder; a negative one gives minus the remainder of its absolute value, a value in `(-b, 0]` |
| AudioUtils.FormatDuration | src/utils/audio.js:10-17 | the `--:--` placeholder is given exactly for undefined, null and NaN; a number gives at least five characters, with a digit second and a colon |
| AudioUtils.PaddedValue | src/utils/audio.js:16 | a field below 100, padded to two digits, reads back as its value |
| AudioUtils.FormatDurationRoundTrip | src/utils/audio.js:13-16 | below 6000 seconds the display is `mm:ss`: five characters, all digits except the colon, with the seconds field below 60 and 60·mm + ss equal to the duration |
| AudioUtils.FormatDurationLong | src/utils/audio.js:13-16 | from 6000 seconds on, the minutes are printed in full (padding never truncates), the seconds are two digits below 60, and `60 * minutes + seconds` reads back as the duration |
| AudioUtils.FormatDurationZero | src/utils/audio.js:11 | 0 gives `00:00`; undefined, null and NaN give `--:--` |
| AudioUtils.IsTextTooLong | src/utils/audio.js:39-41 | an absent or empty text is never too long; otherwise, for a non-negative limit, a text is too long exactly when its length exceeds the limit |
| AudioPlayer.BytesOf | src/components/AudioPlayer/Player.js:37-40 | one byte per decoded character, each the character code modulo 256 |
| AudioPlayer.BytesOfLatin1 | src/components/AudioPlayer/Player.js:36-39 | for `atob` output, which is all below 256, each byte equals its character code |
| AudioPlayer.CopyBytes | src/components/AudioPlayer/Player.js:37-40 | the loop fills an array as long as the decoded string, with `bytes[i]` the code of `binary[i]` |
| AudioPlayer.SecondSlashField | src/components/AudioPlayer/Player.js:126 | `split('/')[1]` is undefined exactly when there is no slash, and never contains a slash |
| AudioPlayer.SecondSlashFieldOfMime | src/components/AudioPlayer/Player.js:126 | for `type/subtype`, the second field is the subtype |
| AudioPlayer.DefaultExtension | src/components/AudioPlayer/Player.js:126 | without an audio type, the extension is `mpeg`; with one, it is the type's second `/`-separated field, which contains no slash, or the string `undefined` when the type has no slash |
| AudioPlayer.Player.constructor | src/components/AudioPlayer/Player.js:9-16 | not playing, times 0, loading, no URL, no blobs |
| AudioPlayer.Player.SourceChanged | src/components/AudioPlayer/Player.js:18-52 | the previous `blob:` URL is revoked and nothing else is; an empty source clears the URL; `data:`, `blob:` and `/` sources pass through; anything else becomes a fresh blob of the decoded bytes with type `audioType \|\| 'audio/mpeg'`, or no URL when decoding fails; no created blob other than the shown one is left unrevoked |
| AudioPlayer.Player.LoadedData | src/components/AudioPlayer/Player.js:60-63 | the duration is taken from the element and loading ends |
| AudioPlayer.Player.TimeUpdate | src/components/AudioPlayer/Player.js:65-67 | the displayed time follows the element |
| AudioPlayer.Player.Ended | src/components/AudioPlayer/Player.js:69-73 | playback stops, and both the display and the element rewind to 0 |
| AudioPlayer.Player.Play | src/components/AudioPlayer/Player.js:75-77 | the player is playing |
| AudioPlayer.Player.Pause | src/components/AudioPlayer/Player.js:79-81 | the player is not playing |
| AudioPlayer.Player.TogglePlay | src/components/AudioPlayer/Player.js:101-111 | nothing without an element; otherwise pause exactly when playing, else play |
| AudioPlayer.Player.HandleSeek | src/components/AudioPlayer/Player.js:114-120 | with an element, both the element and the display take the chosen time unclamped; without one, nothing changes |
| AudioPlayer.SeekPastEnd | src/components/AudioPlayer/Player.js:114-120 | a seek can leave the current time beyond the duration |
| AudioPlayer.Player.ControlsDisabled | src/components/AudioPlayer/Player.js:143-147 | the play and download buttons are disabled exactly when there is no URL or the audio is loading |
| AudioPlayer.Player.SeekDisabled | src/components/AudioPlayer/Player.js:213-217 | the seek bar is disabled exactly when there is no URL, the audio is loading, or the duration is 0; so it is disabled whenever the buttons are |
| AudioPlayer.Player.HandleDownload | src/components/AudioPlayer/Player.js:123-128 | no download without a URL; otherwise the URL with the given file name, or `tts-audio-<time>.<subtype>` |
| HomePage.AudioSource | src/pages/index.js:76-93 | the source is chosen in priority order: content that is already a `data:` URL is used as it is; other truthy content is wrapped into a data URL with the reply's MIME type; without content, a truthy audio URL is used; otherwise, and when there is no data, the source is empty |
| HomePage.AudioResultFor | src/pages/index.js:95-99 | the result's format is `data.format \|\| format`, and its type is `data.mimeType \|\| "audio/" + that format` |
| HomePage.MockResultHasNoSource | src/pages/index.js:76-99 | the client's development-mode result yields an empty source with type `audio/<format>` |
| HomePage.SourceAgreesWithClient | src/pages/index.js:79-88 | whether or not the client already rewrote inline audio, the page plays the same data URL |
| HomePage.Synthesize | src/pages/index.js:64-99 | with the page's options the client throws exactly when the reply fails; development mode succeeds with an empty source; inline audio from the route ends up as the client's data URL |
| HomePage.Home.constructor | src/pages/index.js:13-40 | the initial state: English, empty text, the first English female voice, the default speed, gain, format and rate, idle, no error, no result |
| HomePage.Home.SetLanguage | src/pages/index.js:28-30 | a language button (line 180) sets the language; the voice resets to that language's first female voice only when the language actually changes, and is kept when the active language is clicked again; only language and voice change |
| HomePage.Home.SetVoice | src/pages/index.js:299 | the voice becomes the picked one |
| HomePage.Home.SetFormat | src/pages/index.js:339-341 | the format becomes the clicked one, and the selector's effect then coerces the sample rate: an allowed rate is kept and any other becomes the format's default; the state stays valid |
| HomePage.Home.SetSampleRate | src/pages/index.js:341 | the sample rate becomes the picked rate from the format's list, and the state stays valid |
| HomePage.Home.SetSpeed | src/pages/index.js:310 | the speed becomes the slider's value, and the state stays valid |
| HomePage.Home.SetGain | src/pages/index.js:323 | the gain becomes the slider's value, and the state stays valid |
| HomePage.Home.SetText | src/pages/index.js:287 | the text becomes the edited one |
| HomePage.Home.SubmitDisabled | src/pages/index.js:380 | the submit button is disabled exactly while processing or when the text is blank |
| HomePage.Home.Settle | src/pages/index.js:74-160 | a thrown error or an unsuccessful result sets the message or its fallback and discards the audio result; success stores the result and shows the success notice; either way the `finally` ends processing |
| HomePage.Home.CurrentOptions | src/pages/index.js:56-62 | the options carry the page's voice, speed, gain, format and sample rate, and no model; in a valid state the voice is truthy, the requested format is the page's format, and the rate is truthy |
| HomePage.Home.PayloadCarriesSettings | src/pages/index.js:56-64 | in a valid state the payload built from the page's options carries the page's text, voice and format, the page's speed and gain after the client's `\|\|` defaults (a speed or gain of 0 is posted as the default), and a sample rate the format allows |
| HomePage.Home.Submit | src/pages/index.js:52-160 | the error is cleared and exactly one call is recorded, made while `isProcessing` is true, with the page's options; `isProcessing` is false afterwards; the settings lie outside its `modifies` frame, so they and the page invariant are unchanged; the outcome is settled as in `Settle`; the call throws exactly when the reply fails; development mode gives an empty source; inline audio ends up as the client's data URL |
| HomePage.Home.HandleGenerateSpeech | src/pages/index.js:46-161 | a blank text sets the error without calling the client or touching `isProcessing`; otherwise the error is cleared, exactly one call is made while `isProcessing` is true, `isProcessing` is false afterwards, and the outcome is settled; the client throws exactly when the reply fails; development mode gives an empty source; inline audio ends up as the client's data URL |

## Left out

- Network and environment: the `fetch` to the vendor and to the route, the environment reads and the development-mode switch are inputs (`VendorReply`, `Client.ProxyReply`, `apiKeyPresent`, `mockMode`). `Client.ProxyReply` also covers a rejected `fetch` and a reply body that is not JSON. Simulated delays and `console` logging are not modelled.
- Base64 and blobs: `Buffer.toString('base64')` is an input string (`audioBase64`). `atob` is an input (`decoded`, with `None` when it throws). `URL.createObjectURL` is an input URL. Blob creation and revocation are recorded as ghost state, not performed. The code implements no Base64, so no round-trip is claimed for it.
- Browser side effects: the `Notification` API, the three-second `setTimeout` that hides the success notice, and the DOM anchor in `downloadAudio` are not modelled. `HandleDownload` returns the download it would hand over.
- Rendering: JSX markup, the text editor, the range sliders and the voice picker are not modelled; their setters appear as `SetText`, `SetSpeed`, `SetGain` and `SetVoice`. The rate `<select>`'s `parseInt` is not modelled. The `audio-mock` route, `_document.js` and the build configuration files are not part of this model.
- Numbers: speeds, gains, times and durations are whole numbers (durations in tenths of a second where the code multiplies by 0.1). Fractional values and float arithmetic are not modelled.
- JSON: request-body fields are scalars or an opaque object. Arrays are not modelled, and `createdAt` timestamps are left out.
- SynthesizeRoute.Handle: text length is counted in Dafny characters, not UTF-16 code units, so text with characters outside the Basic Multilingual Plane is measured differently from `input.length`.
- SynthesizeRoute.GetMimeType: inherited object properties such as `constructor` are not looked up; only the four own keys are.
- Client.SynthesizeSpeech: the thrown error for a falsy voice carries a fixed engine message (`LookupErrorMessage`); the actual text depends on the JavaScript engine.
- AudioUtils.FormatDurationRoundTrip: stated for non-negative whole seconds; for negative durations `FormatDuration` states only the shape of the display, and fractional durations are not modelled.
- AudioPlayer.Player.HandleDownload: the page passes `fileName`, which is an input here rather than built from the clock.
- HomePage.Home.HandleGenerateSpeech: the client's outcome is returned as ghost state, `None` when the client is not called. The asynchronous steps are modelled as one sequential call; interleaving with other events is not modelled beyond the `isProcessing` flag.
- The player's event subscription and unsubscription (lines 84-97 of Player.js) are not modelled; each event is a method.

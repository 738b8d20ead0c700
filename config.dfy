/**
 * The application's static configuration: the `TTS_CONFIG`, `AUDIO_CONFIG` and
 * `UI_CONFIG` tables, immutable for the life of the process, and the consistency
 * the rest of the application silently relies on between them.
 */
module Config {
  import opened Wrappers

  datatype Voice = Voice(id: string, name: string, value: string)
  datatype VoiceCatalog = VoiceCatalog(male: seq<Voice>, female: seq<Voice>)
  datatype Language = Language(id: string, name: string)

  const DefaultModel: string := "FunAudioLLM/CosyVoice2-0.5B"
  /** Speed and gain are whole numbers in this model: 1.0 and 0.0 in the source. */
  const DefaultSpeed: int := 1
  const DefaultGain: int := 0

  const Languages: seq<Language> := [Language("en", "English"), Language("zh", "中文")]

  const EnglishVoices: VoiceCatalog := VoiceCatalog(
    [ Voice("alex_en", "Alex", "FunAudioLLM/CosyVoice2-0.5B:alex"),
      Voice("benjamin_en", "Benjamin", "FunAudioLLM/CosyVoice2-0.5B:benjamin"),
      Voice("charles_en", "Charles", "FunAudioLLM/CosyVoice2-0.5B:charles"),
      Voice("david_en", "David", "FunAudioLLM/CosyVoice2-0.5B:david") ],
    [ Voice("anna_en", "Anna", "FunAudioLLM/CosyVoice2-0.5B:anna"),
      Voice("bella_en", "Bella", "FunAudioLLM/CosyVoice2-0.5B:bella"),
      Voice("claire_en", "Claire", "FunAudioLLM/CosyVoice2-0.5B:claire"),
      Voice("diana_en", "Diana", "FunAudioLLM/CosyVoice2-0.5B:diana") ])

  const ChineseVoices: VoiceCatalog := VoiceCatalog(
    [ Voice("alex_zh", "亚历克斯", "FunAudioLLM/CosyVoice2-0.5B:alex"),
      Voice("benjamin_zh", "本杰明", "FunAudioLLM/CosyVoice2-0.5B:benjamin"),
      Voice("charles_zh", "查尔斯", "FunAudioLLM/CosyVoice2-0.5B:charles"),
      Voice("david_zh", "大卫", "FunAudioLLM/CosyVoice2-0.5B:david") ],
    [ Voice("anna_zh", "安娜", "FunAudioLLM/CosyVoice2-0.5B:anna"),
      Voice("bella_zh", "贝拉", "FunAudioLLM/CosyVoice2-0.5B:bella"),
      Voice("claire_zh", "克莱尔", "FunAudioLLM/CosyVoice2-0.5B:claire"),
      Voice("diana_zh", "黛安娜", "FunAudioLLM/CosyVoice2-0.5B:diana") ])

  /** `TTS_CONFIG.VOICES`: keyed by language id only. */
  const Voices: map<string, VoiceCatalog> := map["en" := EnglishVoices, "zh" := ChineseVoices]

  const DefaultFormat: string := "mp3"
  const SupportedFormats: seq<string> := ["mp3", "wav", "opus", "pcm"]

  const SampleRates: map<string, seq<int>> := map[
    "mp3" := [32000, 44100],
    "wav" := [8000, 16000, 24000, 32000, 44100],
    "pcm" := [8000, 16000, 24000, 32000, 44100],
    "opus" := [48000]]

  const DefaultSampleRates: map<string, int> := map[
    "mp3" := 44100, "wav" := 44100, "pcm" := 44100, "opus" := 48000]

  const MaxTextLength: nat := 5000

  const DefaultLanguage: string := "en"

  /** `TTS_CONFIG.VOICES[key].FEMALE[0].value`, or `None` where that expression throws. */
  function FirstFemaleVoice(key: string): (r: Option<string>)
    ensures r.Some? <==> key in Voices
    ensures r.Some? ==> r.value != "" && exists v | v in Voices[key].female :: v.value == r.value
  {
    if key in Voices && |Voices[key].female| > 0 then Some(Voices[key].female[0].value) else None
  }

  /** Every voice value a voice picker can offer, in either language. */
  function VoiceValues(): (values: set<string>)
    ensures forall v | v in values :: v != ""
  {
    set v | v in EnglishVoices.male + EnglishVoices.female + ChineseVoices.male + ChineseVoices.female :: v.value
  }

  /** A language's first female voice is one of the offered voices. */
  lemma FirstFemaleVoiceOffered(key: string)
    requires key in Voices
    ensures FirstFemaleVoice(key).value in VoiceValues()
  {
    var v := Voices[key].female[0];
    assert v in EnglishVoices.male + EnglishVoices.female + ChineseVoices.male + ChineseVoices.female;
  }

  /** `AUDIO_CONFIG.SAMPLE_RATES[format] || []`. */
  function RatesFor(format: string): (r: seq<int>)
    ensures r != [] <==> format in SupportedFormats
    ensures format in SupportedFormats ==> DefaultSampleRates[format] in r
  {
    if format in SampleRates then SampleRates[format] else []
  }

  /** `AUDIO_CONFIG.DEFAULT_SAMPLE_RATES[format]`, `None` for `undefined`. */
  function DefaultRateFor(format: string): (r: Option<int>)
    ensures r.Some? <==> format in SupportedFormats
    ensures r.Some? ==> r.value in RatesFor(format)
  {
    if format in DefaultSampleRates then Some(DefaultSampleRates[format]) else None
  }

  /** Every format's default sample rate is one of that format's allowed rates. */
  lemma DefaultRatesAllowed()
    ensures forall f | f in SupportedFormats :: f in SampleRates && f in DefaultSampleRates
                                              && DefaultSampleRates[f] in SampleRates[f]
  {
  }

  /** The default format is supported. */
  lemma DefaultFormatSupported()
    ensures DefaultFormat in SupportedFormats
  {
  }

  /** The two per-format tables are keyed by exactly the supported formats, with non-empty lists. */
  lemma FormatKeysAgree()
    ensures SampleRates.Keys == DefaultSampleRates.Keys == set f | f in SupportedFormats
    ensures forall f | f in SampleRates :: |SampleRates[f]| > 0
  {
    assert "mp3" in SupportedFormats && "wav" in SupportedFormats;
    assert "opus" in SupportedFormats && "pcm" in SupportedFormats;
  }

  /** Opus allows 48000 Hz and nothing else. */
  lemma OpusOnly48000()
    ensures RatesFor("opus") == [48000] && DefaultRateFor("opus") == Some(48000)
  {
  }

  /** Every offered language, the default one included, has a first female voice. */
  lemma LanguagesHaveVoices()
    ensures forall l | l in Languages :: l.id in Voices && FirstFemaleVoice(l.id).Some?
    ensures DefaultLanguage in Voices && (exists l | l in Languages :: l.id == DefaultLanguage)
  {
    assert Languages[0].id == DefaultLanguage;
  }

  /** `TTS_CONFIG.VOICES.FEMALE` is `undefined`: the table has no top-level `FEMALE` entry. */
  lemma NoTopLevelFemale()
    ensures "FEMALE" !in Voices && FirstFemaleVoice("FEMALE") == None
  {
  }
}

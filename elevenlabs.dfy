/**
 * The speech service: the duration estimate used when no audio comes back,
 * the choice of voice, and the branches taken when no API key is set. The
 * text-to-speech and voice-list HTTP calls are given as functions.
 */
module ElevenLabs {
  import opened Wrappers
  import opened Codec

  const DefaultVoiceId := "21m00Tcm4TlvDq8ikWAM"

  /**
   * What lies outside the model: the API key, the configured voice, and the
   * HTTP calls (a failed call is `None`; the service swallows the exception).
   */
  datatype SpeechEnv = SpeechEnv(
    apiKey: string,
    configuredVoice: Option<string>,
    textToSpeech: (string, string) -> Option<seq<byte>>,
    listVoices: () -> Option<seq<Voice>>)

  datatype Voice = Voice(voiceId: string, name: string, category: string, labels: map<string, string>)

  /** The service's own voice: the configured id when it is non-empty, else the default. */
  function ServiceVoice(configured: Option<string>): (v: string)
    ensures configured.Some? && configured.value != "" ==> v == configured.value
    ensures configured.None? || configured.value == "" ==> v == DefaultVoiceId
  {
    if configured.Some? && configured.value != "" then configured.value else DefaultVoiceId
  }

  /** The voice a request uses: an explicit non-empty id wins over the service's voice. */
  function RequestVoice(env: SpeechEnv, voiceId: Option<string>): (v: string)
    ensures voiceId.Some? && voiceId.value != "" ==> v == voiceId.value
    ensures voiceId.None? || voiceId.value == "" ==> v == ServiceVoice(env.configuredVoice)
    ensures v != ""
  {
    if voiceId.Some? && voiceId.value != "" then voiceId.value else ServiceVoice(env.configuredVoice)
  }

  /** Speech for `text`, or nothing: always nothing without an API key. */
  function GenerateSpeech(env: SpeechEnv, text: string, voiceId: Option<string>): (r: Option<seq<byte>>)
    ensures env.apiKey == "" ==> r.None?
    ensures env.apiKey != "" ==> r == env.textToSpeech(text, RequestVoice(env, voiceId))
  {
    if env.apiKey == "" then None else env.textToSpeech(text, RequestVoice(env, voiceId))
  }

  function MockVoices(): (vs: seq<Voice>)
    ensures |vs| == 3
    ensures vs[0].voiceId == "mock_male_1" && vs[1].voiceId == "mock_female_1" && vs[2].voiceId == "mock_neutral_1"
  {
    [ Voice("mock_male_1", "太郎（男性）", "generated", map["gender" := "male", "language" := "ja"]),
      Voice("mock_female_1", "花子（女性）", "generated", map["gender" := "female", "language" := "ja"]),
      Voice("mock_neutral_1", "アナウンサー", "professional", map["gender" := "neutral", "language" := "ja"]) ]
  }

  /** The voice list: the three mock voices without an API key or when the call fails. */
  function GetVoices(env: SpeechEnv): (r: seq<Voice>)
    ensures env.apiKey == "" ==> r == MockVoices()
    ensures env.apiKey != "" && env.listVoices().None? ==> r == MockVoices()
  {
    if env.apiKey == "" then MockVoices()
    else match env.listVoices()
      case None => MockVoices()
      case Some(vs) => vs
  }

  /** Spoken length in seconds: six characters a second, and never under one second. */
  function EstimateDuration(text: string): (d: real)
    ensures d >= 1.0
    ensures d == 1.0 || d == |text| as real / 6.0
  {
    if |text| as real / 6.0 > 1.0 then |text| as real / 6.0 else 1.0
  }

  /** The estimate is exactly length / 6 from six characters on, and 1 below that. */
  lemma EstimateDurationValues(text: string)
    ensures |text| >= 6 ==> EstimateDuration(text) == |text| as real / 6.0
    ensures |text| <= 6 ==> EstimateDuration(text) == 1.0
  {
  }

  /** A longer text never gets a shorter estimate. */
  lemma EstimateDurationMonotone(a: string, b: string)
    requires |a| <= |b|
    ensures EstimateDuration(a) <= EstimateDuration(b)
  {
  }
}

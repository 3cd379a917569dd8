/**
 * The script-writing service: the fixed mock script used without an API key,
 * the user prompt sent to the model, and the extraction of the JSON reply.
 * The HTTP call, the JSON decoder and float formatting are given as functions.
 */
module Claude {
  import opened Wrappers
  import opened Text
  import opened Schema
  import opened Arith

  datatype ScriptError = RequestFailed | MalformedReply

  /**
   * What lies outside the model: the API key, the messages call (the system
   * prompt is fixed inside it), `json.loads` into a script, and `str(float)`.
   */
  datatype ClaudeEnv = ClaudeEnv(
    apiKey: string,
    complete: string -> Result<string, ScriptError>,
    decodeScript: string -> Option<Script>,
    formatFloat: real -> string)

  /** `duration_target or 180`: a missing or zero target means three minutes. */
  function MockTarget(durationTarget: Option<real>): (t: real)
    ensures durationTarget.Some? && durationTarget.value != 0.0 ==> t == durationTarget.value
    ensures durationTarget.None? || durationTarget.value == 0.0 ==> t == 180.0
  {
    if durationTarget.Some? && durationTarget.value != 0.0 then durationTarget.value else 180.0
  }

  function Entry(kind: string, duration: int, narration: string, spec: VisualSpec): ScriptEntry {
    ScriptEntry(Some(kind), Some(duration as real), Some(narration), Some(spec))
  }

  /**
   * The script returned when no API key is set; every one of its sections
   * gives its type, duration, narration and visual spec, so none of the
   * script stage's defaults applies to it.
   */
  function MockScript(theme: string, durationTarget: Option<real>): (s: Script)
    ensures s.sections.Some?
    ensures forall k :: 0 <= k < |s.Entries()| ==>
      s.Entries()[k].kind.Some? && s.Entries()[k].duration.Some?
      && s.Entries()[k].narration.Some? && s.Entries()[k].visualSpec.Some?
  {
    var target := MockTarget(durationTarget);
    Script(
      Some(theme + " 入門"),
      Some(theme + "について基礎から学ぶチュートリアル動画です。"),
      Some([
        Entry("title", 5,
          "こんにちは！今日は" + theme + "について学んでいきましょう。",
          map["title" := Str(theme + " 入門"), "subtitle" := Str("基礎から学ぶチュートリアル")]),
        Entry("slide", Trunc(target * 0.2),
          "まず、" + theme + "とは何かについて説明します。" + theme + "は非常に重要な概念で、多くの場面で活用されています。",
          map["heading" := Str(theme + "とは？"),
              "bullets" := Strs(["基本的な概念の説明", "なぜ重要なのか", "どのような場面で使われるか"])]),
        Entry("code", Trunc(target * 0.3),
          "それでは、実際のコードを見てみましょう。これが" + theme + "の基本的な使い方です。",
          map["language" := Str("python"),
              "code" := Str("# " + theme + "の基本例\nprint('Hello, " + theme + "!')\n\n# 変数の定義\nvalue = 42\nprint(f'値: {value}')")]),
        Entry("slide", Trunc(target * 0.25),
          theme + "を使う際のポイントをまとめます。これらを押さえておけば、基本的な使い方はマスターできます。",
          map["heading" := Str("ポイント"),
              "bullets" := Strs(["ポイント1: 基本を理解する", "ポイント2: 実際に手を動かす", "ポイント3: エラーを恐れない"])]),
        Entry("summary", Trunc(target * 0.1),
          "以上で" + theme + "の基礎は終わりです。ぜひ実際に試してみてください。ご視聴ありがとうございました！",
          map["points" := Strs([theme + "の基本を学びました", "実際のコード例を確認しました", "次のステップに進む準備ができました"])])
      ]))
  }

  /**
   * The mock script has a title, exactly five sections typed title, slide,
   * code, slide, summary (all valid section types), a five-second title, and
   * the other durations truncated from 20%, 30%, 25% and 10% of the target.
   */
  lemma MockScriptShape(theme: string, durationTarget: Option<real>)
    ensures var s := MockScript(theme, durationTarget);
      && s.title == Some(theme + " 入門")
      && |s.Entries()| == 5
      && (forall k :: 0 <= k < 5 ==> s.Entries()[k].kind.Some? && ParseType(s.Entries()[k].kind.value).Some?)
      && [ParseType(s.Entries()[0].kind.value).value, ParseType(s.Entries()[1].kind.value).value,
          ParseType(s.Entries()[2].kind.value).value, ParseType(s.Entries()[3].kind.value).value,
          ParseType(s.Entries()[4].kind.value).value] == [Title, Slide, Code, Slide, Summary]
      && s.Entries()[0].duration == Some(5.0)
      && s.Entries()[1].duration == Some(Trunc(MockTarget(durationTarget) * 0.2) as real)
      && s.Entries()[2].duration == Some(Trunc(MockTarget(durationTarget) * 0.3) as real)
      && s.Entries()[3].duration == Some(Trunc(MockTarget(durationTarget) * 0.25) as real)
      && s.Entries()[4].duration == Some(Trunc(MockTarget(durationTarget) * 0.1) as real)
  {
  }

  /** With the default three-minute target the sections last 5, 36, 54, 45 and 18 seconds. */
  lemma MockScriptDefaultDurations(theme: string)
    ensures var e := MockScript(theme, None).Entries();
      [e[0].duration, e[1].duration, e[2].duration, e[3].duration, e[4].duration]
        == [Some(5.0), Some(36.0), Some(54.0), Some(45.0), Some(18.0)]
  {
    assert Trunc(180.0 * 0.2) == 36;
    assert Trunc(180.0 * 0.3) == 54;
    assert Trunc(180.0 * 0.25) == 45;
    assert Trunc(180.0 * 0.1) == 18;
  }

  /** `f"テーマ: {theme}"`, with the target line only when the target is set and non-zero. */
  function UserPrompt(env: ClaudeEnv, theme: string, durationTarget: Option<real>): (p: string)
    ensures StartsWith(p, "テーマ: " + theme)
    ensures durationTarget.None? || durationTarget.value == 0.0 ==> p == "テーマ: " + theme
    ensures durationTarget.Some? && durationTarget.value != 0.0 ==>
      p == "テーマ: " + theme + "\n目標時間: " + env.formatFloat(durationTarget.value) + "秒"
  {
    var head := "テーマ: " + theme;
    if durationTarget.Some? && durationTarget.value != 0.0 then
      head + "\n目標時間: " + env.formatFloat(durationTarget.value) + "秒"
    else head
  }

  /**
   * `generate_script`: the mock without an API key; otherwise the reply with
   * its code fence removed, stripped and decoded. A failed request or a
   * reply that does not decode is an error, raised to the caller.
   */
  function GenerateScript(env: ClaudeEnv, theme: string, durationTarget: Option<real>): (r: Result<Script, ScriptError>)
    ensures env.apiKey == "" ==> r == Ok(MockScript(theme, durationTarget))
    ensures env.apiKey == "" ==> r.value.title.Some? && |r.value.Entries()| > 0
    ensures env.apiKey != "" && env.complete(UserPrompt(env, theme, durationTarget)).Err? ==> r.Err?
    ensures env.apiKey != "" && r.Ok? ==>
      env.complete(UserPrompt(env, theme, durationTarget)).Ok? &&
      env.decodeScript(Strip(ExtractFenced(env.complete(UserPrompt(env, theme, durationTarget)).value))) == Some(r.value)
  {
    if env.apiKey == "" then Ok(MockScript(theme, durationTarget))
    else
      match env.complete(UserPrompt(env, theme, durationTarget))
      case Err(e) => Err(e)
      case Ok(text) =>
        match env.decodeScript(Strip(ExtractFenced(text)))
        case Some(s) => Ok(s)
        case None => Err(MalformedReply)
  }
}

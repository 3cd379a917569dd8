/**
 * The image service: the prompt built from a section's visual spec, the
 * branch taken without an API key, and the extraction of the vision reply.
 * The HTTP calls and the JSON codec are given as functions.
 */
module Gemini {
  import opened Wrappers
  import opened Text
  import opened Schema
  import opened Codec

  const BasePrompt := "教育動画用のスライド画像を生成してください。シンプルでプロフェッショナルなデザイン、16:9のアスペクト比。"

  /** The reply of the vision model as the service hands it back: change records and an overall preference. */
  datatype DiffObject = DiffObject(changes: seq<map<string, string>>, overallPreference: string)

  /**
   * What lies outside the model: the API key, the image-generation call (an
   * exception or a reply without image data is `None`), the vision call (an
   * exception is `None`), `json.loads` of a reply (`None` when it fails; a
   * reply that is JSON of another shape, which the service would hand back
   * unchanged, is assumed not to occur), and `json.dumps` of a spec.
   */
  datatype GeminiEnv = GeminiEnv(
    apiKey: string,
    generateImage: string -> Option<seq<byte>>,
    vision: (seq<byte>, seq<byte>) -> Option<string>,
    decodeDiff: string -> Option<DiffObject>,
    dumpsCompact: VisualSpec -> string)

  // The fixed pieces of the per-type descriptions.
  const TitleHead := " タイトルスライド: メインタイトル"
  const SubtitleHead := "、サブタイトル"
  const SlideHead := " 説明スライド: 見出し"
  const BulletsHead := "、箇条書き: "
  const CodeHead := " コードスライド: "
  const CodeNote := "のコードを表示。シンタックスハイライト付き。コード: "
  const SummaryHead := " まとめスライド: ポイント: "

  /** The separator the list items are joined with. */
  const ListSep := '、'

  /** A value in 「」 quotes. */
  function Quoted(s: string): string {
    "「" + s + "」"
  }

  /**
   * `_build_image_prompt`: the base sentence followed by a description
   * chosen by section type; every prompt starts with the base sentence and
   * a space.
   */
  function BuildImagePrompt(env: GeminiEnv, spec: VisualSpec, sectionType: string): (prompt: string)
    ensures StartsWith(prompt, BasePrompt + " ")
  {
    var tail :=
      if sectionType == "title" then
        TitleHead + Quoted(TextField(spec, "title", "")) + SubtitleHead + Quoted(TextField(spec, "subtitle", ""))
      else if sectionType == "slide" then
        SlideHead + Quoted(TextField(spec, "heading", "")) + BulletsHead + Join([ListSep], ListField(spec, "bullets"))
      else if sectionType == "code" then
        CodeHead + TextField(spec, "language", "python") + CodeNote + Take(TextField(spec, "code", ""), 200)
      else if sectionType == "summary" then
        SummaryHead + Join([ListSep], ListField(spec, "points"))
      else
        " " + env.dumpsCompact(spec);
    BasePrompt + tail
  }

  /** The title prompt quotes the title and the subtitle ("" when missing), in that order. */
  lemma TitlePrompt(env: GeminiEnv, spec: VisualSpec)
    ensures var prompt := BuildImagePrompt(env, spec, "title");
      && Contains(prompt, Quoted(TextField(spec, "title", "")))
      && Contains(prompt, Quoted(TextField(spec, "subtitle", "")))
    ensures "title" !in spec && "subtitle" !in spec ==>
      BuildImagePrompt(env, spec, "title") == BasePrompt + TitleHead + "「」" + SubtitleHead + "「」"
  {
    var title := Quoted(TextField(spec, "title", ""));
    var subtitle := Quoted(TextField(spec, "subtitle", ""));
    assert BuildImagePrompt(env, spec, "title") == (BasePrompt + TitleHead) + title + (SubtitleHead + subtitle);
    ContainsMiddle(BasePrompt + TitleHead, title, SubtitleHead + subtitle);
    assert BuildImagePrompt(env, spec, "title") == (BasePrompt + TitleHead + title + SubtitleHead) + subtitle + "";
    ContainsMiddle(BasePrompt + TitleHead + title + SubtitleHead, subtitle, "");
  }

  /**
   * The code prompt ends with a prefix of the code of at most 200
   * characters, the whole code when it is that short, after a head naming
   * the language (`python` when none is given).
   */
  lemma CodePrompt(env: GeminiEnv, spec: VisualSpec)
    ensures var prompt := BuildImagePrompt(env, spec, "code");
      var code := TextField(spec, "code", "");
      var head := BasePrompt + CodeHead + TextField(spec, "language", "python") + CodeNote;
      && StartsWith(prompt, head)
      && var shown := prompt[|head|..];
      && |shown| <= 200 && StartsWith(code, shown)
      && (|code| <= 200 ==> shown == code)
      && (|code| > 200 ==> |shown| == 200)
    ensures "language" !in spec ==>
      StartsWith(BuildImagePrompt(env, spec, "code"), BasePrompt + CodeHead + "python" + CodeNote)
  {
    var head := BasePrompt + CodeHead + TextField(spec, "language", "python") + CodeNote;
    var shown := Take(TextField(spec, "code", ""), 200);
    assert BuildImagePrompt(env, spec, "code") == head + shown;
    StartsWithJoin(head, shown);
    assert (head + shown)[|head|..] == shown;
    assert TextField(spec, "code", "")[..|shown|] == shown;
  }

  /** No list item contains the separator, so the joined items can be told apart. */
  predicate FreeOfSep(items: seq<string>) {
    forall i, k :: 0 <= i < |items| && 0 <= k < |items[i]| ==> items[i][k] != ListSep
  }

  /** A head followed by items joined with the separator splits back into the items. */
  lemma JoinedAfter(head: string, items: seq<string>)
    requires FreeOfSep(items)
    ensures StartsWith(head + Join([ListSep], items), head)
    ensures (head + Join([ListSep], items))[|head|..] == Join([ListSep], items)
    ensures items == [] ==> head + Join([ListSep], items) == head
    ensures items != [] ==> Split((head + Join([ListSep], items))[|head|..], [ListSep]) == items
  {
    StartsWithJoin(head, Join([ListSep], items));
    assert (head + Join([ListSep], items))[|head|..] == Join([ListSep], items);
    if items != [] {
      SplitJoinChar(items, ListSep);
    }
  }

  /**
   * The slide prompt quotes the heading and ends with the bullets: when no
   * bullet contains "、", splitting the text after the head at "、" gives
   * the bullets back in order, and without bullets the prompt ends at the head.
   */
  lemma SlidePrompt(env: GeminiEnv, spec: VisualSpec)
    requires FreeOfSep(ListField(spec, "bullets"))
    ensures var prompt := BuildImagePrompt(env, spec, "slide");
      var bullets := ListField(spec, "bullets");
      var head := BasePrompt + SlideHead + Quoted(TextField(spec, "heading", "")) + BulletsHead;
      && StartsWith(prompt, head)
      && Contains(prompt, Quoted(TextField(spec, "heading", "")))
      && (bullets == [] ==> prompt == head)
      && (bullets != [] ==> Split(prompt[|head|..], [ListSep]) == bullets)
  {
    var heading := Quoted(TextField(spec, "heading", ""));
    var head := BasePrompt + SlideHead + heading + BulletsHead;
    var bullets := Join([ListSep], ListField(spec, "bullets"));
    assert BuildImagePrompt(env, spec, "slide") == head + bullets;
    JoinedAfter(head, ListField(spec, "bullets"));
    assert head + bullets == (BasePrompt + SlideHead) + heading + (BulletsHead + bullets);
    ContainsMiddle(BasePrompt + SlideHead, heading, BulletsHead + bullets);
  }

  /** The summary prompt ends with the points, told apart as the slide prompt's bullets are. */
  lemma SummaryPrompt(env: GeminiEnv, spec: VisualSpec)
    requires FreeOfSep(ListField(spec, "points"))
    ensures var prompt := BuildImagePrompt(env, spec, "summary");
      var points := ListField(spec, "points");
      var head := BasePrompt + SummaryHead;
      && StartsWith(prompt, head)
      && (points == [] ==> prompt == head)
      && (points != [] ==> Split(prompt[|head|..], [ListSep]) == points)
  {
    assert BuildImagePrompt(env, spec, "summary") == (BasePrompt + SummaryHead) + Join([ListSep], ListField(spec, "points"));
    JoinedAfter(BasePrompt + SummaryHead, ListField(spec, "points"));
  }

  /** `code_typing`, `diagram` and any unknown type describe the spec by its JSON dump. */
  lemma OtherTypesDump(env: GeminiEnv, spec: VisualSpec, sectionType: string)
    requires sectionType !in {"title", "slide", "code", "summary"}
    ensures BuildImagePrompt(env, spec, sectionType) == BasePrompt + " " + env.dumpsCompact(spec)
  {
  }

  /** An image for a slide, or nothing: always nothing without an API key. */
  function GenerateSlideImage(env: GeminiEnv, spec: VisualSpec, sectionType: string): (r: Option<seq<byte>>)
    ensures env.apiKey == "" ==> r.None?
    ensures env.apiKey != "" ==> r == env.generateImage(BuildImagePrompt(env, spec, sectionType))
  {
    if env.apiKey == "" then None else env.generateImage(BuildImagePrompt(env, spec, sectionType))
  }

  function MockVisualDiff(): (d: DiffObject)
    ensures |d.changes| == 1 && d.overallPreference != ""
  {
    DiffObject(
      [map["aspect" := "配色", "before" := "デフォルト", "after" := "ユーザー編集",
           "preference" := "カスタマイズされた配色を好む傾向"]],
      "ユーザーはカスタマイズされたデザインを好む傾向があります")
  }

  /**
   * `analyze_visual_diff`: the mock without an API key; otherwise the reply
   * with its fence removed, stripped and decoded, and the mock again whenever
   * the call or the decoding fails.
   */
  function AnalyzeVisualDiff(env: GeminiEnv, original: seq<byte>, edited: seq<byte>): (r: DiffObject)
    ensures env.apiKey == "" || env.vision(original, edited).None? ==> r == MockVisualDiff()
    ensures env.apiKey != "" && env.vision(original, edited).Some? ==>
      var text := env.vision(original, edited).value;
      r == env.decodeDiff(Strip(ExtractFenced(text))).GetOr(MockVisualDiff())
  {
    if env.apiKey == "" then MockVisualDiff()
    else match env.vision(original, edited)
      case None => MockVisualDiff()
      case Some(text) => env.decodeDiff(Strip(ExtractFenced(text))).GetOr(MockVisualDiff())
  }
}

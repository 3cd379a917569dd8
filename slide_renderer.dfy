/**
 * The HTML slide renderer: the per-type markup generated from a section's
 * visual spec, the escaping of every spec string placed in it, the
 * placeholder substitution into the slide template, and the data-URL
 * wrapping. The template file, the regex highlighter, `str.upper` and
 * `json.dumps` are given as functions.
 */
module SlideRenderer {
  import opened Wrappers
  import opened Text
  import opened Schema
  import opened Codec

  const Placeholder := "{{ content }}"

  /**
   * What lies outside the model: the text of the template file, the regex
   * highlighting applied to already escaped python or javascript code,
   * Python's Unicode `str.upper`, `json.dumps(..., indent=2)`, and the codecs.
   */
  datatype RenderEnv = RenderEnv(
    template: string,
    highlight: (string, string) -> string,
    upper: string -> string,
    dumpsIndented: VisualSpec -> string,
    codecs: Codecs)

  const I8 := "        "
  const I12 := "            "

  /** `f"<li>{html.escape(b)}</li>"`. */
  function Li(x: string): string {
    "<li>" + HtmlEscape(x) + "</li>"
  }

  /** `"\n".join(f"<li>{html.escape(b)}</li>" for b in xs)`. */
  function ListItems(xs: seq<string>): string {
    if |xs| == 0 then ""
    else if |xs| == 1 then Li(xs[0])
    else Li(xs[0]) + "\n" + ListItems(xs[1..])
  }

  /** Reads the `<li>` items back out of a list: the inverse of `ListItems`. */
  function ParseItems(s: string): seq<string>
    decreases |s|
  {
    if !StartsWith(s, "<li>") then []
    else
      var body := s[4..];
      match Find(body, "<")
      case None => []
      case Some(k) =>
        var item := HtmlUnescape(body[..k]);
        var rest := body[k..];
        if StartsWith(rest, "</li>\n") then [item] + ParseItems(rest[6..]) else [item]
  }

  /** Escaped text has no `<`, so the first `<` after it is the one that follows. */
  lemma FirstAngleAfterEscaped(e: string, rest: string)
    requires forall k :: 0 <= k < |e| ==> !IsMarkupChar(e[k])
    requires StartsWith(rest, "<")
    ensures Find(e + rest, "<") == Some(|e|)
  {
    var s := e + rest;
    assert s[|e|..|e| + 1] == rest[..1];
    assert OccursAt(s, "<", |e|);
    forall j: nat | j < |e| ensures !OccursAt(s, "<", j) {
      assert s[j] == e[j];
    }
  }

  /** One step of reading items: an escaped item, then either the next item or the end. */
  lemma ParseItemStep(e: string, tail: string)
    requires forall k :: 0 <= k < |e| ==> !IsMarkupChar(e[k])
    requires StartsWith(tail, "</li>")
    ensures ParseItems("<li>" + e + tail) ==
      [HtmlUnescape(e)] + (if StartsWith(tail, "</li>\n") then ParseItems(tail[6..]) else [])
  {
    var s := "<li>" + e + tail;
    assert s[..4] == "<li>";
    assert s[4..] == e + tail;
    assert tail[..1] == "<";
    FirstAngleAfterEscaped(e, tail);
    assert (e + tail)[..|e|] == e;
    assert (e + tail)[|e|..] == tail;
  }

  /**
   * Every bullet (and every summary point) becomes one `<li>` item, in
   * order: reading the items back and unescaping them gives the list.
   */
  lemma {:induction false} ListItemsRoundTrip(xs: seq<string>)
    ensures ParseItems(ListItems(xs)) == xs
  {
    if |xs| > 0 {
      var e := HtmlEscape(xs[0]);
      EscapeRoundTrip(xs[0]);
      if |xs| == 1 {
        assert ListItems(xs) == "<li>" + e + "</li>";
        ParseItemStep(e, "</li>");
      } else {
        var tail := "</li>\n" + ListItems(xs[1..]);
        assert ListItems(xs) == "<li>" + e + tail;
        assert tail[..5] == "</li>" && tail[..6] == "</li>\n";
        ParseItemStep(e, tail);
        assert tail[6..] == ListItems(xs[1..]);
        ListItemsRoundTrip(xs[1..]);
      }
    }
  }

  /** `_highlight_code`: escape first; only python and javascript get highlighting on top. */
  function HighlightCode(env: RenderEnv, code: string, language: string): (r: string)
    ensures language != "python" && language != "javascript" ==> r == HtmlEscape(code)
    ensures language == "python" || language == "javascript" ==> r == env.highlight(language, HtmlEscape(code))
  {
    var escaped := HtmlEscape(code);
    if language == "python" || language == "javascript" then env.highlight(language, escaped) else escaped
  }

  /** How every section's markup opens and closes. */
  const DivOpen := "\n" + I8 + "<div class=\""
  const DivClose := "</div>\n" + I8

  /** One section's `<div>` of the given class around its inner lines. */
  function Block(cls: string, inner: string): (html: string)
    ensures StartsWith(html, DivOpen)
    ensures |html| >= |DivOpen| + |DivClose| && html[|html| - |DivClose|..] == DivClose
  {
    var html := DivOpen + (cls + "\">\n" + inner + I8) + DivClose;
    assert html[..|DivOpen|] == DivOpen;
    assert html[|html| - |DivClose|..] == DivClose;
    html
  }

  /**
   * `_generate_content`: the markup for one section, chosen by its type;
   * whatever the type, it is one `<div>` block.
   */
  function GenerateContent(env: RenderEnv, spec: VisualSpec, sectionType: string): (html: string)
    ensures StartsWith(html, DivOpen)
    ensures |html| >= |DivOpen| + |DivClose| && html[|html| - |DivClose|..] == DivClose
  {
    if sectionType == "title" then
      Block("title-slide",
        I12 + "<h1>" + HtmlEscape(TextField(spec, "title", "")) + "</h1>\n"
        + I12 + "<p class=\"subtitle\">" + HtmlEscape(TextField(spec, "subtitle", "")) + "</p>\n")
    else if sectionType == "slide" then
      Block("content-slide",
        I12 + "<h2>" + HtmlEscape(TextField(spec, "heading", "")) + "</h2>\n"
        + I12 + "<ul>" + ListItems(ListField(spec, "bullets")) + "</ul>\n")
    else if sectionType == "code" || sectionType == "code_typing" then
      var language := TextField(spec, "language", "python");
      Block("code-slide",
        I12 + "<h2>" + HtmlEscape(env.upper(language)) + "</h2>\n"
        + I12 + "<pre><code>" + HighlightCode(env, TextField(spec, "code", ""), language) + "</code></pre>\n")
    else if sectionType == "summary" then
      Block("summary-slide",
        I12 + "<h2>まとめ</h2>\n"
        + I12 + "<ul>" + ListItems(ListField(spec, "points")) + "</ul>\n")
    else if sectionType == "diagram" then
      Block("content-slide",
        I12 + "<h2>図解</h2>\n"
        + I12 + "<p style=\"font-size: 32px; text-align: center;\">" + HtmlEscape(TextField(spec, "description", "")) + "</p>\n")
    else
      Block("content-slide",
        I12 + "<pre style=\"font-size: 24px;\">" + HtmlEscape(env.dumpsIndented(spec)) + "</pre>\n")
  }

  /** The markup of a slide section is a fixed frame around its heading and its items. */
  lemma SlideContent(env: RenderEnv, spec: VisualSpec)
    ensures GenerateContent(env, spec, "slide") ==
      Block("content-slide",
        I12 + "<h2>" + HtmlEscape(TextField(spec, "heading", "")) + "</h2>\n"
        + I12 + "<ul>" + ListItems(ListField(spec, "bullets")) + "</ul>\n")
    ensures ParseItems(ListItems(ListField(spec, "bullets"))) == ListField(spec, "bullets")
  {
    ListItemsRoundTrip(ListField(spec, "bullets"));
  }

  /** `code` and `code_typing` render alike; other languages than python and javascript are only escaped. */
  lemma CodeTypingLikeCode(env: RenderEnv, spec: VisualSpec)
    ensures GenerateContent(env, spec, "code_typing") == GenerateContent(env, spec, "code")
    ensures var lang := TextField(spec, "language", "python");
      lang != "python" && lang != "javascript" ==>
        GenerateContent(env, spec, "code") ==
          Block("code-slide",
            I12 + "<h2>" + HtmlEscape(env.upper(lang)) + "</h2>\n"
            + I12 + "<pre><code>" + HtmlEscape(TextField(spec, "code", "")) + "</code></pre>\n")
  {
  }

  /** `template.replace("{{ content }}", content)`. */
  function RenderSlideHtml(env: RenderEnv, spec: VisualSpec, sectionType: string): string {
    ReplaceAll(env.template, Placeholder, GenerateContent(env, spec, sectionType))
  }

  /** With the placeholder exactly once in the template, the content takes its place and nothing else changes. */
  lemma {:induction false} RenderSinglePlaceholder(env: RenderEnv, spec: VisualSpec, sectionType: string, i: nat)
    requires Find(env.template, Placeholder) == Some(i)
    requires !Contains(env.template[i + |Placeholder|..], Placeholder)
    ensures RenderSlideHtml(env, spec, sectionType) ==
      env.template[..i] + GenerateContent(env, spec, sectionType) + env.template[i + |Placeholder|..]
  {
    var rest := env.template[i + |Placeholder|..];
    var content := GenerateContent(env, spec, sectionType);
    assert Find(rest, Placeholder).None?;
    assert Split(rest, Placeholder) == [rest];
    assert Split(env.template, Placeholder) == [env.template[..i], rest];
    assert Join(content, [env.template[..i], rest]) == env.template[..i] + content + Join(content, [rest]);
  }

  /** A page, UTF-8 and base64 encoded, as a `text/html` data URL. */
  function HtmlDataUrl(env: RenderEnv, html: string): (r: string)
    ensures StartsWith(r, "data:text/html;base64,")
    ensures r == "data:text/html;base64," + env.codecs.b64encode(env.codecs.utf8(html))
  {
    var payload := env.codecs.b64encode(env.codecs.utf8(html));
    StartsWithJoin("data:text/html;base64,", payload);
    DataUrl("text/html", payload)
  }

  /** `generate_slide_data_url`: the rendered page, UTF-8 and base64 encoded, as a `text/html` data URL. */
  function SlideDataUrl(env: RenderEnv, spec: VisualSpec, sectionType: string): (r: string)
    ensures StartsWith(r, "data:text/html;base64,")
    ensures r == "data:text/html;base64," + env.codecs.b64encode(env.codecs.utf8(RenderSlideHtml(env, spec, sectionType)))
  {
    HtmlDataUrl(env, RenderSlideHtml(env, spec, sectionType))
  }
}

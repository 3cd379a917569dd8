/**
 * The visual diff analyzer: two slide images, as the generator produced it
 * and as the user edited it, are compared by a vision model, whose reply is
 * read as a list of changes and one overall preference.
 */
module VisualDiff {
  import opened Wrappers
  import opened Text
  import opened Codec

  datatype VisualChange = VisualChange(aspect: string, before: string, after: string, preference: string)

  datatype VisualDiffResult = VisualDiffResult(changes: seq<VisualChange>, overallPreference: string)

  /** The inline image sent to the model. */
  datatype ImageData = ImageData(mimeType: string, data: string)

  datatype DiffError =
    | IndexError         // a "data:" string without a comma (or without a colon in its header)
    | ApiError           // the model answered with a status other than 200

  // ---------------------------------------------------------------------------
  // Image data

  /**
   * `_prepare_image_data`: a data URL is split at its first comma; the mime
   * type is the header after "data:" up to ";", the data everything after
   * the comma; any other string is sent as an empty PNG.
   */
  function PrepareImageData(image: string): (r: Result<ImageData, DiffError>)
    ensures !StartsWith(image, "data:") ==> r == Ok(ImageData("image/png", ""))
    ensures r.Ok? && StartsWith(image, "data:") ==> image == UpTo(image, ",") + "," + r.value.data
    ensures r.Ok? && StartsWith(image, "data:") ==>
      var head := UpTo(image, ",");
      && Contains(head, ":") && StartsWith(After(head, ":"), r.value.mimeType)
      && !Contains(r.value.mimeType, ":") && !Contains(r.value.mimeType, ";")
  {
    if !StartsWith(image, "data:") then Ok(ImageData("image/png", ""))
    else
      var head := UpTo(image, ",");
      if !Contains(head, ":") || !Contains(image, ",") then Err(IndexError)
      else
        var i := Find(image, ",").value;
        assert image == image[..i] + "," + image[i + 1..];
        var afterColon := After(head, ":");
        var mime := UpTo(UpTo(afterColon, ":"), ";");
        UpToFacts(afterColon, ":");
        UpToFacts(UpTo(afterColon, ":"), ";");
        StartsWithTrans(afterColon, UpTo(afterColon, ":"), mime);
        PrefixFree(UpTo(afterColon, ":"), mime, ":");
        Ok(ImageData(mime, After(image, ",")))
  }

  /** A "data:" string fails exactly when it has no comma. */
  lemma PrepareFailsWithoutComma(image: string)
    requires StartsWith(image, "data:")
    ensures PrepareImageData(image).Err? <==> !Contains(image, ",")
  {
    assert image[..5] == "data:";
    forall j: nat | j < 5 ensures !OccursAt(image, ",", j) {
      assert image[j] == "data:"[j];
    }
    if Contains(image, ",") {
      var i := Find(image, ",").value;
      assert i >= 5;
      var head := UpTo(image, ",");
      assert head == image[..i];
      assert image[4] == "data:"[4] == ':';
      assert head[4..5] == [head[4]] == ":";
      OccursContains(head, ":", 4);
    }
  }

  /** No character of `s` is one of `cs`. */
  predicate FreeOf(s: string, cs: set<char>) {
    forall k :: 0 <= k < |s| ==> s[k] !in cs
  }

  /**
   * Any data URL `data:<mime>;<params>,<payload>` whose mime type holds no
   * ':', ';' or ',' and whose parameters hold no ',' gives back that mime
   * type and the payload, commas in the payload included.
   */
  lemma PrepareDataUrl(mime: string, params: string, payload: string)
    requires FreeOf(mime, {':', ';', ','}) && FreeOf(params, {','})
    ensures PrepareImageData("data:" + mime + ";" + params + "," + payload) == Ok(ImageData(mime, payload))
  {
    DataUrlSplit(mime, params, payload);
    DataUrlHeader(mime, params);
  }

  /** The images the pipeline stores, `data:<mime>;base64,<payload>`, come back whole. */
  lemma PrepareStoredUrl(mime: string, payload: string)
    requires FreeOf(mime, {':', ';', ','})
    ensures PrepareImageData(DataUrl(mime, payload)) == Ok(ImageData(mime, payload))
  {
    assert DataUrl(mime, payload) == "data:" + mime + ";" + "base64" + "," + payload;
    PrepareDataUrl(mime, "base64", payload);
  }

  /** A data URL splits at the comma after its header. */
  lemma DataUrlSplit(mime: string, params: string, payload: string)
    requires FreeOf(mime, {','}) && FreeOf(params, {','})
    ensures var image := "data:" + mime + ";" + params + "," + payload;
      && StartsWith(image, "data:") && Contains(image, ",")
      && UpTo(image, ",") == "data:" + mime + ";" + params && After(image, ",") == payload
  {
    var image := "data:" + mime + ";" + params + "," + payload;
    var head := "data:" + mime + ";" + params;
    assert image == head + [','] + payload;
    assert image[..5] == "data:";
    forall k | 0 <= k < |head| ensures head[k] != ',' {
      if 5 <= k < 5 + |mime| {
        assert head[k] == mime[k - 5];
      } else if 6 + |mime| <= k {
        assert head[k] == params[k - 6 - |mime|];
      }
    }
    FirstChar(head, ',', payload);
  }

  /** The header of a data URL holds a colon, and its mime type reads back. */
  lemma DataUrlHeader(mime: string, params: string)
    requires FreeOf(mime, {':', ';'})
    ensures var head := "data:" + mime + ";" + params;
      Contains(head, ":") && UpTo(UpTo(After(head, ":"), ":"), ";") == mime
  {
    var head := "data:" + mime + ";" + params;
    assert head == "data" + [':'] + (mime + ";" + params);
    FirstChar("data", ':', mime + ";" + params);
    assert mime + ";" + params == mime + ([';'] + params);
    UpToPastFree(mime, ':', [';'] + params);
    UpToPastFree([';'], ':', params);
    assert mime + ([';'] + UpTo(params, ":")) == mime + [';'] + UpTo(params, ":");
    FirstChar(mime, ';', UpTo(params, ":"));
  }

  // ---------------------------------------------------------------------------
  // Reading the reply

  /** One entry of "changes"; a field is `None` when its key is missing. */
  datatype ChangeItem = ChangeItem(aspect: Option<string>, before: Option<string>, after: Option<string>, preference: Option<string>)

  /** The decoded reply object: "changes" and "overall_preference", each possibly missing. */
  datatype DiffData = DiffData(changes: Option<seq<ChangeItem>>, overallPreference: Option<string>)

  /**
   * `json.loads` and the key lookups, outside the model: `None` when the text
   * is not JSON or a lookup fails. Replies of another JSON shape, which the
   * source does not catch, are assumed not to occur.
   */
  type DiffDecoder = string -> Option<DiffData>

  /** `_mock_diff_result`: the fixed answer used without a key or when the reply cannot be read. */
  function MockDiffResult(): (r: VisualDiffResult)
    ensures |r.changes| == 2 && r.overallPreference != ""
    ensures r.changes[0].aspect == "配色" && r.changes[1].aspect == "レイアウト"
  {
    VisualDiffResult(
      [VisualChange("配色", "明るい背景", "ダーク背景", "コード解説ではダーク背景を好む"),
       VisualChange("レイアウト", "中央寄せ", "左寄せ", "テキストは左寄せを好む")],
      "落ち着いた色調でシンプルなレイアウトを好む傾向")
  }

  function ChangeOf(c: ChangeItem): VisualChange {
    VisualChange(c.aspect.GetOr(""), c.before.GetOr(""), c.after.GetOr(""), c.preference.GetOr(""))
  }

  /**
   * `_parse_diff_result`: the fenced part of the reply, stripped, is
   * decoded; one change per entry, in order, missing fields and a missing
   * overall preference read as ""; the mock result when decoding fails.
   */
  function ParseDiffResult(decode: DiffDecoder, text: string): (r: VisualDiffResult)
    ensures var d := decode(Strip(ExtractFenced(text)));
      && (d.None? ==> r == MockDiffResult())
      && (d.Some? ==>
            |r.changes| == |d.value.changes.GetOr([])| &&
            r.overallPreference == d.value.overallPreference.GetOr("") &&
            forall k :: 0 <= k < |r.changes| ==> r.changes[k] == ChangeOf(d.value.changes.GetOr([])[k]))
  {
    match decode(Strip(ExtractFenced(text)))
    case None => MockDiffResult()
    case Some(d) =>
      var items := d.changes.GetOr([]);
      VisualDiffResult(seq(|items|, k requires 0 <= k < |items| => ChangeOf(items[k])), d.overallPreference.GetOr(""))
  }

  /**
   * What lies outside the model: the API key, and the vision model's reply
   * to the two images (`None` for a status other than 200).
   */
  datatype DiffEnv = DiffEnv(apiKey: string, ask: (ImageData, ImageData) -> Option<string>, decode: DiffDecoder)

  /**
   * `analyze_diff`: the mock result without an API key; otherwise both
   * images are prepared (a malformed data URL fails), the model is asked,
   * an error status fails, and the reply is parsed.
   */
  function AnalyzeDiff(env: DiffEnv, original: string, edited: string): (r: Result<VisualDiffResult, DiffError>)
    ensures env.apiKey == "" ==> r == Ok(MockDiffResult())
    ensures env.apiKey != "" && (PrepareImageData(original).Err? || PrepareImageData(edited).Err?) ==> r == Err(IndexError)
    ensures env.apiKey != "" && PrepareImageData(original).Ok? && PrepareImageData(edited).Ok? ==>
      var reply := env.ask(PrepareImageData(original).value, PrepareImageData(edited).value);
      && (reply.None? ==> r == Err(ApiError))
      && (reply.Some? ==> r == Ok(ParseDiffResult(env.decode, reply.value)))
  {
    if env.apiKey == "" then Ok(MockDiffResult())
    else
      match (PrepareImageData(original), PrepareImageData(edited))
      case (Ok(a), Ok(b)) =>
        (match env.ask(a, b)
         case None => Err(ApiError)
         case Some(text) => Ok(ParseDiffResult(env.decode, text)))
      case _ => Err(IndexError)
  }
}

/**
 * The string operations the source relies on, written out with the
 * semantics of Python's `str` methods: `find`, `rfind`, `in`, `split`,
 * `join`, `replace`, `strip`, slicing, and `html.escape`, plus the
 * zero-padded decimal formatting `f"{n:03d}"`.
 */
module Text {
  import opened Wrappers

  // ---------------------------------------------------------------------------
  // Searching

  /** `t` occurs in `s` starting at position `i`. */
  predicate OccursAt(s: string, t: string, i: nat) {
    i + |t| <= |s| && s[i..i + |t|] == t
  }

  predicate StartsWith(s: string, prefix: string) {
    OccursAt(s, prefix, 0)
  }

  /** The first position at or after `from` where `t` occurs. */
  function FindFrom(s: string, t: string, from: nat): (r: Option<nat>)
    decreases |s| - from
    ensures r.Some? ==> from <= r.value && OccursAt(s, t, r.value)
    ensures forall j: nat :: from <= j && (r.None? || j < r.value) ==> !OccursAt(s, t, j)
  {
    if from + |t| > |s| then None
    else if s[from..from + |t|] == t then Some(from)
    else FindFrom(s, t, from + 1)
  }

  /** Python's `s.find(t)`, with `None` for -1. */
  function Find(s: string, t: string): (r: Option<nat>)
    ensures r.Some? ==> OccursAt(s, t, r.value)
    ensures forall j: nat :: (r.None? || j < r.value) ==> !OccursAt(s, t, j)
  {
    FindFrom(s, t, 0)
  }

  /** Python's `t in s`. */
  predicate Contains(s: string, t: string) {
    Find(s, t).Some?
  }

  /** The last position below `k` where `t` occurs. */
  function RFindBelow(s: string, t: string, k: nat): (r: Option<nat>)
    ensures r.Some? ==> r.value < k && OccursAt(s, t, r.value)
    ensures forall j: nat :: j < k && (r.None? || r.value < j) ==> !OccursAt(s, t, j)
  {
    if k == 0 then None
    else if OccursAt(s, t, k - 1) then Some(k - 1)
    else RFindBelow(s, t, k - 1)
  }

  /** Python's `s.rfind(t)`, with `None` for -1. */
  function RFind(s: string, t: string): (r: Option<nat>)
    ensures r.Some? ==> OccursAt(s, t, r.value)
    ensures forall j: nat :: (r.None? || r.value < j) ==> !OccursAt(s, t, j)
  {
    RFindBelow(s, t, |s| + 1)
  }

  lemma ContainsIff(s: string, t: string)
    ensures Contains(s, t) <==> exists i: nat :: OccursAt(s, t, i)
  {
  }

  /** Nothing of `t` occurs in the part of `s` before the first occurrence of `t`. */
  lemma {:induction false} NoOccurrenceBeforeFirst(s: string, t: string, i: nat)
    requires |t| > 0 && Find(s, t) == Some(i)
    ensures !Contains(s[..i], t)
  {
    if Contains(s[..i], t) {
      var j := Find(s[..i], t).value;
      assert j < i;
      assert s[..i][j..j + |t|] == s[j..j + |t|];
      assert OccursAt(s, t, j);
      assert false;
    }
  }

  // ---------------------------------------------------------------------------
  // Splitting and joining

  /** Python's `s.split(t)[0]`: everything before the first `t`, or all of `s`. */
  function UpTo(s: string, t: string): (r: string)
    ensures |r| <= |s| && r == s[..|r|]
  {
    match Find(s, t)
    case Some(i) => s[..i]
    case None => s
  }

  /** `s.split(t)[0]` is a prefix of `s` that does not contain `t`. */
  lemma UpToFacts(s: string, t: string)
    requires |t| > 0
    ensures StartsWith(s, UpTo(s, t)) && !Contains(UpTo(s, t), t)
  {
    assert s[..|UpTo(s, t)|] == UpTo(s, t);
    match Find(s, t)
    case None =>
    case Some(i) => NoOccurrenceBeforeFirst(s, t, i);
  }

  /** A prefix of a string without `t` does not contain `t` either. */
  lemma PrefixFree(s: string, p: string, t: string)
    requires StartsWith(s, p) && !Contains(s, t)
    ensures !Contains(p, t)
  {
    if Contains(p, t) {
      var j := Find(p, t).value;
      assert s == p + s[|p|..];
      OccursExtend(p, s[|p|..], t, j);
      OccursContains(s, t, j);
    }
  }

  /** A prefix of a prefix is a prefix. */
  lemma StartsWithTrans(a: string, b: string, c: string)
    requires StartsWith(a, b) && StartsWith(b, c)
    ensures StartsWith(a, c)
  {
    assert a[..|c|] == b[..|c|];
  }

  /** Searching for a character the front part lacks skips that part. */
  lemma UpToPastFree(a: string, c: char, b: string)
    requires forall k :: 0 <= k < |a| ==> a[k] != c
    ensures UpTo(a + b, [c]) == a + UpTo(b, [c])
  {
    var s := a + b;
    forall j: nat | j < |a| ensures !OccursAt(s, [c], j) {
      assert s[j..j + 1] == [a[j]];
    }
    forall j: nat | |a| <= j && OccursAt(s, [c], j) ensures OccursAt(b, [c], j - |a|) {
      assert s[j..j + 1] == b[j - |a|..j - |a| + 1];
    }
    match Find(b, [c])
    case None =>
      assert Find(s, [c]).None?;
    case Some(i) =>
      OccursShift(a, b, [c], i);
      assert Find(s, [c]) == Some(|a| + i);
      assert s[..|a| + i] == a + b[..i];
  }

  /** Everything after the first occurrence of `t`. */
  function After(s: string, t: string): (r: string)
    requires Contains(s, t)
    ensures |r| <= |s| && r == s[|s| - |r|..]
  {
    s[Find(s, t).value + |t|..]
  }

  /** Python's `s.split(sep)` for a non-empty separator. */
  function Split(s: string, sep: string): (parts: seq<string>)
    requires |sep| > 0
    decreases |s|
    ensures |parts| >= 1
  {
    match Find(s, sep)
    case None => [s]
    case Some(i) => [s[..i]] + Split(s[i + |sep|..], sep)
  }

  /** Python's `sep.join(parts)`. */
  function Join(sep: string, parts: seq<string>): string
  {
    if |parts| == 0 then ""
    else if |parts| == 1 then parts[0]
    else parts[0] + sep + Join(sep, parts[1..])
  }

  /** An occurrence anywhere makes `t in s` true. */
  lemma OccursContains(s: string, t: string, i: nat)
    requires OccursAt(s, t, i)
    ensures Contains(s, t)
  {
  }

  /** `(a + b).startswith(a)`. */
  lemma StartsWithJoin(a: string, b: string)
    ensures StartsWith(a + b, a)
  {
    assert (a + b)[..|a|] == a;
  }

  /** `t in a + t + b`. */
  lemma ContainsMiddle(a: string, t: string, b: string)
    ensures Contains(a + t + b, t)
  {
    assert (a + t + b)[|a|..|a| + |t|] == t;
    OccursContains(a + t + b, t, |a|);
  }

  /** An occurrence in `b` is one in `a + b`, shifted by `|a|`. */
  lemma OccursShift(a: string, b: string, t: string, i: nat)
    requires OccursAt(b, t, i)
    ensures OccursAt(a + b, t, |a| + i)
  {
    assert (a + b)[|a| + i..|a| + i + |t|] == b[i..i + |t|];
  }

  /** `t` occurs in `a + t + b` right after `a`. */
  lemma OccursMiddle(a: string, t: string, b: string)
    ensures OccursAt(a + t + b, t, |a|)
  {
    assert (a + t + b)[|a|..|a| + |t|] == t;
  }

  /** An occurrence in `a` is one in `a + b`. */
  lemma OccursExtend(a: string, b: string, t: string, i: nat)
    requires OccursAt(a, t, i)
    ensures OccursAt(a + b, t, i)
  {
    assert (a + b)[i..i + |t|] == a[i..i + |t|];
  }

  /** An occurrence inside an occurrence. */
  lemma OccursCompose(s: string, t: string, u: string, i: nat, j: nat)
    requires OccursAt(s, t, i) && OccursAt(t, u, j)
    ensures OccursAt(s, u, i + j)
  {
    assert t == s[i..i + |t|];
    forall k | 0 <= k < |u| ensures s[i + j..i + j + |u|][k] == u[k] {
      assert u[k] == t[j + k] == s[i + j + k];
    }
  }

  /** Each joined part occurs in the joined text. */
  lemma {:induction false} JoinHas(sep: string, parts: seq<string>, k: nat) returns (i: nat)
    requires k < |parts|
    ensures OccursAt(Join(sep, parts), parts[k], i)
    ensures Contains(Join(sep, parts), parts[k])
    decreases |parts|
  {
    if |parts| == 1 {
      assert Join(sep, parts)[0..|parts[0]|] == parts[0];
      i := 0;
    } else if k == 0 {
      assert Join(sep, parts) == parts[0] + (sep + Join(sep, parts[1..]));
      assert Join(sep, parts)[0..|parts[0]|] == parts[0];
      i := 0;
    } else {
      var j := JoinHas(sep, parts[1..], k - 1);
      assert Join(sep, parts) == (parts[0] + sep) + Join(sep, parts[1..]);
      OccursShift(parts[0] + sep, Join(sep, parts[1..]), parts[k], j);
      i := |parts[0] + sep| + j;
    }
    OccursContains(Join(sep, parts), parts[k], i);
  }

  function Concat(parts: seq<string>): string {
    Join("", parts)
  }

  /** Splitting and joining with the same separator gives the string back. */
  lemma {:induction false} JoinSplit(s: string, sep: string)
    requires |sep| > 0
    decreases |s|
    ensures Join(sep, Split(s, sep)) == s
  {
    match Find(s, sep)
    case None =>
    case Some(i) =>
      var rest := s[i + |sep|..];
      var parts := Split(s, sep);
      assert parts == [s[..i]] + Split(rest, sep);
      assert parts[1..] == Split(rest, sep);
      JoinSplit(rest, sep);
      assert Join(sep, parts) == s[..i] + sep + Join(sep, Split(rest, sep));
      assert s == s[..i] + sep + rest;
  }

  /** No piece produced by `Split` contains the separator. */
  lemma {:induction false} SplitPiecesFree(s: string, sep: string)
    requires |sep| > 0
    decreases |s|
    ensures forall k :: 0 <= k < |Split(s, sep)| ==> !Contains(Split(s, sep)[k], sep)
  {
    match Find(s, sep)
    case None =>
    case Some(i) =>
      NoOccurrenceBeforeFirst(s, sep, i);
      SplitPiecesFree(s[i + |sep|..], sep);
  }

  /** When the separator occurs, the second piece runs from after it to the next one. */
  lemma SplitSecond(s: string, sep: string)
    requires |sep| > 0 && Contains(s, sep)
    ensures |Split(s, sep)| >= 2 && Split(s, sep)[1] == UpTo(After(s, sep), sep)
  {
    var rest := After(s, sep);
    match Find(rest, sep)
    case None =>
    case Some(j) =>
  }

  /** At a one-character separator, the text before its first occurrence is the first piece. */
  lemma SplitAtChar(a: string, c: char, rest: string)
    requires forall k :: 0 <= k < |a| ==> a[k] != c
    ensures Split(a + [c] + rest, [c]) == [a] + Split(rest, [c])
  {
    var s := a + [c] + rest;
    assert s[|a|..|a| + 1] == [c];
    assert OccursAt(s, [c], |a|);
    forall j: nat | j < |a| ensures !OccursAt(s, [c], j) {
      assert s[j] == a[j];
    }
    assert Find(s, [c]) == Some(|a|);
    assert s[..|a|] == a;
    assert s[|a| + 1..] == rest;
  }

  /** The first occurrence of a character is where it first appears: before it, `UpTo`; after it, `After`. */
  lemma FirstChar(a: string, c: char, rest: string)
    requires forall k :: 0 <= k < |a| ==> a[k] != c
    ensures Find(a + [c] + rest, [c]) == Some(|a|)
    ensures UpTo(a + [c] + rest, [c]) == a
    ensures Contains(a + [c] + rest, [c]) && After(a + [c] + rest, [c]) == rest
  {
    var s := a + [c] + rest;
    assert s[|a|..|a| + 1] == [c];
    assert OccursAt(s, [c], |a|);
    forall j: nat | j < |a| ensures !OccursAt(s, [c], j) {
      assert s[j] == a[j];
    }
    assert s[..|a|] == a;
    assert s[|a| + 1..] == rest;
  }

  /** A string without the character is its own `UpTo` and does not contain it. */
  lemma NoChar(s: string, c: char)
    requires forall k :: 0 <= k < |s| ==> s[k] != c
    ensures Find(s, [c]).None? && UpTo(s, [c]) == s && !Contains(s, [c])
  {
    forall j: nat ensures !OccursAt(s, [c], j) {
      if j + 1 <= |s| {
        assert s[j..j + 1][0] == s[j];
      }
    }
  }

  /** A string without the one-character separator splits into itself alone. */
  lemma SplitWithout(s: string, c: char)
    requires forall k :: 0 <= k < |s| ==> s[k] != c
    ensures Split(s, [c]) == [s]
  {
    forall j: nat ensures !OccursAt(s, [c], j) {
      if j + 1 <= |s| {
        assert s[j..j + 1][0] == s[j];
      }
    }
    assert Find(s, [c]).None?;
  }

  /** Joining pieces free of a one-character separator and splitting again gives the pieces back. */
  lemma {:induction false} SplitJoinChar(parts: seq<string>, c: char)
    requires |parts| >= 1
    requires forall i, k :: 0 <= i < |parts| && 0 <= k < |parts[i]| ==> parts[i][k] != c
    ensures Split(Join([c], parts), [c]) == parts
    decreases |parts|
  {
    if |parts| == 1 {
      SplitWithout(parts[0], c);
    } else {
      SplitJoinChar(parts[1..], c);
      assert Join([c], parts) == parts[0] + [c] + Join([c], parts[1..]);
      SplitAtChar(parts[0], c, Join([c], parts[1..]));
      assert parts == [parts[0]] + parts[1..];
    }
  }

  /** Python's `s.replace(pat, rep)` for a non-empty pattern. */
  function ReplaceAll(s: string, pat: string, rep: string): string
    requires |pat| > 0
  {
    Join(rep, Split(s, pat))
  }

  /**
   * What `ReplaceAll` does, as the source's `template.replace(...)` is used:
   * the string is cut at every occurrence of the pattern into pieces that do
   * not contain it, and the pieces are glued back with the replacement.
   */
  lemma ReplaceAllSpec(s: string, pat: string, rep: string)
    requires |pat| > 0
    ensures var pieces := Split(s, pat);
      && Join(pat, pieces) == s
      && ReplaceAll(s, pat, rep) == Join(rep, pieces)
      && forall k :: 0 <= k < |pieces| ==> !Contains(pieces[k], pat)
  {
    JoinSplit(s, pat);
    SplitPiecesFree(s, pat);
  }

  /** A string without the pattern is returned unchanged. */
  lemma ReplaceAbsent(s: string, pat: string, rep: string)
    requires |pat| > 0 && !Contains(s, pat)
    ensures ReplaceAll(s, pat, rep) == s
  {
  }

  /**
   * Cutting at the first `t` and then at the first `u`, where `t` begins with
   * `u`: the result is a prefix of the input without `u`, followed in the
   * input by `u` or by nothing.
   */
  lemma {:induction false} CutTwice(a: string, t: string, u: string)
    requires |u| > 0 && StartsWith(t, u)
    ensures var r := UpTo(UpTo(a, t), u);
      && |r| <= |a| && r == a[..|r|]
      && !Contains(r, u)
      && (|r| == |a| || OccursAt(a, u, |r|))
  {
    var piece := UpTo(a, t);
    match Find(piece, u)
    case Some(j) =>
      NoOccurrenceBeforeFirst(piece, u, j);
      assert a[j..j + |u|] == piece[j..j + |u|];
    case None =>
      match Find(a, t)
      case None =>
      case Some(m) =>
        assert a[m..m + |u|] == t[..|u|];
  }

  // ---------------------------------------------------------------------------
  // Code-fence extraction of model output

  const Fence := "```"
  const JsonFence := "```json"

  /**
   * The extraction the source repeats for every model reply:
   * `text.split("```json")[1].split("```")[0]` if "```json" occurs, else
   * `text.split("```")[1].split("```")[0]` if "```" occurs, else the text.
   */
  function ExtractFenced(text: string): string
  {
    if Contains(text, JsonFence) then UpTo(Split(text, JsonFence)[1], Fence)
    else if Contains(text, Fence) then UpTo(Split(text, Fence)[1], Fence)
    else text
  }

  /** The result starts right after the opening fence `open` and stops at the next "```" or the end. */
  ghost predicate FencedAfter(text: string, open: string, r: string) {
    exists i: nat :: FencedAfterAt(text, open, r, i)
  }

  lemma {:induction false} FencedPieceSpec(text: string, open: string)
    requires StartsWith(open, Fence) && Contains(text, open)
    ensures |Split(text, open)| >= 2
    ensures FencedAfter(text, open, UpTo(Split(text, open)[1], Fence))
  {
    SplitSecond(text, open);
    FencedPieceOfAfter(text, open);
  }

  lemma FencedPieceOfAfter(text: string, open: string)
    requires StartsWith(open, Fence) && Contains(text, open)
    ensures FencedAfter(text, open, UpTo(UpTo(After(text, open), open), Fence))
  {
    var i := Find(text, open).value;
    var a := After(text, open);
    assert a == text[i + |open|..];
    CutTwice(a, open, Fence);
    SuffixPiece(text, i + |open|, a, UpTo(UpTo(a, open), Fence));
    FencedAfterIntro(text, open, UpTo(UpTo(a, open), Fence), i);
  }

  /** A prefix of a suffix, seen in the whole text. */
  lemma SuffixPiece(text: string, j: nat, a: string, r: string)
    requires j <= |text| && a == text[j..]
    requires |r| <= |a| && r == a[..|r|]
    requires |r| == |a| || OccursAt(a, Fence, |r|)
    ensures j + |r| <= |text| && text[j..j + |r|] == r
    ensures j + |r| == |text| || OccursAt(text, Fence, j + |r|)
  {
    assert text[j..][..|r|] == text[j..j + |r|];
    if |r| < |a| {
      OccursInSuffix(text, j, Fence, |r|);
    }
  }

  /** An occurrence in a suffix is an occurrence in the whole, shifted by where the suffix starts. */
  lemma OccursInSuffix(s: string, j: nat, t: string, k: nat)
    requires j <= |s| && OccursAt(s[j..], t, k)
    ensures OccursAt(s, t, j + k)
  {
    assert s[j..][k..k + |t|] == s[j + k..j + k + |t|];
  }

  lemma FencedAfterIntro(text: string, open: string, r: string, i: nat)
    requires Find(text, open) == Some(i)
    requires i + |open| + |r| <= |text|
    requires text[i + |open|..i + |open| + |r|] == r
    requires !Contains(r, Fence)
    requires i + |open| + |r| == |text| || OccursAt(text, Fence, i + |open| + |r|)
    ensures FencedAfter(text, open, r)
  {
    assert FencedAfterAt(text, open, r, i);
  }

  /** `FencedAfter` with the position of the opening fence given. */
  predicate FencedAfterAt(text: string, open: string, r: string, i: nat) {
    && Find(text, open) == Some(i)
    && i + |open| + |r| <= |text|
    && text[i + |open|..i + |open| + |r|] == r
    && !Contains(r, Fence)
    && (i + |open| + |r| == |text| || OccursAt(text, Fence, i + |open| + |r|))
  }

  /**
   * The fence rule: after the first "```json" up to the next "```" if there is
   * one; otherwise between the first two "```"; otherwise the whole text.
   */
  lemma ExtractFencedSpec(text: string)
    ensures Contains(text, JsonFence) ==> FencedAfter(text, JsonFence, ExtractFenced(text))
    ensures !Contains(text, JsonFence) && Contains(text, Fence) ==>
      FencedAfter(text, Fence, ExtractFenced(text))
    ensures !Contains(text, Fence) ==> ExtractFenced(text) == text
  {
    if Contains(text, JsonFence) {
      FencedPieceSpec(text, JsonFence);
      var i := Find(text, JsonFence).value;
      assert text[i..i + |Fence|] == JsonFence[..|Fence|];
      assert OccursAt(text, Fence, i);
    } else if Contains(text, Fence) {
      FencedPieceSpec(text, Fence);
    }
  }

  // ---------------------------------------------------------------------------
  // Slicing and trimming

  /** Python's truth value of an optional string: present and not empty. */
  predicate Truthy(o: Option<string>) {
    o.Some? && o.value != ""
  }

  /** Python's `s[:n]`. */
  function Take(s: string, n: nat): (r: string)
    ensures |r| == if n < |s| then n else |s|
    ensures r == s[..|r|]
  {
    if n < |s| then s[..n] else s
  }

  /** The characters Python's `str.strip()` removes. */
  predicate IsSpace(c: char) {
    || ('\t' <= c <= '\r')
    || ('\U{1C}' <= c <= ' ')
    || c == '\U{85}' || c == '\U{A0}' || c == '\U{1680}'
    || ('\U{2000}' <= c <= '\U{200A}')
    || c == '\U{2028}' || c == '\U{2029}' || c == '\U{202F}' || c == '\U{205F}' || c == '\U{3000}'
  }

  function TrimStart(s: string): (r: string)
    ensures |r| <= |s| && r == s[|s| - |r|..]
    ensures r != [] ==> !IsSpace(r[0])
  {
    if s != [] && IsSpace(s[0]) then TrimStart(s[1..]) else s
  }

  function TrimEnd(s: string): (r: string)
    ensures |r| <= |s| && r == s[..|r|]
    ensures r != [] ==> !IsSpace(r[|r| - 1])
  {
    if s != [] && IsSpace(s[|s| - 1]) then TrimEnd(s[..|s| - 1]) else s
  }

  /** Python's `s.strip()`. */
  function Strip(s: string): string {
    TrimEnd(TrimStart(s))
  }

  // ---------------------------------------------------------------------------
  // HTML escaping (Python's `html.escape` with `quote=True`)

  function EscapeChar(c: char): string {
    if c == '&' then "&amp;"
    else if c == '<' then "&lt;"
    else if c == '>' then "&gt;"
    else if c == '"' then "&quot;"
    else if c == '\'' then "&#x27;"
    else [c]
  }

  /** The characters that may not appear raw in escaped text. */
  predicate IsMarkupChar(c: char) {
    c == '<' || c == '>' || c == '"' || c == '\''
  }

  function HtmlEscape(s: string): (r: string)
    ensures forall k :: 0 <= k < |r| ==> !IsMarkupChar(r[k])
  {
    if s == [] then [] else EscapeChar(s[0]) + HtmlEscape(s[1..])
  }

  /** The inverse of `HtmlEscape` on the five entities it produces. */
  function HtmlUnescape(s: string): string
  {
    if s == [] then []
    else if s[0] != '&' then [s[0]] + HtmlUnescape(s[1..])
    else if StartsWith(s, "&amp;") then "&" + HtmlUnescape(s[5..])
    else if StartsWith(s, "&lt;") then "<" + HtmlUnescape(s[4..])
    else if StartsWith(s, "&gt;") then ">" + HtmlUnescape(s[4..])
    else if StartsWith(s, "&quot;") then "\"" + HtmlUnescape(s[6..])
    else if StartsWith(s, "&#x27;") then "'" + HtmlUnescape(s[6..])
    else [s[0]] + HtmlUnescape(s[1..])
  }

  lemma UnescapeEntity(e: string, c: char, t: string)
    requires e == EscapeChar(c) && |e| > 1
    ensures HtmlUnescape(e + t) == [c] + HtmlUnescape(t)
  {
    var s := e + t;
    assert s[..|e|] == e && s[|e|..] == t;
    assert s[0] == '&' && s[1] == e[1];
    if c == '&' {
      assert StartsWith(s, "&amp;");
    } else if c == '<' {
      assert !StartsWith(s, "&amp;") && StartsWith(s, "&lt;");
    } else if c == '>' {
      assert !StartsWith(s, "&amp;") && !StartsWith(s, "&lt;") && StartsWith(s, "&gt;");
    } else if c == '"' {
      assert !StartsWith(s, "&amp;") && !StartsWith(s, "&lt;") && !StartsWith(s, "&gt;");
      assert StartsWith(s, "&quot;");
    } else {
      assert !StartsWith(s, "&amp;") && !StartsWith(s, "&lt;") && !StartsWith(s, "&gt;");
      assert !StartsWith(s, "&quot;") && StartsWith(s, "&#x27;");
    }
  }

  lemma UnescapeEscapeChar(c: char, t: string)
    ensures HtmlUnescape(EscapeChar(c) + t) == [c] + HtmlUnescape(t)
  {
    var s := EscapeChar(c) + t;
    if |EscapeChar(c)| > 1 {
      UnescapeEntity(EscapeChar(c), c, t);
    } else {
      assert s[0] == c && s[1..] == t;
    }
  }

  /** Escaping loses nothing: unescaping gives the original text back. */
  lemma {:induction false} EscapeRoundTrip(s: string)
    ensures HtmlUnescape(HtmlEscape(s)) == s
  {
    if s != [] {
      UnescapeEscapeChar(s[0], HtmlEscape(s[1..]));
      EscapeRoundTrip(s[1..]);
    }
  }

  // ---------------------------------------------------------------------------
  // Decimal formatting

  function DigitChar(d: nat): char
    requires d < 10
  {
    "0123456789"[d]
  }

  /** Python's `str(n)` for a natural number. */
  function Decimal(n: nat): (r: string)
    ensures |r| >= 1
    ensures forall k :: 0 <= k < |r| ==> '0' <= r[k] <= '9'
  {
    if n < 10 then [DigitChar(n)] else Decimal(n / 10) + [DigitChar(n % 10)]
  }

  /** Python's `f"{n:03d}"`: at least three digits, padded with zeros. */
  function Pad3(n: nat): (r: string)
    ensures |r| >= 3 && (n < 1000 ==> |r| == 3)
    ensures forall k :: 0 <= k < |r| ==> '0' <= r[k] <= '9'
  {
    var d := Decimal(n);
    DecimalLength(n);
    if |d| >= 3 then d else seq(3 - |d|, _ => '0') + d
  }

  lemma {:induction false} DecimalLength(n: nat)
    ensures n < 10 ==> |Decimal(n)| == 1
    ensures n < 100 ==> |Decimal(n)| <= 2
    ensures n < 1000 ==> |Decimal(n)| <= 3
  {
    if n >= 10 {
      DecimalLength(n / 10);
    }
  }

  /** The value of a string of decimal digits. */
  function DigitsValue(s: string): nat
    requires forall k :: 0 <= k < |s| ==> '0' <= s[k] <= '9'
  {
    if s == [] then 0 else DigitsValue(s[..|s| - 1]) * 10 + (s[|s| - 1] as int - '0' as int)
  }

  lemma {:induction false} DecimalValue(n: nat)
    ensures DigitsValue(Decimal(n)) == n
  {
    var d := Decimal(n);
    DigitCharValue(n % 10);
    if n < 10 {
      assert d[..0] == [];
    } else {
      DecimalValue(n / 10);
      assert d[..|d| - 1] == Decimal(n / 10);
      assert d[|d| - 1] == DigitChar(n % 10);
      assert n == n / 10 * 10 + n % 10;
    }
  }

  lemma DigitCharValue(d: nat)
    requires d < 10
    ensures DigitChar(d) as int - '0' as int == d
  {
  }

  lemma {:induction false} LeadingZerosValue(z: nat, s: string)
    requires forall k :: 0 <= k < |s| ==> '0' <= s[k] <= '9'
    decreases |s|
    ensures DigitsValue(seq(z, _ => '0') + s) == DigitsValue(s)
  {
    var p := seq(z, _ => '0') + s;
    if s == [] {
      assert p == seq(z, _ => '0');
      ZerosValue(z);
    } else {
      assert p[..|p| - 1] == seq(z, _ => '0') + s[..|s| - 1];
      LeadingZerosValue(z, s[..|s| - 1]);
    }
  }

  lemma {:induction false} ZerosValue(z: nat)
    ensures DigitsValue(seq(z, _ => '0')) == 0
  {
    if z > 0 {
      assert seq(z, _ => '0')[..z - 1] == seq(z - 1, _ => '0');
      ZerosValue(z - 1);
    }
  }

  /** The padded index reads back as the index, so distinct indices give distinct names. */
  lemma Pad3Value(n: nat)
    ensures DigitsValue(Pad3(n)) == n
  {
    DecimalValue(n);
    var d := Decimal(n);
    if |d| < 3 {
      LeadingZerosValue(3 - |d|, d);
    }
  }

  lemma Pad3Injective(a: nat, b: nat)
    requires a != b
    ensures Pad3(a) != Pad3(b)
  {
    Pad3Value(a);
    Pad3Value(b);
  }
}

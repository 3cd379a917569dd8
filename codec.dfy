/**
 * The library codecs the source calls and the model leaves uninterpreted:
 * UTF-8 encoding, base64 (section 4 of RFC 4648) in both directions, and the
 * data-URL form of section 3 of RFC 2397 that the pipeline stores artifacts in.
 */
module Codec {
  import opened Wrappers

  type byte = x: int | 0 <= x < 256

  /** `s.encode("utf-8")`, `base64.b64encode(b).decode()` and `base64.b64decode(s)`; decoding may fail. */
  datatype Codecs = Codecs(
    utf8: string -> seq<byte>,
    b64encode: seq<byte> -> string,
    b64decode: string -> Option<seq<byte>>)

  /** `f"data:{mime};base64,{payload}"`. */
  function DataUrl(mime: string, payload: string): (r: string)
    ensures |r| == |mime| + |payload| + 13
    ensures r[..5] == "data:"
    ensures r[|r| - |payload|..] == payload
  {
    "data:" + mime + ";base64," + payload
  }
}

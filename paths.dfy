/** `pathname.split('/')[1] || fallback`, the expression the sidebar and
    the main layout both use to name the current section. */
module Paths {
  import opened Wrappers
  import opened Text

  /** `pathname.split('/')[1]`: `None` (undefined) when the pathname holds
      no `/` at all. */
  function SecondPiece(pathname: string): Option<string> {
    var parts := Split(pathname, '/');
    if |parts| > 1 then Some(parts[1]) else None
  }

  /** `pathname.split('/')[1] || fallback`. */
  function SegmentOr(pathname: string, fallback: string): string {
    OrDefault(SecondPiece(pathname), fallback)
  }

  /** The piece after the first `/` is the text up to the next `/` or the
      end: for `p + "/" + seg + rest` with no `/` in `p` or `seg`, and
      `rest` empty or starting a new segment, it is `seg`. */
  lemma {:induction false} SecondPieceIsSegment(p: string, seg: string, rest: string)
    requires '/' !in p && '/' !in seg
    requires rest == "" || rest[0] == '/'
    ensures SecondPiece(p + "/" + seg + rest) == Some(seg)
  {
    SplitAfterPrefix(p, '/', seg + rest);
    assert p + "/" + seg + rest == p + ['/'] + (seg + rest);
    if rest == "" {
      assert seg + rest == seg;
      SplitWithoutSeparator(seg, '/');
    } else {
      assert rest == ['/'] + rest[1..];
      SplitAfterPrefix(seg, '/', rest[1..]);
      assert seg + rest == seg + ['/'] + rest[1..];
    }
  }

  /** A pathname without any `/` has no second piece. */
  lemma NoSlashNoSegment(pathname: string)
    requires '/' !in pathname
    ensures SecondPiece(pathname) == None
  {
    SplitWithoutSeparator(pathname, '/');
  }

  /** For a pathname that starts with `/`, `SegmentOr` is its first
      segment when that is non-empty and the fallback otherwise; for a
      nested path only the first segment counts. */
  lemma SegmentOfAbsolutePath(seg: string, rest: string, fallback: string)
    requires '/' !in seg
    requires rest == "" || rest[0] == '/'
    ensures SegmentOr("/" + seg + rest, fallback) == if seg == "" then fallback else seg
  {
    SecondPieceIsSegment("", seg, rest);
    assert "" + "/" + seg + rest == "/" + seg + rest;
  }

  /** The root path and the empty pathname both give the fallback. */
  lemma RootGivesFallback(fallback: string)
    ensures SegmentOr("/", fallback) == fallback
    ensures SegmentOr("", fallback) == fallback
  {
    SegmentOfAbsolutePath("", "", fallback);
    assert "/" + "" + "" == "/";
    NoSlashNoSegment("");
  }
}

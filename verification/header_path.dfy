/** The two pure path helpers of the header component (client/ui/header.js):
    `segment(path, index)` and `cleanPath()`. The router's current path, which
    `cleanPath` reads, is a parameter. */
module HeaderPath {
  import opened Wrappers
  import opened StringSplit

  /** `path.substr(1)`: the path without its first character, whatever it is. */
  function DropFirst(path: string): (r: string)
    ensures |path| > 0 ==> [path[0]] + r == path
    ensures |path| == 0 ==> r == ""
  {
    if |path| > 0 then path[1..] else ""
  }

  /** The pieces `segment` indexes into. */
  function Segments(path: string): seq<string> {
    Split(DropFirst(path), {'/'})
  }

  /** `segment(path, index)`: the `index`-th piece, or `null` (`None`) when the
      index is out of range or the piece is the empty string. */
  function Segment(path: string, index: int): (r: Option<string>)
    // present exactly for an in-range index naming a non-empty piece, and then it is that piece
    ensures r.Some? <==> 0 <= index < |Segments(path)| && Segments(path)[index] != ""
    ensures r.Some? ==> r.value == Segments(path)[index]
    // a segment is never empty and never holds a slash
    ensures r.Some? ==> r.value != "" && forall k :: 0 <= k < |r.value| ==> r.value[k] != '/'
  {
    var pieces := Segments(path);
    PiecesHaveNoSeparator(DropFirst(path), {'/'});
    if 0 <= index < |pieces| && pieces[index] != "" then Some(pieces[index]) else None
  }

  /** The segments glue back, with slashes, into the path minus its first character. */
  lemma SegmentsRebuildPath(path: string)
    ensures |path| > 0 ==> Join(Segments(path), '/') == path[1..]
    ensures |path| == 0 ==> Segments(path) == [""]
  {
    JoinSplit(DropFirst(path), '/');
  }

  /** `cleanPath()` on the router path `path`: the part before the first `#`
      or `?`. */
  function CleanPath(path: string): (r: string)
    // a prefix of the path that holds neither `#` nor `?`
    ensures r <= path
    ensures forall k :: 0 <= k < |r| ==> r[k] != '#' && r[k] != '?'
    // and the longest one: the path ends there or continues with `#` or `?`
    ensures |r| < |path| ==> path[|r|] == '#' || path[|r|] == '?'
  {
    FirstPiece(path, {'#', '?'});
    Split(path, {'#', '?'})[0]
  }

  /** A path without `#` or `?` is already clean. */
  lemma CleanPathOfCleanPath(path: string)
    requires forall k :: 0 <= k < |path| ==> path[k] != '#' && path[k] != '?'
    ensures CleanPath(path) == path
  {
  }

  /** `cleanPath` is idempotent. */
  lemma CleanPathIdempotent(path: string)
    ensures CleanPath(CleanPath(path)) == CleanPath(path)
  {
  }

  /** Segments of an ordinary path; out-of-range indices, negative ones
      included, give `null`. The first character is dropped even when it is
      not a slash. */
  lemma SegmentExamples()
    ensures Segment("/ab/c", 0) == Some("ab")
    ensures Segment("/ab/c", 1) == Some("c")
    ensures Segment("/ab/c", 2) == None
    ensures Segment("/ab/c", -1) == None
    ensures Segment("xab/c", 0) == Some("ab")
  {
    var sl := {'/'};
    SplitCons('c', "", sl);
    assert ['c'] + "" == "c";
    assert Split("c", sl) == ["c"];
    SplitCons('/', "c", sl);
    assert ['/'] + "c" == "/c";
    assert Split("/c", sl) == ["", "c"];
    SplitCons('b', "/c", sl);
    assert ['b'] + "/c" == "b/c";
    assert ['b'] + "" == "b";
    assert Split("b/c", sl) == ["b", "c"];
    SplitCons('a', "b/c", sl);
    assert ['a'] + "b/c" == "ab/c";
    assert ['a'] + "b" == "ab";
    assert Split("ab/c", sl) == ["ab", "c"];
    assert DropFirst("/ab/c") == "ab/c" && DropFirst("xab/c") == "ab/c";
  }

  /** A doubled slash gives an empty piece, read as `null`. */
  lemma SegmentOfDoubledSlash()
    ensures Segment("/a//b", 1) == None
    ensures Segment("/a//b", 2) == Some("b")
  {
    var sl := {'/'};
    SplitCons('b', "", sl);
    assert ['b'] + "" == "b";
    assert Split("b", sl) == ["b"];
    SplitCons('/', "b", sl);
    assert ['/'] + "b" == "/b";
    assert Split("/b", sl) == ["", "b"];
    SplitCons('/', "/b", sl);
    assert ['/'] + "/b" == "//b";
    assert Split("//b", sl) == ["", "", "b"];
    SplitCons('a', "//b", sl);
    assert ['a'] + "//b" == "a//b";
    assert ['a'] + "" == "a";
    assert ["", "", "b"][1..] == ["", "b"];
    assert Split("a//b", sl) == ["a", "", "b"];
    assert DropFirst("/a//b") == "a//b";
  }

  /** A trailing slash gives an empty last piece, read as `null`. */
  lemma SegmentOfTrailingSlash()
    ensures Segment("/a/", 0) == Some("a")
    ensures Segment("/a/", 1) == None
  {
    var sl := {'/'};
    SplitCons('/', "", sl);
    assert ['/'] + "" == "/";
    assert Split("/", sl) == ["", ""];
    SplitCons('a', "/", sl);
    assert ['a'] + "/" == "a/";
    assert ['a'] + "" == "a";
    assert Split("a/", sl) == ["a", ""];
    assert DropFirst("/a/") == "a/";
  }

  lemma CleanPathExamples()
    ensures CleanPath("/p?x#y") == "/p"
    ensures CleanPath("/p#x?y") == "/p"
    ensures CleanPath("/p") == "/p"
  {
  }
}

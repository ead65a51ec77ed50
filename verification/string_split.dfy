/** `String.prototype.split` with a separator that matches single characters:
    a one-character string (`split('/')`) or a one-character class
    (`split(/[#?]/)`). The separator is given as the set of characters it
    matches. */
module StringSplit {

  /** The pieces of `s` between separator characters, left to right. There is
      always at least one piece, and two adjacent separators give an empty one. */
  function Split(s: string, seps: set<char>): (pieces: seq<string>)
    // one piece more than there are separator characters
    ensures |pieces| == SeparatorCount(s, seps) + 1
    decreases |s|
  {
    if |s| == 0 then [""]
    else
      var rest := Split(s[1..], seps);
      if s[0] in seps then [""] + rest
      else [[s[0]] + rest[0]] + rest[1..]
  }

  /** One step of `Split` on a string given as its first character and the rest. */
  lemma SplitCons(c: char, t: string, seps: set<char>)
    ensures Split([c] + t, seps) ==
      if c in seps then [""] + Split(t, seps)
      else [[c] + Split(t, seps)[0]] + Split(t, seps)[1..]
  {
  }

  /** How many characters of `s` are separators. */
  function SeparatorCount(s: string, seps: set<char>): nat
    decreases |s|
  {
    if |s| == 0 then 0
    else (if s[0] in seps then 1 else 0) + SeparatorCount(s[1..], seps)
  }

  /** No piece contains a separator character. */
  lemma {:induction false} PiecesHaveNoSeparator(s: string, seps: set<char>)
    ensures forall i, k :: 0 <= i < |Split(s, seps)| && 0 <= k < |Split(s, seps)[i]| ==>
      Split(s, seps)[i][k] !in seps
    decreases |s|
  {
    if |s| > 0 {
      PiecesHaveNoSeparator(s[1..], seps);
      var rest := Split(s[1..], seps);
      if s[0] !in seps {
        var p := Split(s, seps);
        assert p == [[s[0]] + rest[0]] + rest[1..];
        forall i, k | 0 <= i < |p| && 0 <= k < |p[i]|
          ensures p[i][k] !in seps
        {
          if i == 0 {
            if k > 0 { assert p[0][k] == rest[0][k - 1]; }
          } else {
            assert p[i] == rest[i];
          }
        }
      }
    }
  }

  /** The inverse of `Split`: the pieces glued back with one separator between
      neighbours. */
  function Join(pieces: seq<string>, sep: char): string
    decreases |pieces|
  {
    if |pieces| == 0 then ""
    else if |pieces| == 1 then pieces[0]
    else pieces[0] + [sep] + Join(pieces[1..], sep)
  }

  /** Splitting on a single character and joining back on it restores the
      string: no character is lost or added. */
  lemma {:induction false} JoinSplit(s: string, sep: char)
    ensures Join(Split(s, {sep}), sep) == s
    decreases |s|
  {
    if |s| > 0 {
      JoinSplit(s[1..], sep);
      var rest := Split(s[1..], {sep});
      if s[0] == sep {
        assert Split(s, {sep}) == [""] + rest;
        assert ([""] + rest)[1..] == rest;
      } else {
        var p := Split(s, {sep});
        assert p == [[s[0]] + rest[0]] + rest[1..];
        if |rest| == 1 {
          assert Join(rest, sep) == rest[0];
        } else {
          assert p[1..] == rest[1..];
          assert Join(rest, sep) == rest[0] + [sep] + Join(rest[1..], sep);
        }
      }
    }
  }

  /** The first piece is the longest prefix free of separators: it is a prefix,
      it holds no separator, and the string either ends there or continues with
      a separator. */
  lemma {:induction false} FirstPiece(s: string, seps: set<char>)
    ensures var f := Split(s, seps)[0];
      && f <= s
      && (forall k :: 0 <= k < |f| ==> f[k] !in seps)
      && (|f| < |s| ==> s[|f|] in seps)
    decreases |s|
  {
    if |s| > 0 && s[0] !in seps {
      FirstPiece(s[1..], seps);
    }
  }
}

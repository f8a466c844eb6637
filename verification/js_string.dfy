/**
 * The few JavaScript string operations the screens rely on, over Dafny strings:
 * `startsWith`, `split` with a string separator and `trim`. `IndexOf` and
 * `Join` are this model's own helpers, which define `split` and state its
 * round trip.
 */
module JsString {

  /** `s.startsWith(prefix)`. */
  predicate StartsWith(s: string, prefix: string) {
    |prefix| <= |s| && s[..|prefix|] == prefix
  }

  /** The separator occurs in `s` starting at index `i`. */
  predicate MatchAt(s: string, sep: string, i: int) {
    0 <= i && i + |sep| <= |s| && s[i..i + |sep|] == sep
  }

  /** No occurrence of the separator anywhere in `s`. */
  predicate NoMatch(s: string, sep: string) {
    forall i :: 0 <= i <= |s| - |sep| ==> !MatchAt(s, sep, i)
  }

  /**
   * `s.indexOf(sep, from)`: the first index at or after `from` where `sep`
   * occurs, or -1 when there is none.
   */
  function IndexOf(s: string, sep: string, from: nat): (r: int)
    requires |sep| > 0 && from <= |s|
    ensures r == -1 || (from <= r && MatchAt(s, sep, r))
    ensures forall j :: from <= j && (r == -1 || j < r) ==> !MatchAt(s, sep, j)
    decreases |s| - from
  {
    if from + |sep| > |s| then -1
    else if s[from..from + |sep|] == sep then from
    else IndexOf(s, sep, from + 1)
  }

  /**
   * `s.split(sep)` for a non-empty string separator: occurrences are taken left
   * to right without overlap and empty pieces are kept, so the result always
   * has at least one piece.
   */
  function Split(s: string, sep: string): (r: seq<string>)
    requires |sep| > 0
    ensures |r| >= 1
    decreases |s|
  {
    var i := IndexOf(s, sep, 0);
    if i == -1 then [s] else [s[..i]] + Split(s[i + |sep|..], sep)
  }

  /** `pieces.join(sep)`. */
  function Join(pieces: seq<string>, sep: string): string
    requires |pieces| >= 1
  {
    if |pieces| == 1 then pieces[0] else pieces[0] + sep + Join(pieces[1..], sep)
  }

  /** Joining the pieces of a split with the same separator gives back the string. */
  lemma {:induction false} SplitJoin(s: string, sep: string)
    requires |sep| > 0
    ensures Join(Split(s, sep), sep) == s
    decreases |s|
  {
    var i := IndexOf(s, sep, 0);
    if i != -1 {
      var rest := s[i + |sep|..];
      var pieces := Split(s, sep);
      assert pieces == [s[..i]] + Split(rest, sep);
      assert |pieces| > 1 && pieces[0] == s[..i] && pieces[1..] == Split(rest, sep);
      SplitJoin(rest, sep);
      assert s[i..i + |sep|] == sep;
      calc {
        Join(pieces, sep);
        s[..i] + sep + Join(Split(rest, sep), sep);
        s[..i] + s[i..i + |sep|] + s[i + |sep|..];
        s;
      }
    }
  }

  /** No piece of a split contains the separator. */
  lemma {:induction false} SplitPiecesFree(s: string, sep: string, k: nat)
    requires |sep| > 0 && k < |Split(s, sep)|
    ensures NoMatch(Split(s, sep)[k], sep)
    decreases |s|
  {
    var i := IndexOf(s, sep, 0);
    if i == -1 {
      assert Split(s, sep)[k] == s;
    } else if k == 0 {
      forall j ensures !MatchAt(s[..i], sep, j) {
        if MatchAt(s[..i], sep, j) {
          assert s[..i][j..j + |sep|] == s[j..j + |sep|];
          assert MatchAt(s, sep, j);
        }
      }
    } else {
      SplitPiecesFree(s[i + |sep|..], sep, k - 1);
    }
  }

  /**
   * Splitting `a + sep + b`, where no occurrence of `sep` starts inside `a`,
   * cuts exactly after `a`.
   */
  lemma SplitFirst(a: string, sep: string, b: string)
    requires |sep| > 0
    requires forall j :: 0 <= j < |a| ==> !MatchAt(a + sep + b, sep, j)
    ensures Split(a + sep + b, sep) == [a] + Split(b, sep)
  {
    var s := a + sep + b;
    assert MatchAt(s, sep, |a|) by {
      assert s[|a|..|a| + |sep|] == sep;
    }
    var i := IndexOf(s, sep, 0);
    assert i == |a|;
    assert s[..i] == a;
    assert s[i + |sep|..] == b;
  }

  /** A string with no occurrence of the separator splits into itself alone. */
  lemma SplitNone(s: string, sep: string)
    requires |sep| > 0 && NoMatch(s, sep)
    ensures Split(s, sep) == [s]
  {
  }

  /**
   * The first piece of a split is the longest prefix free of the separator:
   * either the whole string, or a prefix that the separator follows.
   */
  lemma SplitHead(s: string, sep: string)
    requires |sep| > 0
    ensures var h := Split(s, sep)[0];
      && |h| <= |s| && h == s[..|h|]
      && (forall j :: 0 <= j < |h| ==> !MatchAt(s, sep, j))
      && (h == s || MatchAt(s, sep, |h|))
  {
  }

  /** Characters JavaScript's `trim` removes: white space and line terminators. */
  predicate IsJsWhitespace(c: char) {
    || c == '\t' || c == '\n' || c == '\U{000B}' || c == '\U{000C}' || c == '\r' || c == ' '
    || c == '\U{00A0}' || c == '\U{1680}' || ('\U{2000}' <= c <= '\U{200A}')
    || c == '\U{2028}' || c == '\U{2029}' || c == '\U{202F}' || c == '\U{205F}'
    || c == '\U{3000}' || c == '\U{FEFF}'
  }

  /** `s.trimStart()`. */
  function TrimStart(s: string): (r: string)
    ensures |r| <= |s| && r == s[|s| - |r|..]
    ensures r == [] || !IsJsWhitespace(r[0])
    ensures forall i :: 0 <= i < |s| - |r| ==> IsJsWhitespace(s[i])
  {
    if s != [] && IsJsWhitespace(s[0]) then TrimStart(s[1..]) else s
  }

  /** `s.trimEnd()`. */
  function TrimEnd(s: string): (r: string)
    ensures |r| <= |s| && r == s[..|r|]
    ensures r == [] || !IsJsWhitespace(r[|r| - 1])
    ensures forall i :: |r| <= i < |s| ==> IsJsWhitespace(s[i])
  {
    if s != [] && IsJsWhitespace(s[|s| - 1]) then TrimEnd(s[..|s| - 1]) else s
  }

  /** `s.trim()`. */
  function Trim(s: string): string {
    TrimEnd(TrimStart(s))
  }

  /** `!s.trim()`: the string is empty once trimmed. */
  predicate IsBlank(s: string) {
    Trim(s) == []
  }

  /** A string is blank exactly when every character of it is white space. */
  lemma BlankIffAllWhitespace(s: string)
    ensures IsBlank(s) <==> forall i :: 0 <= i < |s| ==> IsJsWhitespace(s[i])
  {
    var t := TrimStart(s);
    if IsBlank(s) {
      assert t == [];
    }
  }
}

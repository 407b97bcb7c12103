/** The three JavaScript string operations the application relies on:
    `String.prototype.trim` (truthiness of `s.trim()` is the "blank" test used
    throughout), `String.prototype.split` with a non-empty separator, and
    `String.prototype.startsWith`. */
module JsString {

  /** ECMAScript WhiteSpace and LineTerminator code points: exactly what `trim` strips. */
  predicate IsWhitespace(c: char) {
    c == '\t' || c == '\n' || c == '\U{000B}' || c == '\U{000C}' || c == '\r' || c == ' '
    || c == '\U{00A0}' || c == '\U{FEFF}' || c == '\U{1680}' || ('\U{2000}' <= c <= '\U{200A}')
    || c == '\U{2028}' || c == '\U{2029}' || c == '\U{202F}' || c == '\U{205F}' || c == '\U{3000}'
  }

  /** A string whose `trim()` is falsy, i.e. the empty string or whitespace only. */
  predicate IsBlank(s: string) {
    forall i :: 0 <= i < |s| ==> IsWhitespace(s[i])
  }

  /** The index of the first non-whitespace character of `s` at or after `from`
      (`|s|` when there is none). */
  function KeepFrom(s: string, from: nat): (k: nat)
    requires from <= |s|
    ensures from <= k <= |s|
    ensures forall i :: from <= i < k ==> IsWhitespace(s[i])
    ensures k == |s| || !IsWhitespace(s[k])
    decreases |s| - from
  {
    if from < |s| && IsWhitespace(s[from]) then KeepFrom(s, from + 1) else from
  }

  /** The index just past the last non-whitespace character of `s` at or after
      `lo`, scanning down from `hi` (`lo` when there is none). */
  function KeepUntil(s: string, lo: nat, hi: nat): (e: nat)
    requires lo <= hi <= |s|
    ensures lo <= e <= hi
    ensures forall i :: e <= i < hi ==> IsWhitespace(s[i])
    ensures e == lo || !IsWhitespace(s[e - 1])
    decreases hi
  {
    if lo < hi && IsWhitespace(s[hi - 1]) then KeepUntil(s, lo, hi - 1) else hi
  }

  /** `s.trim()`: the piece `s[k..k + |r|]` left after cutting whitespace at both
      ends; only whitespace lies outside it, it neither starts nor ends with
      whitespace, and it is empty exactly when `s` is blank. */
  function Trim(s: string): (r: string)
    ensures |r| <= |s|
    ensures r == [] || (!IsWhitespace(r[0]) && !IsWhitespace(r[|r| - 1]))
    ensures r == [] <==> IsBlank(s)
    ensures var k := KeepFrom(s, 0);
      k + |r| <= |s| && r == s[k..k + |r|] &&
      (forall i :: 0 <= i < k ==> IsWhitespace(s[i])) &&
      (forall i :: k + |r| <= i < |s| ==> IsWhitespace(s[i]))
  {
    var k := KeepFrom(s, 0);
    var e := KeepUntil(s, k, |s|);
    assert e > k ==> s[k..e][0] == s[k] && s[k..e][e - k - 1] == s[e - 1];
    s[k..e]
  }

  /** Trimming twice is trimming once. */
  lemma TrimIdempotent(s: string)
    ensures Trim(Trim(s)) == Trim(s)
  {
    var r := Trim(s);
    if r != [] {
      assert KeepFrom(r, 0) == 0;
      assert KeepUntil(r, 0, |r|) == |r|;
    }
  }

  /** `s.startsWith(prefix)`. */
  predicate StartsWith(s: string, prefix: string) {
    |prefix| <= |s| && s[..|prefix|] == prefix
  }

  /** `sep` occurs in `s` starting at index `j`. */
  predicate OccursAt(s: string, sep: string, j: int) {
    0 <= j && j + |sep| <= |s| && s[j..j + |sep|] == sep
  }

  /** `sep` occurs nowhere in `s`. */
  predicate Free(s: string, sep: string) {
    forall j :: 0 <= j <= |s| ==> !OccursAt(s, sep, j)
  }

  datatype Found = NotFound | FoundAt(index: nat)

  /** The first position at or after `from` where `sep` occurs, if any. */
  function IndexOfFrom(s: string, sep: string, from: nat): (r: Found)
    requires |sep| > 0 && from <= |s|
    ensures r.FoundAt? ==> from <= r.index <= |s| - |sep| && OccursAt(s, sep, r.index)
    ensures r.FoundAt? ==> forall j :: from <= j < r.index ==> !OccursAt(s, sep, j)
    ensures r.NotFound? <==> forall j :: from <= j <= |s| ==> !OccursAt(s, sep, j)
    decreases |s| - from
  {
    if from + |sep| <= |s| && s[from..from + |sep|] == sep then assert OccursAt(s, sep, from); FoundAt(from)
    else if from == |s| then NotFound
    else IndexOfFrom(s, sep, from + 1)
  }

  /** `s.indexOf(sep)`: the first position where `sep` occurs, if any. */
  function IndexOf(s: string, sep: string): (r: Found)
    requires |sep| > 0
    ensures r.FoundAt? ==> r.index <= |s| - |sep| && OccursAt(s, sep, r.index)
    ensures r.FoundAt? ==> forall j :: 0 <= j < r.index ==> !OccursAt(s, sep, j)
    ensures r.NotFound? <==> Free(s, sep)
  {
    IndexOfFrom(s, sep, 0)
  }

  /** `s.split(sep)` for a non-empty separator: the pieces between successive
      leftmost non-overlapping occurrences of `sep`. */
  function Split(s: string, sep: string): (parts: seq<string>)
    requires |sep| > 0
    ensures |parts| >= 1
  {
    SplitFrom(s, sep, 0)
  }

  /** The pieces of `s[p..]`, scanning for separators from `p` on. */
  function SplitFrom(s: string, sep: string, p: nat): (parts: seq<string>)
    requires |sep| > 0 && p <= |s|
    ensures |parts| >= 1
    decreases |s| - p
  {
    match IndexOfFrom(s, sep, p)
    case NotFound => [s[p..]]
    case FoundAt(i) => [s[p..i]] + SplitFrom(s, sep, i + |sep|)
  }

  /** `parts.join(sep)`. */
  function Join(parts: seq<string>, sep: string): string
    requires |parts| >= 1
  {
    if |parts| == 1 then parts[0] else parts[0] + sep + Join(parts[1..], sep)
  }

  /** Joining the pieces back with the separator restores the original text. */
  lemma JoinSplit(s: string, sep: string)
    requires |sep| > 0
    ensures Join(Split(s, sep), sep) == s
  {
    JoinSplitFrom(s, sep, 0);
  }

  lemma {:induction false} JoinSplitFrom(s: string, sep: string, p: nat)
    requires |sep| > 0 && p <= |s|
    ensures Join(SplitFrom(s, sep, p), sep) == s[p..]
    decreases |s| - p
  {
    match IndexOfFrom(s, sep, p)
    case NotFound =>
    case FoundAt(i) =>
      var parts := SplitFrom(s, sep, p);
      var more := SplitFrom(s, sep, i + |sep|);
      assert parts[1..] == more;
      JoinSplitFrom(s, sep, i + |sep|);
      assert Join(parts, sep) == s[p..i] + sep + s[i + |sep|..];
      assert s[p..] == s[p..i] + s[i..i + |sep|] + s[i + |sep|..];
  }

  /** An occurrence inside a piece of `s` is an occurrence in `s`. */
  lemma OccursInPiece(s: string, sep: string, p: nat, i: nat, j: int)
    requires p <= i <= |s| && OccursAt(s[p..i], sep, j)
    ensures OccursAt(s, sep, p + j)
  {
    var a, b := s[p..i][j..j + |sep|], s[p + j..p + j + |sep|];
    assert forall m :: 0 <= m < |a| ==> a[m] == b[m];
  }

  /** Every piece in `parts` is free of `sep`. */
  predicate AllFree(parts: seq<string>, sep: string) {
    forall k :: 0 <= k < |parts| ==> Free(parts[k], sep)
  }

  /** No piece produced by `split` contains the separator. */
  lemma SplitPiecesFree(s: string, sep: string)
    requires |sep| > 0
    ensures AllFree(Split(s, sep), sep)
  {
    SplitFromPiecesFree(s, sep, 0);
  }

  lemma {:induction false} SplitFromPiecesFree(s: string, sep: string, p: nat)
    requires |sep| > 0 && p <= |s|
    ensures AllFree(SplitFrom(s, sep, p), sep)
    decreases |s| - p
  {
    match IndexOfFrom(s, sep, p)
    case NotFound =>
      PieceFree(s, sep, p, |s|);
      assert s[p..] == s[p..|s|];
    case FoundAt(i) =>
      SplitFromPiecesFree(s, sep, i + |sep|);
      PieceFree(s, sep, p, i);
      AllFreeCons(s[p..i], SplitFrom(s, sep, i + |sep|), sep);
  }

  /** A piece `s[p..i]` with no occurrence of `sep` starting in `[p, i)` is free of it. */
  lemma PieceFree(s: string, sep: string, p: nat, i: nat)
    requires |sep| > 0 && p <= i <= |s|
    requires forall j :: p <= j < i ==> !OccursAt(s, sep, j)
    ensures Free(s[p..i], sep)
  {
    forall j | 0 <= j <= i - p ensures !OccursAt(s[p..i], sep, j) {
      if OccursAt(s[p..i], sep, j) {
        OccursInPiece(s, sep, p, i, j);
      }
    }
  }

  lemma AllFreeCons(first: string, more: seq<string>, sep: string)
    requires Free(first, sep) && AllFree(more, sep)
    ensures AllFree([first] + more, sep)
  {
    var parts := [first] + more;
    forall k | 0 <= k < |parts| ensures Free(parts[k], sep) {
      if k > 0 { assert parts[k] == more[k - 1]; }
    }
  }

  /** The first two pieces of `s.split(sep)`: the text before the first
      separator, and the text between the first and the second (or the end). */
  lemma SplitHead(s: string, sep: string)
    requires |sep| > 0
    ensures IndexOf(s, sep).NotFound? ==> Split(s, sep) == [s]
    ensures IndexOf(s, sep).FoundAt? ==>
      var i := IndexOf(s, sep).index;
      |Split(s, sep)| >= 2 && Split(s, sep)[0] == s[..i] &&
      Split(s, sep)[1] == match IndexOfFrom(s, sep, i + |sep|)
                          case NotFound => s[i + |sep|..]
                          case FoundAt(j) => s[i + |sep|..j]
  {
    match IndexOf(s, sep)
    case NotFound =>
      assert s[0..] == s;
    case FoundAt(i) =>
      var more := SplitFrom(s, sep, i + |sep|);
      assert Split(s, sep) == [s[0..i]] + more;
      assert s[0..i] == s[..i];
  }
}

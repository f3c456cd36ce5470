/**
 * The string operations the source takes from Python: `\s` and `str.isspace`,
 * `sep.join`, the `in` substring test, slicing with negative bounds,
 * `str.strip`, and `re.split` on `\s+` and on `\s*\n\s*`.
 */
module Strings {

  /** A character `str.isspace()` accepts; `\s` on a `str` pattern and `str.strip()` use the same set. */
  predicate IsSpace(c: char) {
    || c == ' '
    || ('\t' <= c <= '\r')
    || ('\U{1c}' <= c <= '\U{1f}')
    || c == '\U{85}' || c == '\U{a0}' || c == '\U{1680}'
    || ('\U{2000}' <= c <= '\U{200a}')
    || c == '\U{2028}' || c == '\U{2029}' || c == '\U{202f}' || c == '\U{205f}' || c == '\U{3000}'
  }

  predicate NoSpace(s: string) {
    forall k :: 0 <= k < |s| ==> !IsSpace(s[k])
  }

  function Repeat<T>(x: T, n: nat): (r: seq<T>)
    ensures |r| == n && forall k :: 0 <= k < n ==> r[k] == x
  {
    seq(n, _ => x)
  }

  /** `sep.join(parts)`. */
  function Join(sep: string, parts: seq<string>): string
    decreases |parts|
  {
    if |parts| == 0 then ""
    else if |parts| == 1 then parts[0]
    else parts[0] + sep + Join(sep, parts[1..])
  }

  /** Python's `needle in hay` on strings. */
  predicate IsSubstring(needle: string, hay: string) {
    exists i: nat | i <= |hay| :: OccursAt(needle, hay, i)
  }

  predicate OccursAt(needle: string, hay: string, i: nat) {
    i + |needle| <= |hay| && hay[i..i + |needle|] == needle
  }

  /** Python's `s[i:j]` for a step of 1: negative bounds count from the end, then both are clamped. */
  function PySlice<T>(s: seq<T>, i: int, j: int): seq<T> {
    var a := ClampIndex(i, |s|);
    var b := ClampIndex(j, |s|);
    if a < b then s[a..b] else []
  }

  function ClampIndex(k: int, n: nat): (r: nat)
    ensures r <= n
  {
    if k < 0 then (if k + n < 0 then 0 else k + n) else if k > n then n else k
  }

  lemma PySliceInRange<T>(s: seq<T>, i: nat, j: nat)
    requires i <= j <= |s|
    ensures PySlice(s, i, j) == s[i..j]
  {
  }

  lemma EmptyIsSubstring(hay: string)
    ensures IsSubstring("", hay)
  {
    assert OccursAt("", hay, 0);
  }

  /** A one-character string occurs exactly when the character does. */
  lemma CharIsSubstring(c: char, hay: string)
    ensures IsSubstring([c], hay) <==> c in hay
  {
    if c in hay {
      var i :| 0 <= i < |hay| && hay[i] == c;
      assert hay[i..i + 1] == [c];
      assert OccursAt([c], hay, i);
    }
    if IsSubstring([c], hay) {
      var i: nat :| i <= |hay| && OccursAt([c], hay, i);
      assert hay[i] == hay[i..i + 1][0];
    }
  }

  lemma SubstringTransitive(a: string, b: string, c: string)
    requires IsSubstring(a, b) && IsSubstring(b, c)
    ensures IsSubstring(a, c)
  {
    var i: nat :| i <= |b| && OccursAt(a, b, i);
    var j: nat :| j <= |c| && OccursAt(b, c, j);
    assert i + |a| <= |b| && b[i..i + |a|] == a;
    assert j + |b| <= |c| && c[j..j + |b|] == b;
    forall k | 0 <= k < |a| ensures c[j + i..j + i + |a|][k] == a[k] {
      assert c[j + i + k] == c[j..j + |b|][i + k] == b[i + k];
    }
    assert c[j + i..j + i + |a|] == a;
    assert OccursAt(a, c, j + i);
  }

  lemma JoinAppend(sep: string, a: seq<string>, b: seq<string>)
    requires |a| > 0 && |b| > 0
    ensures Join(sep, a + b) == Join(sep, a) + sep + Join(sep, b)
    decreases |a|
  {
    if |a| == 1 {
      assert (a + b)[1..] == b;
    } else {
      assert (a + b)[1..] == a[1..] + b;
      JoinAppend(sep, a[1..], b);
    }
  }

  /** The joined middle of a list of parts is a substring of the joined whole. */
  lemma JoinSliceIsSubstring(sep: string, ws: seq<string>, i: nat, j: nat)
    requires i <= j <= |ws|
    ensures IsSubstring(Join(sep, ws[i..j]), Join(sep, ws))
  {
    var mid := Join(sep, ws[i..j]);
    var whole := Join(sep, ws);
    if i == j {
      EmptyIsSubstring(whole);
    } else {
      // whole == pre + mid + post
      var pre := if i == 0 then "" else Join(sep, ws[..i]) + sep;
      var post := if j == |ws| then "" else sep + Join(sep, ws[j..]);
      var upto := Join(sep, ws[..j]);
      if i == 0 {
        assert ws[..j] == ws[i..j];
      } else {
        assert ws[..j] == ws[..i] + ws[i..j];
        JoinAppend(sep, ws[..i], ws[i..j]);
      }
      assert upto == pre + mid;
      if j == |ws| {
        assert ws[..j] == ws;
      } else {
        assert ws == ws[..j] + ws[j..];
        JoinAppend(sep, ws[..j], ws[j..]);
      }
      assert whole == upto + post;
      assert whole[|pre|..|pre| + |mid|] == mid;
      assert OccursAt(mid, whole, |pre|);
    }
  }

  /** The end of the maximal whitespace run that starts at `i` (`i` itself when there is none). */
  function RunEnd(s: string, i: nat): (j: nat)
    requires i <= |s|
    ensures i <= j <= |s|
    ensures forall k :: i <= k < j ==> IsSpace(s[k])
    ensures j < |s| ==> !IsSpace(s[j])
    decreases |s| - i
  {
    if i < |s| && IsSpace(s[i]) then RunEnd(s, i + 1) else i
  }

  lemma RunEndShift(s: string, i: nat)
    requires i <= |s|
    ensures RunEnd(s[i..], 0) == RunEnd(s, i) - i
  {
  }

  /**
   * `re.split` that cuts at every maximal whitespace run (`\s+`), or, when
   * `newlineRuns`, only at the maximal whitespace runs that hold a newline
   * (`\s*\n\s*`). The piece being built is `s[start..i]`.
   */
  function SplitFrom(s: string, start: nat, i: nat, newlineRuns: bool): (pieces: seq<string>)
    requires start <= i <= |s|
    ensures |pieces| >= 1
    decreases |s| - i
  {
    if i == |s| then [s[start..]]
    else if IsSpace(s[i]) then
      var j := RunEnd(s, i);
      if !newlineRuns || '\n' in s[i..j] then [s[start..i]] + SplitFrom(s, j, j, newlineRuns)
      else SplitFrom(s, start, j, newlineRuns)
    else SplitFrom(s, start, i + 1, newlineRuns)
  }

  /** `re.split(r"\s+", s)`. */
  function SplitWords(s: string): seq<string> {
    SplitFrom(s, 0, 0, false)
  }

  /** `re.split(r"\s*\n\s*", s)`. */
  function SplitLines(s: string): seq<string> {
    SplitFrom(s, 0, 0, true)
  }

  lemma {:induction false} RunEndOffset(s: string, p: nat, i: nat)
    requires p <= i <= |s|
    ensures RunEnd(s[p..], i - p) == RunEnd(s, i) - p
    decreases |s| - i
  {
    if i < |s| && IsSpace(s[i]) {
      assert s[p..][i - p] == s[i];
      RunEndOffset(s, p, i + 1);
    }
  }

  /** Splitting a suffix gives the same pieces as splitting the whole string from inside that suffix. */
  lemma {:induction false} SplitFromOffset(s: string, p: nat, start: nat, i: nat, newlineRuns: bool)
    requires p <= start <= i <= |s|
    ensures SplitFrom(s, start, i, newlineRuns) == SplitFrom(s[p..], start - p, i - p, newlineRuns)
    decreases |s| - i
  {
    var t := s[p..];
    if i == |s| {
      assert t[start - p..] == s[start..];
    } else {
      assert t[i - p] == s[i];
      if IsSpace(s[i]) {
        var j := RunEnd(s, i);
        RunEndOffset(s, p, i);
        assert t[i - p..j - p] == s[i..j];
        assert t[start - p..i - p] == s[start..i];
        SplitFromOffset(s, p, j, j, newlineRuns);
        SplitFromOffset(s, p, start, j, newlineRuns);
      } else {
        SplitFromOffset(s, p, start, i + 1, newlineRuns);
      }
    }
  }

  /** Scanning across characters that are not whitespace does not cut. */
  lemma {:induction false} SplitFromSkip(s: string, start: nat, i: nat, k: nat, newlineRuns: bool)
    requires start <= i <= k <= |s| && NoSpace(s[i..k])
    ensures SplitFrom(s, start, i, newlineRuns) == SplitFrom(s, start, k, newlineRuns)
    decreases k - i
  {
    if i < k {
      assert s[i..k][0] == s[i];
      assert s[i + 1..k] == s[i..k][1..];
      SplitFromSkip(s, start, i + 1, k, newlineRuns);
    }
  }

  /** A word, one space, then text that starts with a non-space: the word is the first piece. */
  lemma SplitWordsCons(a: string, t: string)
    requires NoSpace(a) && |t| > 0 && !IsSpace(t[0])
    ensures SplitWords(a + " " + t) == [a] + SplitWords(t)
  {
    var s := a + " " + t;
    assert s[0..|a|] == a;
    SplitFromSkip(s, 0, 0, |a|, false);
    assert s[|a|] == ' ' && s[|a| + 1] == t[0];
    assert RunEnd(s, |a| + 1) == |a| + 1;
    assert RunEnd(s, |a|) == |a| + 1;
    SplitFromOffset(s, |a| + 1, |a| + 1, |a| + 1, false);
    assert s[|a| + 1..] == t;
  }

  /** Non-empty words without whitespace, joined by single spaces and split on whitespace, come back unchanged. */
  lemma {:induction false} SplitJoinWords(words: seq<string>)
    requires |words| >= 1
    requires forall k :: 0 <= k < |words| ==> |words[k]| > 0 && NoSpace(words[k])
    ensures SplitWords(Join(" ", words)) == words
    decreases |words|
  {
    var w := words[0];
    if |words| == 1 {
      assert w[0..|w|] == w;
      SplitFromSkip(w, 0, 0, |w|, false);
    } else {
      var rest := words[1..];
      SplitJoinWords(rest);
      var t := Join(" ", rest);
      JoinStartsWith(rest);
      SplitWordsCons(w, t);
      assert words == [w] + rest;
    }
  }

  /** A join of non-empty words starts with the first word's first character. */
  lemma JoinStartsWith(words: seq<string>)
    requires |words| >= 1 && |words[0]| > 0
    ensures |Join(" ", words)| > 0 && Join(" ", words)[0] == words[0][0]
  {
  }

  /** `s` with every maximal whitespace run replaced by one space. */
  function Collapse(s: string): string
    decreases |s|
  {
    if |s| == 0 then ""
    else if IsSpace(s[0]) then " " + Collapse(s[RunEnd(s, 0)..])
    else [s[0]] + Collapse(s[1..])
  }

  lemma {:induction false} JoinSplitFrom(s: string, start: nat, i: nat)
    requires start <= i <= |s|
    ensures Join(" ", SplitFrom(s, start, i, false)) == s[start..i] + Collapse(s[i..])
    decreases |s| - i
  {
    if i == |s| {
    } else if IsSpace(s[i]) {
      var j := RunEnd(s, i);
      var rest := SplitFrom(s, j, j, false);
      JoinSplitFrom(s, j, j);
      assert ([s[start..i]] + rest)[1..] == rest;
      RunEndShift(s, i);
      assert s[i..][RunEnd(s[i..], 0)..] == s[j..];
    } else {
      JoinSplitFrom(s, start, i + 1);
      assert s[i..][1..] == s[i + 1..];
      assert s[start..i + 1] == s[start..i] + [s[i]];
    }
  }

  /** Splitting on whitespace and joining with single spaces collapses every whitespace run. */
  lemma JoinSplitWords(s: string)
    ensures Join(" ", SplitWords(s)) == Collapse(s)
  {
    JoinSplitFrom(s, 0, 0);
  }

  lemma {:induction false} SplitFromPieces(s: string, start: nat, i: nat, newlineRuns: bool)
    requires start <= i <= |s|
    requires !newlineRuns ==> NoSpace(s[start..i])
    requires newlineRuns ==> '\n' !in s[start..i]
    ensures forall p :: p in SplitFrom(s, start, i, newlineRuns) ==>
      (!newlineRuns ==> NoSpace(p)) && (newlineRuns ==> '\n' !in p)
    decreases |s| - i
  {
    if i == |s| {
    } else if IsSpace(s[i]) {
      var j := RunEnd(s, i);
      if !newlineRuns || '\n' in s[i..j] {
        SplitFromPieces(s, j, j, newlineRuns);
      } else {
        assert s[start..j] == s[start..i] + s[i..j];
        SplitFromPieces(s, start, j, newlineRuns);
      }
    } else {
      assert s[start..i + 1] == s[start..i] + [s[i]];
      SplitFromPieces(s, start, i + 1, newlineRuns);
    }
  }

  /** No word of `re.split(r"\s+", s)` holds whitespace. */
  lemma SplitWordsPieces(s: string)
    ensures forall w :: w in SplitWords(s) ==> NoSpace(w)
  {
    SplitFromPieces(s, 0, 0, false);
  }

  /** No line of `re.split(r"\s*\n\s*", s)` holds a newline. */
  lemma SplitLinesPieces(s: string)
    ensures forall l :: l in SplitLines(s) ==> '\n' !in l
  {
    SplitFromPieces(s, 0, 0, true);
  }

  lemma {:induction false} SplitFromNoNewline(s: string, start: nat, i: nat)
    requires start <= i <= |s| && '\n' !in s
    ensures SplitFrom(s, start, i, true) == [s[start..]]
    decreases |s| - i
  {
    if i < |s| {
      if IsSpace(s[i]) {
        var j := RunEnd(s, i);
        assert '\n' !in s[i..j];
        SplitFromNoNewline(s, start, j);
      } else {
        SplitFromNoNewline(s, start, i + 1);
      }
    }
  }

  /** Text without a newline is one line. */
  lemma SplitLinesNoNewline(s: string)
    requires '\n' !in s
    ensures SplitLines(s) == [s]
  {
    SplitFromNoNewline(s, 0, 0);
  }

  /** Where `str.strip()` cuts: everything outside `[a, b)` is whitespace, and the kept part has none at either end. */
  function StripBounds(s: string): (r: (nat, nat))
    ensures r.0 <= r.1 <= |s|
    ensures forall k :: 0 <= k < r.0 ==> IsSpace(s[k])
    ensures forall k :: r.1 <= k < |s| ==> IsSpace(s[k])
    ensures r.0 < r.1 ==> !IsSpace(s[r.0]) && !IsSpace(s[r.1 - 1])
  {
    var a := RunEnd(s, 0);
    (a, TrimEnd(s, a, |s|))
  }

  function TrimEnd(s: string, lo: nat, hi: nat): (j: nat)
    requires lo <= hi <= |s|
    ensures lo <= j <= hi
    ensures forall k :: j <= k < hi ==> IsSpace(s[k])
    ensures j > lo ==> !IsSpace(s[j - 1])
    decreases hi
  {
    if hi > lo && IsSpace(s[hi - 1]) then TrimEnd(s, lo, hi - 1) else hi
  }

  /** `s.strip()`. */
  function Strip(s: string): string {
    var b := StripBounds(s);
    s[b.0..b.1]
  }
}

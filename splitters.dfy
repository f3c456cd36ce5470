/**
 * Sentence splitting for prose (`markovify/splitters.py`): the word tests that
 * decide whether a punctuation-terminated word ends a sentence, and the cut of
 * a text into stripped sentences at the accepted word ends.
 *
 * The regular expression that proposes candidate words is not modelled
 * character by character: its matches are an input, constrained by
 * `Matches` to what the pattern guarantees.
 */
module Splitters {
  import opened Wrappers
  import opened Strings

  // ---------------------------------------------------------------------------
  // Tables
  // ---------------------------------------------------------------------------

  const States: seq<string> := [
    "ala", "ariz", "ark", "calif", "colo", "conn", "del", "fla", "ga", "ill", "ind", "kan", "ky", "la", "md", "mass",
    "mich", "minn", "miss", "mo", "mont", "neb", "nev", "okla", "ore", "pa", "tenn", "vt", "va", "wash", "wis", "wyo"]

  const Titles: seq<string> := [
    "mr", "ms", "mrs", "msr", "dr", "gov", "pres", "sen", "sens", "rep", "reps", "prof", "gen", "messrs", "col", "sr", "jf",
    "sgt", "mgr", "fr", "rev", "jr", "snr", "atty", "supt"]

  const Streets: seq<string> := ["ave", "blvd", "st", "rd", "hwy"]

  const Months: seq<string> := ["jan", "feb", "mar", "apr", "jun", "jul", "aug", "sep", "sept", "oct", "nov", "dec"]

  /** The lower-case initials "a" to "z". */
  function Initials(): (r: seq<string>)
    ensures |r| == 26
    ensures forall c :: 'a' <= c <= 'z' ==> [c] in r
  {
    var r := seq(26, i requires 0 <= i < 26 => [(('a' as int) + i) as char]);
    assert forall c :: 'a' <= c <= 'z' ==> r[(c as int) - ('a' as int)] == [c];
    r
  }

  /** `abbr_capped`: the list consulted for words that start with a capital. */
  function AbbrCapped(): seq<string> {
    States + ["u.s"] + Titles + Streets + Months + Initials()
  }

  /** `abbr_lowercase`: a single string, not a list. */
  const AbbrLowercase: string := "etc|v|vs|viz|al|pct"

  const Exceptions: seq<string> := ["U.S.", "U.N.", "E.U.", "F.B.I.", "C.I.A."]

  /** Python's `w in table` on a list, scanned from the front. */
  predicate Listed(w: string, table: seq<string>)
    decreases |table|
  {
    |table| > 0 && (table[0] == w || Listed(w, table[1..]))
  }

  lemma {:induction false} ListedIn(w: string, table: seq<string>)
    ensures Listed(w, table) <==> w in table
    decreases |table|
  {
    if |table| > 0 {
      ListedIn(w, table[1..]);
      assert table == [table[0]] + table[1..];
    }
  }

  // ---------------------------------------------------------------------------
  // Characters
  // ---------------------------------------------------------------------------

  predicate IsUpper(c: char) {
    'A' <= c <= 'Z'
  }

  /** U+212A KELVIN SIGN, which `str.lower()` maps to the ASCII letter `k`. */
  const KelvinSign: char := '\U{212A}'

  function LowerChar(c: char): (r: char)
    ensures IsUpper(c) ==> 'a' <= r <= 'z' && r as int == c as int + 32
    ensures c == KelvinSign ==> r == 'k'
    ensures !IsUpper(c) && c != KelvinSign ==> r == c
  {
    if IsUpper(c) then ((c as int) + 32) as char
    else if c == KelvinSign then 'k'
    else c
  }

  /**
   * `s.lower()` on the characters whose lower case is ASCII: the ASCII
   * capitals and the Kelvin sign. Every other character is kept.
   */
  function Lower(s: string): (r: string)
    ensures |r| == |s|
    ensures forall k :: 0 <= k < |s| ==> r[k] == LowerChar(s[k])
  {
    seq(|s|, k requires 0 <= k < |s| => LowerChar(s[k]))
  }

  /** `len(re.sub(r"[^A-Z]", "", s))`: how many ASCII capitals `s` holds. */
  function UpperCount(s: string): (n: nat)
    ensures n <= |s|
    decreases |s|
  {
    if |s| == 0 then 0 else UpperCount(s[..|s| - 1]) + (if IsUpper(s[|s| - 1]) then 1 else 0)
  }

  lemma {:induction false} UpperCountPositive(s: string, k: nat)
    requires k < |s| && IsUpper(s[k])
    ensures UpperCount(s) >= 1
    decreases |s|
  {
    if k < |s| - 1 {
      UpperCountPositive(s[..|s| - 1], k);
    }
  }

  /** Two capitals at different positions make the count exceed one. */
  lemma {:induction false} UpperCountTwo(s: string, j: nat, k: nat)
    requires j < k < |s| && IsUpper(s[j]) && IsUpper(s[k])
    ensures UpperCount(s) > 1
    decreases |s|
  {
    if k < |s| - 1 {
      UpperCountTwo(s[..|s| - 1], j, k);
    } else {
      UpperCountPositive(s[..|s| - 1], j);
    }
  }

  /** A word with at most one capital. */
  lemma {:induction false} UpperCountAtMostOne(s: string, k: nat)
    requires k < |s| && forall j :: 0 <= j < |s| && j != k ==> !IsUpper(s[j])
    ensures UpperCount(s) <= 1
    decreases |s|
  {
    if |s| > 0 && k < |s| - 1 {
      UpperCountAtMostOne(s[..|s| - 1], k);
    } else if |s| > 0 {
      UpperCountNone(s[..|s| - 1]);
    }
  }

  lemma {:induction false} UpperCountNone(s: string)
    requires forall j :: 0 <= j < |s| ==> !IsUpper(s[j])
    ensures UpperCount(s) == 0
    decreases |s|
  {
    if |s| > 0 {
      UpperCountNone(s[..|s| - 1]);
    }
  }

  // ---------------------------------------------------------------------------
  // The word tests
  // ---------------------------------------------------------------------------

  /**
   * `is_abbreviation(dotted_word)`, with the capped list as a parameter:
   * drop the last character; a capitalised remainder is looked up,
   * lower-cased, in `capped`; any other remainder is tested as a SUBSTRING of
   * the lower-case string. None stands for the IndexError `clipped[0]` raises
   * on a word of at most one character.
   */
  function AbbreviationWith(capped: seq<string>, dottedWord: string): (r: Option<bool>)
    ensures r.None? <==> |dottedWord| <= 1
    ensures r.Some? && IsUpper(dottedWord[0]) ==>
      (r.value <==> Listed(Lower(dottedWord[..|dottedWord| - 1]), capped))
    ensures r.Some? && !IsUpper(dottedWord[0]) ==>
      (r.value <==> IsSubstring(dottedWord[..|dottedWord| - 1], AbbrLowercase))
  {
    if |dottedWord| <= 1 then None
    else
      var clipped := dottedWord[..|dottedWord| - 1];
      if IsUpper(clipped[0]) then Some(Listed(Lower(clipped), capped))
      else Some(IsSubstring(clipped, AbbrLowercase))
  }

  /**
   * `is_sentence_ender(word)`, with the capped list as a parameter. None
   * stands for the IndexError of an empty word, or of the word "." reaching
   * `is_abbreviation`.
   */
  function EnderWith(capped: seq<string>, word: string): (r: Option<bool>)
    ensures r.None? <==> word == "" || word == "."
  {
    if Listed(word, Exceptions) then Some(false)
    else if |word| == 0 then None
    else if word[|word| - 1] == '?' || word[|word| - 1] == '!' then Some(true)
    else if UpperCount(word) > 1 then Some(true)
    else if word[|word| - 1] == '.' then
      match AbbreviationWith(capped, word)
      case None => None
      case Some(abbr) => Some(!abbr)
    else Some(false)
  }

  /** `is_abbreviation` itself, on `abbr_capped`. */
  function IsAbbreviation(dottedWord: string): Option<bool> {
    AbbreviationWith(AbbrCapped(), dottedWord)
  }

  /** `is_sentence_ender` itself, on `abbr_capped`. */
  function IsSentenceEnder(word: string): Option<bool> {
    EnderWith(AbbrCapped(), word)
  }

  /**
   * The five dotted exceptions never end a sentence, although each has two
   * capitals and a final dot, so the later tests would have accepted it.
   */
  lemma ExceptionsNeverEnd(capped: seq<string>)
    ensures forall w :: w in Exceptions ==> EnderWith(capped, w) == Some(false)
    ensures forall w :: w in Exceptions ==> w[|w| - 1] == '.' && UpperCount(w) > 1
  {
    UpperCountTwo("U.S.", 0, 2);
    UpperCountTwo("U.N.", 0, 2);
    UpperCountTwo("E.U.", 0, 2);
    UpperCountTwo("F.B.I.", 0, 2);
    UpperCountTwo("C.I.A.", 0, 2);
    forall w | w in Exceptions ensures w == "U.S." || w == "U.N." || w == "E.U." || w == "F.B.I." || w == "C.I.A." {
    }
    forall w | w in Exceptions ensures Listed(w, Exceptions) {
      ListedIn(w, Exceptions);
    }
  }

  /** A word outside the exceptions that ends in `?` or `!` always ends a sentence. */
  lemma QuestionOrBangEnds(capped: seq<string>, word: string)
    requires word !in Exceptions
    requires |word| > 0 && (word[|word| - 1] == '?' || word[|word| - 1] == '!')
    ensures EnderWith(capped, word) == Some(true)
  {
    ListedIn(word, Exceptions);
  }

  /** More than one capital ends a sentence, before any abbreviation lookup. */
  lemma CapitalsEnd(capped: seq<string>, word: string)
    requires word !in Exceptions && UpperCount(word) > 1
    ensures EnderWith(capped, word) == Some(true)
  {
    ListedIn(word, Exceptions);
  }

  /**
   * Past the first three tests, a word ends a sentence exactly when it ends in
   * a dot and is not an abbreviation.
   */
  lemma DotRule(capped: seq<string>, word: string)
    requires word !in Exceptions && |word| >= 2
    requires word[|word| - 1] != '?' && word[|word| - 1] != '!'
    requires UpperCount(word) <= 1
    ensures EnderWith(capped, word) == Some(word[|word| - 1] == '.' && AbbreviationWith(capped, word) == Some(false))
  {
    ListedIn(word, Exceptions);
  }

  /** "Mr." has one capital and "mr" is a listed title, so it does not end a sentence. */
  lemma TitleNotEnder()
    ensures IsAbbreviation("Mr.") == Some(true)
    ensures IsSentenceEnder("Mr.") == Some(false)
  {
    assert "Mr."[..2] == "Mr";
    assert Lower("Mr") == "mr";
    assert AbbrCapped()[33] == "mr";
    ListedIn("mr", AbbrCapped());
    UpperCountAtMostOne("Mr.", 0);
  }

  /**
   * `.lower()` turns the Kelvin sign into `k`: "O\U{212A}la." lower-cases to
   * the listed state "okla", so it is an abbreviation and does not end a sentence.
   */
  lemma KelvinSignAbbreviation()
    ensures IsAbbreviation("O\U{212A}la.") == Some(true)
    ensures IsSentenceEnder("O\U{212A}la.") == Some(false)
  {
    assert "O\U{212A}la."[..4] == "O\U{212A}la";
    assert Lower("O\U{212A}la") == "okla";
    assert AbbrCapped()[23] == "okla";
    ListedIn("okla", AbbrCapped());
    UpperCountAtMostOne("O\U{212A}la.", 0);
  }

  /**
   * The lower-case branch is a substring test: any piece of
   * "etc|v|vs|viz|al|pct" counts, so "c." is an abbreviation although "c" is
   * not one of the listed words, while "x." is not.
   */
  lemma LowercaseIsSubstringTest()
    ensures IsAbbreviation("c.") == Some(true)
    ensures IsSentenceEnder("c.") == Some(false)
    ensures IsAbbreviation("x.") == Some(false)
    ensures IsSentenceEnder("x.") == Some(true)
  {
    assert "c."[..1] == "c";
    assert OccursAt("c", AbbrLowercase, 2);
    assert "x."[..1] == "x";
    CharIsSubstring('x', AbbrLowercase);
    UpperCountNone("c.");
    UpperCountNone("x.");
  }

  /** A single capital followed by a dot is an initial, never a sentence end. */
  lemma InitialNotEnder(c: char)
    requires IsUpper(c)
    ensures IsSentenceEnder([c, '.']) == Some(false)
  {
    var w := [c, '.'];
    assert w[..1] == [c];
    assert Lower([c]) == [LowerChar(c)];
    assert [LowerChar(c)] in Initials();
    assert [LowerChar(c)] in AbbrCapped();
    ListedIn([LowerChar(c)], AbbrCapped());
    assert w !in Exceptions;
    ListedIn(w, Exceptions);
    UpperCountAtMostOne(w, 0);
  }

  // ---------------------------------------------------------------------------
  // Candidate ends and the cut into sentences
  // ---------------------------------------------------------------------------

  /** One match of the candidate pattern: where it starts and its first group, the word. */
  datatype Match = Match(start: nat, word: string)

  /** The closing characters the pattern's second group allows after the word. */
  predicate IsCloser(c: char) {
    c == '‘' || c == '’' || c == '“' || c == '”' || c == '\'' || c == '"' || c == ')' || c == ']'
  }

  function WordEnd(m: Match): nat {
    m.start + |m.word|
  }

  /**
   * What one match of the candidate pattern guarantees: the word occurs at its
   * start, has at least two characters, ends in `.`, `?` or `!`, and is
   * followed by a closer or by whitespace.
   */
  predicate WordAt(text: string, m: Match) {
    && WordEnd(m) < |text|
    && text[m.start..WordEnd(m)] == m.word
    && |m.word| >= 2
    && m.word[|m.word| - 1] in ".?!"
    && (IsCloser(text[WordEnd(m)]) || IsSpace(text[WordEnd(m)]))
  }

  /** Matches lie in order, each word ending before the next match starts. */
  predicate Ordered(ms: seq<Match>) {
    forall i, j :: 0 <= i < j < |ms| ==> WordEnd(ms[i]) < ms[j].start
  }

  /**
   * What `re.finditer` over the candidate pattern guarantees: every match is
   * well placed, and matches do not overlap (the whitespace after a word
   * belongs to its match).
   */
  predicate Matches(text: string, ms: seq<Match>) {
    (forall i :: 0 <= i < |ms| ==> WordAt(text, ms[i])) && Ordered(ms)
  }

  /** The verdict `split_into_sentences` acts on: the word is known to end a sentence. */
  predicate IsEnderWord(word: string) {
    IsSentenceEnder(word) == Some(true)
  }

  /** The positions of the matches whose word `accept` takes, in match order. */
  function Picked(ms: seq<Match>, accept: string -> bool): (p: seq<nat>)
    ensures |p| <= |ms|
    ensures forall k :: 0 <= k < |p| ==> p[k] < |ms| && accept(ms[p[k]].word)
    ensures forall k, l :: 0 <= k < l < |p| ==> p[k] < p[l]
    decreases |ms|
  {
    if |ms| == 0 then []
    else
      var init := ms[..|ms| - 1];
      var prev := Picked(init, accept);
      assert forall k :: 0 <= k < |prev| ==> ms[prev[k]] == init[prev[k]];
      prev + (if accept(ms[|ms| - 1].word) then [|ms| - 1] else [])
  }

  /** The ends of the picked words: the `end_indices` a given acceptance test yields. */
  function EndsOf(ms: seq<Match>, accept: string -> bool): (ends: seq<nat>)
    ensures |ends| == |Picked(ms, accept)|
    ensures forall k :: 0 <= k < |ends| ==> ends[k] == WordEnd(ms[Picked(ms, accept)[k]])
  {
    var p := Picked(ms, accept);
    seq(|p|, k requires 0 <= k < |p| => WordEnd(ms[p[k]]))
  }

  /** The `end_indices` list: the end of every word that ends a sentence. */
  function AcceptedEnds(ms: seq<Match>): seq<nat> {
    EndsOf(ms, IsEnderWord)
  }

  /** Cut offsets a text can be sliced at: strictly increasing and inside the text. */
  predicate Cuts(text: string, ends: seq<nat>) {
    && (forall k :: 0 <= k < |ends| ==> ends[k] < |text|)
    && (forall k, l :: 0 <= k < l < |ends| ==> ends[k] < ends[l])
  }

  predicate EndsInside(text: string, ms: seq<Match>) {
    forall i :: 0 <= i < |ms| ==> WordEnd(ms[i]) < |text|
  }

  lemma MatchesShape(text: string, ms: seq<Match>)
    requires Matches(text, ms)
    ensures Ordered(ms) && EndsInside(text, ms)
  {
    forall i | 0 <= i < |ms| ensures WordEnd(ms[i]) < |text| {
      assert WordAt(text, ms[i]);
    }
  }

  /** Every accepted match is picked. */
  lemma {:induction false} PickedComplete(ms: seq<Match>, accept: string -> bool, i: nat)
    requires i < |ms| && accept(ms[i].word)
    ensures i in Picked(ms, accept)
    decreases |ms|
  {
    var init := ms[..|ms| - 1];
    if i < |init| {
      assert init[i] == ms[i];
      PickedComplete(init, accept, i);
    }
  }

  /** An offset is an end exactly when it ends an accepted word. */
  lemma EndsOfExactly(ms: seq<Match>, accept: string -> bool, e: nat)
    ensures e in EndsOf(ms, accept) <==> exists i :: 0 <= i < |ms| && accept(ms[i].word) && e == WordEnd(ms[i])
  {
    var p := Picked(ms, accept);
    var ends := EndsOf(ms, accept);
    if e in ends {
      var k :| 0 <= k < |ends| && ends[k] == e;
      assert accept(ms[p[k]].word) && e == WordEnd(ms[p[k]]);
    }
    if exists i :: 0 <= i < |ms| && accept(ms[i].word) && e == WordEnd(ms[i]) {
      var i :| 0 <= i < |ms| && accept(ms[i].word) && e == WordEnd(ms[i]);
      PickedComplete(ms, accept, i);
      var k :| 0 <= k < |p| && p[k] == i;
      assert ends[k] == e;
    }
  }

  /** The ends of matches in order are strictly increasing offsets inside the text. */
  lemma EndsOfCuts(text: string, ms: seq<Match>, accept: string -> bool)
    requires Ordered(ms) && EndsInside(text, ms)
    ensures Cuts(text, EndsOf(ms, accept))
  {
    var p := Picked(ms, accept);
    var ends := EndsOf(ms, accept);
    forall k, l | 0 <= k < l < |ends| ensures ends[k] < ends[l] {
      assert WordEnd(ms[p[k]]) < ms[p[l]].start;
    }
  }

  /** Scanning one more match adds its end exactly when it is accepted. */
  lemma EndsOfSnoc(ms: seq<Match>, accept: string -> bool, i: nat)
    requires i < |ms|
    ensures EndsOf(ms[..i + 1], accept) == EndsOf(ms[..i], accept) + (if accept(ms[i].word) then [WordEnd(ms[i])] else [])
  {
    var pre := ms[..i + 1];
    assert pre[..i] == ms[..i];
    assert pre[i] == ms[i];
    var p := Picked(ms[..i], accept);
    assert Picked(pre, accept) == p + (if accept(ms[i].word) then [i] else []);
    forall k | 0 <= k < |p| ensures pre[p[k]] == ms[..i][p[k]] { }
  }

  /** The loop of `split_into_sentences` that collects `end_indices`. */
  method EndIndices(text: string, ms: seq<Match>) returns (ends: seq<nat>)
    requires Matches(text, ms)
    ensures ends == AcceptedEnds(ms)
    ensures Cuts(text, ends)
  {
    MatchesShape(text, ms);
    EndsOfCuts(text, ms, IsEnderWord);
    ends := [];
    var i := 0;
    while i < |ms|
      invariant 0 <= i <= |ms|
      invariant ends == EndsOf(ms[..i], IsEnderWord)
    {
      EndsOfSnoc(ms, IsEnderWord, i);
      var m := ms[i];
      assert WordAt(text, ms[i]);
      var ender := IsSentenceEnder(m.word);
      if ender.value {
        ends := ends + [m.start + |m.word|];
      }
      i := i + 1;
    }
    assert ms[..|ms|] == ms;
  }

  /** Where span i starts: the text's start, or the previous cut. */
  function SpanStart(ends: seq<nat>, i: nat): nat
    requires i <= |ends|
  {
    if i == 0 then 0 else ends[i - 1]
  }

  /** Span i of `zip([None] + end_indices, end_indices + [None])`, sliced from the text. */
  function Span(text: string, ends: seq<nat>, i: nat): string
    requires i <= |ends|
  {
    PySlice(text, SpanStart(ends, i), if i == |ends| then |text| else ends[i])
  }

  function Spans(text: string, ends: seq<nat>): (r: seq<string>)
    ensures |r| == |ends| + 1
  {
    seq(|ends| + 1, i requires 0 <= i <= |ends| => Span(text, ends, i))
  }

  /** The list `split_into_sentences` returns: each span, stripped. */
  function Sentences(text: string, ends: seq<nat>): (r: seq<string>)
    ensures |r| == |ends| + 1
  {
    seq(|ends| + 1, i requires 0 <= i <= |ends| => Strip(Span(text, ends, i)))
  }

  /** At cut offsets every span is an ordinary slice between consecutive cuts. */
  lemma SpanSlice(text: string, ends: seq<nat>, i: nat)
    requires Cuts(text, ends) && i <= |ends|
    ensures SpanStart(ends, i) <= (if i == |ends| then |text| else ends[i]) <= |text|
    ensures Span(text, ends, i) == text[SpanStart(ends, i)..if i == |ends| then |text| else ends[i]]
  {
    var hi := if i == |ends| then |text| else ends[i];
    assert SpanStart(ends, i) <= hi;
    PySliceInRange(text, SpanStart(ends, i), hi);
  }

  /** Piece i is the text between bounds i and i + 1. */
  predicate PieceAt(text: string, parts: seq<string>, bounds: seq<nat>, i: nat)
    requires i < |parts| < |bounds|
  {
    bounds[i] <= bounds[i + 1] <= |text| && parts[i] == text[bounds[i]..bounds[i + 1]]
  }

  /** Each piece is the text between its two bounds. */
  predicate Contiguous(text: string, parts: seq<string>, bounds: seq<nat>) {
    && |bounds| == |parts| + 1
    && bounds[0] <= |text|
    && forall i :: 0 <= i < |parts| ==> PieceAt(text, parts, bounds, i)
  }

  /** `"".join(parts)`, built from the last piece back. */
  function Concat(parts: seq<string>): string
    decreases |parts|
  {
    if |parts| == 0 then "" else Concat(parts[..|parts| - 1]) + parts[|parts| - 1]
  }

  /** Pieces cut between consecutive bounds, concatenated, give the text between the outer bounds. */
  lemma {:induction false} ConcatContiguous(text: string, parts: seq<string>, bounds: seq<nat>)
    requires Contiguous(text, parts, bounds)
    ensures bounds[0] <= bounds[|parts|] <= |text|
    ensures Concat(parts) == text[bounds[0]..bounds[|parts|]]
    decreases |parts|
  {
    var n := |parts|;
    if n > 0 {
      var init := parts[..n - 1];
      var bs := bounds[..n];
      forall i | 0 <= i < |init| ensures PieceAt(text, init, bs, i) {
        assert PieceAt(text, parts, bounds, i);
      }
      ConcatContiguous(text, init, bs);
      assert PieceAt(text, parts, bounds, n - 1);
      assert text[bounds[0]..bounds[n]] == text[bounds[0]..bounds[n - 1]] + text[bounds[n - 1]..bounds[n]];
    }
  }

  /** `"".join` and the general join with an empty separator agree. */
  lemma {:induction false} ConcatIsJoin(parts: seq<string>)
    ensures Concat(parts) == Join("", parts)
    decreases |parts|
  {
    var n := |parts|;
    if n > 1 {
      ConcatIsJoin(parts[..n - 1]);
      assert parts == parts[..n - 1] + [parts[n - 1]];
      JoinAppend("", parts[..n - 1], [parts[n - 1]]);
    }
  }

  /** The unstripped spans partition the text: concatenated they give it back. */
  lemma SpansPartition(text: string, ends: seq<nat>)
    requires Cuts(text, ends)
    ensures Concat(Spans(text, ends)) == text
  {
    var sp := Spans(text, ends);
    var bounds := [0] + ends + [|text|];
    forall i | 0 <= i < |sp| ensures PieceAt(text, sp, bounds, i) {
      SpanSlice(text, ends, i);
    }
    ConcatContiguous(text, sp, bounds);
  }

  /** What one match tells about the text around its word. */
  lemma MatchAt(text: string, ms: seq<Match>, i: nat)
    requires Matches(text, ms) && i < |ms|
    ensures ms[i].start + 2 <= WordEnd(ms[i]) < |text|
    ensures text[WordEnd(ms[i]) - 1] in ".?!"
    ensures IsCloser(text[WordEnd(ms[i])]) || IsSpace(text[WordEnd(ms[i])])
  {
    var w := ms[i].word;
    assert WordAt(text, ms[i]);
    assert text[ms[i].start..WordEnd(ms[i])] == w;
    assert text[WordEnd(ms[i]) - 1] == w[|w| - 1];
  }

  /** Each accepted end is the end of a well-formed word, so the character before it is that word's last. */
  lemma CutAfterWord(text: string, ms: seq<Match>, accept: string -> bool, k: nat)
    requires Matches(text, ms)
    requires k < |EndsOf(ms, accept)|
    ensures 2 <= EndsOf(ms, accept)[k] < |text|
    ensures text[EndsOf(ms, accept)[k] - 1] in ".?!"
    ensures IsCloser(text[EndsOf(ms, accept)[k]]) || IsSpace(text[EndsOf(ms, accept)[k]])
    ensures k > 0 ==> EndsOf(ms, accept)[k - 1] < EndsOf(ms, accept)[k] - 1
  {
    var p := Picked(ms, accept);
    MatchAt(text, ms, p[k]);
    if k > 0 {
      assert Ordered(ms);
      assert WordEnd(ms[p[k - 1]]) < ms[p[k]].start;
    }
  }

  /** The span after cut k starts with the character at the cut. */
  lemma SpanFirst(text: string, ends: seq<nat>, k: nat)
    requires Cuts(text, ends) && k < |ends|
    ensures |Span(text, ends, k + 1)| > 0 && Span(text, ends, k + 1)[0] == text[ends[k]]
  {
    SpanSlice(text, ends, k + 1);
    if k + 1 < |ends| {
      assert ends[k] < ends[k + 1];
    }
  }

  /** The span before cut k ends with the character just before the cut. */
  lemma SpanLast(text: string, ends: seq<nat>, k: nat)
    requires Cuts(text, ends) && k < |ends|
    requires k > 0 ==> ends[k - 1] < ends[k]
    requires k == 0 ==> ends[k] > 0
    ensures |Span(text, ends, k)| > 0
    ensures Span(text, ends, k)[|Span(text, ends, k)| - 1] == text[ends[k] - 1]
  {
    SpanSlice(text, ends, k);
  }

  /** Every span after the first starts with the closer or whitespace that followed the accepted word. */
  lemma SpanOpens(text: string, ms: seq<Match>, accept: string -> bool, k: nat)
    requires Matches(text, ms)
    requires k < |EndsOf(ms, accept)|
    ensures |Span(text, EndsOf(ms, accept), k + 1)| > 0
    ensures IsCloser(Span(text, EndsOf(ms, accept), k + 1)[0]) || IsSpace(Span(text, EndsOf(ms, accept), k + 1)[0])
  {
    MatchesShape(text, ms);
    EndsOfCuts(text, ms, accept);
    CutAfterWord(text, ms, accept, k);
    SpanFirst(text, EndsOf(ms, accept), k);
  }

  /** Every span but the last ends with the final punctuation of the accepted word. */
  lemma SpanCloses(text: string, ms: seq<Match>, accept: string -> bool, k: nat)
    requires Matches(text, ms)
    requires k < |EndsOf(ms, accept)|
    ensures |Span(text, EndsOf(ms, accept), k)| > 0
    ensures Span(text, EndsOf(ms, accept), k)[|Span(text, EndsOf(ms, accept), k)| - 1] in ".?!"
  {
    MatchesShape(text, ms);
    EndsOfCuts(text, ms, accept);
    CutAfterWord(text, ms, accept, k);
    SpanLast(text, EndsOf(ms, accept), k);
  }

  /** `split_into_sentences(text)`: collect the accepted ends, then strip each span. */
  method SplitIntoSentences(text: string, ms: seq<Match>) returns (sentences: seq<string>)
    requires Matches(text, ms)
    ensures sentences == Sentences(text, AcceptedEnds(ms))
    ensures |sentences| == |AcceptedEnds(ms)| + 1
  {
    var ends := EndIndices(text, ms);
    sentences := seq(|ends| + 1, i requires 0 <= i <= |ends| => Strip(Span(text, ends, i)));
  }

  /** The candidate pattern as a whole: any text to its well-formed matches. */
  type Scanner = f: string -> seq<Match> | forall t :: Matches(t, f(t)) witness (t: string) => []

  /** The default `sentence_split` with a given scanner. */
  function SplitSentences(scan: Scanner, text: string): (r: seq<string>)
    ensures |r| == |AcceptedEnds(scan(text))| + 1
  {
    Sentences(text, AcceptedEnds(scan(text)))
  }
}

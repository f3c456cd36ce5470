/**
 * The generation pipeline (`markovify/text.py`): from raw text to runs of
 * words and a chain, and from the chain back to sentences that do not copy
 * the input.
 *
 * A `Text` object is built once and never reassigned, so it is a class whose
 * fields are constants; `Lines` stands for the `NewlineText` subclass, which
 * only changes how sentences are split. Each walk of the chain takes its own
 * sequence of random draws, one per `move`.
 */
module Texts {
  import opened Wrappers
  import opened Strings
  import opened Splitters
  import opened Chains

  const DefaultMaxOverlapRatio: real := 0.7
  const DefaultMaxOverlapTotal: int := 15
  const DefaultTries: int := 10

  /** `Text` (prose, split at sentence ends) or its subclass `NewlineText` (one sentence per line). */
  datatype Kind = Prose | Lines

  // ---------------------------------------------------------------------------
  // Splitting and joining
  // ---------------------------------------------------------------------------

  /** `sentence_split`: the prose splitter, or `re.split(r"\s*\n\s*", text)` for `NewlineText`. */
  function SentenceSplit(kind: Kind, scan: Scanner, text: string): (r: seq<string>)
    ensures |r| >= 1
  {
    match kind
    case Prose => SplitSentences(scan, text)
    case Lines => SplitLines(text)
  }

  /** `word_split`: `re.split(r"\s+", sentence)`. */
  function WordSplit(sentence: string): (r: seq<string>)
    ensures |r| >= 1
  {
    SplitWords(sentence)
  }

  /** `word_join` (and `sentence_join`): join with single spaces. */
  function WordJoin(words: seq<string>): string {
    Join(" ", words)
  }

  /** Splitting a sentence into words and joining them back collapses its whitespace runs. */
  lemma WordJoinSplit(sentence: string)
    ensures WordJoin(WordSplit(sentence)) == Collapse(sentence)
    ensures forall w :: w in WordSplit(sentence) ==> NoSpace(w)
  {
    JoinSplitWords(sentence);
    SplitWordsPieces(sentence);
  }

  /** Words without whitespace survive a join and a split unchanged. */
  lemma WordSplitJoin(words: seq<string>)
    requires |words| >= 1
    requires forall k :: 0 <= k < |words| ==> |words[k]| > 0 && NoSpace(words[k])
    ensures WordSplit(WordJoin(words)) == words
  {
    SplitJoinWords(words);
  }

  // ---------------------------------------------------------------------------
  // The input filter (`test_sentence_input`)
  // ---------------------------------------------------------------------------

  /** The class `["(\(\)\[\])]` of the reject pattern. */
  predicate IsBracket(c: char) {
    c == '"' || c == '(' || c == ')' || c == '[' || c == ']'
  }

  /**
   * Whether some alternative of the reject pattern matches at offset k:
   * `^'`, then `'$` (`$` also matches before a final newline), then `\s'`,
   * then `'\s`, then the bracket class.
   */
  predicate RejectAt(s: string, k: nat)
    requires k < |s|
  {
    || (k == 0 && s[k] == '\'')
    || (s[k] == '\'' && (k + 1 == |s| || (k + 2 == |s| && s[k + 1] == '\n')))
    || (k + 1 < |s| && IsSpace(s[k]) && s[k + 1] == '\'')
    || (k + 1 < |s| && s[k] == '\'' && IsSpace(s[k + 1]))
    || IsBracket(s[k])
  }

  /** `re.search(reject_pat, s)` from offset k on: try each offset in turn. */
  predicate SearchFrom(s: string, k: nat)
    requires k <= |s|
    decreases |s| - k
  {
    k < |s| && (RejectAt(s, k) || SearchFrom(s, k + 1))
  }

  /** The search succeeds from k exactly when some offset at or after k matches. */
  lemma {:induction false} SearchFromAny(s: string, k: nat)
    requires k <= |s|
    ensures SearchFrom(s, k) <==> exists j :: k <= j < |s| && RejectAt(s, j)
    decreases |s| - k
  {
    if k < |s| {
      SearchFromAny(s, k + 1);
      if !RejectAt(s, k) && !SearchFrom(s, k + 1) {
        forall j | k <= j < |s| ensures !RejectAt(s, j) {
          if j > k {
            assert !(k + 1 <= j < |s| && RejectAt(s, j));
          }
        }
      }
    }
  }

  /**
   * What the reject pattern looks for, stated on the whole sentence: a quote
   * at the start or at the end, a quote next to whitespace, or a bracket or
   * double quote anywhere.
   */
  predicate Rejected(s: string) {
    || (|s| > 0 && (s[0] == '\'' || s[|s| - 1] == '\''))
    || (exists k :: 0 <= k < |s| - 1 && (s[k] == '\'' || s[k + 1] == '\'') && (IsSpace(s[k]) || IsSpace(s[k + 1])) && s[k] != s[k + 1])
    || (exists k :: 0 <= k < |s| && IsBracket(s[k]))
  }

  /** `test_sentence_input`: accept the sentence unless the reject pattern occurs in it. */
  function TestSentenceInput(sentence: string): (ok: bool)
    ensures ok <==> !Rejected(sentence)
  {
    SearchFromAny(sentence, 0);
    RejectedAnywhere(sentence);
    !SearchFrom(sentence, 0)
  }

  /** Rejection by the pattern, offset by offset, is the same as `Rejected`. */
  lemma RejectedAnywhere(s: string)
    ensures (exists j :: 0 <= j < |s| && RejectAt(s, j)) <==> Rejected(s)
  {
    if exists j :: 0 <= j < |s| && RejectAt(s, j) {
      var j :| 0 <= j < |s| && RejectAt(s, j);
      if !IsBracket(s[j]) && j + 1 < |s| && IsSpace(s[j]) && s[j + 1] == '\'' {
        assert s[j] != s[j + 1];
      }
    }
    if Rejected(s) {
      if |s| > 0 && s[0] == '\'' {
        assert RejectAt(s, 0);
      } else if |s| > 0 && s[|s| - 1] == '\'' {
        assert RejectAt(s, |s| - 1);
      } else if k :| 0 <= k < |s| - 1 && (s[k] == '\'' || s[k + 1] == '\'') && (IsSpace(s[k]) || IsSpace(s[k + 1])) && s[k] != s[k + 1] {
        assert RejectAt(s, k);
      } else {
        var k :| 0 <= k < |s| && IsBracket(s[k]);
        assert RejectAt(s, k);
      }
    }
  }

  /** An apostrophe inside a word is fine; one that opens a quotation, or a bracket, is not. */
  lemma InputExamples()
    ensures TestSentenceInput("Don't stop.")
    ensures !TestSentenceInput("He said 'stop'.")
    ensures !TestSentenceInput("It (mostly) works.")
  {
    var a := "Don't stop.";
    forall k | 0 <= k < |a| ensures !IsBracket(a[k]) { }
    forall k | 0 <= k < |a| - 1
      ensures !((a[k] == '\'' || a[k + 1] == '\'') && (IsSpace(a[k]) || IsSpace(a[k + 1])) && a[k] != a[k + 1])
    {
    }
    var b := "He said 'stop'.";
    assert IsSpace(b[7]) && b[8] == '\'';
    var c := "It (mostly) works.";
    assert IsBracket(c[3]);
  }

  // ---------------------------------------------------------------------------
  // The corpus (`generate_corpus`) and the rejoined text
  // ---------------------------------------------------------------------------

  /** `filter(test_sentence_input, sentences)`, in order. */
  function Passing(sentences: seq<string>): (r: seq<string>)
    ensures |r| <= |sentences|
    ensures forall x :: x in r <==> x in sentences && TestSentenceInput(x)
    decreases |sentences|
  {
    if |sentences| == 0 then []
    else
      var last := sentences[|sentences| - 1];
      var init := sentences[..|sentences| - 1];
      assert sentences == init + [last];
      Passing(init) + (if TestSentenceInput(last) then [last] else [])
  }

  /** Filtering keeps the order of the sentences: it distributes over concatenation. */
  lemma {:induction false} PassingAppend(a: seq<string>, b: seq<string>)
    ensures Passing(a + b) == Passing(a) + Passing(b)
    decreases |b|
  {
    if |b| > 0 {
      var init := b[..|b| - 1];
      assert (a + b)[..|a + b| - 1] == a + init;
      PassingAppend(a, init);
    } else {
      assert a + b == a;
    }
  }

  /** `map(word_split, passing)`. */
  function Runs(passing: seq<string>): (runs: seq<seq<string>>)
    ensures |runs| == |passing|
    ensures forall i :: 0 <= i < |runs| ==> runs[i] == WordSplit(passing[i])
  {
    seq(|passing|, i requires 0 <= i < |passing| => WordSplit(passing[i]))
  }

  /** `generate_corpus(text)`: split into sentences, keep the ones that pass, split each into words. */
  function GenerateCorpus(kind: Kind, scan: Scanner, text: string): seq<seq<string>> {
    Runs(Passing(SentenceSplit(kind, scan, text)))
  }

  /** Every run is a non-empty list of whitespace-free words from a sentence that passed the filter. */
  lemma CorpusRuns(kind: Kind, scan: Scanner, text: string)
    ensures var p := Passing(SentenceSplit(kind, scan, text));
      forall i :: 0 <= i < |GenerateCorpus(kind, scan, text)| ==>
        && p[i] in SentenceSplit(kind, scan, text) && TestSentenceInput(p[i])
        && |GenerateCorpus(kind, scan, text)[i]| >= 1
        && WordJoin(GenerateCorpus(kind, scan, text)[i]) == Collapse(p[i])
        && forall w :: w in GenerateCorpus(kind, scan, text)[i] ==> NoSpace(w)
  {
    var p := Passing(SentenceSplit(kind, scan, text));
    var g := GenerateCorpus(kind, scan, text);
    forall i | 0 <= i < |g|
      ensures && p[i] in SentenceSplit(kind, scan, text) && TestSentenceInput(p[i])
              && |g[i]| >= 1 && WordJoin(g[i]) == Collapse(p[i]) && forall w :: w in g[i] ==> NoSpace(w)
    {
      assert p[i] in p;
      assert g[i] == WordSplit(p[i]);
      WordJoinSplit(p[i]);
    }
  }

  /** `sentence_join(map(word_join, runs))`: the text the overlap test searches. */
  function Rejoined(runs: seq<seq<string>>): string {
    WordJoin(seq(|runs|, i requires 0 <= i < |runs| => WordJoin(runs[i])))
  }

  /** Each run, joined by single spaces, occurs in the rejoined text. */
  lemma RunInRejoined(runs: seq<seq<string>>, i: nat)
    requires i < |runs|
    ensures IsSubstring(WordJoin(runs[i]), Rejoined(runs))
  {
    var joined := seq(|runs|, k requires 0 <= k < |runs| => WordJoin(runs[k]));
    JoinSliceIsSubstring(" ", joined, i, i + 1);
    assert joined[i..i + 1] == [WordJoin(runs[i])];
  }

  /** `(BEGIN,)*n` stands in for a missing state; the corpus as the list of lists `Chain` receives. */
  function AsCorpus(runs: seq<seq<string>>): (c: CorpusArg)
    ensures c.Items? && |c.items| == |runs|
    ensures forall i :: 0 <= i < |runs| ==> c.items[i] == Run(runs[i])
  {
    Items(seq(|runs|, i requires 0 <= i < |runs| => Run(runs[i])))
  }

  /** The runs of a text always form a list of lists, so only an empty corpus can make `Chain` fail. */
  lemma AsCorpusChecks(runs: seq<seq<string>>)
    ensures |runs| == 0 ==> CheckCorpus(AsCorpus(runs)) == Failure(EmptyCorpus)
    ensures |runs| > 0 ==> CheckCorpus(AsCorpus(runs)) == Success(runs)
  {
    if |runs| > 0 {
      var r := CheckCorpus(AsCorpus(runs));
      assert r.Success?;
      assert r.value == runs;
    }
  }

  // ---------------------------------------------------------------------------
  // The overlap test (`test_sentence_output`)
  // ---------------------------------------------------------------------------

  /** Python 3's `round` on a number: the nearest integer, ties to the even one. */
  function RoundHalfEven(x: real): (r: int)
    ensures x - 0.5 <= r as real <= x + 0.5
    ensures (r as real == x - 0.5 || r as real == x + 0.5) ==> r % 2 == 0
  {
    var f := x.Floor;
    var d := x - f as real;
    if d < 0.5 then f
    else if d > 0.5 then f + 1
    else if f % 2 == 0 then f else f + 1
  }

  /** `min(max_overlap_total, int(round(max_overlap_ratio * len(words))))`. */
  function OverlapMax(n: nat, ratio: real, total: int): (m: int)
    ensures m <= total
    ensures m <= RoundHalfEven(ratio * n as real)
    ensures m == total || m == RoundHalfEven(ratio * n as real)
  {
    var r := RoundHalfEven(ratio * n as real);
    if total < r then total else r
  }

  /** The grams: `words[i:i+overlap_max+1]` for i below `max(len(words) - overlap_max, 1)`. */
  function Grams(words: seq<string>, ratio: real, total: int): (gs: seq<seq<string>>)
    ensures |gs| >= 1
    ensures |gs| >= |words| - OverlapMax(|words|, ratio, total)
  {
    var m := OverlapMax(|words|, ratio, total);
    var count := if |words| - m > 1 then |words| - m else 1;
    seq(count, i requires 0 <= i < count => PySlice(words, i, i + m + 1))
  }

  /** The verdict of `test_sentence_output`: no gram, joined by spaces, occurs in the rejoined text. */
  predicate OutputOk(rejoined: string, words: seq<string>, ratio: real, total: int) {
    forall i :: 0 <= i < |Grams(words, ratio, total)| ==> !IsSubstring(WordJoin(Grams(words, ratio, total)[i]), rejoined)
  }

  /** With a non-negative overlap bound, the grams are the windows of `overlap_max + 1` words, cut short at the end. */
  lemma GramWindows(words: seq<string>, ratio: real, total: int)
    requires OverlapMax(|words|, ratio, total) >= 0
    ensures var m := OverlapMax(|words|, ratio, total);
      forall i :: 0 <= i < |Grams(words, ratio, total)| ==>
        i <= |words| &&
        Grams(words, ratio, total)[i] == words[i..if i + m + 1 <= |words| then i + m + 1 else |words|]
    ensures var m := OverlapMax(|words|, ratio, total);
      |words| > m ==>
        (|Grams(words, ratio, total)| == |words| - m &&
         forall i :: 0 <= i < |Grams(words, ratio, total)| ==> |Grams(words, ratio, total)[i]| == m + 1)
  {
    var m := OverlapMax(|words|, ratio, total);
    var gs := Grams(words, ratio, total);
    forall i | 0 <= i < |gs|
      ensures i <= |words| && gs[i] == words[i..if i + m + 1 <= |words| then i + m + 1 else |words|]
    {
      assert gs[i] == PySlice(words, i, i + m + 1);
    }
  }

  /** A gram is a contiguous piece of the words, so its join is a substring of theirs. */
  lemma GramInWords(words: seq<string>, ratio: real, total: int, i: nat)
    requires i < |Grams(words, ratio, total)|
    ensures IsSubstring(WordJoin(Grams(words, ratio, total)[i]), WordJoin(words))
  {
    var m := OverlapMax(|words|, ratio, total);
    var a := ClampIndex(i, |words|);
    var b := ClampIndex(i + m + 1, |words|);
    if a < b {
      JoinSliceIsSubstring(" ", words, a, b);
    } else {
      EmptyIsSubstring(WordJoin(words));
    }
  }

  /** An empty list of words is always rejected: its grams are empty and "" occurs in any text. */
  lemma EmptyOutputRejected(rejoined: string, ratio: real, total: int)
    ensures !OutputOk(rejoined, [], ratio, total)
  {
    var gs := Grams([], ratio, total);
    assert gs[0] == PySlice([], 0, OverlapMax(0, ratio, total) + 1) == [];
    EmptyIsSubstring(rejoined);
  }

  /** Words whose join occurs in the rejoined text are rejected: a copy is never accepted. */
  lemma CopyRejected(rejoined: string, words: seq<string>, ratio: real, total: int)
    requires IsSubstring(WordJoin(words), rejoined)
    ensures !OutputOk(rejoined, words, ratio, total)
  {
    GramInWords(words, ratio, total, 0);
    SubstringTransitive(WordJoin(Grams(words, ratio, total)[0]), WordJoin(words), rejoined);
  }

  /** In particular, re-generating a whole run of the corpus is rejected. */
  lemma CopiedRunRejected(runs: seq<seq<string>>, i: nat, ratio: real, total: int)
    requires i < |runs|
    ensures !OutputOk(Rejoined(runs), runs[i], ratio, total)
  {
    RunInRejoined(runs, i);
    CopyRejected(Rejoined(runs), runs[i], ratio, total);
  }

  /** With the defaults, any sentence of 22 words or more is tested in windows of 16 words. */
  lemma DefaultOverlapCap(n: nat)
    requires n >= 21
    ensures OverlapMax(n, DefaultMaxOverlapRatio, DefaultMaxOverlapTotal) == 15
  {
    var x := DefaultMaxOverlapRatio * n as real;
    assert x >= 14.7;
  }

  // ---------------------------------------------------------------------------
  // Generating sentences (`make_sentence` and friends)
  // ---------------------------------------------------------------------------

  /** The keyword arguments `tries`, `max_overlap_ratio` and `max_overlap_total`. */
  datatype Options = Options(tries: int, maxOverlapRatio: real, maxOverlapTotal: int)

  const Defaults: Options := Options(DefaultTries, DefaultMaxOverlapRatio, DefaultMaxOverlapTotal)

  datatype GenError =
    | StartIndexError        // `init_state[0]` on an empty tuple
    | WalkFault(fault: Fault) // `move` raised (unknown state, ...)
    | DrawsExhausted         // the supplied random draws ran out

  /** The words put before the walk: none, `init_state` without a leading BEGIN, or all of it. */
  function Prefix(initState: Option<State>): (r: Result<seq<string>, GenError>)
    ensures initState.None? ==> r == Success([])
    ensures initState == Some([]) ==> r == Failure(StartIndexError)
    ensures initState.Some? && |initState.value| > 0 ==>
      r.Success? && (if initState.value[0] == BEGIN then [BEGIN] + r.value else r.value) == initState.value
  {
    match initState
    case None => Success([])
    case Some(s) =>
      if |s| == 0 then Failure(StartIndexError)
      else if s[0] == BEGIN then Success(s[1..])
      else Success(s)
  }

  /** One attempt: the prefix, a walk on `draws`, then the overlap test on prefix and walk together. */
  function Attempt(chain: Chain, rejoined: string, initState: Option<State>, opts: Options, draws: seq<real>): Result<Option<string>, GenError> {
    match Prefix(initState)
    case Failure(e) => Failure(e)
    case Success(prefix) =>
      var w := WalkFrom(chain.model, StartState(chain, initState), draws);
      match w.halt
      case Faulted(f) => Failure(WalkFault(f))
      case OutOfDraws => Failure(DrawsExhausted)
      case Ended =>
        var words := prefix + w.words;
        if OutputOk(rejoined, words, opts.maxOverlapRatio, opts.maxOverlapTotal) then Success(Some(WordJoin(words)))
        else Success(None)
  }

  /** Attempts `i`, `i + 1`, ... up to `tries`, attempt k walking on `draws[k]`; the first sentence wins. */
  function SentenceFrom(chain: Chain, rejoined: string, initState: Option<State>, opts: Options, draws: seq<seq<real>>, i: nat)
    : Result<Option<string>, GenError>
    decreases if i < opts.tries then opts.tries - i else 0
  {
    if i >= opts.tries then Success(None)
    else if i >= |draws| then Failure(DrawsExhausted)
    else match Attempt(chain, rejoined, initState, opts, draws[i])
      case Failure(e) => Failure(e)
      case Success(Some(s)) => Success(Some(s))
      case Success(None) => SentenceFrom(chain, rejoined, initState, opts, draws, i + 1)
  }

  /** A successful attempt returns the joined prefix and walk, which passed the overlap test. */
  lemma AttemptSound(chain: Chain, rejoined: string, initState: Option<State>, opts: Options, draws: seq<real>, s: string)
    requires Attempt(chain, rejoined, initState, opts, draws) == Success(Some(s))
    ensures Prefix(initState).Success?
    ensures var w := WalkFrom(chain.model, StartState(chain, initState), draws);
      && w.halt == Ended
      && s == WordJoin(Prefix(initState).value + w.words)
      && OutputOk(rejoined, Prefix(initState).value + w.words, opts.maxOverlapRatio, opts.maxOverlapTotal)
      && END !in w.words
  {
    WalkNeverEnd(chain.model, StartState(chain, initState), draws);
  }

  /** Any sentence `make_sentence` returns came from one of its first `tries` attempts. */
  lemma {:induction false} SentenceFromSound(chain: Chain, rejoined: string, initState: Option<State>, opts: Options,
                                             draws: seq<seq<real>>, i: nat, s: string)
    requires SentenceFrom(chain, rejoined, initState, opts, draws, i) == Success(Some(s))
    ensures exists k :: i <= k < opts.tries && k < |draws| && Attempt(chain, rejoined, initState, opts, draws[k]) == Success(Some(s))
    decreases if i < opts.tries then opts.tries - i else 0
  {
    if Attempt(chain, rejoined, initState, opts, draws[i]) != Success(Some(s)) {
      SentenceFromSound(chain, rejoined, initState, opts, draws, i + 1, s);
    }
  }

  /** With no tries left, nothing is generated and nothing fails. */
  lemma NoTries(chain: Chain, rejoined: string, initState: Option<State>, opts: Options, draws: seq<seq<real>>)
    requires opts.tries <= 0
    ensures SentenceFrom(chain, rejoined, initState, opts, draws, 0) == Success(None)
  {
  }

  /** Only the first `tries` draw sequences matter: at most `tries` walks are made. */
  lemma {:induction false} AtMostTries(chain: Chain, rejoined: string, initState: Option<State>, opts: Options,
                                       draws: seq<seq<real>>, extra: seq<seq<real>>, i: nat)
    requires |draws| >= opts.tries
    ensures SentenceFrom(chain, rejoined, initState, opts, draws + extra, i) == SentenceFrom(chain, rejoined, initState, opts, draws, i)
    decreases if i < opts.tries then opts.tries - i else 0
  {
    if i < opts.tries {
      assert (draws + extra)[i] == draws[i];
      AtMostTries(chain, rejoined, initState, opts, draws, extra, i + 1);
    }
  }

  /** Joined words keep the join of their first words as a prefix. */
  lemma JoinPrefix(a: seq<string>, b: seq<string>)
    ensures |WordJoin(a)| <= |WordJoin(a + b)| && WordJoin(a + b)[..|WordJoin(a)|] == WordJoin(a)
  {
    if |a| > 0 && |b| > 0 {
      JoinAppend(" ", a, b);
    } else if |b| == 0 {
      assert a + b == a;
    }
  }

  /** `make_short_sentence`: calls j = i, i + 1, ... up to `tries` of `make_sentence`, call j on `draws[j]`. */
  function ShortFrom(chain: Chain, rejoined: string, charLimit: int, initState: Option<State>, opts: Options,
                     draws: seq<seq<seq<real>>>, j: nat): Result<Option<string>, GenError>
    decreases if j < opts.tries then opts.tries - j else 0
  {
    if j >= opts.tries then Success(None)
    else if j >= |draws| then Failure(DrawsExhausted)
    else match SentenceFrom(chain, rejoined, initState, opts, draws[j], 0)
      case Failure(e) => Failure(e)
      case Success(Some(s)) =>
        if |s| > 0 && |s| < charLimit then Success(Some(s))
        else ShortFrom(chain, rejoined, charLimit, initState, opts, draws, j + 1)
      case Success(None) => ShortFrom(chain, rejoined, charLimit, initState, opts, draws, j + 1)
  }

  /** A short sentence is non-empty, strictly below the limit, and one of the `make_sentence` results. */
  lemma ShortSound(chain: Chain, rejoined: string, charLimit: int, initState: Option<State>, opts: Options,
                   draws: seq<seq<seq<real>>>, j: nat, s: string)
    requires ShortFrom(chain, rejoined, charLimit, initState, opts, draws, j) == Success(Some(s))
    ensures 0 < |s| < charLimit
    ensures exists k :: j <= k < opts.tries && k < |draws| && SentenceFrom(chain, rejoined, initState, opts, draws[k], 0) == Success(Some(s))
  {
    var k := ShortWitness(chain, rejoined, charLimit, initState, opts, draws, j, s);
  }

  /** The call of `make_sentence` whose result `make_short_sentence` returned. */
  lemma {:induction false} ShortWitness(chain: Chain, rejoined: string, charLimit: int, initState: Option<State>, opts: Options,
                                        draws: seq<seq<seq<real>>>, j: nat, s: string) returns (k: nat)
    requires ShortFrom(chain, rejoined, charLimit, initState, opts, draws, j) == Success(Some(s))
    ensures 0 < |s| < charLimit
    ensures j <= k < opts.tries && k < |draws| && SentenceFrom(chain, rejoined, initState, opts, draws[k], 0) == Success(Some(s))
    decreases if j < opts.tries then opts.tries - j else 0
  {
    assert j < opts.tries && j < |draws|;
    var first := SentenceFrom(chain, rejoined, initState, opts, draws[j], 0);
    if first == Success(Some(s)) && 0 < |s| < charLimit {
      k := j;
    } else {
      k := ShortWitness(chain, rejoined, charLimit, initState, opts, draws, j + 1, s);
    }
  }

  // ---------------------------------------------------------------------------
  // The Text object
  // ---------------------------------------------------------------------------

  class Text {
    const inputText: string
    const kind: Kind
    const rejoinedText: string
    const chain: Chain

    constructor (inputText: string, kind: Kind, rejoinedText: string, chain: Chain)
      ensures this.inputText == inputText && this.kind == kind
      ensures this.rejoinedText == rejoinedText && this.chain == chain
    {
      this.inputText := inputText;
      this.kind := kind;
      this.rejoinedText := rejoinedText;
      this.chain := chain;
    }

    /**
     * `Text.__init__` (or `NewlineText.__init__`): build the runs and the
     * rejoined text, and keep the given chain or build one from the runs
     * (which fails only when no sentence passed the filter).
     */
    static method New(inputText: string, stateSize: nat, chain: Option<Chain>, kind: Kind, scan: Scanner)
      returns (r: Result<Text, ChainError>)
      ensures var runs := GenerateCorpus(kind, scan, inputText);
        && (r.Failure? <==> chain.None? && |runs| == 0)
        && (r.Failure? ==> r.error == EmptyCorpus)
        && (r.Success? ==>
              && r.value.inputText == inputText && r.value.kind == kind
              && r.value.rejoinedText == Rejoined(runs)
              && r.value.chain == (if chain.Some? then chain.value else Chain(stateSize, BuildTable(runs, stateSize))))
      ensures r.Success? && chain.None? ==> ValidChain(r.value.chain)
    {
      var sentences := SentenceSplit(kind, scan, inputText);
      var runs := Runs(Passing(sentences));
      var rejoined := Rejoined(runs);
      var c: Chain;
      if chain.Some? {
        c := chain.value;
      } else {
        AsCorpusChecks(runs);
        var built := NewChain(AsCorpus(runs), stateSize, None);
        if built.Failure? {
          return Failure(built.error);
        }
        c := built.value;
      }
      var t := new Text(inputText, kind, rejoined, c);
      r := Success(t);
    }

    /** `Text.from_chain`: decode the chain, then take the corpus (or "") as the text. */
    static method FromChain(chainJson: Interchange, corpus: Option<string>, kind: Kind, scan: Scanner)
      returns (r: Result<Text, ChainError>)
      ensures FromJson(chainJson).Failure? ==> r == Failure(FromJson(chainJson).error)
      ensures FromJson(chainJson).Success? ==>
        && r.Success? && r.value.chain == FromJson(chainJson).value && r.value.kind == kind
        && r.value.inputText == (if corpus.Some? then corpus.value else "")
        && r.value.rejoinedText == Rejoined(GenerateCorpus(kind, scan, if corpus.Some? then corpus.value else ""))
    {
      var decoded := FromJson(chainJson);
      if decoded.Failure? {
        return Failure(decoded.error);
      }
      var text := if corpus.Some? then corpus.value else "";
      // The state size is unused when a chain is given.
      r := New(text, 0, Some(decoded.value), kind, scan);
    }

    /** `test_sentence_output`: test each gram in turn and stop at the first that occurs in the text. */
    method TestSentenceOutput(words: seq<string>, maxOverlapRatio: real, maxOverlapTotal: int) returns (ok: bool)
      ensures ok == OutputOk(rejoinedText, words, maxOverlapRatio, maxOverlapTotal)
    {
      var overlapMax := OverlapMax(|words|, maxOverlapRatio, maxOverlapTotal);
      var overlapOver := overlapMax + 1;
      var gramCount := if |words| - overlapMax > 1 then |words| - overlapMax else 1;
      var grams := seq(gramCount, i requires 0 <= i < gramCount => PySlice(words, i, i + overlapOver));
      assert grams == Grams(words, maxOverlapRatio, maxOverlapTotal);
      for i := 0 to |grams|
        invariant forall k :: 0 <= k < i ==> !IsSubstring(WordJoin(grams[k]), rejoinedText)
      {
        var gramJoined := WordJoin(grams[i]);
        if IsSubstring(gramJoined, rejoinedText) {
          return false;
        }
      }
      return true;
    }

    /** `make_sentence`: up to `tries` attempts, attempt k walking on `draws[k]`. */
    method MakeSentence(initState: Option<State>, opts: Options, draws: seq<seq<real>>) returns (r: Result<Option<string>, GenError>)
      ensures r == SentenceFrom(chain, rejoinedText, initState, opts, draws, 0)
    {
      var i := 0;
      while i < opts.tries
        invariant 0 <= i
        invariant SentenceFrom(chain, rejoinedText, initState, opts, draws, 0) == SentenceFrom(chain, rejoinedText, initState, opts, draws, i)
        decreases opts.tries - i
      {
        if i >= |draws| {
          return Failure(DrawsExhausted);
        }
        var attempt := TryOnce(initState, opts, draws[i]);
        if attempt != Success(None) {
          return attempt;
        }
        i := i + 1;
      }
      return Success(None);
    }

    /** The body of `make_sentence`'s loop: prefix, walk, overlap test. */
    method TryOnce(initState: Option<State>, opts: Options, draws: seq<real>) returns (r: Result<Option<string>, GenError>)
      ensures r == Attempt(chain, rejoinedText, initState, opts, draws)
    {
      var prefix: seq<string>;
      if initState.Some? {
        if |initState.value| == 0 {
          return Failure(StartIndexError);
        }
        if initState.value[0] == BEGIN {
          prefix := initState.value[1..];
        } else {
          prefix := initState.value;
        }
      } else {
        prefix := [];
      }
      var walked := Walk(chain, initState, draws);
      if walked.halt.Faulted? {
        return Failure(WalkFault(walked.halt.fault));
      }
      if walked.halt.OutOfDraws? {
        return Failure(DrawsExhausted);
      }
      var words := prefix + walked.words;
      var ok := TestSentenceOutput(words, opts.maxOverlapRatio, opts.maxOverlapTotal);
      if ok {
        return Success(Some(WordJoin(words)));
      }
      return Success(None);
    }

    /** `make_short_sentence`: up to `tries` calls of `make_sentence`; keep the first non-empty one under the limit. */
    method MakeShortSentence(charLimit: int, initState: Option<State>, opts: Options, draws: seq<seq<seq<real>>>)
      returns (r: Result<Option<string>, GenError>)
      ensures r == ShortFrom(chain, rejoinedText, charLimit, initState, opts, draws, 0)
      ensures r.Success? && r.value.Some? ==> 0 < |r.value.value| < charLimit
    {
      var j := 0;
      while j < opts.tries
        invariant 0 <= j
        invariant ShortFrom(chain, rejoinedText, charLimit, initState, opts, draws, 0) == ShortFrom(chain, rejoinedText, charLimit, initState, opts, draws, j)
        decreases opts.tries - j
      {
        if j >= |draws| {
          return Failure(DrawsExhausted);
        }
        var sentence := MakeSentence(initState, opts, draws[j]);
        if sentence.Failure? {
          return Failure(sentence.error);
        }
        if sentence.value.Some? && |sentence.value.value| > 0 && |sentence.value.value| < charLimit {
          return Success(sentence.value);
        }
        j := j + 1;
      }
      return Success(None);
    }

    /** `make_sentence_with_start`: the words of `beginning` are the initial state. */
    method MakeSentenceWithStart(beginning: string, opts: Options, draws: seq<seq<real>>) returns (r: Result<Option<string>, GenError>)
      ensures r == SentenceFrom(chain, rejoinedText, Some(WordSplit(beginning)), opts, draws, 0)
      ensures r != Failure(StartIndexError)
      ensures r.Success? && r.value.Some? && WordSplit(beginning)[0] != BEGIN ==>
        |Collapse(beginning)| <= |r.value.value| && r.value.value[..|Collapse(beginning)|] == Collapse(beginning)
    {
      var initState := WordSplit(beginning);
      r := MakeSentence(Some(initState), opts, draws);
      StartNeverFails(chain, rejoinedText, initState, opts, draws, 0);
      if r.Success? && r.value.Some? && initState[0] != BEGIN {
        SentenceFromSound(chain, rejoinedText, Some(initState), opts, draws, 0, r.value.value);
        var k :| 0 <= k < opts.tries && k < |draws| && Attempt(chain, rejoinedText, Some(initState), opts, draws[k]) == r;
        AttemptSound(chain, rejoinedText, Some(initState), opts, draws[k], r.value.value);
        var w := WalkFrom(chain.model, StartState(chain, Some(initState)), draws[k]);
        JoinPrefix(initState, w.words);
        WordJoinSplit(beginning);
      }
    }
  }

  /** A non-empty initial state never raises the IndexError of `init_state[0]`. */
  lemma {:induction false} StartNeverFails(chain: Chain, rejoined: string, initState: State, opts: Options, draws: seq<seq<real>>, i: nat)
    requires |initState| > 0
    ensures SentenceFrom(chain, rejoined, Some(initState), opts, draws, i) != Failure(StartIndexError)
    decreases if i < opts.tries then opts.tries - i else 0
  {
    if i < opts.tries && i < |draws| {
      StartNeverFails(chain, rejoined, initState, opts, draws, i + 1);
    }
  }
}

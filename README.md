# markovify, modelled in Dafny

This project models the core of markovify, a Markov-chain text generator.

- **The chain** (`markovify/chain.py`). A transition table from state windows to counted follow tokens. `build` fills it from runs padded with `BEGIN` and `END`. `move` samples it by cumulative weights and a right bisection. `walk` walks it until `END` is drawn. `to_json` / `from_json` convert it to and from a list of pairs.
- **The sentence splitter** (`markovify/splitters.py`). A fixed decision procedure decides whether a punctuation-terminated word ends a sentence. The text is cut at the accepted word ends, and every piece is stripped.
- **The generation pipeline** (`markovify/text.py`):
  - a filter on input sentences;
  - the corpus of word runs, and the rejoined text;
  - the overlap test that rejects output copying the input;
  - the bounded retry loops of `make_sentence`, `make_short_sentence` and `make_sentence_with_start`;
  - the `NewlineText` variant, which splits sentences at newlines.
- **The merge** (`markovify/utils.py`). `get_model_dict` reads the table out of any model form. `combine` validates a list of models and sums `weight · count` state by state and follow by follow. It then wraps the result like the first model. For a `Chain` or a `Text` the model uses the corrected conversion listed under "## Findings": the code as written raises KeyError there (`Utils.ChainOfMergedAsWritten`).

Files, one module each:

| file | module | contents |
|---|---|---|
| `wrappers.dfy` | `Wrappers` | `Option`, `Result` |
| `dicts.dfy` | `Dicts` | Python's insertion-ordered `dict` / `OrderedDict` as an association list: `Get`, `Put`, `FromPairs` |
| `strings.dfy` | `Strings` | `str.isspace`, `sep.join`, `in` on strings, slicing, `strip`, and `re.split` on `\s+` and `\s*\n\s*` |
| `chain.dfy` | `Chains` | `markovify/chain.py` |
| `splitters.dfy` | `Splitters` | `markovify/splitters.py` |
| `text.dfy` | `Texts` | `markovify/text.py` |
| `utils.dfy` | `Utils` | `markovify/utils.py` |

Conventions:

- **Python 3 semantics.** `str` is the only string type, so `unidecode` is never reached.
- **Counts and weights are exact `real`s.**
- **Dicts are lists of (key, value) pairs in insertion order**, which is the order `items()` reports. `move`'s choice depends on that order.
- **Randomness is a parameter.** Every `move` takes one draw `u`, standing for `random.random()`:
  - a walk takes a finite sequence of draws;
  - `make_sentence` takes one sequence per attempt;
  - `make_short_sentence` takes one list of sequences per call of `make_sentence`.
- **Exceptions are `Failure` values** that name the exception raised.
- **Loops are methods**, proved against recursive specification functions. Each of the three nested loops of `combine` is its own method. The body of `make_sentence`'s loop is its own method, `TryOnce`.
- **`Text` is a class with constant fields.** The source never reassigns a Text's fields after `__init__`.

## Model

| member | source | states |
|---|---|---|
| Chains.Accumulate | markovify/chain.py:11-21 | an empty input fails (the RuntimeError of the unguarded `next(it)`); otherwise the result has the input's length, element 0 is input 0, each later element is the previous one plus the next input, and the last is the total |
| Chains.CumulativeLast | markovify/chain.py:71-72 | the last running total (`cumdist[-1]`) is the sum of all weights |
| Chains.CumulativeSorted | markovify/chain.py:71 | with nonnegative weights the running totals never decrease |
| Chains.BisectRight | markovify/chain.py:73 | the result lies in `[lo, hi]`; on a sorted list every entry before it is `<= x` and every entry from it on is `> x` |
| Chains.ChoiceIndex | markovify/chain.py:70-73 | the bisected index is at most the number of choices |
| Chains.Move | markovify/chain.py:66-74 | fails with KeyError exactly for an unknown state; a returned token is always a follow of that state |
| Chains.BisectSlice | markovify/chain.py:71-73 | for `0 <= x < total` the bisection is in range and picks exactly the i with `cumdist[i-1] <= x < cumdist[i]` |
| Chains.ScaledBelow | markovify/chain.py:72 | a draw in `[0, 1)` times a positive total lies in `[0, total)` |
| Chains.ChoiceIndexSlice | markovify/chain.py:70-73 | the picked index is a real choice, and it is the one choice whose slice holds the scaled draw |
| Chains.MoveChoice | markovify/chain.py:70-74 | with nonnegative weights, a positive total and a draw in `[0, 1)`, `move` succeeds and returns choice i exactly when the scaled draw lies in slice i |
| Chains.PositiveMoveSucceeds | markovify/chain.py:70-74 | in a well-formed table with counts of at least one, `move` from any key succeeds, and its result has a count of at least one |
| Chains.Slide | markovify/chain.py:87 | `tuple(state[1:]) + (next,)` keeps the state's length |
| Chains.WalkFromStep | markovify/chain.py:83-87 | one step of `gen`: stop on a failed move or on `END`, otherwise yield the word and slide the state |
| Chains.Walk | markovify/chain.py:76-95 | the loop computes the walk from `init_state`, or from the all-BEGIN state when none is given, and never yields `END` |
| Chains.WindowSlide | markovify/chain.py:87 | sliding the state by a word moves the window of `state ++ words` one step on |
| Chains.TracesCons | markovify/chain.py:84-87 | one returned move followed by a traced walk from the slid state is a traced walk |
| Chains.WalkSteps | markovify/chain.py:82-87 | for a non-empty state, each yielded word is what `move` returned on the last `len(state)` items of `init_state ++ yielded`, and the walk stopped exactly as its halt says |
| Chains.WalkNeverEnd | markovify/chain.py:84-86 | no walk yields `END` |
| Chains.BuiltWalkNeverFaults | markovify/chain.py:82-87 | for state size at least 1, a walk over a built table from any of its keys, with draws in `[0, 1)`, never raises |
| Chains.DefaultWalkNeverFaults | markovify/chain.py:82 | for state size at least 1, the default all-BEGIN walk over a table built from a non-empty corpus never raises |
| Chains.RunWindows | markovify/chain.py:54-57 | a run of n words gives n + 1 (state, follow) windows |
| Chains.Build | markovify/chain.py:42-64 | the loops build a dict of dicts whose keys all have `state_size` items, and every count equals the number of times its window occurs in the corpus |
| Chains.IncrementCases | markovify/chain.py:58-63 | the three branches: a new state gets `{follow: 1}`, a new follow gets 1, a known follow gets one more |
| Chains.IncrementCount | markovify/chain.py:58-63 | a counting step adds one to exactly one count |
| Chains.TallyCounts | markovify/chain.py:53-63 | counting windows adds each (state, follow) as often as it occurs |
| Chains.BuildCounts | markovify/chain.py:53-63 | every count of `build` is the multiplicity of its window in the corpus |
| Chains.IncrementShape | markovify/chain.py:58-63 | a counting step keeps the table a dict of dicts with keys of one size and counts of at least one |
| Chains.TallyShape | markovify/chain.py:53-63 | counting windows of state size n keeps those properties |
| Chains.WindowStates | markovify/chain.py:56 | every window's state has exactly `state_size` items |
| Chains.BuildShape | markovify/chain.py:54-63 | every key `build` stores has exactly `state_size` items; every count is at least one; every state has a follow |
| Chains.WindowsLength | markovify/chain.py:55 | a corpus has one window per item of each run plus one per run |
| Chains.IncrementTotal | markovify/chain.py:58-63 | each counting step adds exactly one to the sum of all counts |
| Chains.TallyTotal | markovify/chain.py:53-63 | counting windows adds their number to the sum of all counts |
| Chains.BuildTotal | markovify/chain.py:53-63 | the counts sum to Σ(len(run) + 1) |
| Chains.WindowsContain | markovify/chain.py:53-57 | every window of every run is among the corpus's windows |
| Chains.WindowsMember | markovify/chain.py:53-57 | every corpus window is window i of some run |
| Chains.BuildRunEnds | markovify/chain.py:54-57 | for every run, the all-BEGIN state is recorded with the run's first follow, and the last window's follow is `END` |
| Chains.RunWindowSlide | markovify/chain.py:54-57 | sliding window i by its follow gives window i + 1 |
| Chains.WindowCounted | markovify/chain.py:53-63 | every window of the corpus is counted at least once |
| Chains.CountedWindow | markovify/chain.py:53-63 | every positive count belongs to a window of the corpus |
| Chains.BuildClosed | markovify/chain.py:54-57 | with state size at least one, a counted follow other than `END` slides to a state that is itself a key |
| Chains.FooBarWindows | markovify/chain.py:54-57 | `[["foo", "bar"]]` at state size one has exactly the windows (BEGIN → foo), (foo → bar), (bar → END) |
| Chains.FooBarKeys | markovify/chain.py:54-56 | that corpus yields exactly the three keys `(BEGIN,)`, `("foo",)`, `("bar",)`, in that order |
| Chains.CheckCorpus | markovify/chain.py:50-54 | a corpus that is not a list, or whose first element is not a list, raises the "list of lists" exception; an empty list raises IndexError; otherwise the runs are the elements |
| Chains.BuildNonEmpty | markovify/chain.py:52-64 | a non-empty corpus always stores the all-BEGIN state |
| Chains.ChainFromValid | markovify/chain.py:39-40 | every chain `__init__` produces has a non-empty model; a built one is a valid chain |
| Chains.NewChain | markovify/chain.py:28-40 | stores the state size and keeps a non-empty given model, otherwise builds one |
| Chains.FromJson | markovify/chain.py:103-122 | a dict fails with KeyError and an empty list with IndexError; otherwise the state size is the length of the first key |
| Chains.FromPairsUnique | markovify/chain.py:120 | rebuilding an ordered dict from pairs never repeats a key |
| Chains.JsonRoundTrip | markovify/chain.py:97-122 | `from_json(to_json(c))` reproduces the chain: the same pairs in the same order, and the same state size |
| Chains.BuiltChainRoundTrip | markovify/chain.py:97-122 | every chain built from a corpus survives the round trip |
| Dicts.FromPairsOfDict | markovify/chain.py:120 | an ordered dict rebuilt from its own items is the same dict |
| Splitters.Initials | markovify/splitters.py:27 | the single-letter initials are 26 strings, one per letter a-z |
| Splitters.ListedIn | markovify/splitters.py:38 | the front-to-back list scan agrees with membership in the list |
| Splitters.Lower | markovify/splitters.py:38 | `.lower()` maps each ASCII capital to its small letter and the Kelvin sign U+212A to `k`, the only characters whose lower case is ASCII; any other character is kept |
| Splitters.UpperCount | markovify/splitters.py:48 | `len(re.sub(r"[^A-Z]", "", word))` never exceeds the word's length |
| Splitters.UpperCountTwo | markovify/splitters.py:48 | two capitals at different positions make the count exceed one |
| Splitters.UpperCountAtMostOne | markovify/splitters.py:48 | a word with at most one capital has a count of at most one |
| Splitters.AbbreviationWith | markovify/splitters.py:35-40 | the last character is dropped; a capitalised remainder is looked up lower-cased in the capped list; any other remainder is a substring test on the single lower-case abbreviation string; words of at most one character raise IndexError |
| Splitters.EnderWith | markovify/splitters.py:43-52 | raises IndexError exactly on `""` and `"."` |
| Splitters.ExceptionsNeverEnd | markovify/splitters.py:32-45 | `U.S.`, `U.N.`, `E.U.`, `F.B.I.` and `C.I.A.` never end a sentence, although each would pass the later tests |
| Splitters.QuestionOrBangEnds | markovify/splitters.py:44-47 | a non-exception word ending in `?` or `!` ends a sentence |
| Splitters.CapitalsEnd | markovify/splitters.py:44-49 | a non-exception word with more than one capital ends a sentence, before any abbreviation lookup |
| Splitters.DotRule | markovify/splitters.py:46-52 | otherwise a word ends a sentence exactly when it ends in `.` and is not an abbreviation |
| Splitters.TitleNotEnder | markovify/splitters.py:18-51 | `Mr.` is an abbreviation and does not end a sentence |
| Splitters.KelvinSignAbbreviation | markovify/splitters.py:35-51 | `O` + Kelvin sign + `la.` lower-cases to the listed `okla`, so it is an abbreviation and does not end a sentence |
| Splitters.LowercaseIsSubstringTest | markovify/splitters.py:30-40 | `c.` is an abbreviation (a piece of the lower-case string) and does not end a sentence; `x.` does |
| Splitters.InitialNotEnder | markovify/splitters.py:27-51 | a capital followed by a dot is an initial, never a sentence end |
| Splitters.MatchesShape | markovify/splitters.py:56-61 | the matches are in order, and each word ends inside the text |
| Splitters.Picked | markovify/splitters.py:64-66 | the accepted matches, in strictly increasing order |
| Splitters.PickedComplete | markovify/splitters.py:64-66 | every accepted match is picked |
| Splitters.EndsOf | markovify/splitters.py:64-66 | one end per accepted match: its start plus the length of its word |
| Splitters.EndsOfExactly | markovify/splitters.py:64-66 | an offset is an end exactly when it ends an accepted word |
| Splitters.EndsOfCuts | markovify/splitters.py:61-66 | the ends are strictly increasing offsets inside the text |
| Splitters.EndsOfSnoc | markovify/splitters.py:64-66 | one more match adds its end exactly when its word is accepted |
| Splitters.EndIndices | markovify/splitters.py:63-66 | the loop collects exactly the ends of the words that end a sentence, strictly increasing and inside the text |
| Splitters.Spans | markovify/splitters.py:68-69 | one span more than there are ends |
| Splitters.Sentences | markovify/splitters.py:68-69 | one stripped sentence per span |
| Splitters.SpanSlice | markovify/splitters.py:68-69 | at cut offsets every span is the slice between consecutive cuts |
| Splitters.SpansPartition | markovify/splitters.py:68-69 | the unstripped spans, concatenated, give the whole text |
| Splitters.MatchAt | markovify/splitters.py:56-61 | a matched word ends in `.`, `?` or `!` and is followed by a closer or whitespace |
| Splitters.CutAfterWord | markovify/splitters.py:57-66 | every cut follows the final punctuation of an accepted word, and consecutive cuts are apart |
| Splitters.SpanOpens | markovify/splitters.py:58-69 | every span after the first starts with the closer or whitespace that followed the word |
| Splitters.SpanCloses | markovify/splitters.py:57-69 | every span but the last ends with the word's final punctuation |
| Splitters.SplitIntoSentences | markovify/splitters.py:55-70 | the result is the accepted spans, stripped: one more sentence than there are accepted ends |
| Splitters.SplitSentences | markovify/splitters.py:55-70 | one more sentence than there are accepted ends |
| Strings.SplitJoinWords | markovify/text.py:39-49 | non-empty words without whitespace, joined by spaces and split on `\s+`, come back unchanged |
| Strings.JoinSplitWords | markovify/text.py:39-49 | splitting on `\s+` and joining with single spaces collapses each whitespace run to one space |
| Strings.SplitLinesPieces | markovify/text.py:173-174 | no line of `re.split(r"\s*\n\s*", text)` holds a newline |
| Strings.SplitLinesNoNewline | markovify/text.py:173-174 | text without a newline is a single line |
| Strings.StripBounds | markovify/splitters.py:69 | `strip` removes exactly the whitespace at both ends |
| Texts.SentenceSplit | markovify/text.py:26-30 | always at least one sentence (prose splitter, or the newline split of `NewlineText` at text.py:173-174) |
| Texts.WordSplit | markovify/text.py:38-43 | always at least one word |
| Texts.WordJoinSplit | markovify/text.py:39-49 | `word_join(word_split(s))` collapses the whitespace of s; no word holds whitespace |
| Texts.WordSplitJoin | markovify/text.py:39-49 | `word_split(word_join(ws))` is ws for non-empty words without whitespace |
| Texts.SearchFromAny | markovify/text.py:64 | `re.search` succeeds exactly when the pattern matches at some offset |
| Texts.TestSentenceInput | markovify/text.py:51-65 | a sentence is rejected exactly for a leading or trailing `'`, a `'` next to whitespace, or any of `"`, `(`, `)`, `[`, `]` |
| Texts.RejectedAnywhere | markovify/text.py:57-64 | the offset-by-offset pattern and the whole-sentence description agree |
| Texts.InputExamples | markovify/text.py:57-65 | `Don't stop.` passes; a quotation opened by `'` and a parenthesis are rejected |
| Texts.Passing | markovify/text.py:74 | the kept sentences are exactly the passing ones |
| Texts.PassingAppend | markovify/text.py:74 | the filter keeps the original order |
| Texts.CorpusRuns | markovify/text.py:67-76 | every run comes from a sentence that passed the filter; it is non-empty and free of whitespace, and rejoins to the collapsed sentence |
| Texts.RunInRejoined | markovify/text.py:20-23 | each run, space-joined, occurs in the rejoined text |
| Texts.AsCorpusChecks | markovify/text.py:24 | that corpus fails `Chain`'s checks only when it is empty |
| Texts.RoundHalfEven | markovify/text.py:87 | Python 3's `round`: the nearest integer, ties to the even one |
| Texts.OverlapMax | markovify/text.py:87-88 | the bound is at most `max_overlap_total` and at most `round(ratio · len(words))`, and equals one of them: their minimum |
| Texts.Grams | markovify/text.py:89-91 | at least one gram, and at least `len(words) - overlap_max` of them |
| Texts.GramWindows | markovify/text.py:89-91 | for a non-negative overlap bound, gram i is `words[i:i+overlap_max+1]` |
| Texts.GramInWords | markovify/text.py:91-93 | each gram's join occurs in the join of all the words |
| Texts.EmptyOutputRejected | markovify/text.py:90-95 | an empty word list is always rejected |
| Texts.CopyRejected | markovify/text.py:91-95 | words whose join occurs in the rejoined text are rejected |
| Texts.CopiedRunRejected | markovify/text.py:20-23 | regenerating a run of the corpus is rejected |
| Texts.DefaultOverlapCap | markovify/text.py:6-7 | with the defaults, 21 words or more (0.7 · 21 = 14.7 rounds to 15) are tested in windows of 16 words |
| Texts.Prefix | markovify/text.py:115-121 | no `init_state`: empty; a leading `BEGIN`: exactly that element is dropped; otherwise all of it; an empty tuple raises IndexError |
| Texts.AttemptSound | markovify/text.py:115-124 | a sentence is `word_join(prefix + walk)` for a walk that ended and words that passed the overlap test |
| Texts.SentenceFromSound | markovify/text.py:114-125 | any sentence came from one of the first `tries` attempts |
| Texts.NoTries | markovify/text.py:114-125 | with no tries, the result is None |
| Texts.AtMostTries | markovify/text.py:114 | at most `tries` draw sequences are used |
| Texts.JoinPrefix | markovify/text.py:122-124 | the joined prefix starts the sentence |
| Texts.ShortSound | markovify/text.py:132-136 | a short sentence is non-empty, strictly under the limit, and a result of one of the first `tries` calls of `make_sentence` |
| Texts.ShortWitness | markovify/text.py:133-136 | names the call of `make_sentence` that returned the short sentence |
| Texts.Text.constructor | markovify/text.py:19-24 | stores the input text, kind, rejoined text and chain |
| Texts.Text.New | markovify/text.py:13-24 | fails only when no chain is given and no sentence passed the filter; otherwise keeps the input, rejoins the runs, and keeps the given chain or builds a valid one |
| Texts.Text.FromChain | markovify/text.py:158-165 | decoding errors pass through; otherwise the chain is the decoded one, the text is the corpus or `""`, and the rejoined text is built from that text's runs |
| Texts.Text.TestSentenceOutput | markovify/text.py:78-96 | the loop returns False exactly when some gram, space-joined, occurs in the rejoined text |
| Texts.Text.MakeSentence | markovify/text.py:98-125 | the loop returns the first accepted attempt within `tries`, or None |
| Texts.Text.TryOnce | markovify/text.py:115-124 | one pass of the loop body: prefix, walk, overlap test |
| Texts.Text.MakeShortSentence | markovify/text.py:127-136 | the loop returns the first non-empty `make_sentence` result under the limit, within `tries` calls, or None |
| Texts.Text.MakeSentenceWithStart | markovify/text.py:138-140 | `make_sentence` from the words of `beginning`; never the IndexError of an empty state; a sentence starts with the collapsed beginning unless that begins with BEGIN |
| Texts.StartNeverFails | markovify/text.py:116 | a non-empty initial state never raises IndexError |
| Utils.GetModelDict | markovify/utils.py:5-13 | None exactly for an unrecognised model; a Chain gives its table, a Text its chain's table, a dict itself, and a list of pairs becomes a dict |
| Utils.ListOfChainModel | markovify/utils.py:5-13 | a chain, its model as an OrderedDict, and its pair list all give the same table |
| Utils.WeightsOrOnes | markovify/utils.py:17-18 | with no weights, every weight is 1 |
| Utils.StateSizeList | markovify/utils.py:24 | succeeds exactly when every table has a first key, and lists those keys' lengths; otherwise the first bad table's error |
| Utils.SingletonSet | markovify/utils.py:26-30 | `len(set(xs)) == 1` exactly when the list is non-empty and all equal |
| Utils.Validate | markovify/utils.py:16-30 | succeeds exactly for equal lengths, usable tables, one state size and one type; otherwise the first failing check's error; on success, the tables, weights and state size |
| Utils.ZipLength | markovify/utils.py:34 | `zip` stops at the shorter list |
| Utils.Merge | markovify/utils.py:32-40 | the outer loop computes the merge of all zipped models |
| Utils.MergeModel | markovify/utils.py:35-40 | the middle loop merges one model state by state |
| Utils.AddOptions | markovify/utils.py:36-39 | the inner loop adds each weighted option to `current` |
| Utils.WeightedKeys | markovify/utils.py:37-39 | weighting keeps the follow keys |
| Utils.WeightedFollowCount | markovify/utils.py:39 | weighting multiplies each follow count by the weight |
| Utils.WeightedTableCount | markovify/utils.py:39 | weighting multiplies each count of the model by the weight |
| Utils.ContributionsWeigh | markovify/utils.py:34-40 | the weighted models' counts add up to Σ weight_i · count_i |
| Utils.AddFollowsCount | markovify/utils.py:36-39 | the inner loop adds each weighted option's count, and changes no other follow |
| Utils.AddFollowsKeys | markovify/utils.py:36-39 | its follows are the old ones and the options' |
| Utils.AddFollowsUnique | markovify/utils.py:36-39 | it never repeats a follow |
| Utils.MergeStateCount | markovify/utils.py:36-40 | merging one state adds the weighted counts under that state only |
| Utils.MergeStateHas | markovify/utils.py:36-40 | merging one state adds that state and its options' follows |
| Utils.MergeStateWellFormed | markovify/utils.py:36-40 | merging one state keeps a dict of dicts |
| Utils.MergeTableCount | markovify/utils.py:35-40 | merging one model adds its weighted counts |
| Utils.MergeTableKeys | markovify/utils.py:35-40 | merging one model adds exactly its states |
| Utils.MergeTableHas | markovify/utils.py:35-40 | merging one model adds exactly its follows |
| Utils.MergeTableWellFormed | markovify/utils.py:35-40 | merging one model keeps a dict of dicts |
| Utils.MergeTableKeepsKeys | markovify/utils.py:35-40 | merging never moves a state already in `c` |
| Utils.MergeTablePrefix | markovify/utils.py:35-40 | states placed early in the loop stay where they were placed |
| Utils.MergeFirstCount | markovify/utils.py:34-40 | after n models every count is the old one plus the n weighted contributions |
| Utils.MergeFirstKeys | markovify/utils.py:34-40 | after n models the states are the old ones and those of the n models |
| Utils.MergeFirstHas | markovify/utils.py:34-40 | after n models the follows are the old ones and those of the n models |
| Utils.MergeFirstWellFormed | markovify/utils.py:34-40 | after n models the table is a dict of dicts |
| Utils.MergeFirstExtends | markovify/utils.py:34-40 | later models never move a state placed by earlier ones |
| Utils.MergedCounts | markovify/utils.py:32-40 | every merged count is Σ weight_i · count_i(state, follow), absent entries counting 0 |
| Utils.MergeAllKeys | markovify/utils.py:32-40 | the merged states are the union of the models' states |
| Utils.MergeAllHas | markovify/utils.py:32-40 | the merged follows of each state are the union of the models' follows |
| Utils.MergeAllWellFormed | markovify/utils.py:32-40 | the merge is a dict of dicts |
| Utils.MergedFirstKey | markovify/utils.py:32-40 | the first merged state is the first model's first state, so the state size carries over |
| Utils.ChainOfMergedAsWritten | markovify/utils.py:44-45 | `Chain.from_json` on the merged dict always raises KeyError |
| Utils.ChainOfMerged | markovify/utils.py:44-45 | converted as a list of pairs, a non-empty merge gives the chain over that table, with the first key's length as state size |
| Utils.DictPairs | markovify/utils.py:49-52 | the pair list of a dict without repeated keys converts back to the same dict |
| Utils.Combine | markovify/utils.py:16-57 | a failed check's error passes through; otherwise the result is the merged table in the first model's form, and a Text gets the inputs joined by `"\n"` as its corpus; the Chain and Text forms follow the corrected conversion under "## Findings" (as written they raise KeyError, see `Utils.ChainOfMergedAsWritten`) |
| Utils.Rewrap | markovify/utils.py:42-52 | the merged table as a Chain, a Text of the first model's kind, a list of pairs, or a dict; the Chain and Text forms use the corrected conversion under "## Findings", not the KeyError of the code as written |
| Utils.SelfValidates | markovify/utils.py:16-30 | a usable model combined with itself passes validation |
| Utils.WeightedPair | markovify/utils.py:34-40 | with two models the weighted count is `wa · count_a + wb · count_b` |
| Utils.HalvesRestore | markovify/utils.py:34-40 | `combine([m, m], [0.5, 0.5])` equals m as a dict |
| Utils.DefaultWeightsDouble | markovify/utils.py:17-40 | `combine([m, m])` doubles every count, so it differs from any non-empty built model |
| Utils.OtherModelsRejected | markovify/utils.py:23-24 | unrecognised models fail when their first key is read |
| Utils.WrongWeightsRejected | markovify/utils.py:20-21 | a weight list of the wrong length raises ValueError first |
| Utils.MixedStateSizesRejected | markovify/utils.py:24-27 | Text models of different state sizes raise ValueError |
| Utils.MixedKindsRejected | markovify/utils.py:29-30 | a Text and a NewlineText raise ValueError even with equal state sizes |
| Utils.ChainCombineFinding | markovify/utils.py:44-45 | combining a chain with itself validates; the conversion as written raises, and the intended one returns the merged chain |

## Left out

- Randomness: `random.random()` is a parameter, a draw `u`. Its range `[0, 1)` is a precondition of the lemmas that need it. Sampling itself is not modelled.
- Chains.Walk: a walk consumes a finite sequence of draws and stops with `OutOfDraws` when they run out. The source keeps drawing and need not terminate on a table with cycles. Only the per-step facts and the faults are proved.
- Texts.Text.MakeSentence: running out of draws is reported as `DrawsExhausted`, an outcome the source cannot have.
- JSON text: `json.dumps` and `json.loads` are not modelled. Only the list-of-pairs conversion of the decoded value is. Lists decoded as keys become tuples at `tuple(item[0])`; here states are already sequences.
- The Python 2 `basestring` fallback in `from_json` is not modelled.
- The regular expression behind `split_into_sentences`, with its Unicode `\w`, is not modelled:
  - its matches are an input of type `Scanner`;
  - `Matches` states only what the pattern guarantees about each match;
  - Splitters.SplitIntoSentences is proved relative to the given matches, not the exact matches of the pattern.
- `\s` is modelled as the characters `str.isspace()` accepts. Python's Unicode tables are not consulted beyond that list.
- `unidecode`: under Python 3 every sentence is a `str`, so the call is never reached.
- Splitters.Lower: the case mappings of `.lower()` for other non-ASCII characters are not modelled; those characters are kept. Each of them lowers to a string that still holds a non-ASCII character (U+0130 even becomes two characters), so the lookup in the all-ASCII `abbr_capped` list gives the same answer either way.
- Floating point: weights, counts and `max_overlap_ratio` are exact reals.
- Texts.RoundHalfEven: rounds the exact product `ratio · len(words)`, which can differ from the rounded binary float product the source computes.
- `make_sentence_with_starting_letter`: not modelled. It depends on Python 2's list-returning `filter` and loops without bound on random output.
- `Text.from_chain` passes `state_size=None`. The model passes 0, and that size is unused when a chain is given.
- Subclasses of `Text` other than `NewlineText` are not modelled. `NewlineText` overrides only `sentence_split`.
- Utils.GetModelDict: a list of pairs whose keys are not hashable (lists) would raise TypeError in `dict(thing)`. Here keys are always states.
- The final `ValueError` of `combine` (markovify/utils.py:54-57) cannot be reached. An unrecognised model already fails at `list(md.keys())[0]` on line 24 (Utils.OtherModelsRejected).
- The `markovify/__init__.py` re-exports are not part of this model, and neither is packaging.

## Findings

| source | as written | input that shows it | evidently intended | confidence | as-written member | corrected member |
|---|---|---|---|---|---|---|
| markovify/utils.py:44-48 | `combine` hands the merged dict `c` to `Chain.from_json` (directly, or through `Text.from_chain`). There `obj[0][0]` looks up the key `0` in a dict keyed by tuples, which raises KeyError, so combining Chains or Texts always fails | `combine([c, c])` for any chain `c` with a non-empty model (Utils.ChainCombineFinding) | convert the merged table as its list of pairs, `Chain.from_json(list(c.items()))`, which gives the merged chain with the common state size | not executed | Utils.ChainOfMergedAsWritten | Utils.ChainOfMerged |

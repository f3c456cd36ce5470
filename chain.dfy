/**
 * The Markov chain of markovify/chain.py: a transition table from state
 * windows to counted follow tokens, built from runs padded with BEGIN and END,
 * sampled by cumulative weights and an upper-bound bisection, walked until END,
 * and converted to and from its list-of-pairs interchange form.
 */
module Chains {
  import opened Wrappers
  import opened Dicts
  import opened Strings

  /** The reserved padding and stop tokens (plain strings, as in the source). */
  const BEGIN: string := "___BEGIN__"
  const END: string := "___END__"

  type State = seq<string>

  /** One state's follow distribution: follow token -> count, in insertion order. */
  type Follows = Dict<string, real>

  /** The transition table (`Chain.model`): state -> follow distribution. */
  type Table = Dict<State, Follows>

  datatype Chain = Chain(stateSize: nat, model: Table)

  /** A dict of dicts: no state twice, and no follow twice within a state. */
  predicate WellFormed(t: Table) {
    UniqueKeys(t) && forall i :: 0 <= i < |t| ==> UniqueKeys(t[i].1)
  }

  /** Every key has the chain's state size. */
  predicate KeysOfSize(t: Table, n: nat) {
    forall i :: 0 <= i < |t| ==> |t[i].0| == n
  }

  predicate ValidChain(c: Chain) {
    WellFormed(c.model) && KeysOfSize(c.model, c.stateSize)
  }

  /** `model[s][f]`, with an absent state or follow counting 0. */
  function CountOf(t: Table, s: State, f: string): real {
    match Get(t, s)
    case None => 0.0
    case Some(fs) => FollowCount(fs, f)
  }

  /** `fs[f]`, with an absent follow counting 0. */
  function FollowCount(fs: Follows, f: string): real {
    match Get(fs, f)
    case None => 0.0
    case Some(v) => v
  }

  // ---------------------------------------------------------------------------
  // Cumulative weights and sampling (`accumulate`, `move`)
  // ---------------------------------------------------------------------------

  function Sum(w: seq<real>): real
    decreases |w|
  {
    if |w| == 0 then 0.0 else Sum(w[..|w| - 1]) + w[|w| - 1]
  }

  function Weights(fs: Follows): (w: seq<real>)
    ensures |w| == |fs| && forall i :: 0 <= i < |fs| ==> w[i] == fs[i].1
  {
    seq(|fs|, i requires 0 <= i < |fs| => fs[i].1)
  }

  /** The running totals `list(accumulate(w))`: entry i is the sum of the first i + 1 weights. */
  function Cumulative(w: seq<real>): (c: seq<real>)
    ensures |c| == |w|
  {
    seq(|w|, i requires 0 <= i < |w| => Sum(w[..i + 1]))
  }

  /** The last running total is the whole sum (`cumdist[-1]`). */
  lemma CumulativeLast(w: seq<real>)
    requires |w| > 0
    ensures Cumulative(w)[|w| - 1] == Sum(w)
  {
    assert w[..|w|] == w;
  }

  lemma SumStep(w: seq<real>, i: nat)
    requires i < |w|
    ensures Sum(w[..i + 1]) == Sum(w[..i]) + w[i]
  {
    assert w[..i + 1][..i] == w[..i];
  }

  /**
   * `accumulate(iterable)` with the default `operator.add`: a running total.
   * On an empty input the unguarded `next(it)` raises `StopIteration` inside
   * the generator, which Python 3.7 and later turn into a `RuntimeError`:
   * that is `None` here.
   */
  method Accumulate(w: seq<real>) returns (r: Option<seq<real>>)
    ensures r.None? <==> |w| == 0
    ensures r.Some? ==> |r.value| == |w| && r.value[0] == w[0]
    ensures r.Some? ==> forall i :: 0 < i < |w| ==> r.value[i] == r.value[i - 1] + w[i]
    ensures r.Some? ==> r.value[|w| - 1] == Sum(w)
    ensures r.Some? ==> r.value == Cumulative(w)
  {
    if |w| == 0 {
      return None;
    }
    var total := w[0];
    var c := [total];
    assert w[..1] == [w[0]];
    var k := 1;
    while k < |w|
      invariant 1 <= k <= |w|
      invariant |c| == k
      invariant total == c[k - 1]
      invariant forall i :: 0 <= i < k ==> c[i] == Sum(w[..i + 1])
    {
      SumStep(w, k);
      total := total + w[k];
      c := c + [total];
      k := k + 1;
    }
    assert w[..|w|] == w;
    forall i | 0 < i < |w| ensures c[i] == c[i - 1] + w[i] {
      SumStep(w, i);
    }
    r := Some(c);
  }

  predicate Sorted(a: seq<real>) {
    forall i, j :: 0 <= i <= j < |a| ==> a[i] <= a[j]
  }

  lemma {:induction false} SumPrefixMonotone(w: seq<real>, i: nat, j: nat)
    requires i <= j <= |w|
    requires forall k :: 0 <= k < |w| ==> w[k] >= 0.0
    ensures Sum(w[..i]) <= Sum(w[..j])
    decreases j - i
  {
    if i < j {
      SumStep(w, j - 1);
      SumPrefixMonotone(w, i, j - 1);
    }
  }

  /** With nonnegative weights the running totals never decrease, so bisection applies. */
  lemma CumulativeSorted(w: seq<real>)
    requires forall k :: 0 <= k < |w| ==> w[k] >= 0.0
    ensures Sorted(Cumulative(w))
  {
    forall i, j | 0 <= i <= j < |w| ensures Cumulative(w)[i] <= Cumulative(w)[j] {
      SumPrefixMonotone(w, i + 1, j + 1);
    }
  }

  /**
   * CPython's `bisect.bisect_right(a, x, lo, hi)`: halve `[lo, hi)` until it is empty.
   * On a sorted list the result splits it into the entries `<= x` and those `> x`.
   */
  function BisectRight(a: seq<real>, x: real, lo: nat, hi: nat): (i: nat)
    requires lo <= hi <= |a|
    ensures lo <= i <= hi
    ensures Sorted(a) ==> forall j :: lo <= j < i ==> a[j] <= x
    ensures Sorted(a) ==> forall j :: i <= j < hi ==> x < a[j]
    decreases hi - lo
  {
    if lo == hi then lo
    else
      var mid := (lo + hi) / 2;
      if x < a[mid] then BisectRight(a, x, lo, mid) else BisectRight(a, x, mid + 1, hi)
  }

  /** Why `move` fails: KeyError, the ValueError of unpacking no items, or IndexError past the last choice. */
  datatype Fault = UnknownState | NoFollows | PastLastChoice

  /** The index `move` picks among `fs`: bisect the running totals at `u` times the last total. */
  function ChoiceIndex(fs: Follows, u: real): (i: nat)
    requires |fs| > 0
    ensures i <= |fs|
  {
    BisectRight(Cumulative(Weights(fs)), Scaled(fs, u), 0, |fs|)
  }

  /**
   * `Chain.move(state)` with the draw `random.random()` given as `u`:
   * scale `u` by the total weight and pick the choice whose cumulative
   * weight the upper-bound bisection lands on.
   */
  function Move(model: Table, state: State, u: real): (r: Result<string, Fault>)
    ensures Get(model, state).None? <==> r == Failure(UnknownState)
    ensures r.Success? ==> r.value in Keys(Get(model, state).value)
  {
    match Get(model, state)
    case None => Failure(UnknownState)
    case Some(fs) =>
      if |fs| == 0 then Failure(NoFollows)
      else if ChoiceIndex(fs, u) < |fs| then Success(fs[ChoiceIndex(fs, u)].0)
      else Failure(PastLastChoice)
  }

  lemma FractionBelow(u: real, t: real, total: real)
    requires 0.0 <= u < 1.0 && t == total && t > 0.0
    ensures 0.0 <= u * t < total
  {
    assert t - u * t == (1.0 - u) * t;
    assert (1.0 - u) * t > 0.0;
  }

  /** The draw `u` scaled by the total weight `cumdist[-1]`. */
  function Scaled(fs: Follows, u: real): real
    requires |fs| > 0
  {
    u * Cumulative(Weights(fs))[|fs| - 1]
  }

  /** Whether the scaled draw falls in choice i's slice [total before i, total through i). */
  predicate InSlice(fs: Follows, i: nat, u: real)
    requires i < |fs|
  {
    var w := Weights(fs);
    Sum(w[..i]) <= Scaled(fs, u) < Sum(w[..i + 1])
  }

  /** A draw in [0, 1) scaled by a positive total lies in [0, total). */
  lemma ScaledBelow(fs: Follows, u: real)
    requires |fs| > 0
    requires Sum(Weights(fs)) > 0.0
    requires 0.0 <= u < 1.0
    ensures 0.0 <= Scaled(fs, u) < Sum(Weights(fs))
  {
    CumulativeLast(Weights(fs));
    FractionBelow(u, Cumulative(Weights(fs))[|fs| - 1], Sum(Weights(fs)));
  }

  /** Bisecting the running totals at `x` finds the one slice [total before i, total through i) holding `x`. */
  lemma BisectSlice(w: seq<real>, x: real)
    requires forall j :: 0 <= j < |w| ==> w[j] >= 0.0
    requires 0.0 <= x < Sum(w)
    ensures BisectRight(Cumulative(w), x, 0, |w|) < |w|
    ensures forall i :: 0 <= i < |w| ==>
      (Sum(w[..i]) <= x < Sum(w[..i + 1]) <==> i == BisectRight(Cumulative(w), x, 0, |w|))
  {
    var c := Cumulative(w);
    var i0 := BisectRight(c, x, 0, |w|);
    CumulativeSorted(w);
    assert w[..|w|] == w;
    assert c[|w| - 1] == Sum(w);
    assert i0 < |w|;
    assert x < c[i0];
    assert Sum(w[..0]) == 0.0 by { assert w[..0] == []; }
    assert Sum(w[..i0]) <= x by {
      if i0 > 0 { assert c[i0 - 1] <= x; }
    }
    forall i | 0 <= i < |w| && Sum(w[..i]) <= x < Sum(w[..i + 1]) ensures i == i0 {
      assert c[i] == Sum(w[..i + 1]);
      if i > 0 { assert c[i - 1] == Sum(w[..i]); }
    }
  }

  /**
   * With nonnegative weights, a positive total and a draw in [0, 1), the picked
   * index is a real choice, and it is the one choice whose slice holds the scaled draw.
   */
  lemma ChoiceIndexSlice(fs: Follows, u: real)
    requires |fs| > 0
    requires forall j :: 0 <= j < |fs| ==> fs[j].1 >= 0.0
    requires Sum(Weights(fs)) > 0.0
    requires 0.0 <= u < 1.0
    ensures ChoiceIndex(fs, u) < |fs|
    ensures forall i :: 0 <= i < |fs| ==> (InSlice(fs, i, u) <==> i == ChoiceIndex(fs, u))
  {
    ScaledBelow(fs, u);
    BisectSlice(Weights(fs), Scaled(fs, u));
    assert ChoiceIndex(fs, u) == BisectRight(Cumulative(Weights(fs)), Scaled(fs, u), 0, |fs|);
  }

  /**
   * With nonnegative weights, a positive total and a draw in [0, 1), `move`
   * succeeds, and it returns choice i exactly when the scaled draw lies in
   * choice i's slice of the cumulative weights.
   */
  lemma MoveChoice(model: Table, state: State, fs: Follows, u: real)
    requires Get(model, state) == Some(fs) && UniqueKeys(fs)
    requires forall j :: 0 <= j < |fs| ==> fs[j].1 >= 0.0
    requires Sum(Weights(fs)) > 0.0
    requires 0.0 <= u < 1.0
    ensures Move(model, state, u).Success?
    ensures forall i :: 0 <= i < |fs| ==>
      (Move(model, state, u) == Success(fs[i].0) <==> InSlice(fs, i, u))
  {
    ChoiceIndexSlice(fs, u);
  }

  // ---------------------------------------------------------------------------
  // Walking the chain (`gen`, `walk`)
  // ---------------------------------------------------------------------------

  /** How a walk stopped: END drawn, `move` raised, or the supplied draws ran out. */
  datatype Halt = Ended | Faulted(fault: Fault) | OutOfDraws

  datatype Walked = Walked(words: seq<string>, halt: Halt)

  /** `tuple(state[1:]) + (next,)`. */
  function Slide(state: State, next: string): (r: State)
    ensures |state| >= 1 ==> |r| == |state|
  {
    (if |state| == 0 then [] else state[1..]) + [next]
  }

  /** `init_state or (BEGIN,) * state_size`: an absent or empty init state means the all-BEGIN state. */
  function StartState(chain: Chain, initState: Option<State>): State {
    if initState.None? || initState.value == [] then Repeat(BEGIN, chain.stateSize) else initState.value
  }

  /** The words `gen` yields from `state` when `random.random()` returns `draws` in turn. */
  function WalkFrom(model: Table, state: State, draws: seq<real>): Walked
    decreases |draws|
  {
    if |draws| == 0 then Walked([], OutOfDraws)
    else match Move(model, state, draws[0])
      case Failure(f) => Walked([], Faulted(f))
      case Success(next) =>
        if next == END then Walked([], Ended)
        else
          var rest := WalkFrom(model, Slide(state, next), draws[1..]);
          Walked([next] + rest.words, rest.halt)
  }

  /** Words yielded before a walk continues. */
  function Prepend(words: seq<string>, w: Walked): Walked {
    Walked(words + w.words, w.halt)
  }

  /** One step of a walk: stop on a failed move or on END, otherwise yield and slide. */
  lemma WalkFromStep(model: Table, state: State, draws: seq<real>)
    requires |draws| > 0
    ensures var m := Move(model, state, draws[0]);
      && (m.Failure? ==> WalkFrom(model, state, draws) == Walked([], Faulted(m.error)))
      && (m.Success? && m.value == END ==> WalkFrom(model, state, draws) == Walked([], Ended))
      && (m.Success? && m.value != END ==>
            WalkFrom(model, state, draws) == Prepend([m.value], WalkFrom(model, Slide(state, m.value), draws[1..])))
  {
  }

  /** `Chain.walk(init_state)` (the list of what `gen` yields), one draw per `move`. */
  method Walk(chain: Chain, initState: Option<State>, draws: seq<real>) returns (w: Walked)
    ensures w == WalkFrom(chain.model, StartState(chain, initState), draws)
    ensures END !in w.words
  {
    var start := StartState(chain, initState);
    var state := start;
    var words: seq<string> := [];
    var k := 0;
    while k < |draws|
      invariant 0 <= k <= |draws|
      invariant END !in words
      invariant WalkFrom(chain.model, start, draws) == Prepend(words, WalkFrom(chain.model, state, draws[k..]))
    {
      WalkFromStep(chain.model, state, draws[k..]);
      assert draws[k..][0] == draws[k];
      assert draws[k..][1..] == draws[k + 1..];
      var next := Move(chain.model, state, draws[k]);
      if next.Failure? {
        return Walked(words, Faulted(next.error));
      }
      if next.value == END {
        return Walked(words, Ended);
      }
      ghost var rest := WalkFrom(chain.model, Slide(state, next.value), draws[k + 1..]);
      assert words + ([next.value] + rest.words) == (words + [next.value]) + rest.words;
      words := words + [next.value];
      state := Slide(state, next.value);
      k := k + 1;
    }
    assert draws[k..] == [];
    return Walked(words, OutOfDraws);
  }

  /** The state window `move` sees before step k: items k .. k + |state| of `state ++ words`. */
  function Window(state: State, words: seq<string>, k: nat): State
    requires k <= |words|
  {
    (state + words)[k..k + |state|]
  }

  lemma WindowSlide(state: State, next: string, rest: seq<string>, k: nat)
    requires |state| >= 1 && k <= |rest|
    ensures Window(state, [next] + rest, k + 1) == Window(Slide(state, next), rest, k)
  {
    assert state + ([next] + rest) == [state[0]] + (Slide(state, next) + rest);
  }

  /**
   * `w` is what a walk from `state` on `draws` yields: each word is what `move`
   * returned on the window of the last |state| items so far, and the walk
   * stopped at the move after them exactly as its halt says.
   */
  predicate Traces(model: Table, state: State, draws: seq<real>, w: Walked) {
    && |w.words| <= |draws|
    && (forall k :: 0 <= k < |w.words| ==> Move(model, Window(state, w.words, k), draws[k]) == Success(w.words[k]))
    && match w.halt
       case OutOfDraws => |w.words| == |draws|
       case Ended => |w.words| < |draws| && Move(model, Window(state, w.words, |w.words|), draws[|w.words|]) == Success(END)
       case Faulted(f) => |w.words| < |draws| && Move(model, Window(state, w.words, |w.words|), draws[|w.words|]) == Failure(f)
  }

  lemma TracesCons(model: Table, state: State, next: string, draws: seq<real>, rest: Walked)
    requires |state| >= 1 && |draws| > 0
    requires Move(model, state, draws[0]) == Success(next)
    requires Traces(model, Slide(state, next), draws[1..], rest)
    ensures Traces(model, state, draws, Prepend([next], rest))
  {
    var s' := Slide(state, next);
    var w := Prepend([next], rest);
    assert Window(state, w.words, 0) == state;
    forall k | 0 < k <= |w.words|
      ensures Window(state, w.words, k) == Window(s', rest.words, k - 1)
    {
      WindowSlide(state, next, rest.words, k - 1);
    }
    forall k | 0 <= k < |w.words|
      ensures Move(model, Window(state, w.words, k), draws[k]) == Success(w.words[k])
    {
      if k > 0 {
        assert draws[k] == draws[1..][k - 1];
        assert w.words[k] == rest.words[k - 1];
      }
    }
    if |w.words| < |draws| {
      assert draws[|w.words|] == draws[1..][|rest.words|];
    }
  }

  /** A walk from a non-empty state is traced by its windows, step by step. */
  lemma {:induction false} WalkSteps(model: Table, state: State, draws: seq<real>)
    requires |state| >= 1
    ensures Traces(model, state, draws, WalkFrom(model, state, draws))
    decreases |draws|
  {
    if |draws| > 0 {
      WalkFromStep(model, state, draws);
      var m := Move(model, state, draws[0]);
      if m.Success? && m.value != END {
        WalkSteps(model, Slide(state, m.value), draws[1..]);
        TracesCons(model, state, m.value, draws, WalkFrom(model, Slide(state, m.value), draws[1..]));
      } else {
        assert Window(state, [], 0) == state;
      }
    }
  }

  /** No walk yields END. */
  lemma {:induction false} WalkNeverEnd(model: Table, state: State, draws: seq<real>)
    ensures END !in WalkFrom(model, state, draws).words
    decreases |draws|
  {
    if |draws| > 0 {
      WalkFromStep(model, state, draws);
      var m := Move(model, state, draws[0]);
      if m.Success? && m.value != END {
        WalkNeverEnd(model, Slide(state, m.value), draws[1..]);
      }
    }
  }

  // ---------------------------------------------------------------------------
  // Building the table (`build`, `__init__`)
  // ---------------------------------------------------------------------------

  /** The padded run `[BEGIN] * n + run + [END]`. */
  function Padded(run: seq<string>, n: nat): seq<string> {
    Repeat(BEGIN, n) + run + [END]
  }

  /** The (state, follow) pairs `build` visits in one run, window start 0 to |run|. */
  function RunWindows(run: seq<string>, n: nat): (ws: seq<(State, string)>)
    ensures |ws| == |run| + 1
  {
    var items := Padded(run, n);
    seq(|run| + 1, i requires 0 <= i <= |run| => (items[i..i + n], items[i + n]))
  }

  /** All windows of a corpus, run after run. */
  function Windows(corpus: seq<seq<string>>, n: nat): seq<(State, string)>
    decreases |corpus|
  {
    if |corpus| == 0 then []
    else Windows(corpus[..|corpus| - 1], n) + RunWindows(corpus[|corpus| - 1], n)
  }

  /** One counting step of `build`: a new state, a new follow, or one more of a known follow. */
  function Increment(t: Table, s: State, f: string): Table {
    match Get(t, s)
    case None => Put(t, s, [(f, 1.0)])
    case Some(fs) =>
      match Get(fs, f)
      case None => Put(t, s, Put(fs, f, 1.0))
      case Some(v) => Put(t, s, Put(fs, f, v + 1.0))
  }

  /** Counting the windows `ws` in order into `t`. */
  function Tally(t: Table, ws: seq<(State, string)>): Table
    decreases |ws|
  {
    if |ws| == 0 then t else Increment(Tally(t, ws[..|ws| - 1]), ws[|ws| - 1].0, ws[|ws| - 1].1)
  }

  /** The table `build(corpus, n)` returns. */
  function BuildTable(corpus: seq<seq<string>>, n: nat): Table {
    Tally([], Windows(corpus, n))
  }

  /** `Chain.build`: count every window of every padded run into an ordered dict of dicts. */
  method Build(corpus: seq<seq<string>>, stateSize: nat) returns (model: Table)
    ensures model == BuildTable(corpus, stateSize)
    ensures WellFormed(model) && KeysOfSize(model, stateSize)
    ensures forall s, f :: CountOf(model, s, f) == multiset(Windows(corpus, stateSize))[(s, f)] as real
  {
    model := [];
    for r := 0 to |corpus|
      invariant model == Tally([], Windows(corpus[..r], stateSize))
    {
      var run := corpus[r];
      var items := Repeat(BEGIN, stateSize) + run + [END];
      ghost var start := model;
      for i := 0 to |run| + 1
        invariant model == Tally(start, RunWindows(run, stateSize)[..i])
      {
        var state := items[i..i + stateSize];
        var follow := items[i + stateSize];
        TallyRunStep(start, run, stateSize, i);
        ghost var prev := model;
        var entry := Get(model, state);
        if entry.None? {
          model := Put(model, state, [(follow, 1.0)]);
        } else {
          var count := Get(entry.value, follow);
          if count.None? {
            model := Put(model, state, Put(entry.value, follow, 1.0));
          } else {
            model := Put(model, state, Put(entry.value, follow, count.value + 1.0));
          }
        }
        assert model == Increment(prev, state, follow) by {
          IncrementCases(prev, state, follow);
        }
      }
      TallyRun(start, corpus, r, stateSize);
    }
    assert corpus[..|corpus|] == corpus;
    BuildShape(corpus, stateSize);
    BuildCounts(corpus, stateSize);
  }

  /** The three branches of a counting step, one by one. */
  lemma IncrementCases(t: Table, s: State, f: string)
    ensures Get(t, s).None? ==> Increment(t, s, f) == Put(t, s, [(f, 1.0)])
    ensures Get(t, s).Some? && Get(Get(t, s).value, f).None? ==>
      Increment(t, s, f) == Put(t, s, Put(Get(t, s).value, f, 1.0))
    ensures Get(t, s).Some? && Get(Get(t, s).value, f).Some? ==>
      Increment(t, s, f) == Put(t, s, Put(Get(t, s).value, f, Get(Get(t, s).value, f).value + 1.0))
  {
  }

  lemma {:induction false} TallyAppend(t: Table, a: seq<(State, string)>, b: seq<(State, string)>)
    ensures Tally(t, a + b) == Tally(Tally(t, a), b)
    decreases |b|
  {
    if |b| == 0 {
      assert a + b == a;
    } else {
      assert (a + b)[..|a + b| - 1] == a + b[..|b| - 1];
      TallyAppend(t, a, b[..|b| - 1]);
    }
  }

  /** After counting all of run r, the table counts the first r + 1 runs. */
  lemma TallyRun(start: Table, corpus: seq<seq<string>>, r: nat, n: nat)
    requires r < |corpus|
    requires start == Tally([], Windows(corpus[..r], n))
    ensures Tally(start, RunWindows(corpus[r], n)[..|corpus[r]| + 1]) == Tally([], Windows(corpus[..r + 1], n))
  {
    assert RunWindows(corpus[r], n)[..|corpus[r]| + 1] == RunWindows(corpus[r], n);
    assert corpus[..r + 1][..r] == corpus[..r];
    TallyAppend([], Windows(corpus[..r], n), RunWindows(corpus[r], n));
  }

  /** Counting window i of a run after the windows before it. */
  lemma TallyRunStep(start: Table, run: seq<string>, n: nat, i: nat)
    requires i <= |run|
    ensures var items := Repeat(BEGIN, n) + run + [END];
      Tally(start, RunWindows(run, n)[..i + 1]) ==
      Increment(Tally(start, RunWindows(run, n)[..i]), items[i..i + n], items[i + n])
  {
    var x := RunWindows(run, n)[i];
    assert RunWindows(run, n)[..i + 1] == RunWindows(run, n)[..i] + [x];
    TallySnoc(start, RunWindows(run, n)[..i], x);
  }

  lemma TallySnoc(t: Table, ws: seq<(State, string)>, x: (State, string))
    ensures Tally(t, ws + [x]) == Increment(Tally(t, ws), x.0, x.1)
  {
    assert (ws + [x])[..|ws|] == ws;
  }

  // --- facts about counting ----------------------------------------------------

  lemma CountOfPut(t: Table, s: State, v: Follows, s': State, f': string)
    ensures CountOf(Put(t, s, v), s', f') == if s' == s then FollowCount(v, f') else CountOf(t, s', f')
  {
    GetPut(t, s, v, s');
  }

  lemma FollowCountPut(fs: Follows, f: string, c: real, f': string)
    ensures FollowCount(Put(fs, f, c), f') == if f' == f then c else FollowCount(fs, f')
  {
    GetPut(fs, f, c, f');
  }

  /** The follows stored for `s`, or none. */
  function FollowsOf(t: Table, s: State): Follows {
    match Get(t, s)
    case None => []
    case Some(fs) => fs
  }

  /** All three branches of a counting step store `old count + 1` under the state. */
  lemma IncrementIsPut(t: Table, s: State, f: string)
    ensures Increment(t, s, f) == Put(t, s, Put(FollowsOf(t, s), f, CountOf(t, s, f) + 1.0))
  {
    if Get(t, s).None? {
      assert Put([], f, 1.0) == [(f, 1.0)];
    }
  }

  lemma IncrementCount(t: Table, s: State, f: string, s': State, f': string)
    ensures CountOf(Increment(t, s, f), s', f') == CountOf(t, s', f') + (if s' == s && f' == f then 1.0 else 0.0)
  {
    var fs := FollowsOf(t, s);
    var v := Put(fs, f, CountOf(t, s, f) + 1.0);
    IncrementIsPut(t, s, f);
    CountOfPut(t, s, v, s', f');
    FollowCountPut(fs, f, CountOf(t, s, f) + 1.0, f');
    assert CountOf(t, s, f') == FollowCount(fs, f');
  }

  /** The table counts exactly the windows: each (state, follow) as often as it occurs. */
  lemma {:induction false} TallyCounts(t: Table, ws: seq<(State, string)>, s: State, f: string)
    ensures CountOf(Tally(t, ws), s, f) == CountOf(t, s, f) + multiset(ws)[(s, f)] as real
    decreases |ws|
  {
    if |ws| > 0 {
      var init := ws[..|ws| - 1];
      var last := ws[|ws| - 1];
      assert ws == init + [last];
      TallyCounts(t, init, s, f);
      IncrementCount(Tally(t, init), last.0, last.1, s, f);
    }
  }

  /** `build` counts each (state, follow) window as often as the corpus holds it. */
  lemma BuildCounts(corpus: seq<seq<string>>, n: nat)
    ensures forall s, f :: CountOf(BuildTable(corpus, n), s, f) == multiset(Windows(corpus, n))[(s, f)] as real
  {
    forall s, f ensures CountOf(BuildTable(corpus, n), s, f) == multiset(Windows(corpus, n))[(s, f)] as real {
      TallyCounts([], Windows(corpus, n), s, f);
    }
  }

  /** Every count is at least one, and every state has at least one follow. */
  predicate Positive(t: Table) {
    forall i :: 0 <= i < |t| ==> |t[i].1| > 0 && forall j :: 0 <= j < |t[i].1| ==> t[i].1[j].1 >= 1.0
  }

  /** Putting a key either overwrites its one entry in place or appends a new entry. */
  lemma PutEntries(t: Table, s: State, v: Follows)
    ensures forall i :: 0 <= i < |Put(t, s, v)| ==> Put(t, s, v)[i] == (s, v) || (i < |t| && Put(t, s, v)[i] == t[i])
  {
  }

  lemma PutShape(t: Table, s: State, v: Follows, n: nat)
    requires WellFormed(t) && Positive(t) && KeysOfSize(t, n) && |s| == n
    requires UniqueKeys(v) && |v| > 0 && forall j :: 0 <= j < |v| ==> v[j].1 >= 1.0
    ensures WellFormed(Put(t, s, v)) && Positive(Put(t, s, v)) && KeysOfSize(Put(t, s, v), n)
  {
    UniquePut(t, s, v);
    PutEntries(t, s, v);
  }

  lemma FollowsPositive(fs: Follows, f: string, c: real)
    requires UniqueKeys(fs) && c >= 1.0 && forall j :: 0 <= j < |fs| ==> fs[j].1 >= 1.0
    ensures UniqueKeys(Put(fs, f, c)) && |Put(fs, f, c)| > 0
    ensures forall j :: 0 <= j < |Put(fs, f, c)| ==> Put(fs, f, c)[j].1 >= 1.0
  {
    UniquePut(fs, f, c);
  }

  lemma IncrementShape(t: Table, s: State, f: string, n: nat)
    requires WellFormed(t) && Positive(t) && KeysOfSize(t, n) && |s| == n
    ensures WellFormed(Increment(t, s, f)) && Positive(Increment(t, s, f)) && KeysOfSize(Increment(t, s, f), n)
  {
    match Get(t, s)
    case None =>
      PutShape(t, s, [(f, 1.0)], n);
    case Some(fs) =>
      var idx := IndexOf(t, s).value;
      assert fs == t[idx].1;
      match Get(fs, f)
      case None =>
        FollowsPositive(fs, f, 1.0);
        PutShape(t, s, Put(fs, f, 1.0), n);
      case Some(c) =>
        var j := IndexOf(fs, f).value;
        assert c == fs[j].1;
        FollowsPositive(fs, f, c + 1.0);
        PutShape(t, s, Put(fs, f, c + 1.0), n);
  }

  lemma {:induction false} TallyShape(t: Table, ws: seq<(State, string)>, n: nat)
    requires WellFormed(t) && Positive(t) && KeysOfSize(t, n)
    requires forall k :: 0 <= k < |ws| ==> |ws[k].0| == n
    ensures WellFormed(Tally(t, ws)) && Positive(Tally(t, ws)) && KeysOfSize(Tally(t, ws), n)
    decreases |ws|
  {
    if |ws| > 0 {
      TallyShape(t, ws[..|ws| - 1], n);
      IncrementShape(Tally(t, ws[..|ws| - 1]), ws[|ws| - 1].0, ws[|ws| - 1].1, n);
    }
  }

  lemma {:induction false} WindowStates(corpus: seq<seq<string>>, n: nat)
    ensures forall k :: 0 <= k < |Windows(corpus, n)| ==> |Windows(corpus, n)[k].0| == n
    decreases |corpus|
  {
    if |corpus| > 0 {
      WindowStates(corpus[..|corpus| - 1], n);
    }
  }

  /** Every state `build` stores has exactly `state_size` items; counts are at least one. */
  lemma BuildShape(corpus: seq<seq<string>>, n: nat)
    ensures WellFormed(BuildTable(corpus, n)) && Positive(BuildTable(corpus, n)) && KeysOfSize(BuildTable(corpus, n), n)
  {
    WindowStates(corpus, n);
    TallyShape([], Windows(corpus, n), n);
  }

  // --- totals -------------------------------------------------------------------

  /** The number of windows of a corpus: one per item of each run plus one for END. */
  function RunLengths(corpus: seq<seq<string>>): nat
    decreases |corpus|
  {
    if |corpus| == 0 then 0 else RunLengths(corpus[..|corpus| - 1]) + |corpus[|corpus| - 1]| + 1
  }

  lemma {:induction false} WindowsLength(corpus: seq<seq<string>>, n: nat)
    ensures |Windows(corpus, n)| == RunLengths(corpus)
    decreases |corpus|
  {
    if |corpus| > 0 {
      WindowsLength(corpus[..|corpus| - 1], n);
    }
  }

  /** Each state's total count. */
  function StateTotals(t: Table): (w: seq<real>)
    ensures |w| == |t|
  {
    seq(|t|, i requires 0 <= i < |t| => Sum(Weights(t[i].1)))
  }

  /** The sum of every count in the table. */
  function Total(t: Table): real {
    Sum(StateTotals(t))
  }

  lemma {:induction false} SumUpdate(w: seq<real>, i: nat, x: real)
    requires i < |w|
    ensures Sum(w[i := x]) == Sum(w) - w[i] + x
    decreases |w|
  {
    var w' := w[i := x];
    if i < |w| - 1 {
      assert w'[..|w'| - 1] == w[..|w| - 1][i := x];
      SumUpdate(w[..|w| - 1], i, x);
    } else {
      assert w'[..|w'| - 1] == w[..|w| - 1];
    }
  }

  lemma SumAppend(w: seq<real>, x: real)
    ensures Sum(w + [x]) == Sum(w) + x
  {
    assert (w + [x])[..|w|] == w;
  }

  /** Writing count c for follow f changes the state's total by c minus the old count. */
  lemma SumWeightsPut(fs: Follows, f: string, c: real)
    ensures Sum(Weights(Put(fs, f, c))) == Sum(Weights(fs)) - FollowCount(fs, f) + c
  {
    match IndexOf(fs, f)
    case None =>
      assert Weights(Put(fs, f, c)) == Weights(fs) + [c];
      SumAppend(Weights(fs), c);
    case Some(i) =>
      assert Weights(Put(fs, f, c)) == Weights(fs)[i := c];
      SumUpdate(Weights(fs), i, c);
  }

  /** Writing follows v for state s changes the table's total by v's total minus the old one. */
  lemma TotalPut(t: Table, s: State, v: Follows)
    ensures Total(Put(t, s, v)) == Total(t) - Sum(Weights(FollowsOf(t, s))) + Sum(Weights(v))
  {
    match IndexOf(t, s)
    case None =>
      assert StateTotals(Put(t, s, v)) == StateTotals(t) + [Sum(Weights(v))];
      SumAppend(StateTotals(t), Sum(Weights(v)));
      assert Weights(FollowsOf(t, s)) == [];
    case Some(i) =>
      assert StateTotals(Put(t, s, v)) == StateTotals(t)[i := Sum(Weights(v))];
      SumUpdate(StateTotals(t), i, Sum(Weights(v)));
  }

  /** Each counting step adds exactly one to the table's total. */
  lemma IncrementTotal(t: Table, s: State, f: string)
    ensures Total(Increment(t, s, f)) == Total(t) + 1.0
  {
    var fs := FollowsOf(t, s);
    IncrementIsPut(t, s, f);
    assert FollowCount(fs, f) == CountOf(t, s, f);
    SumWeightsPut(fs, f, CountOf(t, s, f) + 1.0);
    TotalPut(t, s, Put(fs, f, CountOf(t, s, f) + 1.0));
  }

  lemma {:induction false} TallyTotal(t: Table, ws: seq<(State, string)>)
    ensures Total(Tally(t, ws)) == Total(t) + |ws| as real
    decreases |ws|
  {
    if |ws| > 0 {
      TallyTotal(t, ws[..|ws| - 1]);
      IncrementTotal(Tally(t, ws[..|ws| - 1]), ws[|ws| - 1].0, ws[|ws| - 1].1);
    }
  }

  /** Each run adds exactly |run| + 1 increments, so the counts sum to the number of windows. */
  lemma BuildTotal(corpus: seq<seq<string>>, n: nat)
    ensures Total(BuildTable(corpus, n)) == RunLengths(corpus) as real
  {
    TallyTotal([], Windows(corpus, n));
    WindowsLength(corpus, n);
    assert StateTotals([]) == [];
  }

  // --- which windows are stored -------------------------------------------------

  /** Every window of every run is among the corpus's windows. */
  lemma {:induction false} WindowsContain(corpus: seq<seq<string>>, n: nat, r: nat, i: nat)
    requires r < |corpus| && i <= |corpus[r]|
    ensures RunWindows(corpus[r], n)[i] in Windows(corpus, n)
    decreases |corpus|
  {
    var last := |corpus| - 1;
    if r < last {
      assert corpus[..last][r] == corpus[r];
      WindowsContain(corpus[..last], n, r, i);
    }
  }

  /** Every corpus window is window i of some run r. */
  lemma {:induction false} WindowsMember(corpus: seq<seq<string>>, n: nat, x: (State, string))
    requires x in Windows(corpus, n)
    ensures exists r, i :: 0 <= r < |corpus| && 0 <= i <= |corpus[r]| && RunWindows(corpus[r], n)[i] == x
    decreases |corpus|
  {
    var last := |corpus| - 1;
    var init := corpus[..last];
    if x in Windows(init, n) {
      WindowsMember(init, n, x);
      var r, i :| 0 <= r < |init| && 0 <= i <= |init[r]| && RunWindows(init[r], n)[i] == x;
      assert corpus[r] == init[r];
    } else {
      var rw := RunWindows(corpus[last], n);
      assert x in rw;
      var i :| 0 <= i < |rw| && rw[i] == x;
      assert RunWindows(corpus[last], n)[i] == x;
    }
  }

  /** A positive count means the state is a key; in a positive table every key has a counted follow. */
  lemma CountMeansKey(t: Table, s: State, f: string)
    ensures CountOf(t, s, f) != 0.0 ==> s in Keys(t)
  {
    GetSome(t, s);
  }

  /**
   * For every run, `build` records the first window as the all-BEGIN state and
   * the last window's follow as END.
   */
  lemma BuildRunEnds(corpus: seq<seq<string>>, n: nat, r: nat)
    requires r < |corpus|
    ensures CountOf(BuildTable(corpus, n), Repeat(BEGIN, n), Padded(corpus[r], n)[n]) >= 1.0
    ensures CountOf(BuildTable(corpus, n), Padded(corpus[r], n)[|corpus[r]|..|corpus[r]| + n], END) >= 1.0
  {
    var run := corpus[r];
    var rw := RunWindows(run, n);
    assert rw[0].0 == Repeat(BEGIN, n);
    assert rw[|run|].1 == END;
    WindowsContain(corpus, n, r, 0);
    WindowsContain(corpus, n, r, |run|);
    BuildCounts(corpus, n);
    assert CountOf(BuildTable(corpus, n), rw[0].0, rw[0].1) == multiset(Windows(corpus, n))[rw[0]] as real;
    assert CountOf(BuildTable(corpus, n), rw[|run|].0, rw[|run|].1) == multiset(Windows(corpus, n))[rw[|run|]] as real;
  }

  /** Sliding a run's window i by its follow gives window i + 1. */
  lemma RunWindowSlide(run: seq<string>, n: nat, i: nat)
    requires n >= 1 && i < |run|
    ensures Slide(RunWindows(run, n)[i].0, RunWindows(run, n)[i].1) == RunWindows(run, n)[i + 1].0
  {
    var items := Padded(run, n);
    assert RunWindows(run, n)[i] == (items[i..i + n], items[i + n]);
    assert RunWindows(run, n)[i + 1].0 == items[i + 1..i + 1 + n];
    assert items[i..i + n][1..] + [items[i + n]] == items[i + 1..i + 1 + n];
  }

  /** A window of the corpus is counted at least once. */
  lemma WindowCounted(corpus: seq<seq<string>>, n: nat, x: (State, string))
    requires x in Windows(corpus, n)
    ensures CountOf(BuildTable(corpus, n), x.0, x.1) >= 1.0
  {
    TallyCounts([], Windows(corpus, n), x.0, x.1);
  }

  /** A counted window is a window of the corpus. */
  lemma CountedWindow(corpus: seq<seq<string>>, n: nat, s: State, f: string)
    requires CountOf(BuildTable(corpus, n), s, f) > 0.0
    ensures (s, f) in Windows(corpus, n)
  {
    TallyCounts([], Windows(corpus, n), s, f);
  }

  /**
   * The table is closed under sliding: with a state size of at least one, any
   * counted follow other than END leads to a state that is itself a key.
   */
  lemma BuildClosed(corpus: seq<seq<string>>, n: nat, s: State, f: string)
    requires n >= 1
    requires CountOf(BuildTable(corpus, n), s, f) > 0.0
    requires f != END
    ensures s in Keys(BuildTable(corpus, n))
    ensures Slide(s, f) in Keys(BuildTable(corpus, n))
  {
    var t := BuildTable(corpus, n);
    CountMeansKey(t, s, f);
    CountedWindow(corpus, n, s, f);
    WindowsMember(corpus, n, (s, f));
    var r, i :| 0 <= r < |corpus| && 0 <= i <= |corpus[r]| && RunWindows(corpus[r], n)[i] == (s, f);
    assert i < |corpus[r]|;
    RunWindowSlide(corpus[r], n, i);
    var next := RunWindows(corpus[r], n)[i + 1];
    WindowsContain(corpus, n, r, i + 1);
    WindowCounted(corpus, n, next);
    CountMeansKey(t, next.0, next.1);
  }

  lemma {:induction false} SumAtLeastLength(w: seq<real>)
    requires forall j :: 0 <= j < |w| ==> w[j] >= 1.0
    ensures Sum(w) >= |w| as real
    decreases |w|
  {
    if |w| > 0 {
      SumAtLeastLength(w[..|w| - 1]);
    }
  }

  /** In a positive, well-formed table `move` from any key succeeds on a draw in [0, 1). */
  lemma PositiveMoveSucceeds(t: Table, s: State, u: real)
    requires WellFormed(t) && Positive(t)
    requires s in Keys(t)
    requires 0.0 <= u < 1.0
    ensures Move(t, s, u).Success?
    ensures CountOf(t, s, Move(t, s, u).value) >= 1.0
  {
    GetSome(t, s);
    var i := IndexOf(t, s).value;
    var fs := t[i].1;
    assert Get(t, s) == Some(fs);
    SumAtLeastLength(Weights(fs));
    MoveChoice(t, s, fs, u);
    var next := Move(t, s, u).value;
    assert next in Keys(fs);
    var j :| 0 <= j < |fs| && Keys(fs)[j] == next;
    GetAt(fs, j);
  }

  /**
   * A walk over a built table, from any of its keys and with every draw in
   * [0, 1), never fails: it only stops at END or when the draws run out.
   */
  lemma {:induction false} BuiltWalkNeverFaults(corpus: seq<seq<string>>, n: nat, state: State, draws: seq<real>)
    requires n >= 1
    requires state in Keys(BuildTable(corpus, n))
    requires forall k :: 0 <= k < |draws| ==> 0.0 <= draws[k] < 1.0
    ensures !WalkFrom(BuildTable(corpus, n), state, draws).halt.Faulted?
    decreases |draws|
  {
    var t := BuildTable(corpus, n);
    if |draws| > 0 {
      BuildShape(corpus, n);
      PositiveMoveSucceeds(t, state, draws[0]);
      WalkFromStep(t, state, draws);
      var next := Move(t, state, draws[0]).value;
      if next != END {
        BuildClosed(corpus, n, state, next);
        BuiltWalkNeverFaults(corpus, n, Slide(state, next), draws[1..]);
      }
    }
  }

  /** The default walk of a chain built from a non-empty corpus never fails. */
  lemma DefaultWalkNeverFaults(corpus: seq<seq<string>>, n: nat, draws: seq<real>)
    requires n >= 1 && |corpus| > 0
    requires forall k :: 0 <= k < |draws| ==> 0.0 <= draws[k] < 1.0
    ensures !WalkFrom(BuildTable(corpus, n), Repeat(BEGIN, n), draws).halt.Faulted?
  {
    BuildRunEnds(corpus, n, 0);
    CountMeansKey(BuildTable(corpus, n), Repeat(BEGIN, n), Padded(corpus[0], n)[n]);
    BuiltWalkNeverFaults(corpus, n, Repeat(BEGIN, n), draws);
  }

  // --- the test's small corpus ----------------------------------------------------

  /** The three windows of `["foo", "bar"]` at state size one. */
  lemma FooBarWindows()
    ensures Windows([["foo", "bar"]], 1) == [([BEGIN], "foo"), (["foo"], "bar"), (["bar"], END)]
  {
    var corpus := [["foo", "bar"]];
    var ws := [([BEGIN], "foo"), (["foo"], "bar"), (["bar"], END)];
    var items := Padded(["foo", "bar"], 1);
    assert Repeat(BEGIN, 1) == [BEGIN];
    assert items == [BEGIN, "foo", "bar", END];
    assert items[0..1] == [BEGIN] && items[1..2] == ["foo"] && items[2..3] == ["bar"];
    assert RunWindows(["foo", "bar"], 1)[0] == ws[0];
    assert RunWindows(["foo", "bar"], 1)[1] == ws[1];
    assert RunWindows(["foo", "bar"], 1)[2] == ws[2];
    assert RunWindows(["foo", "bar"], 1) == ws;
    assert corpus[..0] == [];
  }

  /** `[["foo", "bar"]]` with state size one yields exactly the three states BEGIN, foo and bar. */
  lemma FooBarKeys()
    ensures Keys(BuildTable([["foo", "bar"]], 1)) == [[BEGIN], ["foo"], ["bar"]]
  {
    var ws := [([BEGIN], "foo"), (["foo"], "bar"), (["bar"], END)];
    FooBarWindows();
    var t1: Table := [([BEGIN], [("foo", 1.0)])];
    var t2: Table := t1 + [(["foo"], [("bar", 1.0)])];
    var t3: Table := t2 + [(["bar"], [(END, 1.0)])];
    assert ws[..0] == [] && ws[..1][..0] == [];
    assert Tally([], ws[..1]) == t1;
    assert ws[..2][..1] == ws[..1];
    assert IndexOf(t1, ["foo"]) == None;
    assert Tally([], ws[..2]) == t2;
    assert ws[..3][..2] == ws[..2] && ws[..3] == ws;
    assert IndexOf(t2, ["bar"]) == None;
    assert Tally([], ws) == t3;
  }

  // ---------------------------------------------------------------------------
  // Constructing a chain (`Chain.__init__`)
  // ---------------------------------------------------------------------------

  /** One element of the `corpus` argument: a list of words, or something else. */
  datatype Item = Run(words: seq<string>) | NotARun

  /** The `corpus` argument: a list, or something else (a bare string, None, ...). */
  datatype CorpusArg = Items(items: seq<Item>) | NotAList

  datatype ChainError =
    | NotListOfLists   // the "`corpus` must be list of lists" exception
    | EmptyCorpus      // `corpus[0]` on an empty list: IndexError
    | RunTypeError     // a later run that is not a list cannot be concatenated: TypeError
    | JsonIndexError   // `obj[0]` on an empty pair list
    | JsonKeyError     // `obj[0]` on a dict

  /** The checks `build` makes on its corpus before and while counting. */
  function CheckCorpus(c: CorpusArg): (r: Result<seq<seq<string>>, ChainError>)
    ensures r == Failure(NotListOfLists) <==> c.NotAList? || (|c.items| > 0 && c.items[0].NotARun?)
    ensures r == Failure(EmptyCorpus) <==> c.Items? && |c.items| == 0
    ensures r.Success? <==> c.Items? && |c.items| > 0 && forall i :: 0 <= i < |c.items| ==> c.items[i].Run?
    ensures r.Success? ==> |r.value| == |c.items| && forall i :: 0 <= i < |c.items| ==> r.value[i] == c.items[i].words
  {
    if c.NotAList? then Failure(NotListOfLists)
    else if |c.items| == 0 then Failure(EmptyCorpus)
    else if c.items[0].NotARun? then Failure(NotListOfLists)
    else if exists i :: 0 <= i < |c.items| && c.items[i].NotARun? then Failure(RunTypeError)
    else Success(seq(|c.items|, i requires 0 <= i < |c.items| => c.items[i].words))
  }

  /** `Chain(corpus, state_size, model)`: keep a non-empty `model`, otherwise build one. */
  function ChainFrom(corpus: CorpusArg, n: nat, model: Option<Table>): Result<Chain, ChainError> {
    if model.Some? && |model.value| > 0 then Success(Chain(n, model.value))
    else match CheckCorpus(corpus)
      case Failure(e) => Failure(e)
      case Success(runs) => Success(Chain(n, BuildTable(runs, n)))
  }

  /** A built table is never empty: the first run's all-BEGIN state is always stored. */
  lemma BuildNonEmpty(corpus: seq<seq<string>>, n: nat)
    requires |corpus| > 0
    ensures Repeat(BEGIN, n) in Keys(BuildTable(corpus, n))
    ensures |BuildTable(corpus, n)| > 0
  {
    BuildRunEnds(corpus, n, 0);
    CountMeansKey(BuildTable(corpus, n), Repeat(BEGIN, n), Padded(corpus[0], n)[n]);
  }

  /** Every chain `__init__` returns has a non-empty model; a built one is a valid chain. */
  lemma ChainFromValid(corpus: CorpusArg, n: nat, model: Option<Table>)
    ensures ChainFrom(corpus, n, model).Success? ==> |ChainFrom(corpus, n, model).value.model| > 0
    ensures ChainFrom(corpus, n, model).Success? && !(model.Some? && |model.value| > 0) ==>
      ValidChain(ChainFrom(corpus, n, model).value)
  {
    if !(model.Some? && |model.value| > 0) && CheckCorpus(corpus).Success? {
      BuildNonEmpty(CheckCorpus(corpus).value, n);
      BuildShape(CheckCorpus(corpus).value, n);
    }
  }

  /** `Chain.__init__`: store the state size and the given or freshly built model. */
  method NewChain(corpus: CorpusArg, n: nat, model: Option<Table>) returns (r: Result<Chain, ChainError>)
    ensures r == ChainFrom(corpus, n, model)
    ensures r.Success? ==> r.value.stateSize == n && |r.value.model| > 0
    ensures r.Success? && !(model.Some? && |model.value| > 0) ==> ValidChain(r.value)
  {
    ChainFromValid(corpus, n, model);
    if model.Some? && |model.value| > 0 {
      return Success(Chain(n, model.value));
    }
    var check := CheckCorpus(corpus);
    if check.Failure? {
      return Failure(check.error);
    }
    var table := Build(check.value, n);
    r := Success(Chain(n, table));
  }

  // ---------------------------------------------------------------------------
  // Interchange form (`to_json`, `from_json`)
  // ---------------------------------------------------------------------------

  /** The decoded JSON value `from_json` receives: a list of (state, follows) pairs, or a dict. */
  datatype Interchange = PairList(pairs: seq<(State, Follows)>) | Mapping(table: Table)

  /** `list(self.model.items())`, the value `to_json` serialises. */
  function ToJson(c: Chain): (j: Interchange)
    ensures j.PairList? && |j.pairs| == |c.model|
    ensures forall i :: 0 <= i < |c.model| ==> j.pairs[i] == c.model[i]
  {
    PairList(c.model)
  }

  /** `from_json`: the state size is the length of the first key; pairs become an ordered dict. */
  function FromJson(j: Interchange): (r: Result<Chain, ChainError>)
    ensures j.Mapping? ==> r == Failure(JsonKeyError)
    ensures j.PairList? && |j.pairs| == 0 ==> r == Failure(JsonIndexError)
    ensures r.Success? ==> r.value.stateSize == |j.pairs[0].0|
  {
    match j
    case Mapping(_) => Failure(JsonKeyError)
    case PairList(p) =>
      if |p| == 0 then Failure(JsonIndexError)
      else Success(Chain(|p[0].0|, FromPairs(p)))
  }

  lemma {:induction false} FromPairsUnique<K, V>(ps: seq<(K, V)>)
    ensures UniqueKeys(FromPairs(ps))
    decreases |ps|
  {
    if |ps| > 0 {
      FromPairsUnique(ps[..|ps| - 1]);
      UniquePut(FromPairs(ps[..|ps| - 1]), ps[|ps| - 1].0, ps[|ps| - 1].1);
    }
  }

  /** Reloading a valid chain's pairs reproduces the same chain, state size included. */
  lemma JsonRoundTrip(c: Chain)
    requires ValidChain(c) && |c.model| > 0
    ensures FromJson(ToJson(c)) == Success(c)
  {
    FromPairsOfDict(c.model);
  }

  /** Every chain `__init__` builds from a corpus survives the round trip. */
  lemma BuiltChainRoundTrip(corpus: CorpusArg, n: nat)
    requires ChainFrom(corpus, n, None).Success?
    ensures FromJson(ToJson(ChainFrom(corpus, n, None).value)) == ChainFrom(corpus, n, None)
  {
    ChainFromValid(corpus, n, None);
    JsonRoundTrip(ChainFrom(corpus, n, None).value);
  }
}

/**
 * Merging models (`markovify/utils.py`): `get_model_dict` reads the
 * transition table out of whatever form a model comes in, and `combine`
 * validates a list of models and sums their weighted counts state by state
 * and follow by follow, then wraps the merged table in the form of the first
 * model.
 */
module Utils {
  import opened Wrappers
  import opened Dicts
  import opened Strings
  import opened Splitters
  import opened Chains
  import opened Texts

  /** What `combine` may be given: a Chain, a Text or NewlineText, a list of pairs, a dict or OrderedDict, or anything else. */
  datatype Model =
    | ChainModel(chain: Chain)
    | TextModel(text: Text)
    | PairsModel(pairs: seq<(State, Follows)>)
    | DictModel(dict: Table, ordered: bool)
    | OtherModel

  /** `type(model)`: `Text` and `NewlineText` are two types, and so are `dict` and `OrderedDict`. */
  datatype ModelType = ChainType | TextType(kind: Kind) | ListType | DictType(ordered: bool) | OtherType

  function TypeOf(m: Model): ModelType {
    match m
    case ChainModel(_) => ChainType
    case TextModel(t) => TextType(t.kind)
    case PairsModel(_) => ListType
    case DictModel(_, ordered) => DictType(ordered)
    case OtherModel => OtherType
  }

  /** `get_model_dict`: the table inside a Chain or a Text, a list of pairs made a dict, a dict itself; None otherwise. */
  function GetModelDict(m: Model): (r: Option<Table>)
    ensures r.None? <==> m.OtherModel?
    ensures m.ChainModel? ==> r == Some(m.chain.model)
    ensures m.TextModel? ==> r == Some(m.text.chain.model)
    ensures m.PairsModel? ==> r == Some(FromPairs(m.pairs))
    ensures m.DictModel? ==> r == Some(m.dict)
  {
    match m
    case ChainModel(c) => Some(c.model)
    case TextModel(t) => Some(t.chain.model)
    case PairsModel(ps) => Some(FromPairs(ps))
    case DictModel(d, _) => Some(d)
    case OtherModel => None
  }

  /** A chain, its model, and the pair list `to_json` makes of it all give the same table. */
  lemma ListOfChainModel(c: Chain)
    requires WellFormed(c.model)
    ensures GetModelDict(PairsModel(ToJson(c).pairs)) == GetModelDict(ChainModel(c))
    ensures GetModelDict(DictModel(c.model, true)) == GetModelDict(ChainModel(c))
  {
    FromPairsOfDict(c.model);
  }

  // ---------------------------------------------------------------------------
  // Validation
  // ---------------------------------------------------------------------------

  datatype CombineError =
    | WeightsLength   // ValueError: `models` and `weights` lengths differ
    | NoModelDict     // AttributeError: `.keys()` on the None of an unrecognised model
    | EmptyModelDict  // IndexError: the first key of an empty table
    | StateSizes      // ValueError: the models' state sizes differ
    | ModelTypes      // ValueError: the models' types differ

  /** `weights`, or a weight of 1 for every model. */
  function WeightsOrOnes(n: nat, weights: Option<seq<real>>): (ws: seq<real>)
    ensures weights.Some? ==> ws == weights.value
    ensures weights.None? ==> |ws| == n && forall i :: 0 <= i < n ==> ws[i] == 1.0
  {
    match weights
    case Some(w) => w
    case None => seq(n, i => 1.0)
  }

  /** A table whose first key can be read. */
  predicate Usable(d: Option<Table>) {
    d.Some? && |d.value| > 0
  }

  /** The exception `len(list(md.keys())[0])` raises on an unusable table. */
  function SizeError(d: Option<Table>): CombineError {
    if d.None? then NoModelDict else EmptyModelDict
  }

  /** `[len(list(md.keys())[0]) for md in model_dicts]`: the first unusable table, in order, raises. */
  function StateSizeList(ds: seq<Option<Table>>): (r: Result<seq<nat>, CombineError>)
    ensures r.Success? <==> forall i :: 0 <= i < |ds| ==> Usable(ds[i])
    ensures r.Success? ==> |r.value| == |ds| && forall i :: 0 <= i < |ds| ==> r.value[i] == |ds[i].value[0].0|
    ensures r.Failure? ==>
      exists i :: 0 <= i < |ds| && !Usable(ds[i]) && (forall j :: 0 <= j < i ==> Usable(ds[j])) && r.error == SizeError(ds[i])
    decreases |ds|
  {
    if |ds| == 0 then Success([])
    else if !Usable(ds[0]) then Failure(SizeError(ds[0]))
    else
      var rest := StateSizeList(ds[1..]);
      if rest.Failure? then
        ghost var i :| 0 <= i < |ds[1..]| && !Usable(ds[1..][i]) && (forall j :: 0 <= j < i ==> Usable(ds[1..][j])) && rest.error == SizeError(ds[1..][i]);
        assert forall j :: 0 <= j < i + 1 ==> Usable(ds[j]) by {
          forall j | 0 <= j < i + 1 ensures Usable(ds[j]) {
            if j > 0 {
              assert ds[j] == ds[1..][j - 1];
            }
          }
        }
        assert ds[i + 1] == ds[1..][i];
        Failure(rest.error)
      else
        Success([|ds[0].value[0].0|] + rest.value)
  }

  /** `set(xs)`. */
  function Distinct<T(==)>(xs: seq<T>): set<T> {
    set x | x in xs
  }

  ghost predicate AllEqual<T>(xs: seq<T>) {
    |xs| > 0 && forall i :: 0 <= i < |xs| ==> xs[i] == xs[0]
  }

  /** `len(set(xs)) == 1` holds exactly when the list is non-empty and all its elements are equal. */
  lemma SingletonSet<T>(xs: seq<T>)
    ensures |Distinct(xs)| == 1 <==> AllEqual(xs)
  {
    if AllEqual(xs) {
      assert Distinct(xs) == {xs[0]};
    }
    if |Distinct(xs)| == 1 {
      assert xs[0] in Distinct(xs);
      forall i | 0 <= i < |xs| ensures xs[i] == xs[0] {
        if xs[i] != xs[0] {
          assert {xs[0], xs[i]} <= Distinct(xs);
          assert |{xs[0], xs[i]}| == 2;
          SubsetSize({xs[0], xs[i]}, Distinct(xs));
        }
      }
    }
  }

  lemma SubsetSize<T>(a: set<T>, b: set<T>)
    requires a <= b
    ensures |a| <= |b|
  {
    assert b == a + (b - a);
  }

  function ModelDicts(models: seq<Model>): (ds: seq<Option<Table>>)
    ensures |ds| == |models| && forall i :: 0 <= i < |models| ==> ds[i] == GetModelDict(models[i])
  {
    seq(|models|, i requires 0 <= i < |models| => GetModelDict(models[i]))
  }

  function Types(models: seq<Model>): (ts: seq<ModelType>)
    ensures |ts| == |models| && forall i :: 0 <= i < |models| ==> ts[i] == TypeOf(models[i])
  {
    seq(|models|, i requires 0 <= i < |models| => TypeOf(models[i]))
  }

  /** The length of a model's first key, or -1 for a model without one. */
  function FirstKeySize(m: Model): int {
    if Usable(GetModelDict(m)) then |GetModelDict(m).value[0].0| else -1
  }

  /** The tables and weights `combine` goes on to merge, and their common state size. */
  datatype Validated = Validated(dicts: seq<Table>, weights: seq<real>, stateSize: nat)

  /** The checks `combine` makes before merging, in the order it makes them. */
  function Validate(models: seq<Model>, weights: Option<seq<real>>): (r: Result<Validated, CombineError>)
    ensures var ws := WeightsOrOnes(|models|, weights);
      r.Success? <==>
        && |ws| == |models| && |models| > 0
        && (forall i :: 0 <= i < |models| ==> Usable(GetModelDict(models[i])))
        && (forall i :: 0 <= i < |models| ==> FirstKeySize(models[i]) == FirstKeySize(models[0]))
        && (forall i :: 0 <= i < |models| ==> TypeOf(models[i]) == TypeOf(models[0]))
    ensures |WeightsOrOnes(|models|, weights)| != |models| ==> r == Failure(WeightsLength)
    ensures |WeightsOrOnes(|models|, weights)| == |models| && StateSizeList(ModelDicts(models)).Failure? ==>
      r == Failure(StateSizeList(ModelDicts(models)).error)
    ensures |WeightsOrOnes(|models|, weights)| == |models| && StateSizeList(ModelDicts(models)).Success? ==>
      && (!AllEqual(StateSizeList(ModelDicts(models)).value) ==> r == Failure(StateSizes))
      && (AllEqual(StateSizeList(ModelDicts(models)).value) && !AllEqual(Types(models)) ==> r == Failure(ModelTypes))
    ensures r.Success? ==>
      && r.value.weights == WeightsOrOnes(|models|, weights)
      && |r.value.dicts| == |models|
      && (forall i :: 0 <= i < |models| ==> Some(r.value.dicts[i]) == GetModelDict(models[i]))
      && r.value.stateSize == FirstKeySize(models[0])
  {
    var ws := WeightsOrOnes(|models|, weights);
    var ds := ModelDicts(models);
    if |models| != |ws| then Failure(WeightsLength)
    else match StateSizeList(ds)
      case Failure(e) => Failure(e)
      case Success(sizes) =>
        SingletonSet(sizes);
        SingletonSet(Types(models));
        assert forall i :: 0 <= i < |models| ==> FirstKeySize(models[i]) == sizes[i];
        if |Distinct(sizes)| != 1 then Failure(StateSizes)
        else if |Distinct(Types(models))| != 1 then Failure(ModelTypes)
        else Success(Validated(seq(|ds|, i requires 0 <= i < |ds| => ds[i].value), ws, sizes[0]))
  }

  // ---------------------------------------------------------------------------
  // The merge
  // ---------------------------------------------------------------------------

  /** `subseq_v * w`: one count times its model's weight. */
  function Weigh(v: real, w: real): real {
    v * w
  }

  /** Each option's count times the model's weight, as the inner loop reads them. */
  function Weighted(options: Follows, w: real): (r: Follows)
    ensures |r| == |options|
    ensures forall i :: 0 <= i < |options| ==> r[i].0 == options[i].0 && r[i].1 == Weigh(options[i].1, w)
  {
    seq(|options|, i requires 0 <= i < |options| => (options[i].0, Weigh(options[i].1, w)))
  }

  /** `current[subseq_k] = current.get(subseq_k, 0) + v`: add one weighted option. */
  function Bump(current: Follows, option: (string, real)): Follows {
    Put(current, option.0, FollowCount(current, option.0) + option.1)
  }

  /** The inner loop on weighted options: add each to `current`, in order. */
  function AddFollows(current: Follows, weighted: Follows): Follows
    decreases |weighted|
  {
    if |weighted| == 0 then current
    else Bump(AddFollows(current, weighted[..|weighted| - 1]), weighted[|weighted| - 1])
  }

  /** One state of one model: `current = c.get(state, {})`, the inner loop, `c[state] = current`. */
  function MergeState(c: Table, state: State, options: Follows, w: real): Table {
    Put(c, state, AddFollows(FollowsOf(c, state), Weighted(options, w)))
  }

  /** One model, state by state in its order. */
  function MergeTable(c: Table, m: Table, w: real): Table
    decreases |m|
  {
    if |m| == 0 then c else MergeState(MergeTable(c, m[..|m| - 1], w), m[|m| - 1].0, m[|m| - 1].1, w)
  }

  /** How many pairs `zip(xs, ys)` yields: it stops at the shorter list. */
  function ZipLength<A, B>(xs: seq<A>, ys: seq<B>): (n: nat)
    ensures n <= |xs| && n <= |ys|
    ensures n == |xs| || n == |ys|
  {
    if |xs| <= |ys| then |xs| else |ys|
  }

  /** The first `n` pairs of `zip(model_dicts, weights)`, model by model. */
  function MergeFirst(c: Table, ds: seq<Table>, ws: seq<real>, n: nat): Table
    requires n <= |ds| && n <= |ws|
  {
    if n == 0 then c else MergeTable(MergeFirst(c, ds, ws, n - 1), ds[n - 1], ws[n - 1])
  }

  /** All of `zip(model_dicts, weights)`. */
  function MergeAll(c: Table, ds: seq<Table>, ws: seq<real>): Table {
    MergeFirst(c, ds, ws, ZipLength(ds, ws))
  }

  /** The outer loop of `combine`, over `zip(model_dicts, weights)`, filling `c` in place. */
  method Merge(dicts: seq<Table>, weights: seq<real>) returns (c: Table)
    ensures c == MergeAll([], dicts, weights)
  {
    c := [];
    var i := 0;
    while i < |dicts| && i < |weights|
      invariant 0 <= i <= |dicts| && i <= |weights|
      invariant c == MergeFirst([], dicts, weights, i)
    {
      c := MergeModel(c, dicts[i], weights[i]);
      i := i + 1;
    }
  }

  /** The middle loop: one model's states, in its order. */
  method MergeModel(start: Table, m: Table, w: real) returns (c: Table)
    ensures c == MergeTable(start, m, w)
  {
    c := start;
    var j := 0;
    while j < |m|
      invariant 0 <= j <= |m|
      invariant c == MergeTable(start, m[..j], w)
    {
      var state := m[j].0;
      var options := m[j].1;
      assert m[..j + 1][..j] == m[..j];
      var current := AddOptions(FollowsOf(c, state), options, w);
      c := Put(c, state, current);
      j := j + 1;
    }
    assert m[..|m|] == m;
  }

  /** The innermost loop: `current[subseq_k] = current.get(subseq_k, 0) + subseq_v * w` per option. */
  method AddOptions(start: Follows, options: Follows, w: real) returns (current: Follows)
    ensures current == AddFollows(start, Weighted(options, w))
  {
    current := start;
    var k := 0;
    while k < |options|
      invariant 0 <= k <= |options|
      invariant current == AddFollows(start, Weighted(options, w)[..k])
    {
      var key := options[k].0;
      var product := Weigh(options[k].1, w);
      assert Weighted(options, w)[..k + 1][..k] == Weighted(options, w)[..k];
      current := Put(current, key, FollowCount(current, key) + product);
      k := k + 1;
    }
    assert Weighted(options, w)[..|options|] == Weighted(options, w);
  }

  // --- what the merge computes -------------------------------------------------

  /** The follows stored under a state include `f`. */
  predicate HasFollow(t: Table, s: State, f: string) {
    f in Keys(FollowsOf(t, s))
  }

  /** Σ weight_i · count_i(s, f) over the first `n` models. */
  function WeightedSum(ds: seq<Table>, ws: seq<real>, n: nat, s: State, f: string): real
    requires n <= |ds| && n <= |ws|
  {
    if n == 0 then 0.0 else WeightedSum(ds, ws, n - 1, s, f) + ws[n - 1] * CountOf(ds[n - 1], s, f)
  }

  /** Σ weight_i · count_i(s, f) over the zipped models. */
  function WeightedCount(ds: seq<Table>, ws: seq<real>, s: State, f: string): real {
    WeightedSum(ds, ws, ZipLength(ds, ws), s, f)
  }

  /** The same sum, each term read from the weighted model. */
  function Contributions(ds: seq<Table>, ws: seq<real>, n: nat, s: State, f: string): real
    requires n <= |ds| && n <= |ws|
  {
    if n == 0 then 0.0 else Contributions(ds, ws, n - 1, s, f) + CountOf(WeightedTable(ds[n - 1], ws[n - 1]), s, f)
  }

  predicate AllWellFormed(ds: seq<Table>) {
    forall i :: 0 <= i < |ds| ==> WellFormed(ds[i])
  }

  /** Every count of a model times its weight. */
  function WeightedTable(m: Table, w: real): (r: Table)
    ensures |r| == |m|
    ensures forall i :: 0 <= i < |m| ==> r[i] == (m[i].0, Weighted(m[i].1, w))
  {
    seq(|m|, i requires 0 <= i < |m| => (m[i].0, Weighted(m[i].1, w)))
  }

  /** `b` holds every state of `a` at the same place, and maybe more after them. */
  predicate Extends(a: Table, b: Table) {
    |a| <= |b| && forall i :: 0 <= i < |a| ==> b[i].0 == a[i].0
  }

  /** A well-formed table is its last entry put after the others. */
  lemma TableSnoc(t: Table)
    requires WellFormed(t) && |t| > 0
    ensures WellFormed(t[..|t| - 1]) && UniqueKeys(t[|t| - 1].1)
    ensures t == Put(t[..|t| - 1], t[|t| - 1].0, t[|t| - 1].1)
    ensures FollowsOf(t[..|t| - 1], t[|t| - 1].0) == []
  {
    UniqueSnoc(t);
    var init := t[..|t| - 1];
    forall i | 0 <= i < |init| ensures UniqueKeys(init[i].1) {
      assert init[i] == t[i];
    }
  }

  lemma FollowsOfPut(t: Table, s: State, v: Follows, s': State)
    ensures FollowsOf(Put(t, s, v), s') == if s' == s then v else FollowsOf(t, s')
  {
    GetPut(t, s, v, s');
  }

  lemma CountIsFollowCount(t: Table, s: State, f: string)
    ensures CountOf(t, s, f) == FollowCount(FollowsOf(t, s), f)
  {
  }

  /** Weighting a follow list keeps its keys. */
  lemma WeightedKeys(options: Follows, w: real)
    ensures Keys(Weighted(options, w)) == Keys(options)
    ensures UniqueKeys(options) ==> UniqueKeys(Weighted(options, w))
  {
    assert Keys(Weighted(options, w)) == Keys(options);
  }

  /** Weighting a follow list multiplies each count by the weight. */
  lemma WeightedFollowCount(options: Follows, w: real, f: string)
    ensures FollowCount(Weighted(options, w), f) == w * FollowCount(options, f)
  {
    SameKeysIndexOf(Weighted(options, w), options, f);
  }

  lemma WeightedTableWellFormed(m: Table, w: real)
    requires WellFormed(m)
    ensures WellFormed(WeightedTable(m, w))
  {
    forall i | 0 <= i < |m| ensures UniqueKeys(WeightedTable(m, w)[i].1) {
      WeightedKeys(m[i].1, w);
    }
  }

  /** Weighting a model multiplies each of its counts by the weight. */
  lemma WeightedTableCount(m: Table, w: real, s: State, f: string)
    ensures CountOf(WeightedTable(m, w), s, f) == w * CountOf(m, s, f)
  {
    var sm := WeightedTable(m, w);
    SameKeysIndexOf(sm, m, s);
    match IndexOf(m, s) {
      case None =>
        assert Get(sm, s).None? && Get(m, s).None?;
      case Some(i) =>
        assert Get(sm, s) == Some(Weighted(m[i].1, w)) && Get(m, s) == Some(m[i].1);
        WeightedFollowCount(m[i].1, w, f);
    }
  }

  /** Reading each term from the weighted model gives the weighted sum. */
  lemma {:induction false} ContributionsWeigh(ds: seq<Table>, ws: seq<real>, n: nat, s: State, f: string)
    requires n <= |ds| && n <= |ws|
    ensures Contributions(ds, ws, n, s, f) == WeightedSum(ds, ws, n, s, f)
  {
    if n > 0 {
      WeightedTableCount(ds[n - 1], ws[n - 1], s, f);
      ContributionsWeigh(ds, ws, n - 1, s, f);
    }
  }

  /** The inner loop adds each weighted option's count, and nothing else. */
  lemma {:induction false} AddFollowsCount(current: Follows, weighted: Follows, f: string)
    requires UniqueKeys(weighted)
    ensures FollowCount(AddFollows(current, weighted), f) == FollowCount(current, f) + FollowCount(weighted, f)
    decreases |weighted|
  {
    if |weighted| > 0 {
      var init := weighted[..|weighted| - 1];
      var last := weighted[|weighted| - 1];
      var x := AddFollows(current, init);
      UniqueSnoc(weighted);
      assert AddFollows(current, weighted) == Put(x, last.0, FollowCount(x, last.0) + last.1);
      AddFollowsCount(current, init, f);
      assert FollowCount(x, f) == FollowCount(current, f) + FollowCount(init, f);
      FollowCountPut(x, last.0, FollowCount(x, last.0) + last.1, f);
      FollowCountPut(init, last.0, last.1, f);
      if f == last.0 {
        assert FollowCount(init, f) == 0.0;
        assert FollowCount(weighted, f) == last.1;
      } else {
        assert FollowCount(weighted, f) == FollowCount(init, f);
      }
    }
  }

  /** The inner loop's keys are the old ones and the options'. */
  lemma {:induction false} AddFollowsKeys(current: Follows, weighted: Follows, f: string)
    ensures f in Keys(AddFollows(current, weighted)) <==> f in Keys(current) || f in Keys(weighted)
    decreases |weighted|
  {
    if |weighted| > 0 {
      var init := weighted[..|weighted| - 1];
      var last := weighted[|weighted| - 1];
      var x := AddFollows(current, init);
      AddFollowsKeys(current, init, f);
      KeysPut(x, last.0, FollowCount(x, last.0) + last.1);
      KeysSnoc(weighted);
    }
  }

  lemma {:induction false} AddFollowsUnique(current: Follows, weighted: Follows)
    requires UniqueKeys(current)
    ensures UniqueKeys(AddFollows(current, weighted))
    decreases |weighted|
  {
    if |weighted| > 0 {
      var init := weighted[..|weighted| - 1];
      var last := weighted[|weighted| - 1];
      var x := AddFollows(current, init);
      AddFollowsUnique(current, init);
      UniquePut(x, last.0, FollowCount(x, last.0) + last.1);
    }
  }

  lemma MergeStateCount(c: Table, s: State, options: Follows, w: real, s': State, f: string)
    requires UniqueKeys(options)
    ensures CountOf(MergeState(c, s, options, w), s', f)
         == CountOf(c, s', f) + (if s' == s then FollowCount(Weighted(options, w), f) else 0.0)
  {
    var v := AddFollows(FollowsOf(c, s), Weighted(options, w));
    WeightedKeys(options, w);
    CountOfPut(c, s, v, s', f);
    AddFollowsCount(FollowsOf(c, s), Weighted(options, w), f);
    CountIsFollowCount(c, s, f);
  }

  lemma MergeStateHas(c: Table, s: State, options: Follows, w: real, s': State, f: string)
    ensures s' in Keys(MergeState(c, s, options, w)) <==> s' in Keys(c) || s' == s
    ensures HasFollow(MergeState(c, s, options, w), s', f) <==> HasFollow(c, s', f) || (s' == s && f in Keys(options))
  {
    var v := AddFollows(FollowsOf(c, s), Weighted(options, w));
    WeightedKeys(options, w);
    KeysPut(c, s, v);
    FollowsOfPut(c, s, v, s');
    AddFollowsKeys(FollowsOf(c, s), Weighted(options, w), f);
  }

  lemma FollowsOfUnique(t: Table, s: State)
    requires WellFormed(t)
    ensures UniqueKeys(FollowsOf(t, s))
  {
    match IndexOf(t, s)
    case None =>
    case Some(i) =>
  }

  lemma MergeStateWellFormed(c: Table, s: State, options: Follows, w: real)
    requires WellFormed(c)
    ensures WellFormed(MergeState(c, s, options, w))
  {
    var v := AddFollows(FollowsOf(c, s), Weighted(options, w));
    FollowsOfUnique(c, s);
    AddFollowsUnique(FollowsOf(c, s), Weighted(options, w));
    UniquePut(c, s, v);
    PutEntries(c, s, v);
  }

  /** Merging one model adds its weighted counts. */
  lemma {:induction false} MergeTableCount(c: Table, m: Table, w: real, s: State, f: string)
    requires WellFormed(m)
    ensures CountOf(MergeTable(c, m, w), s, f) == CountOf(c, s, f) + CountOf(WeightedTable(m, w), s, f)
    decreases |m|
  {
    if |m| > 0 {
      var init := m[..|m| - 1];
      var last := m[|m| - 1];
      var sm := WeightedTable(m, w);
      TableSnoc(m);
      WeightedTableWellFormed(m, w);
      assert sm[..|sm| - 1] == WeightedTable(init, w);
      TableSnoc(sm);
      CountOfPut(WeightedTable(init, w), last.0, Weighted(last.1, w), s, f);
      MergeTableCount(c, init, w, s, f);
      MergeStateCount(MergeTable(c, init, w), last.0, last.1, w, s, f);
    }
  }

  lemma {:induction false} MergeTableKeys(c: Table, m: Table, w: real, s: State)
    ensures s in Keys(MergeTable(c, m, w)) <==> s in Keys(c) || s in Keys(m)
    decreases |m|
  {
    if |m| > 0 {
      var init := m[..|m| - 1];
      MergeStateHas(MergeTable(c, init, w), m[|m| - 1].0, m[|m| - 1].1, w, s, "");
      MergeTableKeys(c, init, w, s);
      KeysSnoc(m);
    }
  }

  lemma {:induction false} MergeTableHas(c: Table, m: Table, w: real, s: State, f: string)
    requires WellFormed(m)
    ensures HasFollow(MergeTable(c, m, w), s, f) <==> HasFollow(c, s, f) || HasFollow(m, s, f)
    decreases |m|
  {
    if |m| > 0 {
      var init := m[..|m| - 1];
      var last := m[|m| - 1];
      TableSnoc(m);
      FollowsOfPut(init, last.0, last.1, s);
      MergeStateHas(MergeTable(c, init, w), last.0, last.1, w, s, f);
      MergeTableHas(c, init, w, s, f);
    }
  }

  lemma {:induction false} MergeTableWellFormed(c: Table, m: Table, w: real)
    requires WellFormed(c)
    ensures WellFormed(MergeTable(c, m, w))
    decreases |m|
  {
    if |m| > 0 {
      MergeTableWellFormed(c, m[..|m| - 1], w);
      MergeStateWellFormed(MergeTable(c, m[..|m| - 1], w), m[|m| - 1].0, m[|m| - 1].1, w);
    }
  }

  /** Merging never moves a state already in the table. */
  lemma {:induction false} MergeTableKeepsKeys(c: Table, m: Table, w: real)
    ensures Extends(c, MergeTable(c, m, w))
    decreases |m|
  {
    if |m| > 0 {
      var x := MergeTable(c, m[..|m| - 1], w);
      MergeTableKeepsKeys(c, m[..|m| - 1], w);
      PutKeepsKeys(x, m[|m| - 1].0, AddFollows(FollowsOf(x, m[|m| - 1].0), Weighted(m[|m| - 1].1, w)));
    }
  }

  /** Merging a longer prefix of a model never moves a state the shorter one placed. */
  lemma {:induction false} MergeTablePrefix(c: Table, m: Table, w: real, j: nat)
    requires j <= |m|
    ensures Extends(MergeTable(c, m[..j], w), MergeTable(c, m, w))
    decreases |m|
  {
    if j == |m| {
      assert m[..j] == m;
    } else {
      var init := m[..|m| - 1];
      var x := MergeTable(c, init, w);
      assert init[..j] == m[..j];
      MergeTablePrefix(c, init, w, j);
      PutKeepsKeys(x, m[|m| - 1].0, AddFollows(FollowsOf(x, m[|m| - 1].0), Weighted(m[|m| - 1].1, w)));
    }
  }

  /** After `n` models, every count is the old one plus the `n` weighted contributions. */
  lemma {:induction false} MergeFirstCount(c: Table, ds: seq<Table>, ws: seq<real>, n: nat, s: State, f: string)
    requires n <= |ds| && n <= |ws| && AllWellFormed(ds)
    ensures CountOf(MergeFirst(c, ds, ws, n), s, f) == CountOf(c, s, f) + Contributions(ds, ws, n, s, f)
  {
    if n > 0 {
      MergeFirstCount(c, ds, ws, n - 1, s, f);
      MergeTableCount(MergeFirst(c, ds, ws, n - 1), ds[n - 1], ws[n - 1], s, f);
    }
  }

  /** One of the first `n` models has state `s`. */
  predicate StateInSome(ds: seq<Table>, n: nat, s: State)
    requires n <= |ds|
  {
    n > 0 && (StateInSome(ds, n - 1, s) || s in Keys(ds[n - 1]))
  }

  /** One of the first `n` models has `f` under `s`. */
  predicate FollowInSome(ds: seq<Table>, n: nat, s: State, f: string)
    requires n <= |ds|
  {
    n > 0 && (FollowInSome(ds, n - 1, s, f) || HasFollow(ds[n - 1], s, f))
  }

  /** The model that has the state. */
  lemma {:induction false} StateInSomeWitness(ds: seq<Table>, n: nat, s: State) returns (i: nat)
    requires n <= |ds| && StateInSome(ds, n, s)
    ensures i < n && s in Keys(ds[i])
  {
    if s in Keys(ds[n - 1]) {
      i := n - 1;
    } else {
      i := StateInSomeWitness(ds, n - 1, s);
    }
  }

  lemma {:induction false} StateInSomeAt(ds: seq<Table>, n: nat, s: State, i: nat)
    requires i < n <= |ds| && s in Keys(ds[i])
    ensures StateInSome(ds, n, s)
  {
    if i < n - 1 {
      StateInSomeAt(ds, n - 1, s, i);
    }
  }

  /** The model that has the follow. */
  lemma {:induction false} FollowInSomeWitness(ds: seq<Table>, n: nat, s: State, f: string) returns (i: nat)
    requires n <= |ds| && FollowInSome(ds, n, s, f)
    ensures i < n && HasFollow(ds[i], s, f)
  {
    if HasFollow(ds[n - 1], s, f) {
      i := n - 1;
    } else {
      i := FollowInSomeWitness(ds, n - 1, s, f);
    }
  }

  lemma {:induction false} FollowInSomeAt(ds: seq<Table>, n: nat, s: State, f: string, i: nat)
    requires i < n <= |ds| && HasFollow(ds[i], s, f)
    ensures FollowInSome(ds, n, s, f)
  {
    if i < n - 1 {
      FollowInSomeAt(ds, n - 1, s, f, i);
    }
  }

  lemma {:induction false} MergeFirstKeys(c: Table, ds: seq<Table>, ws: seq<real>, n: nat, s: State)
    requires n <= |ds| && n <= |ws|
    ensures s in Keys(MergeFirst(c, ds, ws, n)) <==> s in Keys(c) || StateInSome(ds, n, s)
  {
    if n > 0 {
      MergeFirstKeys(c, ds, ws, n - 1, s);
      MergeTableKeys(MergeFirst(c, ds, ws, n - 1), ds[n - 1], ws[n - 1], s);
    }
  }

  lemma {:induction false} MergeFirstHas(c: Table, ds: seq<Table>, ws: seq<real>, n: nat, s: State, f: string)
    requires n <= |ds| && n <= |ws| && AllWellFormed(ds)
    ensures HasFollow(MergeFirst(c, ds, ws, n), s, f) <==> HasFollow(c, s, f) || FollowInSome(ds, n, s, f)
  {
    if n > 0 {
      var prev := MergeFirst(c, ds, ws, n - 1);
      assert MergeFirst(c, ds, ws, n) == MergeTable(prev, ds[n - 1], ws[n - 1]);
      assert WellFormed(ds[n - 1]);
      MergeFirstHas(c, ds, ws, n - 1, s, f);
      MergeTableHas(prev, ds[n - 1], ws[n - 1], s, f);
    }
  }

  lemma {:induction false} MergeFirstWellFormed(c: Table, ds: seq<Table>, ws: seq<real>, n: nat)
    requires n <= |ds| && n <= |ws| && WellFormed(c)
    ensures WellFormed(MergeFirst(c, ds, ws, n))
  {
    if n > 0 {
      MergeFirstWellFormed(c, ds, ws, n - 1);
      MergeTableWellFormed(MergeFirst(c, ds, ws, n - 1), ds[n - 1], ws[n - 1]);
    }
  }

  lemma {:induction false} MergeFirstExtends(c: Table, ds: seq<Table>, ws: seq<real>, k: nat, n: nat)
    requires k <= n <= |ds| && n <= |ws|
    ensures Extends(MergeFirst(c, ds, ws, k), MergeFirst(c, ds, ws, n))
  {
    if k < n {
      MergeFirstExtends(c, ds, ws, k, n - 1);
      MergeTableKeepsKeys(MergeFirst(c, ds, ws, n - 1), ds[n - 1], ws[n - 1]);
    }
  }

  /** Every merged count is Σ weight_i · count_i, absent entries counting 0. */
  lemma MergedCounts(ds: seq<Table>, ws: seq<real>, s: State, f: string)
    requires AllWellFormed(ds)
    ensures CountOf(MergeAll([], ds, ws), s, f) == WeightedCount(ds, ws, s, f)
  {
    MergeFirstCount([], ds, ws, ZipLength(ds, ws), s, f);
    ContributionsWeigh(ds, ws, ZipLength(ds, ws), s, f);
  }

  /** The merged states are the union of the models' states. */
  lemma MergeAllKeys(c: Table, ds: seq<Table>, ws: seq<real>, s: State)
    ensures s in Keys(MergeAll(c, ds, ws)) <==> s in Keys(c) || exists i :: 0 <= i < |ds| && i < |ws| && s in Keys(ds[i])
  {
    var n := ZipLength(ds, ws);
    MergeFirstKeys(c, ds, ws, n, s);
    if StateInSome(ds, n, s) {
      var i := StateInSomeWitness(ds, n, s);
      assert 0 <= i < |ds| && i < |ws| && s in Keys(ds[i]);
    }
    if exists i :: 0 <= i < |ds| && i < |ws| && s in Keys(ds[i]) {
      var i :| 0 <= i < |ds| && i < |ws| && s in Keys(ds[i]);
      StateInSomeAt(ds, n, s, i);
    }
  }

  /** Under each state, the merged follows are the union of the models' follows. */
  lemma MergeAllHas(c: Table, ds: seq<Table>, ws: seq<real>, s: State, f: string)
    requires AllWellFormed(ds)
    ensures HasFollow(MergeAll(c, ds, ws), s, f) <==> HasFollow(c, s, f) || exists i :: 0 <= i < |ds| && i < |ws| && HasFollow(ds[i], s, f)
  {
    var n := ZipLength(ds, ws);
    MergeFirstHas(c, ds, ws, n, s, f);
    if FollowInSome(ds, n, s, f) {
      var i := FollowInSomeWitness(ds, n, s, f);
      assert 0 <= i < |ds| && i < |ws| && HasFollow(ds[i], s, f);
    }
    if exists i :: 0 <= i < |ds| && i < |ws| && HasFollow(ds[i], s, f) {
      var i :| 0 <= i < |ds| && i < |ws| && HasFollow(ds[i], s, f);
      FollowInSomeAt(ds, n, s, f, i);
    }
  }

  /** The merged table is a dict of dicts, whatever the inputs. */
  lemma MergeAllWellFormed(c: Table, ds: seq<Table>, ws: seq<real>)
    requires WellFormed(c)
    ensures WellFormed(MergeAll(c, ds, ws))
  {
    MergeFirstWellFormed(c, ds, ws, ZipLength(ds, ws));
  }

  /** The first state of the merged table is the first state of the first model. */
  lemma MergedFirstKey(ds: seq<Table>, ws: seq<real>)
    requires |ds| > 0 && |ws| > 0 && |ds[0]| > 0
    ensures |MergeAll([], ds, ws)| > 0 && MergeAll([], ds, ws)[0].0 == ds[0][0].0
  {
    var m := ds[0];
    var w := ws[0];
    assert m[..1][..0] == [];
    var first := MergeState([], m[0].0, m[0].1, w);
    assert MergeTable([], m[..1], w) == first;
    assert |first| > 0 && first[0].0 == m[0].0;
    MergeTablePrefix([], m, w, 1);
    assert MergeFirst([], ds, ws, 1) == MergeTable([], m, w);
    MergeFirstExtends([], ds, ws, 1, ZipLength(ds, ws));
  }

  // ---------------------------------------------------------------------------
  // Wrapping the merged table
  // ---------------------------------------------------------------------------

  /** What `combine` returns: the form of its first model. */
  datatype Combined =
    | CombinedChain(chain: Chain)
    | CombinedText(text: Text)
    | CombinedPairs(pairs: seq<(State, Follows)>)
    | CombinedDict(dict: Table)

  /** `Chain.from_json(c)` as written: the merged dict is indexed with `obj[0]`, a KeyError. */
  function ChainOfMergedAsWritten(c: Table): (r: Result<Chain, ChainError>)
    ensures r == Failure(JsonKeyError)
  {
    FromJson(Mapping(c))
  }

  /** The conversion evidently intended: `Chain.from_json(list(c.items()))`. */
  function ChainOfMerged(c: Table): (r: Result<Chain, ChainError>)
    ensures |c| == 0 ==> r == Failure(JsonIndexError)
    ensures |c| > 0 && WellFormed(c) ==> r == Success(Chain(|c[0].0|, c))
  {
    DictPairs(c);
    FromJson(PairList(c))
  }

  lemma DictPairs(c: Table)
    ensures UniqueKeys(c) ==> FromPairs(c) == c
  {
    if UniqueKeys(c) {
      FromPairsOfDict(c);
    }
  }

  /** `m.input_text for m in models` (every model is a Text once the types agree). */
  function InputTexts(models: seq<Model>): (ts: seq<string>)
    ensures |ts| == |models|
    ensures forall i :: 0 <= i < |models| && models[i].TextModel? ==> ts[i] == models[i].text.inputText
  {
    seq(|models|, i requires 0 <= i < |models| => if models[i].TextModel? then models[i].text.inputText else "")
  }

  /**
   * The merged table `c` in the form of the first model: a Chain, a Text
   * over the joined inputs, a list of pairs or a dict.
   */
  ghost predicate ShapedLike(first: Model, models: seq<Model>, stateSize: nat, c: Table, scan: Scanner, out: Combined) {
    match first
    case ChainModel(_) => out == CombinedChain(Chain(stateSize, c))
    case TextModel(t) =>
      && out.CombinedText?
      && out.text.chain == Chain(stateSize, c)
      && out.text.kind == t.kind
      && out.text.inputText == Join("\n", InputTexts(models))
      && out.text.rejoinedText == Rejoined(GenerateCorpus(t.kind, scan, Join("\n", InputTexts(models))))
    case PairsModel(_) => out == CombinedPairs(c)
    case DictModel(_, _) => out == CombinedDict(c)
    case OtherModel => false
  }

  /**
   * `combine(models, weights)`: validate, merge, and return the merged table
   * in the form of the first model (a Text's corpus is the inputs joined by
   * newlines). The Chain and Text forms use the intended conversion.
   */
  method Combine(models: seq<Model>, weights: Option<seq<real>>, scan: Scanner) returns (r: Result<Combined, CombineError>)
    ensures Validate(models, weights).Failure? ==> r == Failure(Validate(models, weights).error)
    ensures Validate(models, weights).Success? ==>
      var v := Validate(models, weights).value;
      r.Success? && ShapedLike(models[0], models, v.stateSize, MergeAll([], v.dicts, v.weights), scan, r.value)
  {
    var checked := Validate(models, weights);
    if checked.Failure? {
      return Failure(checked.error);
    }
    var v := checked.value;
    var c := Merge(v.dicts, v.weights);
    MergedFirstKey(v.dicts, v.weights);
    MergeAllWellFormed([], v.dicts, v.weights);
    var out := Rewrap(models[0], models, v.stateSize, c, scan);
    r := Success(out);
  }

  /** The tail of `combine`: wrap the merged table like the first model. */
  method Rewrap(first: Model, models: seq<Model>, stateSize: nat, c: Table, scan: Scanner) returns (out: Combined)
    requires !first.OtherModel?
    requires |c| > 0 && WellFormed(c) && |c[0].0| == stateSize
    ensures ShapedLike(first, models, stateSize, c, scan, out)
  {
    match first
    case ChainModel(_) =>
      out := CombinedChain(ChainOfMerged(c).value);
    case TextModel(t) =>
      var corpus := Join("\n", InputTexts(models));
      var text := Text.New(corpus, 0, Some(ChainOfMerged(c).value), t.kind, scan);
      out := CombinedText(text.value);
    case PairsModel(_) =>
      out := CombinedPairs(c);
    case DictModel(_, _) =>
      out := CombinedDict(c);
  }

  // ---------------------------------------------------------------------------
  // Properties of combine
  // ---------------------------------------------------------------------------

  /** Python's `==` on two dicts of dicts: the same states, the same follows under each, the same counts. */
  ghost predicate SameDict(a: Table, b: Table) {
    && (forall s :: s in Keys(a) <==> s in Keys(b))
    && (forall s, f :: HasFollow(a, s, f) <==> HasFollow(b, s, f))
    && (forall s, f :: CountOf(a, s, f) == CountOf(b, s, f))
  }

  /** A model combined with itself validates, with one weight per copy. */
  lemma SelfValidates(m: Model, weights: Option<seq<real>>)
    requires Usable(GetModelDict(m))
    requires weights.None? || |weights.value| == 2
    ensures Validate([m, m], weights).Success?
    ensures Validate([m, m], weights).value.dicts == [GetModelDict(m).value, GetModelDict(m).value]
  {
    var v := Validate([m, m], weights).value;
    assert Some(v.dicts[0]) == GetModelDict(m) && Some(v.dicts[1]) == GetModelDict(m);
  }

  lemma WeightedPair(a: Table, b: Table, wa: real, wb: real, s: State, f: string)
    ensures WeightedCount([a, b], [wa, wb], s, f) == wa * CountOf(a, s, f) + wb * CountOf(b, s, f)
  {
    assert WeightedSum([a, b], [wa, wb], 1, s, f) == wa * CountOf(a, s, f);
  }

  /** `combine([m, m], [0.5, 0.5])` is equal to m. */
  lemma HalvesRestore(m: Table)
    requires WellFormed(m)
    ensures SameDict(MergeAll([], [m, m], [0.5, 0.5]), m)
  {
    var c := MergeAll([], [m, m], [0.5, 0.5]);
    forall s ensures s in Keys(c) <==> s in Keys(m) {
      MergeAllKeys([], [m, m], [0.5, 0.5], s);
    }
    forall s, f ensures HasFollow(c, s, f) <==> HasFollow(m, s, f) {
      MergeAllHas([], [m, m], [0.5, 0.5], s, f);
    }
    forall s, f ensures CountOf(c, s, f) == CountOf(m, s, f) {
      MergedCounts([m, m], [0.5, 0.5], s, f);
      WeightedPair(m, m, 0.5, 0.5, s, f);
    }
  }

  /** `combine([m, m])` with the default weights doubles every count, so it differs from a non-empty built model. */
  lemma DefaultWeightsDouble(m: Table)
    requires WellFormed(m)
    ensures WeightsOrOnes(2, None) == [1.0, 1.0]
    ensures forall s, f :: CountOf(MergeAll([], [m, m], [1.0, 1.0]), s, f) == 2.0 * CountOf(m, s, f)
    ensures |m| > 0 && Positive(m) ==> !SameDict(MergeAll([], [m, m], [1.0, 1.0]), m)
  {
    var c := MergeAll([], [m, m], [1.0, 1.0]);
    forall s, f ensures CountOf(c, s, f) == 2.0 * CountOf(m, s, f) {
      MergedCounts([m, m], [1.0, 1.0], s, f);
      WeightedPair(m, m, 1.0, 1.0, s, f);
    }
    if |m| > 0 && Positive(m) {
      var s := m[0].0;
      var f := m[0].1[0].0;
      assert CountOf(m, s, f) == m[0].1[0].1 >= 1.0;
      assert CountOf(c, s, f) != CountOf(m, s, f);
    }
  }

  /** Unrecognised models, such as strings, fail when their first key is read. */
  lemma OtherModelsRejected(n: nat)
    requires n > 0
    ensures Validate(seq(n, i => OtherModel), None) == Failure(NoModelDict)
  {
    var ms := seq(n, i => OtherModel);
    assert !Usable(ModelDicts(ms)[0]);
  }

  /** A weight list that does not match the models fails first. */
  lemma WrongWeightsRejected(models: seq<Model>, weights: seq<real>)
    requires |weights| != |models|
    ensures Validate(models, Some(weights)) == Failure(WeightsLength)
  {
  }

  /** Text models of different state sizes are rejected. */
  lemma MixedStateSizesRejected(a: Text, b: Text)
    requires |a.chain.model| > 0 && |b.chain.model| > 0
    requires |a.chain.model[0].0| != |b.chain.model[0].0|
    ensures Validate([TextModel(a), TextModel(b)], None) == Failure(StateSizes)
  {
    var sizes := StateSizeList(ModelDicts([TextModel(a), TextModel(b)]));
    assert sizes.value[0] != sizes.value[1];
  }

  /** A Text and a NewlineText are rejected even with equal state sizes. */
  lemma MixedKindsRejected(a: Text, b: Text)
    requires |a.chain.model| > 0 && |b.chain.model| > 0
    requires |a.chain.model[0].0| == |b.chain.model[0].0|
    requires a.kind == Prose && b.kind == Lines
    ensures Validate([TextModel(a), TextModel(b)], None) == Failure(ModelTypes)
  {
    var ms := [TextModel(a), TextModel(b)];
    assert TypeOf(ms[1]) != TypeOf(ms[0]);
  }

  /**
   * Combining a chain with itself validates, yet the conversion as written
   * raises KeyError; the intended one returns the merged chain.
   */
  lemma ChainCombineFinding(c: Chain)
    requires ValidChain(c) && |c.model| > 0
    ensures Validate([ChainModel(c), ChainModel(c)], None).Success?
    ensures var v := Validate([ChainModel(c), ChainModel(c)], None).value;
      && ChainOfMergedAsWritten(MergeAll([], v.dicts, v.weights)) == Failure(JsonKeyError)
      && ChainOfMerged(MergeAll([], v.dicts, v.weights)) == Success(Chain(c.stateSize, MergeAll([], v.dicts, v.weights)))
  {
    SelfValidates(ChainModel(c), None);
    var v := Validate([ChainModel(c), ChainModel(c)], None).value;
    MergedFirstKey(v.dicts, v.weights);
    MergeAllWellFormed([], v.dicts, v.weights);
  }
}

/** auto_sbatch/grid_search.py: the Cartesian product of list-valued parameters (leftmost
    key slowest), filtered by partial exclusion rules, reshaped into one column per key
    indexed by task id. */
module GridSearching {
  import opened Wrappers
  import opened OrderedDicts
  import opened PyStrings
  import opened PyValues

  /** An exclusion rule: a partial assignment of grid-search keys to values. */
  type Rule = map<string, Value>

  /** One list of values per key, in key order. */
  type Columns = PyDict<seq<Value>>

  const SubsetMessage: string := "Keys of excluded item must be a subset of keys used for grid-search."
  const UnpackMessage: string := "not enough values to unpack (expected 2, got 0)"

  // ---------------------------------------------------------------------------
  // The Cartesian product (itertools.product)

  function Prepend(x: Value, tails: seq<seq<Value>>): (r: seq<seq<Value>>)
    ensures |r| == |tails|
    ensures forall j :: 0 <= j < |r| ==> r[j] == [x] + tails[j]
  {
    seq(|tails|, j requires 0 <= j < |tails| => [x] + tails[j])
  }

  /** Every `x` of `xs` in order, each followed by every tail in order. */
  function ProductWith(xs: seq<Value>, tails: seq<seq<Value>>): seq<seq<Value>> {
    if xs == [] then [] else Prepend(xs[0], tails) + ProductWith(xs[1..], tails)
  }

  /** `list(product(*lists))`. */
  function Product(lists: seq<seq<Value>>): seq<seq<Value>> {
    if lists == [] then [[]] else ProductWith(lists[0], Product(lists[1..]))
  }

  /** The product of the lengths of the lists. */
  function ProductSize(lists: seq<seq<Value>>): nat {
    if lists == [] then 1 else |lists[0]| * ProductSize(lists[1..])
  }

  /** Predicate: every combination takes, at each position, a value of that position's list. */
  predicate IsCombination(lists: seq<seq<Value>>, c: seq<Value>) {
    |c| == |lists| && forall k :: 0 <= k < |c| ==> c[k] in lists[k]
  }

  lemma {:induction false} ProductWithIndex(xs: seq<Value>, tails: seq<seq<Value>>, q: nat, r: nat)
    requires q < |xs| && r < |tails|
    ensures |ProductWith(xs, tails)| == |xs| * |tails|
    ensures q * |tails| + r < |xs| * |tails|
    ensures ProductWith(xs, tails)[q * |tails| + r] == [xs[q]] + tails[r]
  {
    ProductWithSize(xs, tails);
    var n := |tails|;
    assert q * n + r < |xs| * n by {
      assert q * n + r < q * n + n == (q + 1) * n;
      assert (q + 1) * n <= |xs| * n by { MulLe(q + 1, |xs|, n); }
    }
    if q > 0 {
      ProductWithIndex(xs[1..], tails, q - 1, r);
      assert (q - 1) * n + r + n == q * n + r;
    }
  }

  lemma MulLe(a: nat, b: nat, n: nat)
    requires a <= b
    ensures a * n <= b * n
  {
  }

  lemma {:induction false} ProductWithSize(xs: seq<Value>, tails: seq<seq<Value>>)
    ensures |ProductWith(xs, tails)| == |xs| * |tails|
  {
    if xs != [] {
      ProductWithSize(xs[1..], tails);
      var n := |tails|;
      assert |xs| * n == n + |xs[1..]| * n by {
        assert |xs| == |xs[1..]| + 1;
      }
    }
  }

  lemma {:induction false} ProductShape(lists: seq<seq<Value>>)
    ensures |Product(lists)| == ProductSize(lists)
    ensures forall c :: c in Product(lists) ==> IsCombination(lists, c)
  {
    if lists != [] {
      var tails := Product(lists[1..]);
      ProductShape(lists[1..]);
      ProductWithSize(lists[0], tails);
      ProductWithShape(lists, lists[0], tails);
    }
  }

  lemma {:induction false} ProductWithShape(lists: seq<seq<Value>>, xs: seq<Value>, tails: seq<seq<Value>>)
    requires lists != [] && forall x :: x in xs ==> x in lists[0]
    requires forall c :: c in tails ==> IsCombination(lists[1..], c)
    ensures forall c :: c in ProductWith(xs, tails) ==> IsCombination(lists, c)
  {
    if xs != [] {
      ProductWithShape(lists, xs[1..], tails);
      forall c | c in Prepend(xs[0], tails) ensures IsCombination(lists, c) {
        var j :| 0 <= j < |tails| && Prepend(xs[0], tails)[j] == c;
        assert IsCombination(lists[1..], tails[j]);
        forall k | 0 <= k < |c| ensures c[k] in lists[k] {
          if k > 0 {
            assert c[k] == tails[j][k - 1];
          }
        }
      }
    }
  }

  /** The first list varies slowest: combination `q * S + r`, where `S` is the number of
      combinations of the remaining lists, is `lists[0][q]` followed by combination `r` of
      the remaining lists. */
  lemma ProductIndex(lists: seq<seq<Value>>, q: nat, r: nat)
    requires lists != [] && q < |lists[0]| && r < |Product(lists[1..])|
    ensures var i := q * |Product(lists[1..])| + r;
      i < |Product(lists)| && Product(lists)[i] == [lists[0][q]] + Product(lists[1..])[r]
  {
    ProductWithIndex(lists[0], Product(lists[1..]), q, r);
  }

  // ---------------------------------------------------------------------------
  // Exclusion rules (_is_excluded)

  /** The rule's keys are a subset of the grid-search keys. */
  predicate RuleKeysValid(keys: seq<string>, rule: Rule) {
    forall k :: k in rule ==> k in keys
  }

  /** The combination agrees with the rule on every key the rule mentions (pairing keys and
      values as `zip` does), comparing with Python's `==`. */
  predicate Matches(keys: seq<string>, comb: seq<Value>, rule: Rule) {
    forall i :: 0 <= i < |keys| && i < |comb| && keys[i] in rule ==> PyEq(comb[i], rule[keys[i]])
  }

  /** What `_is_excluded` returns or raises: rules are tried in order, a rule with a key
      outside the grid raises when it is reached, and the first matching rule excludes. */
  function Excluded(keys: seq<string>, comb: seq<Value>, rules: seq<Rule>): Result<bool> {
    if rules == [] then Ok(false)
    else if !RuleKeysValid(keys, rules[0]) then Err(ValueError(SubsetMessage))
    else if Matches(keys, comb, rules[0]) then Ok(true)
    else Excluded(keys, comb, rules[1..])
  }

  /** `_is_excluded(keys, values, excluded)`: the for/else loop over the rules, with the
      inner loop over the key/value pairs that breaks at the first disagreement. */
  method IsExcluded(keys: seq<string>, comb: seq<Value>, rules: seq<Rule>) returns (r: Result<bool>)
    ensures r == Excluded(keys, comb, rules)
  {
    var j := 0;
    while j < |rules|
      invariant 0 <= j <= |rules|
      invariant Excluded(keys, comb, rules) == Excluded(keys, comb, rules[j..])
    {
      var rule := rules[j];
      assert rules[j..][1..] == rules[j + 1..];
      if !(rule.Keys <= set k | k in keys) {
        return Err(ValueError(SubsetMessage));
      }
      var i := 0;
      var agrees := true;
      while agrees && i < |keys| && i < |comb|
        invariant 0 <= i <= |keys|
        invariant agrees ==> forall i' :: 0 <= i' < i && i' < |comb| && keys[i'] in rule ==> PyEq(comb[i'], rule[keys[i']])
        invariant !agrees ==> !Matches(keys, comb, rule)
      {
        if keys[i] in rule && !PyEq(comb[i], rule[keys[i]]) {
          agrees := false;
        } else {
          i := i + 1;
        }
      }
      if agrees {
        return Ok(true);
      }
      j := j + 1;
    }
    return Ok(false);
  }

  /** Some rule matches the combination. */
  predicate AnyMatch(keys: seq<string>, comb: seq<Value>, rules: seq<Rule>) {
    exists j :: 0 <= j < |rules| && Matches(keys, comb, rules[j])
  }

  /** A rule whose keys are not all grid-search keys is reached: no earlier rule matches. */
  predicate ReachesInvalidRule(keys: seq<string>, comb: seq<Value>, rules: seq<Rule>) {
    exists j :: 0 <= j < |rules| && !RuleKeysValid(keys, rules[j])
      && forall j' :: 0 <= j' < j ==> !Matches(keys, comb, rules[j'])
  }

  /** Checking raises exactly when an invalid rule is reached; otherwise the combination is
      excluded exactly when some rule matches it. */
  lemma {:induction false} ExcludedMeaning(keys: seq<string>, comb: seq<Value>, rules: seq<Rule>)
    ensures Excluded(keys, comb, rules).Err? <==> ReachesInvalidRule(keys, comb, rules)
    ensures Excluded(keys, comb, rules).Ok? ==> (Excluded(keys, comb, rules).value <==> AnyMatch(keys, comb, rules))
  {
    if rules != [] {
      ExcludedMeaning(keys, comb, rules[1..]);
      if !RuleKeysValid(keys, rules[0]) {
        assert 0 < |rules| && !RuleKeysValid(keys, rules[0]);
      } else if Matches(keys, comb, rules[0]) {
        assert AnyMatch(keys, comb, rules);
        assert !ReachesInvalidRule(keys, comb, rules) by {
          forall j | 0 <= j < |rules| && !RuleKeysValid(keys, rules[j])
            ensures exists j' :: 0 <= j' < j && Matches(keys, comb, rules[j'])
          {
            assert j > 0;
            assert Matches(keys, comb, rules[0]);
          }
        }
      } else {
        ReachesInvalidRuleSkip(keys, comb, rules);
        AnyMatchSkip(keys, comb, rules);
      }
    }
  }

  /** A valid first rule that does not match passes the question on to the rest. */
  lemma ReachesInvalidRuleSkip(keys: seq<string>, comb: seq<Value>, rules: seq<Rule>)
    requires rules != [] && RuleKeysValid(keys, rules[0]) && !Matches(keys, comb, rules[0])
    ensures ReachesInvalidRule(keys, comb, rules) <==> ReachesInvalidRule(keys, comb, rules[1..])
  {
    if ReachesInvalidRule(keys, comb, rules) {
      ReachesInvalidRuleDrop(keys, comb, rules);
    }
    if ReachesInvalidRule(keys, comb, rules[1..]) {
      ReachesInvalidRuleAdd(keys, comb, rules);
    }
  }

  lemma ReachesInvalidRuleDrop(keys: seq<string>, comb: seq<Value>, rules: seq<Rule>)
    requires rules != [] && RuleKeysValid(keys, rules[0])
    requires ReachesInvalidRule(keys, comb, rules)
    ensures ReachesInvalidRule(keys, comb, rules[1..])
  {
    var tail := rules[1..];
    var j :| 0 <= j < |rules| && !RuleKeysValid(keys, rules[j])
      && forall j' :: 0 <= j' < j ==> !Matches(keys, comb, rules[j']);
    assert j > 0;
    assert !RuleKeysValid(keys, tail[j - 1]);
    forall j' | 0 <= j' < j - 1 ensures !Matches(keys, comb, tail[j']) {
      assert tail[j'] == rules[j' + 1];
    }
  }

  lemma ReachesInvalidRuleAdd(keys: seq<string>, comb: seq<Value>, rules: seq<Rule>)
    requires rules != [] && !Matches(keys, comb, rules[0])
    requires ReachesInvalidRule(keys, comb, rules[1..])
    ensures ReachesInvalidRule(keys, comb, rules)
  {
    var tail := rules[1..];
    var j :| 0 <= j < |tail| && !RuleKeysValid(keys, tail[j])
      && forall j' :: 0 <= j' < j ==> !Matches(keys, comb, tail[j']);
    assert !RuleKeysValid(keys, rules[j + 1]);
    forall j' | 0 <= j' < j + 1 ensures !Matches(keys, comb, rules[j']) {
      if j' > 0 {
        assert rules[j'] == tail[j' - 1];
      }
    }
  }

  lemma AnyMatchSkip(keys: seq<string>, comb: seq<Value>, rules: seq<Rule>)
    requires rules != [] && !Matches(keys, comb, rules[0])
    ensures AnyMatch(keys, comb, rules) <==> AnyMatch(keys, comb, rules[1..])
  {
    var tail := rules[1..];
    if AnyMatch(keys, comb, rules) {
      var j :| 0 <= j < |rules| && Matches(keys, comb, rules[j]);
      assert j > 0 && Matches(keys, comb, tail[j - 1]);
    }
    if AnyMatch(keys, comb, tail) {
      var j :| 0 <= j < |tail| && Matches(keys, comb, tail[j]);
      assert Matches(keys, comb, rules[j + 1]);
    }
  }

  /** Python's `1 == True`: the rule `{a: True}` excludes the combination `(1,)` and keeps
      `(2,)`. */
  lemma TrueRuleExcludesOne()
    ensures Excluded(["a"], [Int(1)], [map["a" := Bool(true)]]) == Ok(true)
    ensures Excluded(["a"], [Int(2)], [map["a" := Bool(true)]]) == Ok(false)
  {
    assert Matches(["a"], [Int(1)], map["a" := Bool(true)]);
    assert !Matches(["a"], [Int(2)], map["a" := Bool(true)]) by {
      assert ["a"][0] in map["a" := Bool(true)];
    }
  }

  /** An empty rule matches every combination: reached first, it excludes everything. */
  lemma EmptyRuleExcludes(keys: seq<string>, comb: seq<Value>, rules: seq<Rule>)
    requires rules != [] && rules[0] == map[]
    ensures Excluded(keys, comb, rules) == Ok(true)
  {
  }

  // ---------------------------------------------------------------------------
  // The surviving combinations and their columns (get_combinations)

  /** `[comb for comb in combs if not _is_excluded(keys, comb, rules)]`; the first raise
      (leftmost combination) propagates. */
  function Survivors(keys: seq<string>, combs: seq<seq<Value>>, rules: seq<Rule>): (r: Result<seq<seq<Value>>>)
    ensures r.Ok? ==> forall c :: c in r.value ==> c in combs
  {
    if combs == [] then Ok([])
    else
      var init :- Survivors(keys, combs[..|combs| - 1], rules);
      var last := combs[|combs| - 1];
      var excluded :- Excluded(keys, last, rules);
      Ok(if excluded then init else init + [last])
  }

  /** The combinations no rule matches, in their original order. */
  function Unmatched(keys: seq<string>, combs: seq<seq<Value>>, rules: seq<Rule>): seq<seq<Value>> {
    if combs == [] then []
    else
      var init := Unmatched(keys, combs[..|combs| - 1], rules);
      var last := combs[|combs| - 1];
      if AnyMatch(keys, last, rules) then init else init + [last]
  }

  /** The positions of `Unmatched` in the original sequence, in increasing order. */
  function UnmatchedPositions(keys: seq<string>, combs: seq<seq<Value>>, rules: seq<Rule>): seq<nat> {
    if combs == [] then []
    else
      var init := UnmatchedPositions(keys, combs[..|combs| - 1], rules);
      if AnyMatch(keys, combs[|combs| - 1], rules) then init else init + [|combs| - 1]
  }

  /** When no invalid rule is reached, the survivors are the combinations no rule matches. */
  lemma {:induction false} SurvivorsAreUnmatched(keys: seq<string>, combs: seq<seq<Value>>, rules: seq<Rule>)
    requires forall j :: 0 <= j < |rules| ==> RuleKeysValid(keys, rules[j])
    ensures Survivors(keys, combs, rules) == Ok(Unmatched(keys, combs, rules))
  {
    if combs != [] {
      SurvivorsAreUnmatched(keys, combs[..|combs| - 1], rules);
      ExcludedMeaning(keys, combs[|combs| - 1], rules);
    }
  }

  /** Filtering keeps an order-preserving subsequence: the survivors sit at strictly
      increasing positions, and a position is kept exactly when no rule matches there. */
  lemma {:induction false} UnmatchedIsOrderedSubsequence(keys: seq<string>, combs: seq<seq<Value>>, rules: seq<Rule>)
    ensures var kept, pos := Unmatched(keys, combs, rules), UnmatchedPositions(keys, combs, rules);
      && |pos| == |kept|
      && (forall j :: 0 <= j < |pos| ==> pos[j] < |combs| && kept[j] == combs[pos[j]])
      && (forall j, j' :: 0 <= j < j' < |pos| ==> pos[j] < pos[j'])
      && (forall i :: 0 <= i < |combs| ==> (i in pos <==> !AnyMatch(keys, combs[i], rules)))
  {
    if combs != [] {
      var init := combs[..|combs| - 1];
      UnmatchedIsOrderedSubsequence(keys, init, rules);
      var pos := UnmatchedPositions(keys, combs, rules);
      forall i | 0 <= i < |combs| ensures (i in pos <==> !AnyMatch(keys, combs[i], rules)) {
        if i < |init| {
          assert combs[i] == init[i];
        }
      }
    }
  }

  /** Every combination has at least `w` entries. */
  predicate Wide(kept: seq<seq<Value>>, w: nat) {
    forall j :: 0 <= j < |kept| ==> w <= |kept[j]|
  }

  /** `[comb[k] for comb in kept]`. */
  function Column(kept: seq<seq<Value>>, k: nat): (r: seq<Value>)
    requires Wide(kept, k + 1)
    ensures |r| == |kept|
    ensures forall j :: 0 <= j < |kept| ==> r[j] == kept[j][k]
  {
    seq(|kept|, j requires 0 <= j < |kept| => kept[j][k])
  }

  /** `new_values` after the loop `for k, key in enumerate(keys)` has run over `keys`. */
  function ColumnsOf(keys: seq<string>, kept: seq<seq<Value>>): Columns
    requires Wide(kept, |keys|)
  {
    if keys == [] then Empty()
    else
      var n := |keys| - 1;
      Put(ColumnsOf(keys[..n], kept), keys[n], Column(kept, n))
  }

  /** The lists of a values mapping, in key order. */
  function ListsOf(values: PyDict<seq<Value>>): (r: seq<seq<Value>>)
    ensures |r| == |values.keys|
    ensures forall i :: 0 <= i < |r| ==> r[i] == Get(values, values.keys[i])
  {
    seq(|values.keys|, i requires 0 <= i < |values.keys| => values.values[values.keys[i]])
  }

  /** What `get_combinations` returns or raises. Unpacking the keys and lists of an empty
      mapping raises. */
  function Combinations(values: PyDict<seq<Value>>, exclude: seq<Rule>): Result<(nat, Columns)> {
    if values.keys == [] then Err(ValueError(UnpackMessage))
    else
      var keys := values.keys;
      var all := Product(ListsOf(values));
      var kept :- Survivors(keys, all, exclude);
      SurvivorsWide(values, exclude);
      Ok((|kept|, ColumnsOf(keys, kept)))
  }

  /** The comprehension `[comb for comb in product(*values) if not _is_excluded(...)]`. */
  method FilterCombinations(keys: seq<string>, all: seq<seq<Value>>, exclude: seq<Rule>) returns (r: Result<seq<seq<Value>>>)
    ensures r == Survivors(keys, all, exclude)
  {
    var kept: seq<seq<Value>> := [];
    var i := 0;
    while i < |all|
      invariant 0 <= i <= |all|
      invariant Survivors(keys, all[..i], exclude) == Ok(kept)
    {
      assert all[..i + 1][..i] == all[..i];
      var excluded := IsExcluded(keys, all[i], exclude);
      if excluded.Err? {
        SurvivorsPrefixErr(keys, all, exclude, i + 1);
        return Err(excluded.error);
      }
      if !excluded.value {
        kept := kept + [all[i]];
      }
      i := i + 1;
    }
    assert all[..|all|] == all;
    return Ok(kept);
  }

  /** The loop `for k, key in enumerate(keys): new_values[key] = [comb[k] for comb in kept]`. */
  method BuildColumns(keys: seq<string>, kept: seq<seq<Value>>) returns (cols: Columns)
    requires Wide(kept, |keys|)
    ensures cols == ColumnsOf(keys, kept)
  {
    cols := Empty();
    for k := 0 to |keys|
      invariant cols == ColumnsOf(keys[..k], kept)
    {
      assert keys[..k + 1][..k] == keys[..k];
      cols := Put(cols, keys[k], Column(kept, k));
    }
    assert keys[..|keys|] == keys;
  }

  /** Every surviving combination has one value per key. */
  lemma SurvivorsWide(values: PyDict<seq<Value>>, exclude: seq<Rule>)
    requires Survivors(values.keys, Product(ListsOf(values)), exclude).Ok?
    ensures var kept := Survivors(values.keys, Product(ListsOf(values)), exclude).value;
      forall j :: 0 <= j < |kept| ==> |kept[j]| == |values.keys|
  {
    var kept := Survivors(values.keys, Product(ListsOf(values)), exclude).value;
    ProductShape(ListsOf(values));
    forall j | 0 <= j < |kept| ensures |kept[j]| == |values.keys| {
      assert kept[j] in kept;
      assert IsCombination(ListsOf(values), kept[j]);
    }
  }

  /** `get_combinations`. */
  method GetCombinations(values: PyDict<seq<Value>>, exclude: seq<Rule>) returns (r: Result<(nat, Columns)>)
    ensures r == Combinations(values, exclude)
  {
    if values.keys == [] {
      return Err(ValueError(UnpackMessage));
    }
    var all := Product(ListsOf(values));
    var kept := FilterCombinations(values.keys, all, exclude);
    if kept.Err? {
      return Err(kept.error);
    }
    SurvivorsWide(values, exclude);
    var cols := BuildColumns(values.keys, kept.value);
    return Ok((|kept.value|, cols));
  }

  /** Once a prefix raises, the whole comprehension raises that same error. */
  lemma {:induction false} SurvivorsPrefixErr(keys: seq<string>, combs: seq<seq<Value>>, rules: seq<Rule>, n: nat)
    requires n <= |combs| && Survivors(keys, combs[..n], rules).Err?
    ensures Survivors(keys, combs, rules) == Survivors(keys, combs[..n], rules)
    decreases |combs| - n
  {
    if n < |combs| {
      assert combs[..n + 1][..n] == combs[..n];
      SurvivorsPrefixErr(keys, combs, rules, n + 1);
    } else {
      assert combs[..n] == combs;
    }
  }

  lemma {:induction false} ColumnsOfKeys(keys: seq<string>, kept: seq<seq<Value>>)
    requires Distinct(keys) && Wide(kept, |keys|)
    ensures ColumnsOf(keys, kept).keys == keys
  {
    if keys != [] {
      var n := |keys| - 1;
      var init := keys[..n];
      DistinctPrefix(keys, n);
      ColumnsOfKeys(init, kept);
      assert keys[n] !in init by {
        forall k | 0 <= k < n ensures init[k] != keys[n] {
          assert init[k] == keys[k];
        }
      }
      var prev := ColumnsOf(init, kept);
      assert !Has(prev, keys[n]);
      assert ColumnsOf(keys, kept) == Put(prev, keys[n], Column(kept, n));
      assert keys == init + [keys[n]];
    }
  }

  lemma DistinctPrefix(keys: seq<string>, n: nat)
    requires Distinct(keys) && n <= |keys|
    ensures Distinct(keys[..n])
  {
    var init := keys[..n];
    forall i, j | 0 <= i < j < |init| ensures init[i] != init[j] {
      assert init[i] == keys[i] && init[j] == keys[j];
    }
  }

  lemma {:induction false} ColumnsOfGet(keys: seq<string>, kept: seq<seq<Value>>, k: nat)
    requires Distinct(keys) && Wide(kept, |keys|) && k < |keys|
    ensures Has(ColumnsOf(keys, kept), keys[k]) && Get(ColumnsOf(keys, kept), keys[k]) == Column(kept, k)
  {
    var n := |keys| - 1;
    if k < n {
      var init := keys[..n];
      DistinctPrefix(keys, n);
      ColumnsOfGet(init, kept, k);
      assert init[k] == keys[k] && keys[k] != keys[n];
    }
  }

  lemma ColumnsOfShape(keys: seq<string>, kept: seq<seq<Value>>)
    requires Distinct(keys) && Wide(kept, |keys|)
    ensures ColumnsOf(keys, kept).keys == keys
    ensures forall k :: 0 <= k < |keys| ==>
      Has(ColumnsOf(keys, kept), keys[k]) && Get(ColumnsOf(keys, kept), keys[k]) == Column(kept, k)
  {
    ColumnsOfKeys(keys, kept);
    forall k | 0 <= k < |keys|
      ensures Has(ColumnsOf(keys, kept), keys[k]) && Get(ColumnsOf(keys, kept), keys[k]) == Column(kept, k)
    {
      ColumnsOfGet(keys, kept, k);
    }
  }

  // ---------------------------------------------------------------------------
  // The GridSearch object

  /** A constructed `GridSearch`: the values and rules it was given and what
      `get_combinations` computed from them. */
  datatype GridSearch = GridSearch(values: PyDict<seq<Value>>, exclude: seq<Rule>, nJobs: nat, combinations: Columns)

  /** `exclude or []`. */
  function RulesOrEmpty(exclude: Option<seq<Rule>>): seq<Rule> {
    if exclude.None? then [] else exclude.value
  }

  /** `GridSearch(values, exclude)`. */
  method NewGridSearch(values: PyDict<seq<Value>>, exclude: Option<seq<Rule>>) returns (r: Result<GridSearch>)
    ensures Combinations(values, RulesOrEmpty(exclude)).Err? ==> r == Err(Combinations(values, RulesOrEmpty(exclude)).error)
    ensures Combinations(values, RulesOrEmpty(exclude)).Ok? ==>
      var (n, cols) := Combinations(values, RulesOrEmpty(exclude)).value;
      r == Ok(GridSearch(values, RulesOrEmpty(exclude), n, cols))
  {
    var rules := RulesOrEmpty(exclude);
    var c := GetCombinations(values, rules);
    if c.Err? {
      return Err(c.error);
    }
    return Ok(GridSearch(values, rules, c.value.0, c.value.1));
  }

  /** The grid search was built by `GridSearch(values, exclude)`. */
  predicate Built(g: GridSearch) {
    Combinations(g.values, g.exclude) == Ok((g.nJobs, g.combinations))
  }

  /** `item in grid`: key membership in the values it was given. */
  predicate Contains(g: GridSearch, item: string) {
    Has(g.values, item)
  }

  /** For a built grid search, `item in grid` holds exactly for the keys of the values it
      was given, which are also the keys of its columns. */
  lemma ContainsMeansColumn(g: GridSearch, item: string)
    requires Built(g)
    ensures Contains(g, item) <==> item in g.values.keys
    ensures Contains(g, item) <==> Has(g.combinations, item)
  {
    BuiltShape(g);
  }

  /** The combinations that survive the rules, or the error filtering raises. */
  function Kept(values: PyDict<seq<Value>>, exclude: seq<Rule>): Result<seq<seq<Value>>> {
    Survivors(values.keys, Product(ListsOf(values)), exclude)
  }

  /** `n_jobs` counts the survivors, the columns have the grid's keys in order, each column
      has one entry per job, and entry `t` of key `k`'s column is survivor `t`'s value for
      `k`. */
  lemma BuiltShape(g: GridSearch)
    requires Built(g)
    ensures |g.values.keys| > 0 && Kept(g.values, g.exclude).Ok?
    ensures g.nJobs == |Kept(g.values, g.exclude).value|
    ensures forall t :: 0 <= t < g.nJobs ==> |Kept(g.values, g.exclude).value[t]| == |g.values.keys|
    ensures g.combinations.keys == g.values.keys
    ensures forall k :: 0 <= k < |g.values.keys| ==>
      Has(g.combinations, g.values.keys[k]) && |Get(g.combinations, g.values.keys[k])| == g.nJobs
    ensures forall k, t :: 0 <= k < |g.values.keys| && 0 <= t < g.nJobs ==>
      Has(g.combinations, g.values.keys[k]) &&
      Get(g.combinations, g.values.keys[k])[t] == Kept(g.values, g.exclude).value[t][k]
  {
    BuiltUnfold(g);
    var keys := g.values.keys;
    var kept := Kept(g.values, g.exclude).value;
    ColumnsOfShape(keys, kept);
    ColumnEntries(keys, kept, g.combinations);
  }

  /** Columns that are the columns of `kept` hold entry `t` of key `k` at `kept[t][k]`. */
  lemma ColumnEntries(keys: seq<string>, kept: seq<seq<Value>>, cols: Columns)
    requires Wide(kept, |keys|)
    requires forall k :: 0 <= k < |keys| ==> Has(cols, keys[k]) && Get(cols, keys[k]) == Column(kept, k)
    ensures forall k :: 0 <= k < |keys| ==> |Get(cols, keys[k])| == |kept|
    ensures forall k, t :: 0 <= k < |keys| && 0 <= t < |kept| ==> Get(cols, keys[k])[t] == kept[t][k]
  {
  }

  /** What `Built` says once `Combinations` is unfolded. */
  lemma BuiltUnfold(g: GridSearch)
    requires Built(g)
    ensures |g.values.keys| > 0 && Kept(g.values, g.exclude).Ok?
    ensures Wide(Kept(g.values, g.exclude).value, |g.values.keys|)
    ensures g.nJobs == |Kept(g.values, g.exclude).value|
    ensures forall t :: 0 <= t < g.nJobs ==> |Kept(g.values, g.exclude).value[t]| == |g.values.keys|
    ensures g.combinations == ColumnsOf(g.values.keys, Kept(g.values, g.exclude).value)
  {
    SurvivorsWide(g.values, g.exclude);
  }

  /** Without exclusion rules nothing is filtered: there are as many jobs as the product of
      the list lengths, and task `t`'s values are combination `t` of the product. */
  lemma NoExclusionKeepsProduct(values: PyDict<seq<Value>>)
    requires values.keys != []
    ensures Combinations(values, []).Ok?
    ensures Combinations(values, []).value.0 == ProductSize(ListsOf(values))
    ensures Survivors(values.keys, Product(ListsOf(values)), []) == Ok(Product(ListsOf(values)))
  {
    var all := Product(ListsOf(values));
    SurvivorsAreUnmatched(values.keys, all, []);
    UnmatchedNoRules(values.keys, all);
    ProductShape(ListsOf(values));
  }

  lemma {:induction false} UnmatchedNoRules(keys: seq<string>, combs: seq<seq<Value>>)
    ensures Unmatched(keys, combs, []) == combs
  {
    if combs != [] {
      UnmatchedNoRules(keys, combs[..|combs| - 1]);
    }
  }

  /** Rules whose keys are all grid-search keys never raise. */
  lemma ValidRulesNeverRaise(values: PyDict<seq<Value>>, exclude: seq<Rule>)
    requires values.keys != []
    requires forall j :: 0 <= j < |exclude| ==> RuleKeysValid(values.keys, exclude[j])
    ensures Combinations(values, exclude).Ok?
  {
    SurvivorsAreUnmatched(values.keys, Product(ListsOf(values)), exclude);
  }

  /** An empty rule `{}` among valid rules excludes every combination: no jobs. */
  lemma EmptyRuleLeavesNoJobs(values: PyDict<seq<Value>>, exclude: seq<Rule>, j: nat)
    requires values.keys != []
    requires forall j :: 0 <= j < |exclude| ==> RuleKeysValid(values.keys, exclude[j])
    requires j < |exclude| && exclude[j] == map[]
    ensures Combinations(values, exclude).Ok? && Combinations(values, exclude).value.0 == 0
  {
    var all := Product(ListsOf(values));
    SurvivorsAreUnmatched(values.keys, all, exclude);
    UnmatchedAllMatched(values.keys, all, exclude, j);
  }

  lemma {:induction false} UnmatchedAllMatched(keys: seq<string>, combs: seq<seq<Value>>, rules: seq<Rule>, j: nat)
    requires j < |rules| && rules[j] == map[]
    ensures Unmatched(keys, combs, rules) == []
  {
    if combs != [] {
      UnmatchedAllMatched(keys, combs[..|combs| - 1], rules, j);
      assert Matches(keys, combs[|combs| - 1], rules[j]);
    }
  }

  /** A first rule naming a key outside the grid raises as soon as there is a combination;
      with an empty list among the values there is none, and nothing raises. */
  lemma InvalidFirstRule(values: PyDict<seq<Value>>, exclude: seq<Rule>)
    requires values.keys != [] && exclude != [] && !RuleKeysValid(values.keys, exclude[0])
    ensures ProductSize(ListsOf(values)) > 0 ==> Combinations(values, exclude) == Err(ValueError(SubsetMessage))
    ensures ProductSize(ListsOf(values)) == 0 ==> Combinations(values, exclude).Ok? && Combinations(values, exclude).value.0 == 0
  {
    var all := Product(ListsOf(values));
    ProductShape(ListsOf(values));
    if |all| > 0 {
      assert Survivors(values.keys, all[..1], exclude) == Err(ValueError(SubsetMessage)) by {
        assert all[..1][..0] == [];
      }
      SurvivorsPrefixErr(values.keys, all, exclude, 1);
    }
  }

  // ---------------------------------------------------------------------------
  // job_params

  /** `{key: val[job_id] for key, val in cols}` with Python indexing. */
  function PickAll(cols: seq<(string, seq<Value>)>, jobId: int): Result<PyDict<Value>> {
    if cols == [] then Ok(Empty())
    else
      var init :- PickAll(cols[..|cols| - 1], jobId);
      var last := cols[|cols| - 1];
      var v :- Index(last.1, jobId);
      Ok(Put(init, last.0, v))
  }

  /** `job_params` as written: the guard `0 < job_id` rejects every positive id and lets
      negative ones through to Python's from-the-end indexing. */
  function JobParamsAsWritten(g: GridSearch, jobId: int): Result<PyDict<Value>> {
    if 0 < jobId || jobId >= g.nJobs then Err(ValueError("job_id should be >= 0 and < " + IntToString(g.nJobs)))
    else PickAll(Items(g.combinations), jobId)
  }

  /** `job_params` with the evidently intended guard `job_id < 0`. */
  function JobParams(g: GridSearch, jobId: int): Result<PyDict<Value>> {
    if jobId < 0 || jobId >= g.nJobs then Err(ValueError("job_id should be >= 0 and < " + IntToString(g.nJobs)))
    else PickAll(Items(g.combinations), jobId)
  }

  /** Every column has one entry per job. */
  ghost predicate Rectangular(g: GridSearch) {
    forall k :: Has(g.combinations, k) ==> |Get(g.combinations, k)| == g.nJobs
  }

  lemma BuiltRectangular(g: GridSearch)
    requires Built(g)
    ensures Rectangular(g)
  {
    BuiltShape(g);
    forall k | Has(g.combinations, k) ensures |Get(g.combinations, k)| == g.nJobs {
      var i :| 0 <= i < |g.combinations.keys| && g.combinations.keys[i] == k;
    }
  }

  lemma ColumnItemsRectangular(g: GridSearch)
    requires Rectangular(g)
    ensures forall i :: 0 <= i < |Items(g.combinations)| ==> |Items(g.combinations)[i].1| == g.nJobs
  {
  }

  /** With at least two jobs, the as-written guard rejects the valid id 1, and the invalid
      id -1 returns the last job's parameters. */
  lemma JobParamsAsWrittenRejectsValidIds(g: GridSearch)
    requires Rectangular(g) && g.nJobs >= 2
    ensures JobParamsAsWritten(g, 1).Err?
    ensures JobParams(g, 1).Ok?
    ensures JobParamsAsWritten(g, -1) == JobParams(g, g.nJobs - 1)
  {
    ColumnItemsRectangular(g);
    AsWrittenRejectsOne(g);
    PickAllInRange(Items(g.combinations), g.nJobs, 1);
    assert JobParams(g, 1) == PickAll(Items(g.combinations), 1);
    PickAllNegative(Items(g.combinations), g.nJobs);
    AsWrittenNegative(g);
  }

  lemma AsWrittenRejectsOne(g: GridSearch)
    ensures JobParamsAsWritten(g, 1).Err?
  {
  }

  lemma AsWrittenNegative(g: GridSearch)
    requires g.nJobs >= 1 && PickAll(Items(g.combinations), -1) == PickAll(Items(g.combinations), g.nJobs - 1)
    ensures JobParamsAsWritten(g, -1) == JobParams(g, g.nJobs - 1)
  {
    assert JobParamsAsWritten(g, -1) == PickAll(Items(g.combinations), -1);
  }

  lemma {:induction false} PickAllNegative(cols: seq<(string, seq<Value>)>, n: nat)
    requires n >= 1 && forall i :: 0 <= i < |cols| ==> |cols[i].1| == n
    ensures PickAll(cols, -1) == PickAll(cols, n - 1)
  {
    if cols != [] {
      PickAllNegative(cols[..|cols| - 1], n);
      var last := cols[|cols| - 1];
      assert Index(last.1, -1) == Ok(last.1[n - 1]);
    }
  }

  lemma PickAllInRange(cols: seq<(string, seq<Value>)>, n: nat, t: nat)
    requires t < n && forall i :: 0 <= i < |cols| ==> |cols[i].1| == n
    ensures PickAll(cols, t).Ok?
    ensures forall i :: 0 <= i < |cols| ==> Has(PickAll(cols, t).value, cols[i].0)
    ensures forall k :: Has(PickAll(cols, t).value, k) ==> exists i :: 0 <= i < |cols| && cols[i].0 == k
    ensures Distinct(KeysOf(cols)) ==> forall i :: 0 <= i < |cols| ==> Get(PickAll(cols, t).value, cols[i].0) == cols[i].1[t]
  {
    PickAllHas(cols, n, t);
    PickAllOnly(cols, n, t);
    if Distinct(KeysOf(cols)) {
      PickAllValues(cols, n, t);
    }
  }

  lemma {:induction false} PickAllHas(cols: seq<(string, seq<Value>)>, n: nat, t: nat)
    requires t < n && forall i :: 0 <= i < |cols| ==> |cols[i].1| == n
    ensures PickAll(cols, t).Ok?
    ensures forall i :: 0 <= i < |cols| ==> Has(PickAll(cols, t).value, cols[i].0)
  {
    if cols != [] {
      var init := cols[..|cols| - 1];
      var last := cols[|cols| - 1];
      assert forall i :: 0 <= i < |init| ==> init[i] == cols[i];
      PickAllHas(init, n, t);
      PickAllSnoc(cols, n, t);
      PutKeepsColumns(PickAll(init, t).value, cols, last.1[t]);
    }
  }

  lemma PutKeepsColumns(d0: PyDict<Value>, cols: seq<(string, seq<Value>)>, v: Value)
    requires cols != [] && forall i :: 0 <= i < |cols| - 1 ==> Has(d0, cols[i].0)
    ensures forall i :: 0 <= i < |cols| ==> Has(Put(d0, cols[|cols| - 1].0, v), cols[i].0)
  {
    var k := cols[|cols| - 1].0;
    var r := Put(d0, k, v);
    forall i | 0 <= i < |cols| ensures Has(r, cols[i].0) {
      if cols[i].0 != k {
        assert i < |cols| - 1 && Has(d0, cols[i].0);
      }
    }
  }

  /** One more column adds its entry at `t` to the picked parameters. */
  lemma PickAllSnoc(cols: seq<(string, seq<Value>)>, n: nat, t: nat)
    requires cols != [] && t < n && |cols[|cols| - 1].1| == n
    requires PickAll(cols[..|cols| - 1], t).Ok?
    ensures PickAll(cols, t) ==
      Ok(Put(PickAll(cols[..|cols| - 1], t).value, cols[|cols| - 1].0, cols[|cols| - 1].1[t]))
  {
    var last := cols[|cols| - 1];
    assert Index(last.1, t) == Ok(last.1[t]);
  }

  lemma {:induction false} PickAllOnly(cols: seq<(string, seq<Value>)>, n: nat, t: nat)
    requires t < n && forall i :: 0 <= i < |cols| ==> |cols[i].1| == n
    requires PickAll(cols, t).Ok?
    ensures forall k :: Has(PickAll(cols, t).value, k) ==> exists i :: 0 <= i < |cols| && cols[i].0 == k
  {
    if cols != [] {
      var init := cols[..|cols| - 1];
      PickAllHas(init, n, t);
      PickAllOnly(init, n, t);
      var last := cols[|cols| - 1];
      var d := PickAll(cols, t).value;
      forall k | Has(d, k) ensures exists i :: 0 <= i < |cols| && cols[i].0 == k {
        if k != last.0 {
          var i :| 0 <= i < |init| && init[i].0 == k;
          assert cols[i].0 == k;
        }
      }
    }
  }

  lemma {:induction false} PickAllValues(cols: seq<(string, seq<Value>)>, n: nat, t: nat)
    requires t < n && forall i :: 0 <= i < |cols| ==> |cols[i].1| == n
    requires PickAll(cols, t).Ok? && Distinct(KeysOf(cols))
    requires forall i :: 0 <= i < |cols| ==> Has(PickAll(cols, t).value, cols[i].0)
    ensures forall i :: 0 <= i < |cols| ==> Get(PickAll(cols, t).value, cols[i].0) == cols[i].1[t]
  {
    if cols != [] {
      var init := cols[..|cols| - 1];
      var last := cols[|cols| - 1];
      assert forall i :: 0 <= i < |init| ==> init[i] == cols[i];
      PickAllHas(init, n, t);
      assert Distinct(KeysOf(init)) by {
        forall a, b | 0 <= a < b < |init| ensures KeysOf(init)[a] != KeysOf(init)[b] {
          assert KeysOf(cols)[a] != KeysOf(cols)[b];
        }
      }
      PickAllValues(init, n, t);
      PickAllSnoc(cols, n, t);
      PutKeepsEntries(PickAll(init, t).value, cols, t);
    }
  }

  lemma PutKeepsEntries(d0: PyDict<Value>, cols: seq<(string, seq<Value>)>, t: nat)
    requires cols != [] && Distinct(KeysOf(cols)) && forall i :: 0 <= i < |cols| ==> t < |cols[i].1|
    requires forall i :: 0 <= i < |cols| - 1 ==> Has(d0, cols[i].0) && Get(d0, cols[i].0) == cols[i].1[t]
    ensures forall i :: 0 <= i < |cols| ==>
      Has(Put(d0, cols[|cols| - 1].0, cols[|cols| - 1].1[t]), cols[i].0) &&
      Get(Put(d0, cols[|cols| - 1].0, cols[|cols| - 1].1[t]), cols[i].0) == cols[i].1[t]
  {
    var last := cols[|cols| - 1];
    forall i | 0 <= i < |cols| - 1 ensures cols[i].0 != last.0 {
      assert KeysOf(cols)[i] != KeysOf(cols)[|cols| - 1];
    }
  }

  /** With distinct column keys, the picked parameters have exactly those keys, in column
      order. */
  lemma {:induction false} PickAllKeys(cols: seq<(string, seq<Value>)>, t: int)
    requires PickAll(cols, t).Ok? && Distinct(KeysOf(cols))
    ensures PickAll(cols, t).value.keys == KeysOf(cols)
  {
    if cols != [] {
      var init := cols[..|cols| - 1];
      var last := cols[|cols| - 1];
      assert KeysOf(cols) == KeysOf(init) + [last.0];
      assert Distinct(KeysOf(init)) by {
        forall a, b | 0 <= a < b < |init| ensures KeysOf(init)[a] != KeysOf(init)[b] {
          assert KeysOf(cols)[a] != KeysOf(cols)[b];
        }
      }
      PickAllKeys(init, t);
      var d0 := PickAll(init, t).value;
      assert !Has(d0, last.0) by {
        forall a | 0 <= a < |d0.keys| ensures d0.keys[a] != last.0 {
          assert KeysOf(cols)[a] != KeysOf(cols)[|cols| - 1];
        }
      }
    }
  }

  /** The corrected `job_params`: an id is accepted exactly when `0 <= id < n_jobs`, and then
      the result has the column keys, in column order, each mapped to its column's entry at
      that id. */
  lemma JobParamsMeaning(g: GridSearch, jobId: int)
    requires Rectangular(g)
    ensures JobParams(g, jobId).Ok? <==> 0 <= jobId < g.nJobs
    ensures JobParams(g, jobId).Ok? ==>
      forall k :: Has(g.combinations, k) ==>
        Has(JobParams(g, jobId).value, k) && Get(JobParams(g, jobId).value, k) == Get(g.combinations, k)[jobId]
    ensures JobParams(g, jobId).Ok? ==> JobParams(g, jobId).value.keys == g.combinations.keys
  {
    if 0 <= jobId < g.nJobs {
      var cols := Items(g.combinations);
      ColumnItemsRectangular(g);
      ItemsKeysAndMap(g.combinations);
      PickAllInRange(cols, g.nJobs, jobId);
      PickAllKeys(cols, jobId);
      var d := JobParams(g, jobId).value;
      forall k | Has(g.combinations, k)
        ensures Has(d, k) && Get(d, k) == Get(g.combinations, k)[jobId]
      {
        var i :| 0 <= i < |g.combinations.keys| && g.combinations.keys[i] == k;
        assert cols[i].0 == k;
      }
    }
  }

  // ---------------------------------------------------------------------------
  // A two-key grid `{ka: [x1, x2], kb: [y1, y2]}`, such as `{a: [1, 2], b: [3, 4]}`

  function PairGrid(ka: string, kb: string, x1: Value, x2: Value, y1: Value, y2: Value): PyDict<seq<Value>>
    requires ka != kb
  {
    DictRep([ka, kb], map[ka := [x1, x2], kb := [y1, y2]])
  }

  function PairColumns(ka: string, kb: string, a: seq<Value>, b: seq<Value>): Columns
    requires ka != kb
  {
    DictRep([ka, kb], map[ka := a, kb := b])
  }

  lemma ProductWithPair(x: Value, y: Value, tails: seq<seq<Value>>)
    ensures ProductWith([x, y], tails) == Prepend(x, tails) + Prepend(y, tails)
  {
    var xs := [x, y];
    assert xs[0] == x && xs[1..] == [y];
    assert [y][0] == y && [y][1..] == [];
    assert ProductWith([y], tails) == Prepend(y, tails) + ProductWith([], tails);
    assert Prepend(y, tails) + [] == Prepend(y, tails);
  }

  lemma PrependOne(x: Value, t: seq<Value>)
    ensures Prepend(x, [t]) == [[x] + t]
  {
    assert Prepend(x, [t])[0] == [x] + t;
  }

  lemma PrependTwo(x: Value, t: seq<Value>, u: seq<Value>)
    ensures Prepend(x, [t, u]) == [[x] + t, [x] + u]
  {
    assert Prepend(x, [t, u])[0] == [x] + t;
    assert Prepend(x, [t, u])[1] == [x] + u;
  }

  lemma PairLists(ka: string, kb: string, x1: Value, x2: Value, y1: Value, y2: Value)
    requires ka != kb
    ensures ListsOf(PairGrid(ka, kb, x1, x2, y1, y2)) == [[x1, x2], [y1, y2]]
  {
    var lists := ListsOf(PairGrid(ka, kb, x1, x2, y1, y2));
    assert lists[0] == [x1, x2] && lists[1] == [y1, y2];
  }

  lemma ProductOfOne(y1: Value, y2: Value)
    ensures Product([[y1, y2]]) == [[y1], [y2]]
  {
    var lists := [[y1, y2]];
    assert lists[1..] == [];
    assert Product(lists) == ProductWith([y1, y2], [[]]);
    ProductWithPair(y1, y2, [[]]);
    PrependOne(y1, []);
    PrependOne(y2, []);
    assert [y1] + [] == [y1] && [y2] + [] == [y2];
  }

  lemma ProductOfTwo(x1: Value, x2: Value, y1: Value, y2: Value)
    ensures Product([[x1, x2], [y1, y2]]) == [[x1, y1], [x1, y2], [x2, y1], [x2, y2]]
  {
    var lists := [[x1, x2], [y1, y2]];
    assert lists[1..] == [[y1, y2]];
    ProductOfOne(y1, y2);
    var tails := [[y1], [y2]];
    assert Product(lists) == ProductWith([x1, x2], tails);
    ProductWithPair(x1, x2, tails);
    PrependTwo(x1, [y1], [y2]);
    PrependTwo(x2, [y1], [y2]);
    assert [x1] + [y1] == [x1, y1] && [x1] + [y2] == [x1, y2];
    assert [x2] + [y1] == [x2, y1] && [x2] + [y2] == [x2, y2];
  }

  /** The product is `(x1, y1), (x1, y2), (x2, y1), (x2, y2)`. */
  lemma PairProduct(ka: string, kb: string, x1: Value, x2: Value, y1: Value, y2: Value)
    requires ka != kb
    ensures Product(ListsOf(PairGrid(ka, kb, x1, x2, y1, y2))) == [[x1, y1], [x1, y2], [x2, y1], [x2, y2]]
  {
    PairLists(ka, kb, x1, x2, y1, y2);
    ProductOfTwo(x1, x2, y1, y2);
  }

  lemma UnmatchedSnoc(keys: seq<string>, combs: seq<seq<Value>>, c: seq<Value>, rules: seq<Rule>)
    ensures Unmatched(keys, combs + [c], rules) ==
      Unmatched(keys, combs, rules) + (if AnyMatch(keys, c, rules) then [] else [c])
  {
    assert (combs + [c])[..|combs|] == combs;
  }

  /** Filtering four combinations one at a time. */
  lemma UnmatchedFour(keys: seq<string>, c0: seq<Value>, c1: seq<Value>, c2: seq<Value>, c3: seq<Value>, rules: seq<Rule>)
    ensures Unmatched(keys, [c0, c1, c2, c3], rules) ==
      (if AnyMatch(keys, c0, rules) then [] else [c0])
      + (if AnyMatch(keys, c1, rules) then [] else [c1])
      + (if AnyMatch(keys, c2, rules) then [] else [c2])
      + (if AnyMatch(keys, c3, rules) then [] else [c3])
  {
    var u0 := if AnyMatch(keys, c0, rules) then [] else [c0];
    var u1 := if AnyMatch(keys, c1, rules) then [] else [c1];
    var u2 := if AnyMatch(keys, c2, rules) then [] else [c2];
    var u3 := if AnyMatch(keys, c3, rules) then [] else [c3];
    var s1, s2, s3 := [c0], [c0, c1], [c0, c1, c2];
    UnmatchedSnoc(keys, [], c0, rules);
    assert [] + [c0] == s1;
    UnmatchedSnoc(keys, s1, c1, rules);
    assert s1 + [c1] == s2;
    UnmatchedSnoc(keys, s2, c2, rules);
    assert s2 + [c2] == s3;
    UnmatchedSnoc(keys, s3, c3, rules);
    assert s3 + [c3] == [c0, c1, c2, c3];
    assert Unmatched(keys, [], rules) == [];
  }

  lemma PairColumnsOf(ka: string, kb: string, kept: seq<seq<Value>>)
    requires ka != kb && Wide(kept, 2)
    ensures ColumnsOf([ka, kb], kept) == PairColumns(ka, kb, Column(kept, 0), Column(kept, 1))
  {
    var keys := [ka, kb];
    assert keys[..1] == [ka];
    assert keys[..1][..0] == [];
    var first := ColumnsOf(keys[..1], kept);
    assert ColumnsOf(keys[..1][..0], kept) == Empty();
    assert first == Put(Empty(), ka, Column(kept, 0));
    assert first == DictRep([ka], map[ka := Column(kept, 0)]);
    assert ColumnsOf(keys, kept) == Put(first, kb, Column(kept, 1));
  }

  lemma CombinationsOk(values: PyDict<seq<Value>>, exclude: seq<Rule>, all: seq<seq<Value>>, kept: seq<seq<Value>>)
    requires values.keys != [] && Product(ListsOf(values)) == all
    requires Survivors(values.keys, all, exclude) == Ok(kept) && Wide(kept, |values.keys|)
    ensures Combinations(values, exclude) == Ok((|kept|, ColumnsOf(values.keys, kept)))
  {
  }

  lemma ColumnTwo(c0: seq<Value>, c1: seq<Value>, k: nat)
    requires k < |c0| && k < |c1|
    ensures Column([c0, c1], k) == [c0[k], c1[k]]
  {
  }

  lemma ColumnThree(c0: seq<Value>, c1: seq<Value>, c2: seq<Value>, k: nat)
    requires k < |c0| && k < |c1| && k < |c2|
    ensures Column([c0, c1, c2], k) == [c0[k], c1[k], c2[k]]
  {
  }

  lemma ColumnFour(c0: seq<Value>, c1: seq<Value>, c2: seq<Value>, c3: seq<Value>, k: nat)
    requires k < |c0| && k < |c1| && k < |c2| && k < |c3|
    ensures Column([c0, c1, c2, c3], k) == [c0[k], c1[k], c2[k], c3[k]]
  {
  }

  /** Without rules: four jobs, `ka = [x1, x1, x2, x2]`, `kb = [y1, y2, y1, y2]`. */
  lemma PairNoExclusion(ka: string, kb: string, x1: Value, x2: Value, y1: Value, y2: Value)
    requires ka != kb
    ensures Combinations(PairGrid(ka, kb, x1, x2, y1, y2), []) ==
      Ok((4, PairColumns(ka, kb, [x1, x1, x2, x2], [y1, y2, y1, y2])))
  {
    var all := [[x1, y1], [x1, y2], [x2, y1], [x2, y2]];
    PairProduct(ka, kb, x1, x2, y1, y2);
    PairAllSurvive(ka, kb, all);
    CombinationsOk(PairGrid(ka, kb, x1, x2, y1, y2), [], all, all);
    PairColumnsFour(ka, kb, x1, x2, y1, y2);
  }

  lemma PairAllSurvive(ka: string, kb: string, all: seq<seq<Value>>)
    ensures Survivors([ka, kb], all, []) == Ok(all)
  {
    SurvivorsAreUnmatched([ka, kb], all, []);
    UnmatchedNoRules([ka, kb], all);
  }

  lemma PairColumnsFour(ka: string, kb: string, x1: Value, x2: Value, y1: Value, y2: Value)
    requires ka != kb
    ensures ColumnsOf([ka, kb], [[x1, y1], [x1, y2], [x2, y1], [x2, y2]]) ==
      PairColumns(ka, kb, [x1, x1, x2, x2], [y1, y2, y1, y2])
  {
    var all := [[x1, y1], [x1, y2], [x2, y1], [x2, y2]];
    PairColumnsOf(ka, kb, all);
    ColumnFour([x1, y1], [x1, y2], [x2, y1], [x2, y2], 0);
    ColumnFour([x1, y1], [x1, y2], [x2, y1], [x2, y2], 1);
  }

  /** A pair agrees with a rule when it agrees on each key the rule names. */
  lemma PairMatches(ka: string, kb: string, a: Value, b: Value, rule: Rule)
    requires ka != kb && rule.Keys <= {ka, kb}
    requires ka in rule ==> PyEq(a, rule[ka])
    requires kb in rule ==> PyEq(b, rule[kb])
    ensures AnyMatch([ka, kb], [a, b], [rule])
  {
    var keys := [ka, kb];
    assert Matches(keys, [a, b], rule) by {
      assert keys[0] == ka && keys[1] == kb;
    }
    assert [rule][0] == rule;
  }

  /** A pair that disagrees with a rule on the rule's key `k` does not match it. */
  lemma PairMisses(ka: string, kb: string, a: Value, b: Value, rule: Rule, i: nat)
    requires i < 2 && [ka, kb][i] in rule && !PyEq([a, b][i], rule[[ka, kb][i]])
    ensures !AnyMatch([ka, kb], [a, b], [rule])
  {
    assert !Matches([ka, kb], [a, b], rule);
  }

  lemma PairFullRuleSurvivors(ka: string, kb: string, x1: Value, x2: Value, y1: Value, y2: Value)
    requires ka != kb && !PyEq(x1, x2) && !PyEq(y1, y2)
    ensures Survivors([ka, kb], [[x1, y1], [x1, y2], [x2, y1], [x2, y2]], [map[ka := x1, kb := y1]]) ==
      Ok([[x1, y2], [x2, y1], [x2, y2]])
  {
    var rules := [map[ka := x1, kb := y1]];
    var keys := [ka, kb];
    var all := [[x1, y1], [x1, y2], [x2, y1], [x2, y2]];
    assert RuleKeysValid(keys, rules[0]);
    SurvivorsAreUnmatched(keys, all, rules);
    PyEqReflexive(x1);
    PyEqReflexive(y1);
    PyEqSymmetric(x1, x2);
    PyEqSymmetric(y1, y2);
    PairMatches(ka, kb, x1, y1, rules[0]);
    PairMisses(ka, kb, x1, y2, rules[0], 1);
    PairMisses(ka, kb, x2, y1, rules[0], 0);
    PairMisses(ka, kb, x2, y2, rules[0], 0);
    UnmatchedFour(keys, all[0], all[1], all[2], all[3], rules);
    assert [] + [all[1]] + [all[2]] + [all[3]] == [[x1, y2], [x2, y1], [x2, y2]];
  }

  /** The rule `{ka: x1, kb: y1}` drops the first combination: `ka = [x1, x2, x2]`,
      `kb = [y2, y1, y2]`. */
  lemma PairFullRule(ka: string, kb: string, x1: Value, x2: Value, y1: Value, y2: Value)
    requires ka != kb && !PyEq(x1, x2) && !PyEq(y1, y2)
    ensures Combinations(PairGrid(ka, kb, x1, x2, y1, y2), [map[ka := x1, kb := y1]]) ==
      Ok((3, PairColumns(ka, kb, [x1, x2, x2], [y2, y1, y2])))
  {
    var all := [[x1, y1], [x1, y2], [x2, y1], [x2, y2]];
    var kept := [[x1, y2], [x2, y1], [x2, y2]];
    PairProduct(ka, kb, x1, x2, y1, y2);
    PairFullRuleSurvivors(ka, kb, x1, x2, y1, y2);
    CombinationsOk(PairGrid(ka, kb, x1, x2, y1, y2), [map[ka := x1, kb := y1]], all, kept);
    PairColumnsOf(ka, kb, kept);
    ColumnThree([x1, y2], [x2, y1], [x2, y2], 0);
    ColumnThree([x1, y2], [x2, y1], [x2, y2], 1);
  }

  lemma PairPartialRuleSurvivors(ka: string, kb: string, x1: Value, x2: Value, y1: Value, y2: Value)
    requires ka != kb && !PyEq(x1, x2)
    ensures Survivors([ka, kb], [[x1, y1], [x1, y2], [x2, y1], [x2, y2]], [map[ka := x1]]) ==
      Ok([[x2, y1], [x2, y2]])
  {
    var rules := [map[ka := x1]];
    var keys := [ka, kb];
    var all := [[x1, y1], [x1, y2], [x2, y1], [x2, y2]];
    assert RuleKeysValid(keys, rules[0]);
    SurvivorsAreUnmatched(keys, all, rules);
    PyEqReflexive(x1);
    PyEqSymmetric(x1, x2);
    PairMatches(ka, kb, x1, y1, rules[0]);
    PairMatches(ka, kb, x1, y2, rules[0]);
    PairMisses(ka, kb, x2, y1, rules[0], 0);
    PairMisses(ka, kb, x2, y2, rules[0], 0);
    UnmatchedFour(keys, all[0], all[1], all[2], all[3], rules);
    assert [] + [] + [all[2]] + [all[3]] == [[x2, y1], [x2, y2]];
  }

  /** The partial rule `{ka: x1}` drops both combinations with `ka = x1`: `ka = [x2, x2]`,
      `kb = [y1, y2]`. */
  lemma PairPartialRule(ka: string, kb: string, x1: Value, x2: Value, y1: Value, y2: Value)
    requires ka != kb && !PyEq(x1, x2)
    ensures Combinations(PairGrid(ka, kb, x1, x2, y1, y2), [map[ka := x1]]) ==
      Ok((2, PairColumns(ka, kb, [x2, x2], [y1, y2])))
  {
    var all := [[x1, y1], [x1, y2], [x2, y1], [x2, y2]];
    var kept := [[x2, y1], [x2, y2]];
    PairProduct(ka, kb, x1, x2, y1, y2);
    PairPartialRuleSurvivors(ka, kb, x1, x2, y1, y2);
    CombinationsOk(PairGrid(ka, kb, x1, x2, y1, y2), [map[ka := x1]], all, kept);
    PairColumnsOf(ka, kb, kept);
    ColumnTwo([x2, y1], [x2, y2], 0);
    ColumnTwo([x2, y1], [x2, y2], 1);
  }

  /** With the values of the repository's tests: `{a: [1, 2], b: [3, 4]}` gives
      `a = [1, 1, 2, 2]`, `b = [3, 4, 3, 4]`; excluding `{a: 1, b: 3}` gives `a = [1, 2, 2]`,
      `b = [4, 3, 4]`; excluding `{a: 1}` gives `a = [2, 2]`, `b = [3, 4]`. */
  lemma RepositoryTestGrids()
    ensures var g := PairGrid("a", "b", Int(1), Int(2), Int(3), Int(4));
      && Combinations(g, []) == Ok((4, PairColumns("a", "b", [Int(1), Int(1), Int(2), Int(2)], [Int(3), Int(4), Int(3), Int(4)])))
      && Combinations(g, [map["a" := Int(1), "b" := Int(3)]]) == Ok((3, PairColumns("a", "b", [Int(1), Int(2), Int(2)], [Int(4), Int(3), Int(4)])))
      && Combinations(g, [map["a" := Int(1)]]) == Ok((2, PairColumns("a", "b", [Int(2), Int(2)], [Int(3), Int(4)])))
  {
    assert !PyEq(Int(1), Int(2)) && !PyEq(Int(3), Int(4));
    PairNoExclusion("a", "b", Int(1), Int(2), Int(3), Int(4));
    PairFullRule("a", "b", Int(1), Int(2), Int(3), Int(4));
    PairPartialRule("a", "b", Int(1), Int(2), Int(3), Int(4));
  }
}

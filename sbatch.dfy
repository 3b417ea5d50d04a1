/** auto_sbatch/sbatch.py: `SBatch`, which holds the Slurm directives, the script
    parameters, the setup and post commands and an optional grid search, and assembles the
    text of a Slurm batch script from them. */
module SBatches {
  import opened Wrappers
  import opened PyStrings
  import opened OrderedDicts
  import opened PyValues
  import opened Processes
  import opened GridSearching

  const ArrayKey: string := "--array"
  const GresKey: string := "--gres"
  const AutoArrayMessage: string := "Cannot have --array=auto when no grid_search is set."
  const Shebang: string := "#!/bin/sh"

  // ---------------------------------------------------------------------------
  // Values written into the script

  /** `get_arg_value`: `None` is written `null`; any other value is its `str` with every
      double quote escaped, so that unescaping gives the `str` back. */
  function ArgValue(v: Value): (r: string)
    ensures v.None? ==> r == "null"
    ensures !v.None? ==> UnescapeQuotes(r) == PyStr(v)
    ensures forall i :: 0 <= i < |r| && r[i] == '"' ==> 0 < i && r[i - 1] == '\\'
  {
    if v.None? then "null"
    else
      UnescapeEscapeQuotes(PyStr(v));
      EscapeQuotesGuarded(PyStr(v));
      EscapeQuotes(PyStr(v))
  }

  /** The shell variable stem of a key: `key.replace(".", "_").replace("/", "_")`. The
      result has the key's length, and each `.` and `/` of the key is a `_`. */
  function VarName(key: string): (r: string)
    ensures |r| == |key|
    ensures forall i :: 0 <= i < |key| ==> r[i] == if key[i] == '.' || key[i] == '/' then '_' else key[i]
  {
    var dotted := ReplaceAll(key, ".", "_");
    ReplaceChar(key, '.', '_');
    ReplaceChar(dotted, '/', '_');
    ReplaceAll(dotted, "/", "_")
  }

  /** Keys that differ only where one has `.`, `/` or `_` and the other another of these
      share a shell variable. */
  lemma VarNameCollides(a: string, b: string)
    requires |a| == |b|
    requires forall i :: 0 <= i < |a| ==> a[i] == b[i] || (a[i] in "./_" && b[i] in "./_")
    ensures VarName(a) == VarName(b)
  {
    var ra, rb := VarName(a), VarName(b);
    forall i | 0 <= i < |a| ensures ra[i] == rb[i] {
      if a[i] != b[i] {
        assert a[i] in "./_" && b[i] in "./_";
      }
    }
  }

  /** A key without `.` or `/` is its own variable stem. */
  lemma VarNameKeeps(key: string)
    requires '.' !in key && '/' !in key
    ensures VarName(key) == key
  {
  }

  /** Distinct keys can share a variable: `a.b`, `a/b` and `a_b` all become `a_b`. */
  lemma VarNameCollision()
    ensures VarName("a.b") == VarName("a/b") == VarName("a_b") == "a_b"
  {
    VarNameCollides("a.b", "a_b");
    VarNameCollides("a/b", "a_b");
    VarNameKeeps("a_b");
  }


  /** `get_num_gpus`: the integer after the first `:` of `--gres`, 0 when there is no
      `--gres` or it has no `:`. A value that is not a string has no `split`. */
  function NumGpus(slurmParams: PyDict<Value>): Result<int> {
    if !Has(slurmParams, GresKey) then Ok(0)
    else match Get(slurmParams, GresKey)
      case Str(s) =>
        var parts := Split(s, ':');
        if |parts| > 1 then ParseInt(parts[1]) else Ok(0)
      case _ => Err(AttributeError)
  }

  /** `--gres=<name>:<n>` gives `n`; without `--gres`, or with a value without `:`, the count
      is 0. */
  lemma NumGpusMeaning(slurmParams: PyDict<Value>, name: string, n: int)
    requires ':' !in name
    ensures Has(slurmParams, GresKey) && Get(slurmParams, GresKey) == Str(name + ":" + IntToString(n)) ==>
      NumGpus(slurmParams) == Ok(n)
    ensures Has(slurmParams, GresKey) && Get(slurmParams, GresKey) == Str(name) ==> NumGpus(slurmParams) == Ok(0)
    ensures !Has(slurmParams, GresKey) ==> NumGpus(slurmParams) == Ok(0)
  {
    var count := IntToString(n);
    assert ':' !in count by {
      NatToStringDigits(if n < 0 then -n else n);
      if n < 0 {
        assert count[1..] == NatToString(-n);
        forall i | 0 <= i < |count| ensures count[i] != ':' {
          if i > 0 {
            assert count[i] == count[1..][i - 1];
          }
        }
      }
    }
    SplitAt(name, count, ':');
    assert name + ":" + count == name + [':'] + count;
    SplitAbsent(count, ':');
    SplitAbsent(name, ':');
    ParseIntToString(n);
  }

  /** A typed request `--gres=<name>:<type>:<n>` takes the type for the count, which is not
      an integer, and raises. */
  lemma NumGpusTypedGres(slurmParams: PyDict<Value>, name: string, gpuType: string, n: string)
    requires ':' !in name && ':' !in gpuType
    requires gpuType != [] && !IsSpace(gpuType[0]) && !IsSpace(gpuType[|gpuType| - 1])
    requires !IsDigit(gpuType[0]) && gpuType[0] != '-' && gpuType[0] != '+'
    requires Has(slurmParams, GresKey) && Get(slurmParams, GresKey) == Str(name + ":" + gpuType + ":" + n)
    ensures NumGpus(slurmParams).Err?
  {
    SplitAt(name, gpuType + ":" + n, ':');
    assert name + ":" + gpuType + ":" + n == name + [':'] + (gpuType + ":" + n);
    SplitAt(gpuType, n, ':');
    assert gpuType + ":" + n == gpuType + [':'] + n;
    StripClean(gpuType);
  }

  // ---------------------------------------------------------------------------
  // The state of an SBatch

  /** The experiment handler's contribution: the commands `new_run()` returns, the
      arguments of `get_main_command_args()` and the name of its script. */
  datatype Handler = Handler(commands: seq<string>, mainCommandArgs: map<string, Value>, scriptName: string)

  /** A snapshot of an `SBatch`'s fields. Setup and post commands are kept as the text their
      private `Command` copies return. */
  datatype Config = Config(
    slurmParams: PyDict<Value>,
    scriptParams: PyDict<Value>,
    commands: seq<string>,
    postCommands: seq<string>,
    nJobSeq: int,
    mainCommandArgs: map<string, Value>,
    gridSearch: Option<GridSearch>,
    scriptName: Option<string>)

  function DictOrEmpty(d: Option<PyDict<Value>>): PyDict<Value> {
    if d.None? then Empty() else d.value
  }

  /** `_is_slurm_array_auto`. */
  predicate IsArrayAuto(slurmParams: PyDict<Value>) {
    Has(slurmParams, ArrayKey) && Get(slurmParams, ArrayKey) == Str("auto")
  }

  /** What `set_grid_search` makes of the state, or raises. */
  function ApplyGridSearch(c: Config): Result<Config> {
    var c' := if c.gridSearch.Some? then c.(nJobSeq := c.gridSearch.value.nJobs) else c;
    if !IsArrayAuto(c.slurmParams) then Ok(c')
    else if c.gridSearch.None? then Err(ValueError(AutoArrayMessage))
    else
      var n := c.gridSearch.value.nJobs;
      var rewritten := Put(c.slurmParams, ArrayKey, Str("0-" + IntToString(n - 1)));
      Ok(c'.(slurmParams := if n == 1 then Remove(rewritten, ArrayKey) else rewritten))
  }

  /** `set_grid_search` raises exactly for `--array=auto` without a grid search. Otherwise
      it takes the job count from the grid (keeping it without one), rewrites `auto` to the
      range `0-<n-1>` in place, or drops `--array` for a single job, and touches nothing
      else. */
  lemma ApplyGridSearchMeaning(c: Config)
    ensures ApplyGridSearch(c).Err? <==> IsArrayAuto(c.slurmParams) && c.gridSearch.None?
    ensures ApplyGridSearch(c).Ok? ==>
      var c' := ApplyGridSearch(c).value;
      && c'.nJobSeq == (if c.gridSearch.Some? then c.gridSearch.value.nJobs else c.nJobSeq)
      && c' == c.(nJobSeq := c'.nJobSeq, slurmParams := c'.slurmParams)
      && (!IsArrayAuto(c.slurmParams) ==> c'.slurmParams == c.slurmParams)
      && (IsArrayAuto(c.slurmParams) && c'.nJobSeq != 1 ==>
            c'.slurmParams.keys == c.slurmParams.keys
            && Get(c'.slurmParams, ArrayKey) == Str("0-" + IntToString(c'.nJobSeq - 1)))
      && (IsArrayAuto(c.slurmParams) && c'.nJobSeq == 1 ==> !Has(c'.slurmParams, ArrayKey))
      && (forall k :: k != ArrayKey ==> (Has(c'.slurmParams, k) <==> Has(c.slurmParams, k)))
      && (forall k :: k != ArrayKey && Has(c.slurmParams, k) ==> Get(c'.slurmParams, k) == Get(c.slurmParams, k))
  {
  }

  /** Once applied, applying it again changes nothing: the range it wrote is not `auto`. */
  lemma ApplyGridSearchIdempotent(c: Config)
    requires ApplyGridSearch(c).Ok?
    ensures ApplyGridSearch(ApplyGridSearch(c).value) == ApplyGridSearch(c)
  {
    var c' := ApplyGridSearch(c).value;
    if IsArrayAuto(c.slurmParams) && c'.nJobSeq != 1 {
      var range := "0-" + IntToString(c'.nJobSeq - 1);
      assert range[0] != "auto"[0];
      assert !IsArrayAuto(c'.slurmParams);
    }
  }

  // ---------------------------------------------------------------------------
  // The run-command fields (get_run_params)

  /** The fields `get_run_params` returns. */
  datatype RunParams = RunParams(params: string, gridSearch: string, all: string, gridSearchString: string)

  /** The grid-search columns, or none without a grid search. */
  function GridColumns(g: Option<GridSearch>): Columns {
    if g.None? then Empty() else g.value.combinations
  }

  function ParamSuffix(hasArray: bool): string {
    if hasArray then "_param[$taskId]" else "_param"
  }

  /** The `"k=v"` token of one script parameter. */
  function PlainToken(key: string, v: Value): string {
    "\"" + key + "=" + ArgValue(v) + "\""
  }

  /** The `"k=v"` token of every script parameter that is not a grid-search key, in order. */
  function PlainTokens(items: seq<(string, Value)>, grid: Columns): seq<string> {
    if items == [] then []
    else
      var init := PlainTokens(items[..|items| - 1], grid);
      var (k, v) := items[|items| - 1];
      if Has(grid, k) then init else init + [PlainToken(k, v)]
  }

  /** The reference to a grid-search variable: `k=${<var>_param}`, indexed by `$taskId`
      under a native array. */
  function GridReference(key: string, hasArray: bool): string {
    key + "=${" + VarName(key) + ParamSuffix(hasArray) + "}"
  }

  function GridTokens(keys: seq<string>, hasArray: bool): (r: seq<string>)
    ensures |r| == |keys|
    ensures forall i :: 0 <= i < |keys| ==> r[i] == "\"" + GridReference(keys[i], hasArray) + "\""
  {
    seq(|keys|, i requires 0 <= i < |keys| => "\"" + GridReference(keys[i], hasArray) + "\"")
  }

  function GridReferences(keys: seq<string>, hasArray: bool): (r: seq<string>)
    ensures |r| == |keys|
    ensures forall i :: 0 <= i < |keys| ==> r[i] == GridReference(keys[i], hasArray)
  {
    seq(|keys|, i requires 0 <= i < |keys| => GridReference(keys[i], hasArray))
  }

  /** The fields: `params` the plain tokens, `grid_search` the grid tokens, `all` both, each
      space-separated; `grid_search_string` the grid references separated by `_`. */
  function RunParamsOf(c: Config): RunParams {
    var hasArray := Has(c.slurmParams, ArrayKey);
    var grid := GridColumns(c.gridSearch);
    var plain := PlainTokens(Items(c.scriptParams), grid);
    var gridTokens := GridTokens(grid.keys, hasArray);
    RunParams(Join(" ", plain), Join(" ", gridTokens), Join(" ", plain + gridTokens),
              Join("_", GridReferences(grid.keys, hasArray)))
  }

  /** A plain token names a script parameter that is not a grid-search key, and every such
      parameter has its token. */
  lemma PlainTokensMeaning(items: seq<(string, Value)>, grid: Columns)
    ensures forall t :: t in PlainTokens(items, grid) ==>
      exists i :: 0 <= i < |items| && !Has(grid, items[i].0) && t == PlainToken(items[i].0, items[i].1)
    ensures forall i :: 0 <= i < |items| && !Has(grid, items[i].0) ==>
      PlainToken(items[i].0, items[i].1) in PlainTokens(items, grid)
  {
    forall t | t in PlainTokens(items, grid)
      ensures exists i :: 0 <= i < |items| && !Has(grid, items[i].0) && t == PlainToken(items[i].0, items[i].1)
    {
      var i := PlainTokenSource(items, grid, t);
    }
    forall i | 0 <= i < |items| && !Has(grid, items[i].0)
      ensures PlainToken(items[i].0, items[i].1) in PlainTokens(items, grid)
    {
      PlainTokenPresent(items, grid, i);
    }
  }

  /** The script parameter a plain token comes from. */
  lemma {:induction false} PlainTokenSource(items: seq<(string, Value)>, grid: Columns, t: string) returns (i: nat)
    requires t in PlainTokens(items, grid)
    ensures i < |items| && !Has(grid, items[i].0) && t == PlainToken(items[i].0, items[i].1)
  {
    var init, last := items[..|items| - 1], items[|items| - 1];
    var before := PlainTokens(init, grid);
    assert PlainTokens(items, grid) == if Has(grid, last.0) then before else before + [PlainToken(last.0, last.1)];
    if t in before {
      i := PlainTokenSource(init, grid, t);
      assert items[i] == init[i];
    } else {
      i := |items| - 1;
    }
  }

  /** A script parameter that is not a grid-search key has its plain token. */
  lemma {:induction false} PlainTokenPresent(items: seq<(string, Value)>, grid: Columns, i: nat)
    requires i < |items| && !Has(grid, items[i].0)
    ensures PlainToken(items[i].0, items[i].1) in PlainTokens(items, grid)
  {
    var init, last := items[..|items| - 1], items[|items| - 1];
    var before := PlainTokens(init, grid);
    assert PlainTokens(items, grid) == if Has(grid, last.0) then before else before + [PlainToken(last.0, last.1)];
    if i < |init| {
      PlainTokenPresent(init, grid, i);
      assert items[i] == init[i];
    }
  }

  /** `all` is `params` and `grid_search` separated by one space, or whichever of them is
      not empty. */
  lemma RunParamsAll(c: Config)
    ensures var p := RunParamsOf(c);
      var plain := PlainTokens(Items(c.scriptParams), GridColumns(c.gridSearch));
      var grid := GridColumns(c.gridSearch).keys;
      && (plain == [] ==> p.all == p.gridSearch)
      && (grid == [] ==> p.all == p.params)
      && (plain != [] && grid != [] ==> p.all == p.params + " " + p.gridSearch)
  {
    var hasArray := Has(c.slurmParams, ArrayKey);
    var plain := PlainTokens(Items(c.scriptParams), GridColumns(c.gridSearch));
    var tokens := GridTokens(GridColumns(c.gridSearch).keys, hasArray);
    if plain == [] {
      assert plain + tokens == tokens;
    } else if tokens == [] {
      assert plain + tokens == plain;
    } else {
      JoinConcat(" ", plain, tokens);
    }
  }

  // ---------------------------------------------------------------------------
  // The script (make_slurm_script)

  /** The `#SBATCH` line of every `--` or `-` key, in insertion order; other keys are
      skipped. */
  function DirectiveLines(items: seq<(string, Value)>): seq<string> {
    if items == [] then []
    else
      var init := DirectiveLines(items[..|items| - 1]);
      var (k, v) := items[|items| - 1];
      if StartsWith(k, "--") then init + ["#SBATCH " + k + "=" + PyStr(v)]
      else if StartsWith(k, "-") then init + ["#SBATCH " + k + " " + PyStr(v)]
      else init
  }

  /** Whether a key is written as a directive. */
  predicate IsDirectiveKey(k: string) {
    StartsWith(k, "-")
  }

  /** The directive for one key. */
  function DirectiveLine(k: string, v: Value): string
    requires IsDirectiveKey(k)
  {
    if StartsWith(k, "--") then "#SBATCH " + k + "=" + PyStr(v) else "#SBATCH " + k + " " + PyStr(v)
  }

  /** The directive keys in insertion order. */
  function DirectiveItems(items: seq<(string, Value)>): (r: seq<(string, Value)>)
    ensures forall i :: 0 <= i < |r| ==> IsDirectiveKey(r[i].0)
  {
    if items == [] then []
    else
      var init := DirectiveItems(items[..|items| - 1]);
      if IsDirectiveKey(items[|items| - 1].0) then init + [items[|items| - 1]] else init
  }

  /** There is one directive line per `-`-prefixed key, in insertion order, in the form
      `--k=v` or `-k v`. */
  lemma {:induction false} DirectiveLinesMeaning(items: seq<(string, Value)>)
    ensures |DirectiveLines(items)| == |DirectiveItems(items)|
    ensures forall i :: 0 <= i < |DirectiveItems(items)| ==>
      DirectiveLines(items)[i] == DirectiveLine(DirectiveItems(items)[i].0, DirectiveItems(items)[i].1)
    ensures forall x :: x in DirectiveItems(items) <==> x in items && IsDirectiveKey(x.0)
  {
    if items != [] {
      var init := items[..|items| - 1];
      DirectiveLinesMeaning(init);
      assert items == init + [items[|items| - 1]];
      var (k, v) := items[|items| - 1];
      if StartsWith(k, "--") {
        assert StartsWith(k, "-") by { assert k[..1] == k[..2][..1]; }
      }
    }
  }

  /** The declaration of one grid-search key: with an explicit task id and no native array,
      the scalar value for that task; otherwise the array of all its values. */
  function Declaration(key: string, values: seq<Value>, hasArray: bool, taskId: Option<int>): Result<string> {
    if !hasArray && taskId.Some? then
      var v :- Index(values, taskId.value);
      Ok(VarName(key) + "_param=" + ArgValue(v))
    else
      Ok(VarName(key) + "_param=(\"" + Join("\" \"", ArgValues(values)) + "\")")
  }

  function ArgValues(values: seq<Value>): (r: seq<string>)
    ensures |r| == |values|
    ensures forall i :: 0 <= i < |values| ==> r[i] == ArgValue(values[i])
  {
    seq(|values|, i requires 0 <= i < |values| => ArgValue(values[i]))
  }

  /** The declarations of the grid-search keys in order; the first index out of range
      raises. */
  function Declarations(cols: seq<(string, seq<Value>)>, hasArray: bool, taskId: Option<int>): Result<seq<string>> {
    if cols == [] then Ok([])
    else
      var init :- Declarations(cols[..|cols| - 1], hasArray, taskId);
      var (k, values) := cols[|cols| - 1];
      var line :- Declaration(k, values, hasArray, taskId);
      Ok(init + [line])
  }

  lemma {:induction false} DeclarationsPrefixErr(cols: seq<(string, seq<Value>)>, hasArray: bool, taskId: Option<int>, n: nat)
    requires n <= |cols| && Declarations(cols[..n], hasArray, taskId).Err?
    ensures Declarations(cols, hasArray, taskId) == Declarations(cols[..n], hasArray, taskId)
    decreases |cols| - n
  {
    if n < |cols| {
      assert cols[..n + 1][..n] == cols[..n];
      DeclarationsPrefixErr(cols, hasArray, taskId, n + 1);
    } else {
      assert cols[..n] == cols;
    }
  }

  /** The declarations succeed exactly when every key's declaration does, and then hold one
      line per grid-search key, in column order. */
  lemma DeclarationsMeaning(cols: seq<(string, seq<Value>)>, hasArray: bool, taskId: Option<int>)
    ensures Declarations(cols, hasArray, taskId).Ok? <==>
      forall i :: 0 <= i < |cols| ==> Declaration(cols[i].0, cols[i].1, hasArray, taskId).Ok?
    ensures Declarations(cols, hasArray, taskId).Ok? ==>
      |Declarations(cols, hasArray, taskId).value| == |cols| &&
      forall i :: 0 <= i < |cols| ==>
        Declarations(cols, hasArray, taskId).value[i] == Declaration(cols[i].0, cols[i].1, hasArray, taskId).value
  {
    var f := (col: (string, seq<Value>)) => Declaration(col.0, col.1, hasArray, taskId);
    DeclarationsAreEach(cols, hasArray, taskId);
    EachOkMeaning(cols, f);
    assert forall i :: 0 <= i < |cols| ==> f(cols[i]) == Declaration(cols[i].0, cols[i].1, hasArray, taskId);
  }

  /** `f` applied to every element in order, up to the first failure. */
  function EachOk<T, U>(xs: seq<T>, f: T -> Result<U>): Result<seq<U>> {
    if xs == [] then Ok([])
    else
      var init :- EachOk(xs[..|xs| - 1], f);
      var y :- f(xs[|xs| - 1]);
      Ok(init + [y])
  }

  lemma {:induction false} EachOkMeaning<T, U>(xs: seq<T>, f: T -> Result<U>)
    ensures EachOk(xs, f).Ok? <==> forall i :: 0 <= i < |xs| ==> f(xs[i]).Ok?
    ensures EachOk(xs, f).Ok? ==>
      |EachOk(xs, f).value| == |xs| && forall i :: 0 <= i < |xs| ==> EachOk(xs, f).value[i] == f(xs[i]).value
    decreases |xs|
  {
    if xs != [] {
      var init := xs[..|xs| - 1];
      EachOkMeaning(init, f);
      assert forall i :: 0 <= i < |init| ==> init[i] == xs[i];
    }
  }

  lemma {:induction false} DeclarationsAreEach(cols: seq<(string, seq<Value>)>, hasArray: bool, taskId: Option<int>)
    ensures Declarations(cols, hasArray, taskId) ==
      EachOk(cols, (col: (string, seq<Value>)) => Declaration(col.0, col.1, hasArray, taskId))
    decreases |cols|
  {
    if cols != [] {
      DeclarationsAreEach(cols[..|cols| - 1], hasArray, taskId);
    }
  }

  /** Each string wrapped in double quotes. */
  function Quoted(xs: seq<string>): (r: seq<string>)
    ensures |r| == |xs|
    ensures forall i :: 0 <= i < |xs| ==> r[i] == "\"" + xs[i] + "\""
  {
    seq(|xs|, i requires 0 <= i < |xs| => "\"" + xs[i] + "\"")
  }

  /** Joining with `" "` inside an outer pair of quotes is joining the quoted items with a
      space. */
  lemma {:induction false} QuotedJoin(xs: seq<string>)
    requires xs != []
    ensures "\"" + Join("\" \"", xs) + "\"" == Join(" ", Quoted(xs))
    decreases |xs|
  {
    if |xs| == 1 {
      assert Join("\" \"", xs) == xs[0];
      assert Join(" ", Quoted(xs)) == Quoted(xs)[0];
    } else {
      var ys, x := xs[..|xs| - 1], xs[|xs| - 1];
      assert xs == ys + [x];
      QuotedJoin(ys);
      JoinSnoc("\" \"", ys, x);
      assert Quoted(xs) == Quoted(ys) + [Quoted(xs)[|xs| - 1]];
      JoinSnoc(" ", Quoted(ys), Quoted(xs)[|xs| - 1]);
      QuoteStep(Join("\" \"", ys), x);
    }
  }

  /** One step of `QuotedJoin`: the inner `" "` separator closes one quote and opens the next. */
  lemma QuoteStep(j: string, x: string)
    ensures "\"" + (j + "\" \"" + x) + "\"" == ("\"" + j + "\"") + " " + ("\"" + x + "\"")
  {
    assert "\" \"" == "\"" + " " + "\"";
  }

  /** With an explicit task id and no native array, a key is declared as the scalar
      `<var>_param=<value>` of that task; an id outside the column raises `IndexError`
      (a negative id counts from the end, as Python's index does). */
  lemma DeclarationScalar(key: string, values: seq<Value>, id: int)
    ensures Declaration(key, values, false, Some(id)).Ok? <==> -|values| <= id < |values|
    ensures 0 <= id < |values| ==>
      Declaration(key, values, false, Some(id)) == Ok(VarName(key) + "_param=" + ArgValue(values[id]))
  {
  }

  /** Otherwise a key is declared as the bash array of all its values, each quoted. */
  lemma DeclarationArray(key: string, values: seq<Value>, hasArray: bool, taskId: Option<int>)
    requires hasArray || taskId.None?
    requires values != []
    ensures Declaration(key, values, hasArray, taskId) ==
      Ok(VarName(key) + "_param=(" + Join(" ", Quoted(ArgValues(values))) + ")")
  {
    var j := Join("\" \"", ArgValues(values));
    QuotedJoin(ArgValues(values));
    ArrayText(VarName(key), j);
  }

  lemma ArrayText(v: string, j: string)
    ensures v + "_param=(\"" + j + "\")" == v + "_param=(" + ("\"" + j + "\"") + ")"
  {
    assert "_param=(\"" == "_param=(" + "\"";
    assert "\")" == "\"" + ")";
  }

  /** An empty column (a grid search that excludes every job) still declares an array with
      one empty element. */
  lemma DeclarationEmptyColumn(key: string, hasArray: bool, taskId: Option<int>)
    requires hasArray || taskId.None?
    ensures Declaration(key, [], hasArray, taskId) == Ok(VarName(key) + "_param=(\"\")")
  {
    assert ArgValues([]) == [];
    var v := VarName(key);
    assert v + "_param=(\"" + "" + "\")" == v + "_param=(\"\")";
  }

  /** How `taskId` is obtained. */
  datatype TaskIdStrategy = NativeArray | Explicit | Loop | Single

  function StrategyOf(hasArray: bool, taskId: Option<int>, nJobSeq: int): TaskIdStrategy {
    if hasArray then NativeArray
    else if taskId.Some? then Explicit
    else if nJobSeq > 1 then Loop
    else Single
  }

  const ArrayTaskIdLine: string := "taskId=$SLURM_ARRAY_TASK_ID"
  const FirstTaskIdLine: string := "taskId=0"
  const LoopDo: string := "do"
  const LoopDone: string := "done"

  /** The header of the loop over the `n` jobs. */
  function LoopOpen(nJobSeq: int): string {
    "for taskId in $(seq 0 " + IntToString(nJobSeq - 1) + ")"
  }

  /** The lines that set `taskId`. */
  function TaskIdLines(hasArray: bool, taskId: Option<int>, nJobSeq: int): seq<string> {
    if hasArray then [ArrayTaskIdLine]
    else if taskId.None? && nJobSeq > 1 then [LoopOpen(nJobSeq), LoopDo]
    else if taskId.None? then [FirstTaskIdLine]
    else []
  }

  /** The line that closes the loop, when there is one. */
  function DoneLines(hasArray: bool, taskId: Option<int>, nJobSeq: int): seq<string> {
    if nJobSeq > 1 && taskId.None? && !hasArray then [LoopDone] else []
  }

  /** Each strategy has its own `taskId` lines, and `done` closes exactly the loop. */
  lemma TaskIdStrategies(hasArray: bool, taskId: Option<int>, nJobSeq: int)
    ensures var s := StrategyOf(hasArray, taskId, nJobSeq);
      var lines := TaskIdLines(hasArray, taskId, nJobSeq);
      && (s == NativeArray <==> lines == [ArrayTaskIdLine])
      && (s == Explicit <==> lines == [])
      && (s == Single <==> lines == [FirstTaskIdLine])
      && (s == Loop <==> lines == [LoopOpen(nJobSeq), LoopDo])
      && (DoneLines(hasArray, taskId, nJobSeq) == [LoopDone] <==> s == Loop)
      && (DoneLines(hasArray, taskId, nJobSeq) == [] <==> s != Loop)
  {
  }

  /** The arguments the run command is formatted with: the built-in fields, overridden by
      the handler's arguments, overridden by the caller's. */
  function RunArgs(c: Config, gpus: int, callerArgs: map<string, Value>): map<string, Value> {
    var p := RunParamsOf(c);
    var builtIn := map[
      "script_name" := (if c.scriptName.None? then Value.None else Str(c.scriptName.value)),
      "num_gpus" := Int(gpus),
      "params" := Str(p.params),
      "grid_search_params" := Str(p.gridSearch),
      "grid_search_string" := Str(p.gridSearchString),
      "all_params" := Str(p.all)];
    builtIn + c.mainCommandArgs + callerArgs
  }

  /** A caller's argument wins over the handler's, which wins over the built-in field. */
  lemma RunArgsPrecedence(c: Config, gpus: int, callerArgs: map<string, Value>, k: string)
    ensures k in callerArgs ==> RunArgs(c, gpus, callerArgs)[k] == callerArgs[k]
    ensures k !in callerArgs && k in c.mainCommandArgs ==> RunArgs(c, gpus, callerArgs)[k] == c.mainCommandArgs[k]
    ensures k !in callerArgs && k !in c.mainCommandArgs && k == "num_gpus" ==> RunArgs(c, gpus, callerArgs)[k] == Int(gpus)
    ensures k !in callerArgs && k !in c.mainCommandArgs && k == "all_params" ==> RunArgs(c, gpus, callerArgs)[k] == Str(RunParamsOf(c).all)
  {
  }

  function ArgsOrEmpty(args: Option<map<string, Value>>): map<string, Value> {
    if args.None? then map[] else args.value
  }

  /** The parts of a script, in the order they are written. */
  datatype Parts = Parts(head: seq<string>, decls: seq<string>, ids: seq<string>, run: string,
                         done: seq<string>, post: seq<string>)

  function Lines(p: Parts): seq<string> {
    p.head + (p.decls + (p.ids + ([p.run] + (p.done + p.post))))
  }

  /** The parts of the script, or the first error: an index out of range for a scalar
      declaration, then a malformed `--gres`, then formatting the run command. */
  function ScriptParts(c: Config, runText: string, taskId: Option<int>, callerArgs: map<string, Value>): Result<Parts> {
    var hasArray := Has(c.slurmParams, ArrayKey);
    var decls :- Declarations(Items(GridColumns(c.gridSearch)), hasArray, taskId);
    var gpus :- NumGpus(c.slurmParams);
    var run :- Format(runText, RunArgs(c, gpus, callerArgs));
    Ok(Parts([Shebang] + DirectiveLines(Items(c.slurmParams)) + [""] + c.commands, decls,
             TaskIdLines(hasArray, taskId, c.nJobSeq), run, DoneLines(hasArray, taskId, c.nJobSeq),
             c.postCommands))
  }

  /** The lines of the script, or the first error. */
  function ScriptLines(c: Config, runText: string, taskId: Option<int>, callerArgs: map<string, Value>): Result<seq<string>> {
    var parts :- ScriptParts(c, runText, taskId, callerArgs);
    Ok(Lines(parts))
  }

  /** The script text for a run command given as a string or a command, or the error. */
  function Script(c: Config, runText: Result<string>, taskId: Option<int>, callerArgs: map<string, Value>): Result<string> {
    var text :- runText;
    var lines :- ScriptLines(c, text, taskId, callerArgs);
    Ok(Join("\n", lines))
  }

  /** Where each part sits among the lines. */
  lemma Layout(p: Parts)
    ensures var lines := Lines(p);
      var r := |p.head| + |p.decls| + |p.ids|;
      && |lines| == r + 1 + |p.done| + |p.post|
      && lines[..|p.head|] == p.head
      && lines[|p.head|..|p.head| + |p.decls|] == p.decls
      && lines[|p.head| + |p.decls|..r] == p.ids
      && lines[r] == p.run
      && lines[r + 1..r + 1 + |p.done|] == p.done
      && lines[r + 1 + |p.done|..] == p.post
  {
    var rest := p.done + p.post;
    var w := [p.run] + rest;
    var u := p.ids + w;
    var t := p.decls + u;
    assert Lines(p)[..|p.head|] == p.head;
    assert Lines(p)[|p.head|..] == t;
    assert t[..|p.decls|] == p.decls && t[|p.decls|..] == u;
    assert u[..|p.ids|] == p.ids && u[|p.ids|..] == w;
    assert w[1..] == rest;
    assert rest[..|p.done|] == p.done && rest[|p.done|..] == p.post;
  }

  /** The script's lines are, in order: the shebang, the directives, a blank line, the setup
      commands, the declarations, the `taskId` lines, the formatted run command, `done` exactly
      when the `taskId` lines open a loop, and the post commands last. When no line holds a
      newline, splitting the text at newlines gives exactly these lines. */
  lemma ScriptLayout(c: Config, runText: string, taskId: Option<int>, callerArgs: map<string, Value>, p: Parts)
    requires ScriptParts(c, runText, taskId, callerArgs) == Ok(p)
    ensures var lines := Lines(p);
      var r := |p.head| + |p.decls| + |p.ids|;
      && |lines| == r + 1 + |p.done| + |p.post|
      && lines[0] == Shebang
      && lines[..|p.head|] == [Shebang] + DirectiveLines(Items(c.slurmParams)) + [""] + c.commands
      && Declarations(Items(GridColumns(c.gridSearch)), Has(c.slurmParams, ArrayKey), taskId) == Ok(lines[|p.head|..|p.head| + |p.decls|])
      && lines[|p.head| + |p.decls|..r] == TaskIdLines(Has(c.slurmParams, ArrayKey), taskId, c.nJobSeq)
      && Format(runText, RunArgs(c, NumGpus(c.slurmParams).value, callerArgs)) == Ok(lines[r])
      && lines[r + 1..r + 1 + |p.done|] == DoneLines(Has(c.slurmParams, ArrayKey), taskId, c.nJobSeq)
      && lines[r + 1 + |p.done|..] == c.postCommands
  {
    Layout(p);
    ScriptPartsFields(c, runText, taskId, callerArgs, p);
  }

  lemma ScriptPartsFields(c: Config, runText: string, taskId: Option<int>, callerArgs: map<string, Value>, p: Parts)
    requires ScriptParts(c, runText, taskId, callerArgs) == Ok(p)
    ensures p.head == [Shebang] + DirectiveLines(Items(c.slurmParams)) + [""] + c.commands
    ensures p.head[0] == Shebang
    ensures Declarations(Items(GridColumns(c.gridSearch)), Has(c.slurmParams, ArrayKey), taskId) == Ok(p.decls)
    ensures p.ids == TaskIdLines(Has(c.slurmParams, ArrayKey), taskId, c.nJobSeq)
    ensures NumGpus(c.slurmParams).Ok? && Format(runText, RunArgs(c, NumGpus(c.slurmParams).value, callerArgs)) == Ok(p.run)
    ensures p.done == DoneLines(Has(c.slurmParams, ArrayKey), taskId, c.nJobSeq)
    ensures p.post == c.postCommands
  {
  }

  /** How each failure of a part of the script becomes the script's error. */
  lemma ScriptPartsErrors(c: Config, runText: string, taskId: Option<int>, callerArgs: map<string, Value>)
    ensures var decls := Declarations(Items(GridColumns(c.gridSearch)), Has(c.slurmParams, ArrayKey), taskId);
      && (decls.Err? ==> ScriptParts(c, runText, taskId, callerArgs) == Err(decls.error))
      && (decls.Ok? && NumGpus(c.slurmParams).Err? ==> ScriptParts(c, runText, taskId, callerArgs) == Err(NumGpus(c.slurmParams).error))
      && (decls.Ok? && NumGpus(c.slurmParams).Ok? && Format(runText, RunArgs(c, NumGpus(c.slurmParams).value, callerArgs)).Err? ==>
            ScriptParts(c, runText, taskId, callerArgs) == Err(Format(runText, RunArgs(c, NumGpus(c.slurmParams).value, callerArgs)).error))
  {
  }

  lemma ScriptPartsOk(c: Config, runText: string, taskId: Option<int>, callerArgs: map<string, Value>,
                      decls: seq<string>, gpus: int, run: string)
    requires Declarations(Items(GridColumns(c.gridSearch)), Has(c.slurmParams, ArrayKey), taskId) == Ok(decls)
    requires NumGpus(c.slurmParams) == Ok(gpus)
    requires Format(runText, RunArgs(c, gpus, callerArgs)) == Ok(run)
    ensures ScriptParts(c, runText, taskId, callerArgs) ==
      Ok(Parts([Shebang] + DirectiveLines(Items(c.slurmParams)) + [""] + c.commands, decls,
               TaskIdLines(Has(c.slurmParams, ArrayKey), taskId, c.nJobSeq), run,
               DoneLines(Has(c.slurmParams, ArrayKey), taskId, c.nJobSeq), c.postCommands))
  {
  }

  lemma ScriptOfParts(c: Config, runText: string, taskId: Option<int>, callerArgs: map<string, Value>, p: Parts)
    requires ScriptParts(c, runText, taskId, callerArgs) == Ok(p)
    ensures Script(c, Ok(runText), taskId, callerArgs) == Ok(Join("\n", Lines(p)))
  {
  }

  lemma PartsLines(p: Parts)
    ensures Lines(p) == p.head + p.decls + p.ids + [p.run] + p.done + p.post
  {
  }

  /** When no line holds a newline, splitting the script text at newlines gives its lines
      back. */
  lemma ScriptSplitsIntoLines(c: Config, runText: string, taskId: Option<int>, callerArgs: map<string, Value>)
    requires ScriptLines(c, runText, taskId, callerArgs).Ok?
    requires var lines := ScriptLines(c, runText, taskId, callerArgs).value;
      forall i :: 0 <= i < |lines| ==> '\n' !in lines[i]
    ensures Script(c, Ok(runText), taskId, callerArgs).Ok?
    ensures Split(Script(c, Ok(runText), taskId, callerArgs).value, '\n') == ScriptLines(c, runText, taskId, callerArgs).value
  {
    var lines := ScriptLines(c, runText, taskId, callerArgs).value;
    assert lines == Lines(ScriptParts(c, runText, taskId, callerArgs).value);
    SplitJoin(lines, '\n');
  }

  /** `run` with `schedule_all_tasks`: one script per job when there is no native array;
      otherwise the one task id given. */
  function TaskIdsToRun(taskId: Option<int>, scheduleAll: bool, hasArray: bool, nJobSeq: int): (r: seq<Option<int>>)
    ensures scheduleAll && !hasArray ==> |r| == (if nJobSeq < 0 then 0 else nJobSeq) && forall i :: 0 <= i < |r| ==> r[i] == Some(i)
    ensures !(scheduleAll && !hasArray) ==> r == [taskId]
  {
    if scheduleAll && !hasArray then
      seq(if nJobSeq < 0 then 0 else nJobSeq, i => Some(i))
    else [taskId]
  }

  /** The script for each task id, in order. */
  function Scripts(c: Config, runText: Result<string>, ids: seq<Option<int>>, callerArgs: map<string, Value>): (r: seq<Result<string>>)
    ensures |r| == |ids|
    ensures forall i :: 0 <= i < |ids| ==> r[i] == Script(c, runText, ids[i], callerArgs)
  {
    seq(|ids|, i requires 0 <= i < |ids| => Script(c, runText, ids[i], callerArgs))
  }

  /** The scripts handed to `sbatch` in order, up to the first that raises, and what
      stopped the loop. */
  function Collect(results: seq<Result<string>>): (seq<string>, Outcome) {
    if results == [] then ([], Pass)
    else
      var (init, outcome) := Collect(results[..|results| - 1]);
      if outcome.Fail? then (init, outcome)
      else match results[|results| - 1]
        case Ok(text) => (init + [text], Pass)
        case Err(e) => (init, Fail(e))
  }

  /** When every script can be made, all of them are submitted, in order. */
  lemma {:induction false} CollectAll(results: seq<Result<string>>)
    requires forall i :: 0 <= i < |results| ==> results[i].Ok?
    ensures Collect(results).1 == Pass
    ensures |Collect(results).0| == |results|
    ensures forall i :: 0 <= i < |results| ==> Collect(results).0[i] == results[i].value
  {
    if results != [] {
      CollectAll(results[..|results| - 1]);
    }
  }

  /** The first script that raises stops the loop with its error, after the ones before it
      were submitted. */
  lemma {:induction false} CollectFirstFailure(results: seq<Result<string>>, j: nat)
    requires j < |results| && results[j].Err?
    requires forall i :: 0 <= i < j ==> results[i].Ok?
    ensures Collect(results).1 == Fail(results[j].error)
    ensures Collect(results).0 == Collect(results[..j]).0
    ensures |Collect(results).0| == j
    decreases |results|
  {
    if j == |results| - 1 {
      var init := results[..j];
      CollectAll(init);
    } else {
      var init := results[..|results| - 1];
      assert init[..j] == results[..j];
      CollectFirstFailure(init, j);
    }
  }

  lemma {:induction false} CollectPrefixFail(results: seq<Result<string>>, n: nat)
    requires n <= |results| && Collect(results[..n]).1.Fail?
    ensures Collect(results) == Collect(results[..n])
    decreases |results| - n
  {
    if n < |results| {
      assert results[..n + 1][..n] == results[..n];
      CollectPrefixFail(results, n + 1);
    } else {
      assert results[..n] == results;
    }
  }

  /** One turn of the submission loop: a script that raises ends it with that error, any
      other is submitted. */
  lemma CollectStep(results: seq<Result<string>>, i: nat, submitted: seq<string>, script: Result<string>)
    requires i < |results| && results[i] == script
    requires Collect(results[..i]) == (submitted, Pass)
    ensures script.Err? ==> Collect(results) == (submitted, Fail(script.error))
    ensures script.Ok? ==> Collect(results[..i + 1]) == (submitted + [script.value], Pass)
  {
    assert results[..i + 1][..i] == results[..i];
    if script.Err? {
      CollectPrefixFail(results, i + 1);
    }
  }

  /** `run` without saving: the scripts submitted for its task ids and what stops it. */
  function Submitted(c: Config, runText: Result<string>, taskId: Option<int>, scheduleAll: bool, callerArgs: map<string, Value>): (seq<string>, Outcome) {
    Collect(Scripts(c, runText, TaskIdsToRun(taskId, scheduleAll, Has(c.slurmParams, ArrayKey), c.nJobSeq), callerArgs))
  }

  /** `make_slurm_script` on a snapshot of the fields: builds the run command, then writes
      the script. */
  method ScriptFor(c: Config, runCommand: CommandInput, taskId: Option<int>, callerArgs: map<string, Value>)
    returns (r: Result<string>)
    ensures r == Script(c, InputText(runCommand), taskId, callerArgs)
  {
    var cmd := NewCommand(runCommand, false);
    if cmd.Err? {
      return Err(cmd.error);
    }
    r := WriteScript(c, cmd.value, taskId, callerArgs);
  }

  /** The loop of `run`: one script per task id, submitted in order, until one raises. */
  method SubmitAll(c: Config, runCommand: CommandInput, ids: seq<Option<int>>, callerArgs: map<string, Value>)
    returns (submitted: seq<string>, outcome: Outcome)
    ensures (submitted, outcome) == Collect(Scripts(c, InputText(runCommand), ids, callerArgs))
  {
    ghost var results := Scripts(c, InputText(runCommand), ids, callerArgs);
    submitted := [];
    for i := 0 to |ids|
      invariant Collect(results[..i]) == (submitted, Pass)
    {
      var script := ScriptFor(c, runCommand, ids[i], callerArgs);
      CollectStep(results, i, submitted, script);
      if script.Err? {
        return submitted, Fail(script.error);
      }
      submitted := submitted + [script.value];
    }
    assert results[..|ids|] == results;
    return submitted, Pass;
  }

  // ---------------------------------------------------------------------------
  // Writing the script text

  /** The shebang followed by the directives, each on its own line. */
  method WriteDirectives(items: seq<(string, Value)>) returns (script: string)
    ensures script == Join("\n", [Shebang] + DirectiveLines(items))
  {
    script := Shebang;
    for i := 0 to |items|
      invariant script == Join("\n", [Shebang] + DirectiveLines(items[..i]))
    {
      script := WriteDirective(script, items, i);
    }
    assert items[..|items|] == items;
  }

  /** One pass of the directive loop: `--key=value`, `-k value`, or nothing. */
  method WriteDirective(script0: string, items: seq<(string, Value)>, i: nat) returns (script: string)
    requires i < |items| && script0 == Join("\n", [Shebang] + DirectiveLines(items[..i]))
    ensures script == Join("\n", [Shebang] + DirectiveLines(items[..i + 1]))
  {
    script := script0;
    ghost var lines := [Shebang] + DirectiveLines(items[..i]);
    DirectiveLinesStep(items, i);
    var (key, value) := items[i];
    if StartsWith(key, "--") {
      var line := "#SBATCH " + key + "=" + PyStr(value);
      JoinSnoc("\n", lines, line);
      SeqAppendAssoc([Shebang], DirectiveLines(items[..i]), [line]);
      script := script + "\n" + line;
    } else if StartsWith(key, "-") {
      var line := "#SBATCH " + key + " " + PyStr(value);
      JoinSnoc("\n", lines, line);
      SeqAppendAssoc([Shebang], DirectiveLines(items[..i]), [line]);
      script := script + "\n" + line;
    }
  }

  lemma DirectiveLinesStep(items: seq<(string, Value)>, i: nat)
    requires i < |items|
    ensures var (k, v) := items[i];
      DirectiveLines(items[..i + 1]) ==
        if StartsWith(k, "--") then DirectiveLines(items[..i]) + ["#SBATCH " + k + "=" + PyStr(v)]
        else if StartsWith(k, "-") then DirectiveLines(items[..i]) + ["#SBATCH " + k + " " + PyStr(v)]
        else DirectiveLines(items[..i])
  {
    assert items[..i + 1][..i] == items[..i];
    assert items[..i + 1][i] == items[i];
  }

  /** The shebang, the directives, the blank line and the setup commands. */
  method WriteHead(items: seq<(string, Value)>, commands: seq<string>) returns (script: string)
    ensures script == Join("\n", [Shebang] + DirectiveLines(items) + [""] + commands)
  {
    script := WriteDirectives(items);
    ghost var directives := [Shebang] + DirectiveLines(items);
    JoinSnoc("\n", directives, "");
    script := script + "\n";
    script := AppendLines(script, directives + [""], commands);
  }

  /** Appending `"\n" + line` for each line continues the joined text. */
  method AppendLines(script: string, ghost lines: seq<string>, more: seq<string>) returns (r: string)
    requires lines != [] && script == Join("\n", lines)
    ensures r == Join("\n", lines + more)
  {
    r := script;
    assert lines + more[..0] == lines;
    for i := 0 to |more|
      invariant r == Join("\n", lines + more[..i])
    {
      JoinSnoc("\n", lines + more[..i], more[i]);
      assert lines + more[..i + 1] == (lines + more[..i]) + [more[i]];
      r := r + "\n" + more[i];
    }
    assert more[..|more|] == more;
  }

  /** The declarations of the grid-search variables appended line by line, or the first
      index error. */
  method AppendDeclarations(script: string, ghost lines: seq<string>, cols: seq<(string, seq<Value>)>,
                            hasArray: bool, taskId: Option<int>) returns (r: Result<string>)
    requires lines != [] && script == Join("\n", lines)
    ensures Declarations(cols, hasArray, taskId).Err? ==> r == Err(Declarations(cols, hasArray, taskId).error)
    ensures Declarations(cols, hasArray, taskId).Ok? ==> r == Ok(Join("\n", lines + Declarations(cols, hasArray, taskId).value))
  {
    var text := script;
    ghost var decls: seq<string> := [];
    assert lines + decls == lines;
    for i := 0 to |cols|
      invariant Declarations(cols[..i], hasArray, taskId) == Ok(decls)
      invariant text == Join("\n", lines + decls)
    {
      DeclarationsStep(cols, i, hasArray, taskId);
      var (key, paramValues) := cols[i];
      var keyVar := ReplaceAll(ReplaceAll(key, ".", "_"), "/", "_");
      var line: string;
      if !hasArray && taskId.Some? {
        var v := Index(paramValues, taskId.value);
        if v.Err? {
          DeclarationsPrefixErr(cols, hasArray, taskId, i + 1);
          return Err(v.error);
        }
        line := keyVar + "_param=" + ArgValue(v.value);
      } else {
        line := keyVar + "_param=(\"" + Join("\" \"", ArgValues(paramValues)) + "\")";
      }
      assert Declaration(key, paramValues, hasArray, taskId) == Ok(line);
      JoinStep(lines, decls, line);
      text := text + "\n" + line;
      decls := decls + [line];
    }
    assert cols[..|cols|] == cols;
    return Ok(text);
  }

  lemma DeclarationsStep(cols: seq<(string, seq<Value>)>, i: nat, hasArray: bool, taskId: Option<int>)
    requires i < |cols|
    ensures Declarations(cols[..i + 1], hasArray, taskId) ==
      (var init :- Declarations(cols[..i], hasArray, taskId);
       var line :- Declaration(cols[i].0, cols[i].1, hasArray, taskId);
       Ok(init + [line]))
  {
    assert cols[..i + 1][..i] == cols[..i];
  }

  lemma JoinStep(lines: seq<string>, more: seq<string>, line: string)
    requires lines != []
    ensures Join("\n", lines + (more + [line])) == Join("\n", lines + more) + "\n" + line
  {
    JoinSnoc("\n", lines + more, line);
    assert (lines + more) + [line] == lines + (more + [line]);
  }

  /** The lines that set `taskId`, appended. */
  method AppendTaskId(script: string, hasArray: bool, taskId: Option<int>, nJobSeq: int)
    returns (r: string)
    ensures r == script + Prefixed("\n", TaskIdLines(hasArray, taskId, nJobSeq))
  {
    r := script;
    if hasArray {
      PrefixedSingle("\n", ArrayTaskIdLine);
      r := r + "\n" + ArrayTaskIdLine;
    } else if taskId.None? && nJobSeq > 1 {
      var open := LoopOpen(nJobSeq);
      AppendEmpty(script);
      PrefixedSnoc(script, "\n", [], open);
      r := r + "\n" + open;
      assert [open] + [LoopDo] == [open, LoopDo];
      PrefixedSnoc(script, "\n", [open], LoopDo);
      r := r + "\n" + LoopDo;
    } else if taskId.None? {
      PrefixedSingle("\n", FirstTaskIdLine);
      r := r + "\n" + FirstTaskIdLine;
    }
  }

  /** The first loop of `get_run_params`: ` "k=v"` for each plain parameter, added to both
      `params` and `all`. */
  method AccumulatePlain(items: seq<(string, Value)>, grid: Columns) returns (params: string, all: string)
    ensures params == all == Prefixed(" ", PlainTokens(items, grid))
  {
    params, all := "", "";
    for i := 0 to |items|
      invariant params == Prefixed(" ", PlainTokens(items[..i], grid))
      invariant all == params
    {
      assert items[..i + 1][..i] == items[..i];
      var (key, value) := items[i];
      if !(key in grid.values) {
        var s := "\"" + key + "=" + ArgValue(value) + "\"";
        params := params + " " + s;
        all := all + " " + s;
      }
    }
    assert items[..|items|] == items;
  }

  /** The second loop of `get_run_params`: ` "k=${var}"` for each grid-search key, added to
      `grid_search` and to `all`, and `_k=${var}` added to `grid_search_string`. */
  method AccumulateGrid(keys: seq<string>, hasArray: bool, paramEnd: string, all0: string)
    returns (gridParams: string, all: string, gridString: string)
    requires paramEnd == ParamSuffix(hasArray)
    ensures gridParams == Prefixed(" ", GridTokens(keys, hasArray))
    ensures all == all0 + gridParams
    ensures gridString == Prefixed("_", GridReferences(keys, hasArray))
  {
    ghost var tokens := GridTokens(keys, hasArray);
    ghost var refs := GridReferences(keys, hasArray);
    gridParams, all, gridString := "", all0, "";
    for i := 0 to |keys|
      invariant gridParams == Prefixed(" ", tokens[..i])
      invariant all == all0 + gridParams
      invariant gridString == Prefixed("_", refs[..i])
    {
      var key := keys[i];
      var keyVar := ReplaceAll(ReplaceAll(key, ".", "_"), "/", "_");
      var reference := key + "=${" + keyVar + paramEnd + "}";
      GridStep(keys, hasArray, i, keyVar, paramEnd);
      var s := "\"" + reference + "\"";
      AppendBoth(all0, gridParams, " " + s);
      gridParams := gridParams + (" " + s);
      all := all + (" " + s);
      gridString := gridString + "_" + reference;
    }
    assert tokens[..|keys|] == tokens;
    assert refs[..|keys|] == refs;
  }

  lemma GridStep(keys: seq<string>, hasArray: bool, i: nat, keyVar: string, paramEnd: string)
    requires i < |keys|
    requires keyVar == ReplaceAll(ReplaceAll(keys[i], ".", "_"), "/", "_")
    requires paramEnd == ParamSuffix(hasArray)
    ensures var reference := keys[i] + "=${" + keyVar + paramEnd + "}";
      && Prefixed(" ", GridTokens(keys, hasArray)[..i + 1]) == Prefixed(" ", GridTokens(keys, hasArray)[..i]) + (" " + ("\"" + reference + "\""))
      && Prefixed("_", GridReferences(keys, hasArray)[..i + 1]) == Prefixed("_", GridReferences(keys, hasArray)[..i]) + "_" + reference
  {
    assert keyVar == VarName(keys[i]);
    var reference := keys[i] + "=${" + keyVar + paramEnd + "}";
    assert reference == GridReference(keys[i], hasArray);
    var tokens := GridTokens(keys, hasArray);
    assert tokens[i] == "\"" + reference + "\"";
    PrefixedStep(" ", tokens, i);
    AppendAssoc(Prefixed(" ", tokens[..i]), " ", tokens[i]);
    PrefixedStep("_", GridReferences(keys, hasArray), i);
  }

  lemma AppendBoth(a: string, b: string, c: string)
    ensures (a + b) + c == a + (b + c)
  {
  }

  lemma {:induction false} JoinAppendAll(lines: seq<string>, more: seq<string>)
    requires lines != []
    ensures Join("\n", lines + more) == Join("\n", lines) + Prefixed("\n", more)
  {
    var all := lines + more;
    assert all[0] == lines[0];
    assert all[1..] == lines[1..] + more;
    assert Join("\n", all) == lines[0] + Prefixed("\n", lines[1..] + more);
    PrefixedConcat("\n", lines[1..], more);
    AppendAssoc(lines[0], Prefixed("\n", lines[1..]), Prefixed("\n", more));
  }

  // ---------------------------------------------------------------------------
  // make_slurm_script and get_run_params, on a snapshot of the object's fields

  /** `get_run_params`: the loops over the script parameters and the grid-search keys that
      accumulate ` token` per field, then drop each field's first character. */
  method RunParamsFor(c: Config) returns (r: RunParams)
    ensures r == RunParamsOf(c)
  {
    var hasArray := ArrayKey in c.slurmParams.values;
    var paramEnd := "_param";
    if hasArray {
      paramEnd := paramEnd + "[$taskId]";
      assert "_param[$taskId]" == "_param" + "[$taskId]";
    }
    assert paramEnd == ParamSuffix(hasArray);
    var grid := GridColumns(c.gridSearch);
    var params, all := AccumulatePlain(Items(c.scriptParams), grid);
    ghost var plain := PlainTokens(Items(c.scriptParams), grid);
    ghost var tokens := GridTokens(grid.keys, hasArray);
    var gridParams, all', gridString := AccumulateGrid(grid.keys, hasArray, paramEnd, all);
    all := all';
    PrefixedConcat(" ", plain, tokens);
    DropFirstOfPrefixed(' ', plain);
    DropFirstOfPrefixed(' ', tokens);
    DropFirstOfPrefixed(' ', plain + tokens);
    DropFirstOfPrefixed('_', GridReferences(grid.keys, hasArray));
    r := RunParams(DropFirst(params), DropFirst(gridParams), DropFirst(all), DropFirst(gridString));
  }

  /** The arguments `make_slurm_script` formats the run command with: the built-in fields,
      then the handler's arguments, then the caller's. Reading `--gres` may raise. */
  method RunCommandArgs(c: Config, callerArgs: map<string, Value>) returns (r: Result<map<string, Value>>)
    ensures NumGpus(c.slurmParams).Err? ==> r == Err(NumGpus(c.slurmParams).error)
    ensures NumGpus(c.slurmParams).Ok? ==> r == Ok(RunArgs(c, NumGpus(c.slurmParams).value, callerArgs))
  {
    var runParams := RunParamsFor(c);
    var gpus := NumGpus(c.slurmParams);
    if gpus.Err? {
      return Err(gpus.error);
    }
    var runArgs := map[
      "script_name" := (if c.scriptName.None? then Value.None else Str(c.scriptName.value)),
      "num_gpus" := Int(gpus.value),
      "params" := Str(runParams.params),
      "grid_search_params" := Str(runParams.gridSearch),
      "grid_search_string" := Str(runParams.gridSearchString),
      "all_params" := Str(runParams.all)];
    runArgs := runArgs + c.mainCommandArgs;
    runArgs := runArgs + callerArgs;
    return Ok(runArgs);
  }

  /** The lines before the run command: the head, the declarations and the `taskId` lines,
      or the first index error. */
  method WriteSetup(c: Config, taskId: Option<int>) returns (r: Result<string>)
    ensures var decls := Declarations(Items(GridColumns(c.gridSearch)), Has(c.slurmParams, ArrayKey), taskId);
      && (decls.Err? ==> r == Err(decls.error))
      && (decls.Ok? ==> r == Ok(Join("\n", [Shebang] + DirectiveLines(Items(c.slurmParams)) + [""] + c.commands
                                         + decls.value + TaskIdLines(Has(c.slurmParams, ArrayKey), taskId, c.nJobSeq))))
  {
    var hasArray := ArrayKey in c.slurmParams.values;
    var script := WriteHead(Items(c.slurmParams), c.commands);
    ghost var head := [Shebang] + DirectiveLines(Items(c.slurmParams)) + [""] + c.commands;
    var cols := Items(GridColumns(c.gridSearch));
    var withDecls := AppendDeclarations(script, head, cols, hasArray, taskId);
    if withDecls.Err? {
      return Err(withDecls.error);
    }
    script := withDecls.value;
    ghost var decls := Declarations(cols, hasArray, taskId).value;
    JoinAppendAll(head + decls, TaskIdLines(hasArray, taskId, c.nJobSeq));
    script := AppendTaskId(script, hasArray, taskId, c.nJobSeq);
    return Ok(script);
  }

  /** The formatted run command, `done` when a loop is open, and the post commands. */
  method AppendRunLines(script: string, ghost lines: seq<string>, run: string, hasArray: bool,
                        taskId: Option<int>, nJobSeq: int, post: seq<string>) returns (r: string)
    requires lines != [] && script == Join("\n", lines)
    ensures r == Join("\n", lines + [run] + DoneLines(hasArray, taskId, nJobSeq) + post)
  {
    JoinSnoc("\n", lines, run);
    r := script + "\n" + run;
    ghost var done := DoneLines(hasArray, taskId, nJobSeq);
    if nJobSeq > 1 && taskId.None? && !hasArray {
      JoinSnoc("\n", lines + [run], LoopDone);
      r := r + "\n" + LoopDone;
    } else {
      assert lines + [run] + done == lines + [run];
    }
    r := AppendLines(r, lines + [run] + done, post);
  }

  /** `make_slurm_script` once the run command is copied: the script text, or what it
      raises. Only the copy of the run command changes. */
  method WriteScript(c: Config, command: Command, taskId: Option<int>, callerArgs: map<string, Value>)
    returns (r: Result<string>)
    requires !command.heredoc
    modifies command
    ensures r == Script(c, Ok(old(command.command)), taskId, callerArgs)
  {
    ghost var text := command.command;
    ScriptPartsErrors(c, text, taskId, callerArgs);
    var setup := WriteSetup(c, taskId);
    if setup.Err? {
      return Err(setup.error);
    }
    var runArgs := RunCommandArgs(c, callerArgs);
    if runArgs.Err? {
      return Err(runArgs.error);
    }
    var formatted := command.FormatWith(runArgs.value);
    if formatted.Fail? {
      return Err(formatted.error);
    }
    var hasArray := ArrayKey in c.slurmParams.values;
    ghost var decls := Declarations(Items(GridColumns(c.gridSearch)), hasArray, taskId).value;
    ghost var lines := [Shebang] + DirectiveLines(Items(c.slurmParams)) + [""] + c.commands + decls
                       + TaskIdLines(hasArray, taskId, c.nJobSeq);
    var script := AppendRunLines(setup.value, lines, command.Get(), hasArray, taskId, c.nJobSeq, c.postCommands);
    ghost var parts := Parts([Shebang] + DirectiveLines(Items(c.slurmParams)) + [""] + c.commands, decls,
                             TaskIdLines(hasArray, taskId, c.nJobSeq), command.Get(),
                             DoneLines(hasArray, taskId, c.nJobSeq), c.postCommands);
    ScriptPartsOk(c, text, taskId, callerArgs, decls, NumGpus(c.slurmParams).value, command.Get());
    PartsLines(parts);
    ScriptOfParts(c, text, taskId, callerArgs, parts);
    return Ok(script);
  }

  // ---------------------------------------------------------------------------
  // The object

  class SBatch {
    var slurmParams: PyDict<Value>
    var scriptParams: PyDict<Value>
    var commands: seq<string>
    var postCommands: seq<string>
    var nJobSeq: int
    var mainCommandArgs: map<string, Value>
    const gridSearch: Option<GridSearch>
    var scriptName: Option<string>

    function Model(): Config
      reads this
    {
      Config(slurmParams, scriptParams, commands, postCommands, nJobSeq, mainCommandArgs, gridSearch, scriptName)
    }

    /** The fields as `__init__` sets them before the experiment handler and the grid search
        are applied. */
    constructor (slurmParams: Option<PyDict<Value>>, scriptParams: Option<PyDict<Value>>,
                 gridSearch: Option<GridSearch>, scriptName: Option<string>)
      ensures Model() == Config(DictOrEmpty(slurmParams), DictOrEmpty(scriptParams), [], [], 1, map[], gridSearch, scriptName)
    {
      this.slurmParams := DictOrEmpty(slurmParams);
      this.scriptParams := DictOrEmpty(scriptParams);
      commands := [];
      postCommands := [];
      nJobSeq := 1;
      mainCommandArgs := map[];
      this.gridSearch := gridSearch;
      this.scriptName := scriptName;
    }

    /** `_is_slurm_array_auto`. */
    method IsSlurmArrayAuto() returns (r: bool)
      ensures r <==> Has(slurmParams, ArrayKey) && Get(slurmParams, ArrayKey) == Str("auto")
    {
      r := ArrayKey in slurmParams.values && slurmParams.values[ArrayKey] == Str("auto");
    }

    /** `set_grid_search`. */
    method SetGridSearch() returns (outcome: Outcome)
      modifies this
      ensures ApplyGridSearch(old(Model())).Ok? ==> outcome == Pass && Model() == ApplyGridSearch(old(Model())).value
      ensures ApplyGridSearch(old(Model())).Err? ==> outcome == Fail(ApplyGridSearch(old(Model())).error) && Model() == old(Model())
    {
      var nJobs: Option<nat> := Option.None;
      if gridSearch.Some? {
        nJobs := Some(gridSearch.value.nJobs);
        nJobSeq := gridSearch.value.nJobs;
      }
      var auto := IsSlurmArrayAuto();
      if auto {
        if nJobs.None? {
          return Fail(ValueError(AutoArrayMessage));
        }
        slurmParams := Put(slurmParams, ArrayKey, Str("0-" + IntToString(nJobs.value - 1)));
        if nJobs.value == 1 {
          slurmParams := Remove(slurmParams, ArrayKey);
        }
      }
      return Pass;
    }

    /** `set_script_name`. */
    method SetScriptName(name: string)
      modifies this
      ensures Model() == old(Model()).(scriptName := Some(name))
    {
      scriptName := Some(name);
    }

    /** `add_command`: a copy of the command's text joins the setup commands, or the post
        commands with `post`; an input that is neither fails and nothing changes. */
    method AddCommand(command: CommandInput, post: bool) returns (outcome: Outcome)
      modifies this
      ensures InputText(command).Err? ==> outcome == Fail(AssertionError("")) && Model() == old(Model())
      ensures InputText(command).Ok? && post ==>
        outcome == Pass && Model() == old(Model()).(postCommands := old(postCommands) + [InputText(command).value])
      ensures InputText(command).Ok? && !post ==>
        outcome == Pass && Model() == old(Model()).(commands := old(commands) + [InputText(command).value])
    {
      var c := NewCommand(command, false);
      if c.Err? {
        return Fail(c.error);
      }
      var text := c.value.Get();
      if post {
        postCommands := postCommands + [text];
        return Pass;
      }
      commands := commands + [text];
      return Pass;
    }

    /** `add_commands` for text commands: each joins the chosen list, in order. */
    method AddCommands(texts: seq<string>, post: bool)
      modifies this
      ensures post ==> Model() == old(Model()).(postCommands := old(postCommands) + texts)
      ensures !post ==> Model() == old(Model()).(commands := old(commands) + texts)
    {
      for i := 0 to |texts|
        invariant post ==> Model() == old(Model()).(postCommands := old(postCommands) + texts[..i])
        invariant !post ==> Model() == old(Model()).(commands := old(commands) + texts[..i])
      {
        assert texts[..i + 1] == texts[..i] + [texts[i]];
        var outcome := AddCommand(Text(texts[i]), post);
      }
      assert texts[..|texts|] == texts;
    }

    /** `configure_from_experiment_handler`. */
    method ConfigureFromHandler(handler: Handler)
      modifies this
      ensures Model() == old(Model()).(commands := old(commands) + handler.commands,
                                       mainCommandArgs := old(mainCommandArgs) + handler.mainCommandArgs,
                                       scriptName := Some(handler.scriptName))
    {
      AddCommands(handler.commands, false);
      mainCommandArgs := mainCommandArgs + handler.mainCommandArgs;
      SetScriptName(handler.scriptName);
    }

    /** `get_run_params`. */
    method GetRunParams() returns (r: RunParams)
      ensures r == RunParamsOf(Model())
    {
      r := RunParamsFor(Model());
    }

    /** `make_slurm_script`: the script text, or what it raises. Nothing of the object
        changes. */
    method MakeSlurmScript(runCommand: CommandInput, taskId: Option<int>, mainCommandArgs: Option<map<string, Value>>)
      returns (r: Result<string>)
      ensures r == Script(Model(), InputText(runCommand), taskId, ArgsOrEmpty(mainCommandArgs))
    {
      r := ScriptFor(Model(), runCommand, taskId, ArgsOrEmpty(mainCommandArgs));
    }

    /** `run` without `save_script`: the scripts handed to `sbatch`, in order, and what stops
        it. */
    method Run(runCommand: CommandInput, taskId: Option<int>, scheduleAllTasks: bool, mainCommandArgs: Option<map<string, Value>>)
      returns (submitted: seq<string>, outcome: Outcome)
      ensures (submitted, outcome) == Submitted(Model(), InputText(runCommand), taskId, scheduleAllTasks, ArgsOrEmpty(mainCommandArgs))
    {
      var ids := TaskIdsToRun(taskId, scheduleAllTasks, ArrayKey in slurmParams.values, nJobSeq);
      submitted, outcome := SubmitAll(Model(), runCommand, ids, ArgsOrEmpty(mainCommandArgs));
    }
  }

  /** `SBatch(...)`: the fields, then the experiment handler's commands, arguments and
      script name, then `set_grid_search`, which may raise. */
  method Create(slurmParams: Option<PyDict<Value>>, scriptParams: Option<PyDict<Value>>,
                gridSearch: Option<GridSearch>, scriptName: Option<string>, handler: Option<Handler>)
    returns (r: Result<SBatch>)
    ensures var c := Config(DictOrEmpty(slurmParams), DictOrEmpty(scriptParams),
                            if handler.Some? then handler.value.commands else [], [], 1,
                            if handler.Some? then handler.value.mainCommandArgs else map[], gridSearch,
                            if handler.Some? then Some(handler.value.scriptName) else scriptName);
      && (ApplyGridSearch(c).Err? ==> r == Err(ApplyGridSearch(c).error))
      && (ApplyGridSearch(c).Ok? ==> r.Ok? && fresh(r.value) && r.value.Model() == ApplyGridSearch(c).value)
  {
    var s := new SBatch(slurmParams, scriptParams, gridSearch, scriptName);
    if handler.Some? {
      s.ConfigureFromHandler(handler.value);
      assert [] + handler.value.commands == handler.value.commands;
      assert map[] + handler.value.mainCommandArgs == handler.value.mainCommandArgs;
    }
    var outcome := s.SetGridSearch();
    if outcome.Fail? {
      return Err(outcome.error);
    }
    return Ok(s);
  }
}

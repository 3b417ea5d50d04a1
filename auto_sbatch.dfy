/** auto_sbatch/auto_sbatch.py: the older, self-contained generator. `walk_dict` flattens a
    configuration, `SBatch` writes a Slurm script from the flattened configuration,
    `get_grid_combinations` counts the grid-search jobs, and `auto_sbatch` rewrites
    `--array=auto` into the range of those jobs before building the script. */
module AutoSbatch {
  import opened Wrappers
  import opened PyStrings
  import opened OrderedDicts
  import opened PyValues
  import opened Dotlists
  import GridSearching
  import SBatches
  import SlurmScripts

  /** The keys written as `#SBATCH` directives. */
  const AvailableSlurmCommands: seq<string> :=
    ["-J", "-N", "-n", "-o", "-e", "--gres", "--mem", "--time", "--mail-user", "--mail-type", "--array"]
  /** The keys that configure the generator itself and are not passed to the script. */
  const ReservedArgs: seq<string> :=
    ["python_environment", "work_directory", "run_work_directory", "script_location", "--grid-search"]
  const GridSearchKey: string := "--grid-search"
  const AutoValue: string := "auto"
  const AutoArrayMessage: string := "Cannot have --array=auto when no grid-search is set."
  const CheckpointsArg: string := "\"checkpoints_dir='../../checkpoints/$jobId'\""

  // ---------------------------------------------------------------------------
  // walk_dict

  /** What `walk_dict(d, prefix, cond)` returns: nothing for `None`, otherwise the admitted
      leaves assigned in traversal order, so a repeated dotted key keeps its first position
      and its last value. */
  function Walked(d: Option<Value>, prefix: seq<string>, cond: Filter): PyDict<Value>
    requires d.Some? ==> d.value.Dict?
  {
    if d.None? then Empty() else FromItems(Leaves(d.value, prefix, cond))
  }

  /** `walk_dict`: each nested `DictConfig` is walked with the key appended to the path and
      merged in with `update`; every other value the filter admits is stored under the
      dotted path. */
  method WalkDict(d: Option<Value>, prefix: seq<string>, cond: Filter) returns (newDic: PyDict<Value>)
    requires d.Some? ==> d.value.Dict?
    ensures newDic == Walked(d, prefix, cond)
  {
    if d.None? {
      return Empty();
    }
    newDic := WalkNode(d.value, prefix, cond);
  }

  /** The loop of `walk_dict` over one `DictConfig`. */
  method WalkNode(node: Value, prefix: seq<string>, cond: Filter) returns (newDic: PyDict<Value>)
    requires node.Dict?
    ensures newDic == FromItems(Leaves(node, prefix, cond))
    decreases node, 1
  {
    newDic := Empty();
    for i := 0 to |node.entries|
      invariant newDic == FromItems(LeavesUpTo(node, i, prefix, cond))
    {
      newDic := WalkEntry(node, i, prefix, cond, newDic);
    }
  }

  /** The body of the loop of `walk_dict` for the entry at `i`. */
  method WalkEntry(node: Value, i: nat, prefix: seq<string>, cond: Filter, d: PyDict<Value>) returns (newDic: PyDict<Value>)
    requires node.Dict? && i < |node.entries|
    requires d == FromItems(LeavesUpTo(node, i, prefix, cond))
    ensures newDic == FromItems(LeavesUpTo(node, i + 1, prefix, cond))
    decreases node, 0
  {
    var (key, val) := node.entries[i];
    WalkStep(node, i, prefix, cond);
    if val.Dict? {
      var sub := WalkNode(val, prefix + [key], cond);
      newDic := Update(d, sub);
    } else {
      var dottedKey := Join(".", prefix + [key]);
      if cond.None? || cond.value(dottedKey, val) {
        newDic := Put(d, dottedKey, val);
      } else {
        newDic := d;
      }
    }
  }

  /** One more entry of the walk: a nested node is merged in with `update`, an admitted leaf
      is assigned, anything else changes nothing. */
  lemma WalkStep(node: Value, i: nat, prefix: seq<string>, cond: Filter)
    requires node.Dict? && i < |node.entries|
    ensures var (key, v) := node.entries[i];
      var d := FromItems(LeavesUpTo(node, i, prefix, cond));
      FromItems(LeavesUpTo(node, i + 1, prefix, cond)) ==
        if v.Dict? then Update(d, FromItems(Leaves(v, prefix + [key], cond)))
        else if Keeps(cond, Join(".", prefix + [key]), v) then Put(d, Join(".", prefix + [key]), v)
        else d
  {
    var (key, v) := node.entries[i];
    GatherStep(Empty(), node, i, prefix, cond);
    if v.Dict? {
      UpdateFromItems(FromItems(LeavesUpTo(node, i, prefix, cond)), Leaves(v, prefix + [key], cond));
    }
  }

  /** What `walk_dict` returns holds no dictionary, and the filter admits every entry. */
  lemma WalkedIsFlat(d: Option<Value>, prefix: seq<string>, cond: Filter)
    requires d.Some? ==> d.value.Dict?
    ensures forall k :: Has(Walked(d, prefix, cond), k) ==>
      !Get(Walked(d, prefix, cond), k).Dict? && Keeps(cond, k, Get(Walked(d, prefix, cond), k))
  {
    if d.Some? {
      var leaves := Leaves(d.value, prefix, cond);
      LeavesAreAdmitted(d.value, |d.value.entries|, prefix, cond);
      FromItemsValues(leaves);
      forall k | Has(Walked(d, prefix, cond), k)
        ensures !Get(Walked(d, prefix, cond), k).Dict? && Keeps(cond, k, Get(Walked(d, prefix, cond), k))
      {
        ToMapValueFrom(leaves, k);
      }
    }
  }

  /** A flat dictionary walked again without a filter comes back unchanged. */
  lemma WalkFlat(d: PyDict<Value>)
    requires forall k :: Has(d, k) ==> !Get(d, k).Dict?
    ensures Walked(Some(Dict(Items(d))), [], Option.None) == d
  {
    var node := Dict(Items(d));
    FlatLeaves(node, |node.entries|);
    assert node.entries[..|node.entries|] == Items(d);
    FromItemsOfItems(d);
  }

  /** The second and third `walk_dict` of `make_slurm_script`, applied to the first one's
      result, give that result back. */
  lemma WalkTwice(d: Option<Value>)
    requires d.Some? ==> d.value.Dict?
    ensures Walked(Some(Dict(Items(Walked(d, [], Option.None)))), [], Option.None) == Walked(d, [], Option.None)
  {
    WalkedIsFlat(d, [], Option.None);
    WalkFlat(Walked(d, [], Option.None));
  }

  /** A dotted key below a non-empty path holds a dot. */
  lemma DotInDottedKey(prefix: seq<string>, key: string)
    requires prefix != []
    ensures '.' in DottedKey(prefix, key)
  {
    var xs := prefix + [key];
    var ys := xs[1..];
    PrefixedOfNonEmpty(".", ys);
    var j := Join(".", xs);
    assert j == xs[0] + ("." + Join(".", ys));
    assert j[|xs[0]|] == '.';
  }

  /** Every key recorded below a non-empty path holds a dot. */
  lemma {:induction false} NestedKeysDotted(node: Value, n: nat, prefix: seq<string>, cond: Filter)
    requires node.Dict? && n <= |node.entries| && prefix != []
    ensures forall x :: x in LeavesUpTo(node, n, prefix, cond) ==> '.' in x.0
    decreases node, n
  {
    if n > 0 {
      NestedKeysDotted(node, n - 1, prefix, cond);
      var (key, v) := node.entries[n - 1];
      assert LeavesUpTo(node, n, prefix, cond) ==
        LeavesUpTo(node, n - 1, prefix, cond) + EntryLeaves(node, n - 1, prefix, cond);
      if v.Dict? {
        NestedKeysDotted(v, |v.entries|, prefix + [key], cond);
        assert EntryLeaves(node, n - 1, prefix, cond) == LeavesUpTo(v, |v.entries|, prefix + [key], cond);
      } else {
        DotInDottedKey(prefix, key);
      }
    }
  }

  /** Walking a configuration from the top, an entry without a dot in its key is one of the
      configuration's own entries whose value is not a dictionary, and each such entry is
      recorded. */
  lemma TopLevelLeaves(p: PyDict<Value>)
    ensures forall x :: x in Leaves(Dict(Items(p)), [], Option.None) ==>
      '.' in x.0 || (x in Items(p) && !x.1.Dict?)
    ensures forall i :: 0 <= i < |Items(p)| && !Items(p)[i].1.Dict? ==>
      Items(p)[i] in Leaves(Dict(Items(p)), [], Option.None)
  {
    var node := Dict(Items(p));
    var leaves := Leaves(node, [], Option.None);
    forall x | x in leaves ensures '.' in x.0 || (x in Items(p) && !x.1.Dict?) {
      LeavesUpToMembers(node, |node.entries|, [], Option.None, x);
      var i :| 0 <= i < |node.entries| && x in EntryLeaves(node, i, [], Option.None);
      EntryLeavesMeaning(node, i, [], Option.None, x);
      var (key, v) := node.entries[i];
      assert [] + [key] == [key];
      if v.Dict? {
        NestedKeysDotted(v, |v.entries|, [key], Option.None);
      } else {
        assert DottedKey([], key) == key;
      }
    }
    forall i | 0 <= i < |Items(p)| && !Items(p)[i].1.Dict? ensures Items(p)[i] in leaves {
      var x := Items(p)[i];
      assert [] + [x.0] == [x.0];
      assert DottedKey([], x.0) == x.0;
      EntryLeavesMeaning(node, i, [], Option.None, x);
      LeavesUpToMembers(node, |node.entries|, [], Option.None, x);
    }
  }

  /** A key without a dot survives the walk exactly when the configuration has it with a
      value that is not a dictionary, and it keeps that value. */
  lemma TopLevelKey(p: PyDict<Value>, key: string)
    requires '.' !in key
    ensures Has(Walked(Some(Dict(Items(p))), [], Option.None), key) <==> Has(p, key) && !Get(p, key).Dict?
    ensures Has(Walked(Some(Dict(Items(p))), [], Option.None), key) ==>
      Get(Walked(Some(Dict(Items(p))), [], Option.None), key) == Get(p, key)
  {
    var leaves := Leaves(Dict(Items(p)), [], Option.None);
    var w := Walked(Some(Dict(Items(p))), [], Option.None);
    TopLevelLeaves(p);
    FromItemsValues(leaves);
    if Has(w, key) {
      ToMapValueFrom(leaves, key);
      var x := (key, ToMap(leaves)[key]);
      assert x in Items(p) && !x.1.Dict?;
      var j :| 0 <= j < |Items(p)| && Items(p)[j] == x;
    }
    if Has(p, key) && !Get(p, key).Dict? {
      var j :| 0 <= j < |p.keys| && p.keys[j] == key;
      assert Items(p)[j] in leaves;
      ToMapKeys(leaves);
      var i :| 0 <= i < |leaves| && leaves[i] == Items(p)[j];
      assert leaves[i].0 == key;
    }
  }

  // ---------------------------------------------------------------------------
  // The directives and the values the script receives

  /** The directive of one flattened entry: `--k=v` or `-k v` for the known Slurm options,
      nothing for any other key. */
  function DirectiveFor(k: string, v: Value): seq<string> {
    if k !in AvailableSlurmCommands then []
    else if StartsWith(k, "--") then ["#SBATCH " + k + "=" + PyStr(v)]
    else if StartsWith(k, "-") then ["#SBATCH " + k + " " + PyStr(v)]
    else []
  }

  /** The directives of a flattened configuration, in its order. */
  function Directives(items: seq<(string, Value)>): seq<string> {
    if items == [] then []
    else Directives(items[..|items| - 1]) + DirectiveFor(items[|items| - 1].0, items[|items| - 1].1)
  }

  /** The entries that are known Slurm options, in order. */
  function AvailableItems(items: seq<(string, Value)>): (r: seq<(string, Value)>)
    ensures forall i :: 0 <= i < |r| ==> r[i].0 in AvailableSlurmCommands
  {
    if items == [] then []
    else
      var init := AvailableItems(items[..|items| - 1]);
      if items[|items| - 1].0 in AvailableSlurmCommands then init + [items[|items| - 1]] else init
  }

  /** Every known Slurm option starts with `-`, holds no `=`, `#` or surrounding space, and
      the short ones hold no space at all. */
  lemma AvailableKeysWritable(k: string)
    requires k in AvailableSlurmCommands
    ensures SBatches.IsDirectiveKey(k) && SlurmScripts.Readable(k)
    ensures !StartsWith(k, "--") ==> ' ' !in k
  {
  }

  /** One directive per known Slurm option among the entries, in their order, each written
      as the newer generator writes it: `--k=v` for a long option, `-k v` for a short one. */
  lemma {:induction false} DirectivesMeaning(items: seq<(string, Value)>)
    ensures |Directives(items)| == |AvailableItems(items)|
    ensures forall i :: 0 <= i < |AvailableItems(items)| ==>
      SBatches.IsDirectiveKey(AvailableItems(items)[i].0) &&
      Directives(items)[i] == SBatches.DirectiveLine(AvailableItems(items)[i].0, AvailableItems(items)[i].1)
    ensures forall x :: x in AvailableItems(items) <==> x in items && x.0 in AvailableSlurmCommands
  {
    if items != [] {
      var init := items[..|items| - 1];
      DirectivesMeaning(init);
      assert items == init + [items[|items| - 1]];
      var (k, v) := items[|items| - 1];
      if k in AvailableSlurmCommands {
        AvailableKeysWritable(k);
        assert DirectiveFor(k, v) == [SBatches.DirectiveLine(k, v)];
      }
      forall i | 0 <= i < |AvailableItems(items)|
        ensures SBatches.IsDirectiveKey(AvailableItems(items)[i].0)
      {
        AvailableKeysWritable(AvailableItems(items)[i].0);
      }
    }
  }

  /** A directive reads back, through the parser of `SlurmScript`, as its option and the
      `str` of its value, when the value holds no `=`, `#` or surrounding space (nor any
      space for a short option). */
  lemma DirectiveParsesBack(k: string, v: Value)
    requires k in AvailableSlurmCommands && SlurmScripts.Readable(PyStr(v))
    requires !StartsWith(k, "--") ==> ' ' !in PyStr(v) && PyStr(v) != []
    ensures DirectiveFor(k, v) == [SBatches.DirectiveLine(k, v)]
    ensures SlurmScripts.ParseSlurmLine(DirectiveFor(k, v)[0]) == Ok((k, PyStr(v)))
  {
    AvailableKeysWritable(k);
    SlurmScripts.ParseWrittenDirective(k, v);
  }

  /** A key that is neither a Slurm option nor reserved is passed to the script. */
  predicate Passed(key: string) {
    key !in AvailableSlurmCommands && key !in ReservedArgs
  }

  /** `key in dot_params["--grid-search"]`: membership in a list, a substring of a string, a
      key of a mapping; other values cannot be searched. */
  function InGrid(g: Value, key: string): (r: Result<bool>)
    ensures r.Err? <==> !(g.List? || g.Str? || g.Dict?)
  {
    match g
    case List(items) => Ok(Str(key) in items)
    case Str(s) => Ok(Contains(s, key))
    case Dict(entries) => Ok(key in KeysOf(entries))
    case _ => Err(TypeError)
  }

  /** The grid-search test of an entry: `"--grid-search" in dot_params and key in
      dot_params["--grid-search"] and isinstance(value, ListConfig)`. */
  function IsGridParam(dot: PyDict<Value>, key: string, v: Value): Result<bool> {
    if !Has(dot, GridSearchKey) then Ok(false)
    else
      var member :- InGrid(Get(dot, GridSearchKey), key);
      Ok(member && v.List?)
  }

  /** The grid-search test of every passed entry in order, `false` for the others, up to the
      first test that raises. */
  function GridScan(dot: PyDict<Value>, items: seq<(string, Value)>): (r: (seq<bool>, Outcome))
    ensures |r.0| <= |items|
    ensures r.1.Pass? ==> |r.0| == |items|
  {
    if items == [] then ([], Pass)
    else
      var init := GridScan(dot, items[..|items| - 1]);
      var (k, v) := items[|items| - 1];
      if init.1.Fail? then init
      else if !Passed(k) then (init.0 + [false], Pass)
      else match IsGridParam(dot, k, v)
        case Err(e) => (init.0, Fail(e))
        case Ok(b) => (init.0 + [b], Pass)
  }

  /** The scan marks exactly the passed entries that are grid-search lists; when it stops,
      it stops at the first passed entry whose test raises, with that error. */
  lemma {:induction false} GridScanMeaning(dot: PyDict<Value>, items: seq<(string, Value)>)
    ensures var (flags, o) := GridScan(dot, items);
      forall i :: 0 <= i < |flags| ==>
        flags[i] == (Passed(items[i].0) && IsGridParam(dot, items[i].0, items[i].1) == Ok(true))
    ensures var (flags, o) := GridScan(dot, items);
      forall i :: 0 <= i < |flags| ==> !Passed(items[i].0) || IsGridParam(dot, items[i].0, items[i].1).Ok?
    ensures var (flags, o) := GridScan(dot, items);
      o.Fail? ==> Passed(items[|flags|].0) && IsGridParam(dot, items[|flags|].0, items[|flags|].1) == Err(o.error)
  {
    if items != [] {
      var init := items[..|items| - 1];
      GridScanMeaning(dot, init);
      var (flags, o) := GridScan(dot, init);
      var (k, v) := items[|items| - 1];
      forall i | 0 <= i < |flags| ensures items[i] == init[i] { }
      if o.Pass? && Passed(k) && IsGridParam(dot, k, v).Ok? {
        assert |flags| == |init|;
      }
    }
  }

  /** The shell variable stem of a grid-search key: `key.replace(".", "").replace("/", "")`,
      the key with every `.` and `/` deleted. */
  function KeyVar(key: string): (r: string)
    ensures r == Omit(Omit(key, '.'), '/')
    ensures '.' !in r && '/' !in r
  {
    DeleteChar(key, '.');
    DeleteChar(Omit(key, '.'), '/');
    ReplaceAll(ReplaceAll(key, ".", ""), "/", "")
  }

  /** A key without `.` or `/` is its own stem; `a.b`, `a/b` and `ab` share one. */
  lemma KeyVarMeaning(key: string)
    ensures '.' !in key && '/' !in key ==> KeyVar(key) == key
    ensures KeyVar("a.b") == KeyVar("a/b") == KeyVar("ab") == "ab"
  {
    if '.' !in key && '/' !in key {
      OmitAbsent(key, '.');
      OmitAbsent(key, '/');
    }
    assert "a.b"[1..] == ".b" && ".b"[1..] == "b" && "b"[1..] == [];
    assert "a/b"[1..] == "/b" && "/b"[1..] == "b";
    assert Omit("b", '.') == "b" == Omit("b", '/');
    assert Omit("a.b", '.') == "ab";
    assert Omit("a/b", '.') == "a/b";
    OmitAbsent("ab", '.');
    OmitAbsent("ab", '/');
  }

  /** The `str` of every element of a list. */
  function Strs(values: seq<Value>): (r: seq<string>)
    ensures |r| == |values|
    ensures forall j :: 0 <= j < |values| ==> r[j] == PyStr(values[j])
  {
    seq(|values|, j requires 0 <= j < |values| => PyStr(values[j]))
  }

  function ListItems(v: Value): seq<Value> {
    if v.List? then v.items else []
  }

  /** The bash array of a grid-search key: `<stem>Param=("v1" "v2" ...)`. */
  function ArrayLine(key: string, values: seq<Value>): string {
    KeyVar(key) + "Param=(\"" + Join("\" \"", Strs(values)) + "\")"
  }

  /** The bash arrays of the entries marked by `flags`, in order. */
  function Arrays(items: seq<(string, Value)>, flags: seq<bool>): seq<string>
    requires |flags| <= |items|
  {
    if flags == [] then []
    else
      var n := |flags| - 1;
      Arrays(items, flags[..n]) + (if flags[n] then [ArrayLine(items[n].0, ListItems(items[n].1))] else [])
  }

  /** The argument of a passed entry: a grid-search key takes its element for this task from its
      array, `"key=${<stem>Param[$taskId]}"`; any other key its `str`, `"key=value"`. */
  function Token(key: string, v: Value, grid: bool): string {
    if grid then "\"" + key + "=" + ArrayRef(key) + "\""
    else "\"" + key + "=" + PyStr(v) + "\""
  }

  /** The element for this task of the bash array of a grid-search key. */
  function ArrayRef(key: string): string {
    "${" + KeyVar(key) + "Param[$taskId]}"
  }

  /** The arguments of the passed entries, in order. */
  function Tokens(items: seq<(string, Value)>, flags: seq<bool>): seq<string>
    requires |flags| == |items|
  {
    if items == [] then []
    else
      var n := |items| - 1;
      Tokens(items[..n], flags[..n]) + (if Passed(items[n].0) then [Token(items[n].0, items[n].1, flags[n])] else [])
  }

  /** A plain argument reads back, through the parser of `SlurmScript`, as its key and the
      `str` of its value; a grid-search argument as its key and the array reference. */
  lemma TokenParsesBack(key: string, v: Value, grid: bool)
    requires key != [] && SlurmScripts.Readable(key)
    requires !grid ==> SlurmScripts.Readable(PyStr(v))
    ensures !grid ==> SlurmScripts.ParamToken(Token(key, v, grid)) == Ok((key, PyStr(v)))
    ensures grid ==> SlurmScripts.ParamToken(Token(key, v, grid)) == Ok((key, ArrayRef(key)))
  {
    if grid {
      ArrayRefReadable(key);
      SlurmScripts.ParamTokenPair(key, ArrayRef(key));
    } else {
      SlurmScripts.ParamTokenPair(key, PyStr(v));
    }
  }

  /** The array reference of a key without `=` or `#` holds neither, and starts and ends
      with a character other than a space. */
  lemma ArrayRefReadable(key: string)
    requires '=' !in key && '#' !in key
    ensures SlurmScripts.Readable(ArrayRef(key))
  {
    var stem := KeyVar(key);
    var tail := "Param[$taskId]}";
    var a := ArrayRef(key);
    assert a == "${" + stem + tail;
    assert '=' !in stem && '#' !in stem;
    assert '=' !in tail && '#' !in tail;
    assert a[0] == '$' && a[|a| - 1] == tail[|tail| - 1] == '}';
  }

  /** The `taskId` line: the array task id under `--array`, else 0. */
  function TaskIdLine(hasArray: bool): string {
    if hasArray then SBatches.ArrayTaskIdLine else SBatches.FirstTaskIdLine
  }

  /** The run line: `python "<script>" "gpus=<n>"`, the arguments, and the checkpoint
      directory last. */
  function RunLine(scriptName: string, gpus: int, tokens: seq<string>): string {
    "python" + Prefixed(" ", ["\"" + scriptName + "\"", "\"gpus=" + IntToString(gpus) + "\""] + tokens + [CheckpointsArg])
  }

  // ---------------------------------------------------------------------------
  // make_slurm_script

  /** `self._params` as a tree to walk. */
  function ConfNode(params: Option<PyDict<Value>>): (r: Option<Value>)
    ensures r.Some? ==> r.value.Dict?
  {
    if params.None? then Option.None else Some(Dict(Items(params.value)))
  }

  /** `dot_params`, the flattened configuration. */
  function DotParams(params: Option<PyDict<Value>>): PyDict<Value> {
    Walked(ConfNode(params), [], Option.None)
  }

  /** `get_num_gpus`: the `--gres` rule of the newer generator; without a configuration the
      membership test raises. */
  function Gpus(params: Option<PyDict<Value>>): Result<int> {
    if params.None? then Err(TypeError) else SBatches.NumGpus(params.value)
  }

  /** The lines `make_slurm_script` appends, each after a newline, and whether it finishes:
      the directives, an empty line, the commands, the bash arrays, the `taskId` line and
      the run line. A raising grid-search test stops it after the directives, the commands
      and the arrays so far; a malformed `--gres` before the run line. */
  function Progress(params: Option<PyDict<Value>>, commands: seq<string>, scriptName: string): (seq<string>, Outcome) {
    var dot := DotParams(params);
    var items := Items(Walked(Some(Dict(Items(dot))), [], Option.None));
    var head := Directives(Items(dot)) + [""] + commands;
    var scan := GridScan(dot, items);
    var arrays := Arrays(items, scan.0);
    if scan.1.Fail? then (head + arrays, scan.1)
    else
      var body := head + arrays + [TaskIdLine(Has(dot, SBatches.ArrayKey))];
      match Gpus(params)
      case Err(e) => (body, Fail(e))
      case Ok(n) => (body + [RunLine(scriptName, n, Tokens(items, scan.0))], Pass)
  }

  /** The `taskId` line reads the Slurm array task id exactly when the configuration sets
      `--array` to a value that is not a dictionary. */
  lemma TaskIdLineMeaning(params: Option<PyDict<Value>>)
    ensures TaskIdLine(Has(DotParams(params), SBatches.ArrayKey)) == SBatches.ArrayTaskIdLine <==>
      params.Some? && Has(params.value, SBatches.ArrayKey) && !Get(params.value, SBatches.ArrayKey).Dict?
    ensures TaskIdLine(Has(DotParams(params), SBatches.ArrayKey)) != SBatches.ArrayTaskIdLine ==>
      TaskIdLine(Has(DotParams(params), SBatches.ArrayKey)) == SBatches.FirstTaskIdLine
  {
    assert SBatches.ArrayTaskIdLine != SBatches.FirstTaskIdLine by {
      assert |SBatches.ArrayTaskIdLine| != |SBatches.FirstTaskIdLine|;
    }
    if params.Some? {
      TopLevelKey(params.value, SBatches.ArrayKey);
    }
  }

  /** Appending `"\n" + line` for each line of `lines`. */
  method AppendLines(script: string, lines: seq<string>) returns (r: string)
    ensures r == script + Prefixed("\n", lines)
  {
    r := script;
    for i := 0 to |lines|
      invariant r == script + Prefixed("\n", lines[..i])
    {
      PrefixedStep("\n", lines, i);
      r := r + "\n" + lines[i];
    }
    assert lines[..|lines|] == lines;
  }

  /** The directive loop of `make_slurm_script`. */
  method AppendDirectives(script: string, items: seq<(string, Value)>) returns (r: string)
    ensures r == script + Prefixed("\n", Directives(items))
  {
    r := script;
    for i := 0 to |items|
      invariant r == script + Prefixed("\n", Directives(items[..i]))
    {
      ghost var before := r;
      r := AppendDirective(r, items[i].0, items[i].1);
      DirectivesStep(script, before, r, items, i);
    }
    assert items[..|items|] == items;
  }

  /** The directive of one entry, after a newline. */
  method AppendDirective(script: string, key: string, value: Value) returns (r: string)
    ensures r == script + Prefixed("\n", DirectiveFor(key, value))
  {
    r := script;
    if key in AvailableSlurmCommands {
      var line;
      if StartsWith(key, "--") {
        line := "#SBATCH " + key + "=" + PyStr(value);
      } else if StartsWith(key, "-") {
        line := "#SBATCH " + key + " " + PyStr(value);
      } else {
        return;
      }
      assert DirectiveFor(key, value) == [line];
      PrefixedSingle("\n", line);
      r := r + ("\n" + line);
    }
  }

  lemma DirectivesStep(script: string, before: string, after: string, items: seq<(string, Value)>, i: nat)
    requires i < |items|
    requires before == script + Prefixed("\n", Directives(items[..i]))
    requires after == before + Prefixed("\n", DirectiveFor(items[i].0, items[i].1))
    ensures after == script + Prefixed("\n", Directives(items[..i + 1]))
  {
    var lines := DirectiveFor(items[i].0, items[i].1);
    assert items[..i + 1][..i] == items[..i];
    assert Directives(items[..i + 1]) == Directives(items[..i]) + lines;
    PrefixedConcat("\n", Directives(items[..i]), lines);
    AppendAssoc(script, Prefixed("\n", Directives(items[..i])), Prefixed("\n", lines));
  }

  /** The array loop of `make_slurm_script`: the grid-search test of every passed entry, and
      the array of each entry that passes it. */
  method AppendArrays(script: string, dot: PyDict<Value>, items: seq<(string, Value)>)
    returns (r: string, flags: seq<bool>, outcome: Outcome)
    ensures (flags, outcome) == GridScan(dot, items)
    ensures r == script + Prefixed("\n", Arrays(items, flags))
  {
    r := script;
    flags := [];
    outcome := Pass;
    for i := 0 to |items|
      invariant |flags| == i
      invariant (flags, Pass) == GridScan(dot, items[..i])
      invariant r == script + Prefixed("\n", Arrays(items, flags))
    {
      var (key, value) := items[i];
      var isGrid: Result<bool> := Ok(false);
      if Passed(key) {
        isGrid := IsGridParam(dot, key, value);
        if isGrid.Err? {
          outcome := Fail(isGrid.error);
          ScanFails(dot, items, flags);
          return;
        }
      }
      ghost var before := r;
      if isGrid.value {
        r := r + "\n" + ArrayLine(key, ListItems(value));
      }
      ArraysStep(script, before, r, items, flags, isGrid.value);
      ScanAdvances(dot, items, flags, isGrid.value);
      flags := flags + [isGrid.value];
    }
    assert items[..|items|] == items;
  }

  lemma ScanStep(dot: PyDict<Value>, items: seq<(string, Value)>, i: nat)
    requires i < |items|
    ensures GridScan(dot, items[..i + 1]) ==
      var init := GridScan(dot, items[..i]);
      if init.1.Fail? then init
      else if !Passed(items[i].0) then (init.0 + [false], Pass)
      else match IsGridParam(dot, items[i].0, items[i].1)
        case Err(e) => (init.0, Fail(e))
        case Ok(b) => (init.0 + [b], Pass)
  {
    assert items[..i + 1][..i] == items[..i];
    assert items[..i + 1][i] == items[i];
  }

  /** The scan goes on past an entry it can test. */
  lemma ScanAdvances(dot: PyDict<Value>, items: seq<(string, Value)>, flags: seq<bool>, b: bool)
    requires |flags| < |items| && (flags, Pass) == GridScan(dot, items[..|flags|])
    requires Passed(items[|flags|].0) ==> IsGridParam(dot, items[|flags|].0, items[|flags|].1) == Ok(b)
    requires !Passed(items[|flags|].0) ==> !b
    ensures (flags + [b], Pass) == GridScan(dot, items[..|flags| + 1])
  {
    ScanStep(dot, items, |flags|);
  }

  /** The scan stops at a passed entry whose test raises. */
  lemma ScanFails(dot: PyDict<Value>, items: seq<(string, Value)>, flags: seq<bool>)
    requires |flags| < |items| && (flags, Pass) == GridScan(dot, items[..|flags|])
    requires Passed(items[|flags|].0) && IsGridParam(dot, items[|flags|].0, items[|flags|].1).Err?
    ensures GridScan(dot, items) == (flags, Fail(IsGridParam(dot, items[|flags|].0, items[|flags|].1).error))
  {
    ScanStep(dot, items, |flags|);
    ScanStops(dot, items, |flags| + 1);
  }

  /** A scan that stops on a prefix stops the same way on the whole list. */
  lemma {:induction false} ScanStops(dot: PyDict<Value>, items: seq<(string, Value)>, n: nat)
    requires n <= |items| && GridScan(dot, items[..n]).1.Fail?
    ensures GridScan(dot, items) == GridScan(dot, items[..n])
    decreases |items| - n
  {
    if n < |items| {
      ScanStep(dot, items, n);
      ScanStops(dot, items, n + 1);
    } else {
      assert items[..n] == items;
    }
  }

  lemma ArraysStep(script: string, before: string, after: string, items: seq<(string, Value)>, flags: seq<bool>, b: bool)
    requires |flags| < |items|
    requires before == script + Prefixed("\n", Arrays(items, flags))
    requires after == before + (if b then "\n" + ArrayLine(items[|flags|].0, ListItems(items[|flags|].1)) else "")
    ensures after == script + Prefixed("\n", Arrays(items, flags + [b]))
  {
    var fs := flags + [b];
    assert fs[..|flags|] == flags;
    var line := ArrayLine(items[|flags|].0, ListItems(items[|flags|].1));
    if b {
      assert Arrays(items, fs) == Arrays(items, flags) + [line];
      PrefixedSnoc(script, "\n", Arrays(items, flags), line);
    } else {
      assert Arrays(items, fs) == Arrays(items, flags);
      AppendEmpty(before);
    }
  }

  /** The run line, written as `make_slurm_script` accumulates it. */
  method AppendRunLine(script: string, scriptName: string, gpus: int, items: seq<(string, Value)>, flags: seq<bool>)
    returns (r: string)
    requires |flags| == |items|
    ensures r == script + "\n" + RunLine(scriptName, gpus, Tokens(items, flags))
  {
    var head := script + "\n" + "python";
    r := head;
    AppendEmpty(head);
    var quotedName := "\"" + scriptName + "\"";
    PrefixedSnoc(head, " ", [], quotedName);
    r := r + " " + quotedName;
    var gpusArg := "\"gpus=" + IntToString(gpus) + "\"";
    PrefixedSnoc(head, " ", [quotedName], gpusArg);
    r := r + " " + gpusArg;
    ghost var first := [quotedName, gpusArg];
    assert first + Tokens(items[..0], flags[..0]) == [quotedName] + [gpusArg];
    for i := 0 to |items|
      invariant r == head + Prefixed(" ", first + Tokens(items[..i], flags[..i]))
    {
      var (key, value) := items[i];
      TokensSnoc(items, flags, i);
      if Passed(key) {
        var token;
        if flags[i] {
          var keyVar := KeyVar(key);
          var reference := "${" + keyVar + "Param[$taskId]}";
          token := "\"" + key + "=" + reference + "\"";
        } else {
          token := "\"" + key + "=" + PyStr(value) + "\"";
        }
        PrefixedSnoc(head, " ", first + Tokens(items[..i], flags[..i]), token);
        SeqAppendAssoc(first, Tokens(items[..i], flags[..i]), [token]);
        r := r + " " + token;
      } else {
        assert Tokens(items[..i + 1], flags[..i + 1]) == Tokens(items[..i], flags[..i]);
      }
    }
    assert items[..|items|] == items && flags[..|flags|] == flags;
    PrefixedSnoc(head, " ", first + Tokens(items, flags), CheckpointsArg);
    r := r + " " + CheckpointsArg;
    AppendAssoc(script + "\n", "python", Prefixed(" ", first + Tokens(items, flags) + [CheckpointsArg]));
  }

  lemma TokensSnoc(items: seq<(string, Value)>, flags: seq<bool>, i: nat)
    requires |flags| == |items| && i < |items|
    ensures Tokens(items[..i + 1], flags[..i + 1]) == Tokens(items[..i], flags[..i]) +
      (if Passed(items[i].0) then [Token(items[i].0, items[i].1, flags[i])] else [])
  {
    assert items[..i + 1][..i] == items[..i];
    assert flags[..i + 1][..i] == flags[..i];
  }

  /** An `SBatch` of the older generator: the configuration, the name of the script to run,
      the commands, and the script text accumulated so far. */
  class SBatch {
    const params: Option<PyDict<Value>>
    const scriptName: string
    var slurmScript: string
    var commands: seq<string>

    /** `SBatch(experiment_handler, sbatch_params)`: the shebang, and the commands of
        `experiment_handler.new_run()`. */
    constructor (params: Option<PyDict<Value>>, scriptName: string, newRun: seq<string>)
      ensures this.params == params && this.scriptName == scriptName
      ensures slurmScript == SBatches.Shebang && commands == newRun
    {
      this.params := params;
      this.scriptName := scriptName;
      slurmScript := SBatches.Shebang;
      commands := [];
      new;
      AddCommands(newRun);
    }

    /** `get_num_gpus`: the count after the first `:` of `--gres`, 0 without one. */
    method GetNumGpus() returns (r: Result<int>)
      ensures r == Gpus(params)
    {
      if params.None? {
        return Err(TypeError);
      }
      var p := params.value;
      if Has(p, SBatches.GresKey) {
        match Get(p, SBatches.GresKey)
        case Str(s) =>
          var parts := Split(s, ':');
          if |parts| > 1 {
            return ParseInt(parts[1]);
          }
        case _ =>
          return Err(AttributeError);
      }
      return Ok(0);
    }

    method AddCommand(command: string)
      modifies this
      ensures commands == old(commands) + [command]
      ensures slurmScript == old(slurmScript)
    {
      commands := commands + [command];
    }

    method AddCommands(cs: seq<string>)
      modifies this
      ensures commands == old(commands) + cs
      ensures slurmScript == old(slurmScript)
    {
      for i := 0 to |cs|
        invariant commands == old(commands) + cs[..i]
        invariant slurmScript == old(slurmScript)
      {
        AddCommand(cs[i]);
        assert cs[..i + 1] == cs[..i] + [cs[i]];
      }
      assert cs[..|cs|] == cs;
    }

    /** `make_slurm_script`: appends the lines of `Progress` to the script. */
    method MakeSlurmScript() returns (outcome: Outcome)
      modifies this
      ensures commands == old(commands)
      ensures slurmScript == old(slurmScript) + Prefixed("\n", Progress(params, commands, scriptName).0)
      ensures outcome == Progress(params, commands, scriptName).1
    {
      ghost var start := slurmScript;
      var dotParams := WalkDict(ConfNode(params), [], Option.None);
      var script := AppendDirectives(slurmScript, Items(dotParams));
      ghost var lines := Directives(Items(dotParams));
      PrefixedSnoc(start, "\n", lines, "");
      AppendEmpty(script + "\n");
      script := script + "\n";
      lines := lines + [""];
      script := AppendLines(script, commands);
      PrefixedAppend(start, "\n", lines, commands);
      lines := lines + commands;
      var again := WalkDict(Some(Dict(Items(dotParams))), [], Option.None);
      var flags;
      script, flags, outcome := AppendArrays(script, dotParams, Items(again));
      PrefixedAppend(start, "\n", lines, Arrays(Items(again), flags));
      lines := lines + Arrays(Items(again), flags);
      if outcome.Fail? {
        slurmScript := script;
        return;
      }
      var taskLine := TaskIdLine(Has(dotParams, SBatches.ArrayKey));
      PrefixedSnoc(start, "\n", lines, taskLine);
      script := script + "\n" + taskLine;
      lines := lines + [taskLine];
      var gpus := GetNumGpus();
      if gpus.Err? {
        slurmScript := script;
        outcome := Fail(gpus.error);
        return;
      }
      var third := WalkDict(Some(Dict(Items(dotParams))), [], Option.None);
      ghost var runLine := RunLine(scriptName, gpus.value, Tokens(Items(again), flags));
      PrefixedSnoc(start, "\n", lines, runLine);
      script := AppendRunLine(script, scriptName, gpus.value, Items(third), flags);
      slurmScript := script;
    }
  }

  // ---------------------------------------------------------------------------
  // get_grid_combinations and the --array rewrite of auto_sbatch

  /** The filter of `get_grid_combinations`: a key named by `--grid-search` with a list value. */
  function GridFilter(g: Value): (string, Value) -> bool {
    (k: string, v: Value) => InGrid(g, k) == Ok(true) && v.List?
  }

  /** The grid-search lists of `args`, keyed by their dotted keys. */
  function GridLists(args: PyDict<Value>, g: Value): PyDict<Value> {
    Walked(Some(Dict(Items(args))), [], Some(GridFilter(g)))
  }

  /** The elements of each value. */
  function ValueLists(items: seq<(string, Value)>): (r: seq<seq<Value>>)
    ensures |r| == |items|
    ensures forall i :: 0 <= i < |items| ==> r[i] == ListItems(items[i].1)
  {
    seq(|items|, i requires 0 <= i < |items| => ListItems(items[i].1))
  }

  /** The configuration has a leaf, a value `walk_dict` calls its filter on. */
  predicate HasLeaf(args: PyDict<Value>) {
    Leaves(Dict(Items(args)), [], Option.None) != []
  }

  /** `n_jobs` of `get_grid_combinations`: the number of combinations of the grid-search
      lists, the product of their lengths. The filter reads `args["--grid-search"]` and tests
      membership in it at the first leaf, so a missing `--grid-search` is a `KeyError` and
      one that cannot be searched a `TypeError` (for every key alike), once there is a leaf;
      without a leaf, or without any selected list, the unpacking of the empty `zip`
      raises. */
  function CombinationCount(args: PyDict<Value>): (r: Result<nat>)
    ensures !HasLeaf(args) ==> r == Err(ValueError(GridSearching.UnpackMessage))
    ensures HasLeaf(args) && !Has(args, GridSearchKey) ==> r == Err(KeyError(GridSearchKey))
    ensures HasLeaf(args) && Has(args, GridSearchKey) && InGrid(Get(args, GridSearchKey), "").Err? ==>
      r == Err(TypeError)
    ensures r.Ok? ==> Has(args, GridSearchKey)
    ensures r.Ok? ==>
      var grid := GridLists(args, Get(args, GridSearchKey));
      && grid.keys != []
      && r.value == GridSearching.ProductSize(ValueLists(Items(grid)))
      && forall k :: Has(grid, k) ==> Get(grid, k).List? && InGrid(Get(args, GridSearchKey), k) == Ok(true)
    ensures (Has(args, GridSearchKey) && InGrid(Get(args, GridSearchKey), "").Ok? &&
      GridLists(args, Get(args, GridSearchKey)).keys == []) ==> r == Err(ValueError(GridSearching.UnpackMessage))
  {
    if !HasLeaf(args) then Err(ValueError(GridSearching.UnpackMessage))
    else if !Has(args, GridSearchKey) then Err(KeyError(GridSearchKey))
    else
      var g := Get(args, GridSearchKey);
      if InGrid(g, "").Err? then Err(TypeError)
      else
        var grid := GridLists(args, g);
        if grid.keys == [] then Err(ValueError(GridSearching.UnpackMessage))
        else
          var lists := ValueLists(Items(grid));
          GridSearching.ProductShape(lists);
          WalkedIsFlat(Some(Dict(Items(args))), [], Some(GridFilter(g)));
          Ok(|GridSearching.Product(lists)|)
  }

  /** Without a leaf the filter never reads `--grid-search`, so `{}` and `{a: {}}` raise the
      unpacking error; `{a: 1}` has a leaf and raises the `KeyError`. */
  lemma CombinationCountLeafOrder()
    ensures CombinationCount(Empty()) == Err(ValueError(GridSearching.UnpackMessage))
    ensures CombinationCount(Put(Empty(), "a", Dict([]))) == Err(ValueError(GridSearching.UnpackMessage))
    ensures CombinationCount(Put(Empty(), "a", Int(1))) == Err(KeyError(GridSearchKey))
  {
    assert Items(Empty<Value>()) == [];
    var nested := Put(Empty(), "a", Dict([]));
    assert Items(nested) == [("a", Dict([]))];
    assert Leaves(Dict(Items(nested)), [], Option.None)
      == LeavesUpTo(Dict(Items(nested)), 0, [], Option.None) + EntryLeaves(Dict(Items(nested)), 0, [], Option.None);
    var flat := Put(Empty(), "a", Int(1));
    assert Items(flat) == [("a", Int(1))];
    assert Leaves(Dict(Items(flat)), [], Option.None)
      == LeavesUpTo(Dict(Items(flat)), 0, [], Option.None) + EntryLeaves(Dict(Items(flat)), 0, [], Option.None);
    assert !Has(flat, GridSearchKey);
  }

  /** Lines 133-146 of `auto_sbatch`: a grid search without `--array` gets `--array=auto`;
      under `--array`, a grid search is counted and the configuration replaced by
      `merge`, standing for the `OmegaConf.merge` of `get_grid_combinations`; then `auto`
      becomes `0-<n_jobs - 1>`, and is dropped for a single job. */
  function ResolveArray(conf: PyDict<Value>, merge: PyDict<Value> -> PyDict<Value>): (r: Result<PyDict<Value>>)
    ensures !Has(conf, GridSearchKey) && !Has(conf, SBatches.ArrayKey) ==> r == Ok(conf)
    ensures !Has(conf, GridSearchKey) && Has(conf, SBatches.ArrayKey) ==>
      r == if Get(conf, SBatches.ArrayKey) == Str(AutoValue) then Err(AssertionError(AutoArrayMessage)) else Ok(conf)
    ensures Has(conf, GridSearchKey) ==>
      var withArray := if Has(conf, SBatches.ArrayKey) then conf else Put(conf, SBatches.ArrayKey, Str(AutoValue));
      var count := CombinationCount(withArray);
      var merged := merge(withArray);
      (count.Err? ==> r == Err(count.error)) &&
      (count.Ok? && !Has(merged, SBatches.ArrayKey) ==> r == Err(KeyError(SBatches.ArrayKey))) &&
      (count.Ok? && Has(merged, SBatches.ArrayKey) && Get(merged, SBatches.ArrayKey) != Str(AutoValue) ==> r == Ok(merged)) &&
      (count.Ok? && Has(merged, SBatches.ArrayKey) && Get(merged, SBatches.ArrayKey) == Str(AutoValue) ==>
        r.Ok? &&
        (forall k :: k != SBatches.ArrayKey ==> (Has(r.value, k) <==> Has(merged, k))) &&
        (forall k :: k != SBatches.ArrayKey && Has(merged, k) ==> Get(r.value, k) == Get(merged, k)) &&
        (count.value == 1 ==> !Has(r.value, SBatches.ArrayKey) && r.value.keys == Without(merged.keys, SBatches.ArrayKey)) &&
        (count.value != 1 ==>
          Has(r.value, SBatches.ArrayKey) && Get(r.value, SBatches.ArrayKey) == Str("0-" + IntToString(count.value - 1)) &&
          r.value.keys == merged.keys))
  {
    var withArray :=
      if Has(conf, GridSearchKey) && !Has(conf, SBatches.ArrayKey) then Put(conf, SBatches.ArrayKey, Str(AutoValue))
      else conf;
    if !Has(withArray, SBatches.ArrayKey) then Ok(withArray)
    else
      var counted: Result<(Option<nat>, PyDict<Value>)> :=
        if Has(withArray, GridSearchKey) then
          (match CombinationCount(withArray)
           case Err(e) => Err(e)
           case Ok(n) => Ok((Some(n), merge(withArray))))
        else Ok((Option.None, withArray));
      var c :- counted;
      var (nJobs, expanded) := c;
      if !Has(expanded, SBatches.ArrayKey) then Err(KeyError(SBatches.ArrayKey))
      else if Get(expanded, SBatches.ArrayKey) != Str(AutoValue) then Ok(expanded)
      else if nJobs.None? then Err(AssertionError(AutoArrayMessage))
      else
        var ranged := Put(expanded, SBatches.ArrayKey, Str("0-" + IntToString(nJobs.value - 1)));
        if nJobs.value == 1 then Ok(Remove(ranged, SBatches.ArrayKey)) else Ok(ranged)
  }
}

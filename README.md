# auto-sbatch, modelled in Dafny

auto-sbatch writes Slurm batch scripts for Python experiments and submits them with
`sbatch`. This project models the part that computes things and proves properties of it:

- `GridSearch` (`GridSearching`, grid_search.dfy). It takes a mapping from parameter names
  to lists of values. It builds the Cartesian product, drops every combination that an
  exclusion rule matches, and stores the survivors column by column. `job_params` picks
  one job's values.
- `SBatch` of sbatch.py (`SBatches`, sbatch.dfy). It holds the Slurm directives, the
  script parameters, the set-up and post commands and a grid search. It:
  - rewrites `--array=auto` into the job range;
  - counts GPUs from `--gres`;
  - builds the `params`/`grid_search`/`all`/`grid_search_string` arguments of the run
    command;
  - writes the script: directives, commands, bash arrays or one value per grid key, the
    task-id strategy (native array, `for` loop, single task, explicit task), the
    formatted run command and the post commands;
  - works out which task ids `run` submits.
- `SlurmScriptParser` (`SlurmScripts`, slurm_script.dfy). It reads a script back: its
  `#SBATCH` directives, the lines before and after the main command, and the script name
  and the parameters of the main command.
- `get_dotlist_params` (`Dotlists`, utils.dfy). It flattens a nested configuration into
  dotted keys.
- The older generator of auto_sbatch.py (`AutoSbatch`, auto_sbatch.dfy): `walk_dict`, its
  `SBatch` class, the job count of `get_grid_combinations` and the `--array=auto` rewrite
  of `auto_sbatch`.
- `Command` and `Python` of processes.py (`Processes`, processes.dfy), with Python's
  `str.format` for keyword fields.

Support modules:

- `Wrappers`: `Option`, `Result`, `Outcome` and the Python exception kinds.
- `PyStrings`: `split`, `join`, `strip`, `replace`, `int`/`str` of integers.
- `OrderedDicts`: insertion-ordered dictionaries with Python's assignment and `update`.
- `PyValues`: configuration values, their `str` and Python's `==` on them.

Python exceptions become `Err` results or `Fail` outcomes that carry the same exception
kind. The operations that change objects in place are class methods with `modifies`
clauses. Each such method is specified by a function of the old state. The properties
are proved about those functions.

## Model

| member | source | states |
|---|---|---|
| GridSearching.NewGridSearch | auto_sbatch/grid_search.py:7-14 | the constructor stores the values and the exclusion rules (`None` becomes no rules), and either raises what `get_combinations` raises or stores its job count and columns |
| GridSearching.GetCombinations | auto_sbatch/grid_search.py:16-28 | the loop over the columns yields exactly the job count and the columns of the specification of `get_combinations` |
| GridSearching.FilterCombinations | auto_sbatch/grid_search.py:19-23 | the filter loop keeps the surviving combinations in product order and stops at the first rule error |
| GridSearching.BuildColumns | auto_sbatch/grid_search.py:25-27 | one column per key, holding the k-th element of every kept combination |
| GridSearching.ProductShape | auto_sbatch/grid_search.py:18 | the product has as many combinations as the product of the list lengths, and each one takes its i-th value from the i-th list |
| GridSearching.ProductIndex | auto_sbatch/grid_search.py:18 | `itertools.product` order: combination q·(size of the rest)+r is the q-th value of the first list followed by combination r of the rest |
| GridSearching.IsExcluded | auto_sbatch/grid_search.py:39-53 | the rule loop with its subset check and its for/else returns the specification of `_is_excluded` |
| GridSearching.ExcludedMeaning | auto_sbatch/grid_search.py:42-53 | `_is_excluded` raises exactly when a rule with a key outside the grid is reached before any rule matches; otherwise it is true exactly when some rule agrees with the combination on all of the rule's keys under Python's `==` (`PyEq`: `True == 1`, dictionaries equal whatever their order) |
| GridSearching.TrueRuleExcludesOne | auto_sbatch/grid_search.py:48-52 | the rule `{a: True}` excludes the combination `(1,)`, because `1 != True` is false, and keeps `(2,)` |
| PyValues.BoolEqualsInt | auto_sbatch/grid_search.py:49 | in the comparison of a value with a rule's value, `True` equals 1 and `False` equals 0, while `True` differs from 2, `"1"` differs from 1 and `None` differs from `False` |
| PyValues.DictOrderIgnored | auto_sbatch/grid_search.py:49 | two dictionaries with the same entries in another order compare equal |
| PyValues.PyEqSymmetric | auto_sbatch/grid_search.py:49 | the modelled `==` is symmetric, so a rule value may be compared from either side |
| GridSearching.EmptyRuleExcludes | auto_sbatch/grid_search.py:48-52 | an empty first rule excludes every combination, because the for/else falls through |
| GridSearching.Survivors | auto_sbatch/grid_search.py:19-23 | every surviving combination is one of the product's combinations |
| GridSearching.SurvivorsAreUnmatched | auto_sbatch/grid_search.py:19-23 | with valid rules, the survivors are exactly the combinations no rule matches |
| GridSearching.UnmatchedIsOrderedSubsequence | auto_sbatch/grid_search.py:19-23 | the kept combinations sit at strictly increasing positions of the product, and a position is kept if and only if no rule matches it |
| GridSearching.NoExclusionKeepsProduct | auto_sbatch/grid_search.py:16-24 | without rules every combination survives, and `n_jobs` is the product of the list lengths |
| GridSearching.ValidRulesNeverRaise | auto_sbatch/grid_search.py:43-47 | when every rule's keys are grid keys, `get_combinations` does not raise |
| GridSearching.EmptyRuleLeavesNoJobs | auto_sbatch/grid_search.py:48-52 | an empty rule anywhere among valid rules leaves zero jobs |
| GridSearching.InvalidFirstRule | auto_sbatch/grid_search.py:43-47 | a first rule with a foreign key raises the subset `ValueError` when there is at least one combination, and leaves zero jobs when there is none |
| GridSearching.BuiltShape | auto_sbatch/grid_search.py:24-28 | after construction `n_jobs` is the number of survivors, the columns have the grid's keys in order and `n_jobs` entries each, and entry t of column k is element k of survivor t |
| GridSearching.BuiltRectangular | auto_sbatch/grid_search.py:24-28 | every column of a constructed grid search has exactly `n_jobs` entries |
| GridSearching.ContainsMeansColumn | auto_sbatch/grid_search.py:35-36 | `item in grid` holds exactly when the item is a key of the values, which are also the keys of the columns |
| GridSearching.JobParamsMeaning | auto_sbatch/grid_search.py:30-33 | the intended `job_params` succeeds exactly for 0 <= id < n_jobs; its result has exactly the column keys, in column order, and maps each to that column's entry at the id |
| GridSearching.JobParamsAsWrittenRejectsValidIds | auto_sbatch/grid_search.py:31 | the guard as written rejects the valid id 1 that the intended one accepts, and lets −1 through to Python's negative index, the last job |
| GridSearching.PairNoExclusion | auto_sbatch/grid_search.py:16-28 | a 2×2 grid gives 4 jobs with columns [x1,x1,x2,x2] and [y1,y2,y1,y2] |
| GridSearching.PairFullRule | auto_sbatch/grid_search.py:16-28 | a rule naming both keys removes exactly that combination, leaving 3 jobs |
| GridSearching.PairPartialRule | auto_sbatch/grid_search.py:16-28 | a rule naming only the first key removes both combinations with that value, leaving 2 jobs |
| GridSearching.RepositoryTestGrids | tests/test_grid_search.py:13-33 | the three grids of the repository's grid tests: 4 jobs a=[1,1,2,2], b=[3,4,3,4]; 3 jobs under {a:1,b:3}; 2 jobs under {a:1} |
| SBatches.ArgValue | auto_sbatch/sbatch.py:225-228 | `None` is written `null`; otherwise unescaping the quotes gives back `str(value)`, and every double quote in the result is escaped |
| SBatches.VarName | auto_sbatch/sbatch.py:104 | the bash variable name keeps the key's length and turns each `.` and `/` into `_` |
| SBatches.VarNameCollides | auto_sbatch/sbatch.py:104 | keys that differ only in `.`, `/` and `_` get the same variable name |
| SBatches.VarNameKeeps | auto_sbatch/sbatch.py:104 | a key without `.` or `/` is its own variable name |
| SBatches.VarNameCollision | auto_sbatch/sbatch.py:104 | `a.b`, `a/b` and `a_b` all become `a_b` |
| SBatches.NumGpusMeaning | auto_sbatch/sbatch.py:77-82 | `--gres=name:n` gives n, a `--gres` without a colon gives 0, and no `--gres` gives 0 |
| SBatches.NumGpusTypedGres | auto_sbatch/sbatch.py:79-81 | a typed request `name:type:n` raises, because the second field is not an integer |
| PyStrings.ParseIntMessage | auto_sbatch/sbatch.py:81 | `int("x")` raises `ValueError` whose message ends with `: 'x'`, the `repr` of the rejected text |
| SBatches.SBatch.IsSlurmArrayAuto | auto_sbatch/sbatch.py:59-62 | true exactly when `--array` is set to the string `auto` |
| SBatches.SBatch.SetGridSearch | auto_sbatch/sbatch.py:64-75 | it raises and leaves the state unchanged, or moves to the rewritten configuration |
| SBatches.ApplyGridSearchMeaning | auto_sbatch/sbatch.py:64-75 | the job count becomes the grid's `n_jobs`. `--array=auto` becomes `0-(n_jobs−1)` in place, or is removed for one job; without a grid it raises. Nothing else changes |
| SBatches.ApplyGridSearchIdempotent | auto_sbatch/sbatch.py:64-75 | applying `set_grid_search` a second time changes nothing |
| SBatches.PlainTokensMeaning | auto_sbatch/sbatch.py:97-102 | the plain tokens are exactly the quoted `key=value` of the script parameters that are not grid keys |
| SBatches.PlainTokenSource | auto_sbatch/sbatch.py:97-101 | each plain token comes from a script parameter that is not a grid key |
| SBatches.PlainTokenPresent | auto_sbatch/sbatch.py:97-101 | each script parameter that is not a grid key has its plain token |
| SBatches.RunParamsAll | auto_sbatch/sbatch.py:89-113 | `all` is the plain parameters, then a space, then the grid parameters; the space is left out when either part is empty |
| SBatches.SBatch.GetRunParams | auto_sbatch/sbatch.py:89-113 | the two accumulation loops and the removal of the first character yield the run parameters of the current state |
| SBatches.DirectiveItems | auto_sbatch/sbatch.py:137-141 | only keys starting with `-` become directives |
| SBatches.DirectiveLinesMeaning | auto_sbatch/sbatch.py:137-141 | one `#SBATCH` line per directive key, in dictionary order: `key=value` for `--`, `key value` for `-`; the other keys are skipped |
| SBatches.WriteDirectives | auto_sbatch/sbatch.py:135-141 | the directive loop writes the shebang followed by the directive lines |
| SBatches.DeclarationsMeaning | auto_sbatch/sbatch.py:146-162 | the declarations succeed exactly when every grid key's declaration does, and then hold one line per key in column order |
| SBatches.EachOkMeaning | auto_sbatch/sbatch.py:149-162 | applying a raising step to each element in order succeeds exactly when every step does, and then gives one result per element |
| SBatches.DeclarationScalar | auto_sbatch/sbatch.py:150-153 | with an explicit task id and no `--array`, a key is declared as the scalar `<var>_param=<value of that task>`; an id outside the column raises `IndexError`, and a negative one counts from the end |
| SBatches.DeclarationArray | auto_sbatch/sbatch.py:154-162 | otherwise a key is declared as the bash array `<var>_param=("v0" "v1" …)` of all its escaped values |
| SBatches.DeclarationEmptyColumn | auto_sbatch/sbatch.py:154-162 | an empty column, left when every combination is excluded, still declares an array with one empty element |
| SBatches.QuotedJoin | auto_sbatch/sbatch.py:159-161 | joining with `" "` inside an outer pair of quotes is the same as quoting each value and joining with spaces |
| SBatches.DeclarationsPrefixErr | auto_sbatch/sbatch.py:149-162 | once one declaration raises (a task id out of range), nothing after it is declared |
| SBatches.TaskIdStrategies | auto_sbatch/sbatch.py:164-170 | the four task-id strategies (native array, explicit id, single job, loop) and their lines; the closing `done` is written exactly for the loop (187-192) |
| SBatches.RunArgsPrecedence | auto_sbatch/sbatch.py:172-182 | a caller's argument wins over the handler's, which wins over the built-in `num_gpus`, `all_params` and the rest |
| SBatches.Layout | auto_sbatch/sbatch.py:135-197 | the script's lines in order: head, declarations, task id, run line, `done`, post commands |
| SBatches.ScriptLayout | auto_sbatch/sbatch.py:135-197 | each block of a finished script is what its part of `make_slurm_script` writes, starting with the shebang |
| SBatches.ScriptPartsFields | auto_sbatch/sbatch.py:135-197 | each part of a finished script comes from its own source: the directives and commands, the declarations, the `taskId` lines, the formatted run command, `done`, the post commands |
| SBatches.ScriptPartsErrors | auto_sbatch/sbatch.py:149-184 | errors in statement order: a bad task id index first, then a malformed `--gres`, then the run command's format error |
| SBatches.ScriptPartsOk | auto_sbatch/sbatch.py:135-197 | when no step raises, the script is assembled from exactly those parts |
| SBatches.ScriptSplitsIntoLines | auto_sbatch/sbatch.py:135-197 | when no part contains a newline, splitting the script on newlines gives back its lines |
| SBatches.SBatch.MakeSlurmScript | auto_sbatch/sbatch.py:126-197 | the script built from the current state, the run command's text, the given task id and the caller's arguments (`None` means none) |
| SBatches.WriteScript | auto_sbatch/sbatch.py:132-197 | the step-by-step string building produces the specified script |
| SBatches.TaskIdsToRun | auto_sbatch/sbatch.py:207-209 | `schedule_all_tasks` without `--array` runs the ids 0…n−1; otherwise the given id alone |
| SBatches.CollectAll | auto_sbatch/sbatch.py:210-222 | when every script builds, all of them are submitted in order |
| SBatches.CollectFirstFailure | auto_sbatch/sbatch.py:210-222 | the first script that raises stops the run; exactly the scripts before it are submitted |
| SBatches.SBatch.Run | auto_sbatch/sbatch.py:199-222 | the scripts submitted and the outcome are those of the ids `run` picks |
| SBatches.SubmitAll | auto_sbatch/sbatch.py:210-222 | the loop submits the collected scripts |
| SBatches.SBatch.AddCommand | auto_sbatch/sbatch.py:115-120 | the command's text is appended to the post commands or to the commands; any other input fails the `Command` assertion and changes nothing |
| SBatches.SBatch.AddCommands | auto_sbatch/sbatch.py:122-124 | all texts are appended in order to the chosen list |
| SBatches.SBatch.ConfigureFromHandler | auto_sbatch/sbatch.py:38-41 | the handler's commands and main-command arguments are appended, and its script name is set |
| SBatches.SBatch.SetScriptName | auto_sbatch/sbatch.py:43-44 | only the script name changes |
| SBatches.SBatch.constructor | auto_sbatch/sbatch.py:23-31 | the empty starting state: `None` mappings become empty, one job, no commands |
| SBatches.Create | auto_sbatch/sbatch.py:14-36 | `SBatch(...)` applies the handler and then the grid search, raising what `set_grid_search` raises |
| SlurmScripts.ParseLongDirective | auto_sbatch/slurm_script.py:60-68 | `#SBATCH key=value` parses to the stripped key and value |
| SlurmScripts.ParseShortDirective | auto_sbatch/slurm_script.py:60-68 | `#SBATCH key value` parses to the key and value |
| SlurmScripts.ParseBodyExtraEquals | auto_sbatch/slurm_script.py:62-63 | two `=` signs make the unpacking raise |
| SlurmScripts.ParseBodyOnePart | auto_sbatch/slurm_script.py:64-65 | a body without `=` or a space cannot be unpacked and raises |
| SlurmScripts.ParseTimeDirective | tests/test_slurm_script_parser.py:8 | `#SBATCH --time=01:00:00` parses to `--time` and `01:00:00` |
| SlurmScripts.ParseOutputDirective | tests/test_slurm_script_parser.py:9 | `#SBATCH -o job-name.out` parses to `-o` and `job-name.out` |
| SlurmScripts.ParseWrittenDirective | auto_sbatch/slurm_script.py:60-68 | every directive line the script writer writes parses back to its key and `str` value |
| SlurmScripts.ParamTokenQuoted | auto_sbatch/slurm_script.py:47-50 | a quoted token is parsed without its quotes |
| SlurmScripts.ParamTokenPair | auto_sbatch/slurm_script.py:46-50 | a quoted `"k=a"` token parses to the key and value |
| SlurmScripts.ParamTokenOfWritten | auto_sbatch/slurm_script.py:46-50 | a parameter token written by the script writer parses back to its key and escaped value |
| SlurmScripts.DecodeParams | auto_sbatch/slurm_script.py:45-52 | the token loop yields the specified parameters and outcome |
| SlurmScripts.ParamsPrefixFail | auto_sbatch/slurm_script.py:46-52 | the first token that raises stops the decoding |
| SlurmScripts.ParamsOfAll | auto_sbatch/slurm_script.py:46-52 | when every token parses and decodes, the parameters are the decoded pairs with later keys overwriting earlier ones |
| SlurmScripts.ReplaceEachRenders | auto_sbatch/slurm_script.py:28-29 | the successive `replace` calls substitute each placeholder of the template and change nothing else |
| SlurmScripts.FormattedRenders | auto_sbatch/slurm_script.py:19-29 | `_format_main_command` turns each of the six placeholders into its regular expression group |
| SlurmScripts.SlurmScriptParser.FormatMainCommand | auto_sbatch/slurm_script.py:19-29 | the main-command template becomes its formatted version, and the parse state is untouched |
| SlurmScripts.ScriptLines | auto_sbatch/slurm_script.py:32-33 | the script is stripped of newlines at both ends and split on `\n`, and each line is stripped |
| SlurmScripts.ParseLinesPrefixFail | auto_sbatch/slurm_script.py:37-57 | the first line that raises ends the parse |
| SlurmScripts.ParseRecordsDirectives | auto_sbatch/slurm_script.py:38-40 | a parse that finishes has assigned every directive in order |
| SlurmScripts.ParseSplitsDirectives | auto_sbatch/slurm_script.py:38-39 | a parse that finishes has parsed every `#SBATCH` line |
| SlurmScripts.ParseDirectiveValues | auto_sbatch/slurm_script.py:38-40 | after a parse the directives hold the last value given for each key |
| SlurmScripts.FirstMain | auto_sbatch/slurm_script.py:41-53 | the first line the main command matches, or the end |
| SlurmScripts.ParseSortsCommands | auto_sbatch/slurm_script.py:53-57 | lines before the first main-command match are commands and lines after it are post commands, with directives and matches left out of both |
| SlurmScripts.LastMain | auto_sbatch/slurm_script.py:41-45 | the last line the main command matches, if any |
| SlurmScripts.ParseWithoutMatch | auto_sbatch/slurm_script.py:41-53 | with no match the main command, script name and parameters stay unset, and the parse fails only on a bad directive |
| SlurmScripts.ParseLastMatchWins | auto_sbatch/slurm_script.py:41-53 | the last matching line gives the main command, the script name (group 1) and the parameters of the second group |
| SlurmScripts.SlurmScriptParser.constructor | auto_sbatch/slurm_script.py:9-17 | stores the script and the template, all results empty or unset |
| SlurmScripts.SlurmScriptParser.RecordDirective | auto_sbatch/slurm_script.py:38-40 | one directive line updates the state as specified |
| SlurmScripts.SlurmScriptParser.RecordMain | auto_sbatch/slurm_script.py:41-53 | one matched line updates the state as specified |
| SlurmScripts.SlurmScriptParser.ParseLine | auto_sbatch/slurm_script.py:37-57 | one loop step updates the fields as specified |
| SlurmScripts.SlurmScriptParser.Parse | auto_sbatch/slurm_script.py:31-57 | the fields end as the specification of `parse` leaves them, over the stripped script lines and the formatted template |
| Dotlists.GetDotlistParams | auto_sbatch/utils.py:4-18 | a `ListConfig` root raises `ValueError`; a `DictConfig` gives its admitted leaves under dotted keys; it succeeds exactly for a mapping or an empty string |
| Dotlists.Gather | auto_sbatch/utils.py:7-15 | `gather` assigns every admitted leaf of the subtree into the dictionary, in traversal order |
| Dotlists.GatherEntry | auto_sbatch/utils.py:10-15 | one key either recurses into a nested mapping or assigns a leaf that passes the filter |
| Dotlists.LeavesUpToMembers | auto_sbatch/utils.py:10-15 | a leaf comes from one of the entries visited so far |
| Dotlists.EntryLeavesMeaning | auto_sbatch/utils.py:12-15 | a nested mapping contributes its own leaves under the extended path; a leaf contributes itself under its dotted key when the filter admits it |
| Dotlists.LeavesAreAdmitted | auto_sbatch/utils.py:14-15 | no gathered value is a mapping, and each one passed the filter |
| Dotlists.LeavesInOrder | auto_sbatch/utils.py:10 | visiting more keys only appends leaves |
| Dotlists.FlatLeaves | auto_sbatch/utils.py:10-15 | a flat configuration without a filter gathers to its own entries |
| Dotlists.NestedLeaf | auto_sbatch/utils.py:11-13 | `{a: {b: v}}` gathers to `a.b = v` |
| Dotlists.CollidingLeaves | auto_sbatch/utils.py:11-15 | a literal `a.b` key and a nested `a: {b}` give the same dotted key twice |
| Dotlists.CollidingKeys | auto_sbatch/utils.py:15 | when they collide, the later leaf's value wins |
| AutoSbatch.WalkDict | auto_sbatch/auto_sbatch.py:98-108 | `walk_dict` returns the flattened admitted leaves, and an empty dictionary for `None` |
| AutoSbatch.WalkNode | auto_sbatch/auto_sbatch.py:101-107 | the loop over the keys yields the dictionary of the node's leaves |
| AutoSbatch.WalkEntry | auto_sbatch/auto_sbatch.py:102-107 | one key is merged with `update` or assigned under its dotted path |
| AutoSbatch.WalkedIsFlat | auto_sbatch/auto_sbatch.py:102-107 | no value of a walked dictionary is a mapping, and each passed the filter |
| AutoSbatch.WalkFlat | auto_sbatch/auto_sbatch.py:98-108 | walking a flat dictionary gives it back unchanged |
| AutoSbatch.WalkTwice | auto_sbatch/auto_sbatch.py:60 | walking an already walked dictionary changes nothing |
| AutoSbatch.NestedKeysDotted | auto_sbatch/auto_sbatch.py:103-105 | every key found below the top level contains a dot |
| AutoSbatch.TopLevelKey | auto_sbatch/auto_sbatch.py:98-108 | a key without a dot is in the walked dictionary exactly when it is a top-level leaf, with the same value |
| AutoSbatch.AvailableItems | auto_sbatch/auto_sbatch.py:51 | only keys from the list of available Slurm options are written as directives |
| AutoSbatch.DirectivesMeaning | auto_sbatch/auto_sbatch.py:50-55 | one `#SBATCH` line per available option, in order, and exactly those |
| AutoSbatch.DirectiveParsesBack | auto_sbatch/auto_sbatch.py:52-55 | each directive the older generator writes parses back with `_parse_slurm_line` |
| AutoSbatch.GridScanMeaning | auto_sbatch/auto_sbatch.py:60-63 | for each passed key, the grid test (listed in `--grid-search` and holding a list) is recorded, up to the first test that raises |
| AutoSbatch.KeyVar | auto_sbatch/auto_sbatch.py:64 | the variable name drops every `.` and `/` |
| AutoSbatch.KeyVarMeaning | auto_sbatch/auto_sbatch.py:64 | a plain key is its own variable name; `a.b`, `a/b` and `ab` share one |
| AutoSbatch.TokenParsesBack | auto_sbatch/auto_sbatch.py:71-78 | each argument token of the run line parses back to its key and value, or to the array reference for a grid key |
| AutoSbatch.TaskIdLineMeaning | auto_sbatch/auto_sbatch.py:67 | `taskId` comes from the Slurm array exactly when `--array` is a leaf of the configuration, and is 0 otherwise |
| AutoSbatch.AppendDirectives | auto_sbatch/auto_sbatch.py:50-55 | the directive loop appends the directive lines |
| AutoSbatch.AppendArrays | auto_sbatch/auto_sbatch.py:60-65 | the array loop appends one bash array per grid key and records the grid tests |
| AutoSbatch.AppendRunLine | auto_sbatch/auto_sbatch.py:69-79 | the run line: the script, the GPU count, the argument tokens and the checkpoint directory |
| AutoSbatch.SBatch.constructor | auto_sbatch/auto_sbatch.py:22-32 | the script starts as the shebang, and the handler's new-run commands are added |
| AutoSbatch.SBatch.GetNumGpus | auto_sbatch/auto_sbatch.py:34-39 | the `--gres` rule of the newer generator, raising without a configuration |
| AutoSbatch.SBatch.AddCommand | auto_sbatch/auto_sbatch.py:41-42 | the command is appended and the script is untouched |
| AutoSbatch.SBatch.AddCommands | auto_sbatch/auto_sbatch.py:44-46 | the commands are appended in order |
| AutoSbatch.SBatch.MakeSlurmScript | auto_sbatch/auto_sbatch.py:48-79 | the script grows by the specified lines, each after a newline, and stops where a step raises |
| AutoSbatch.CombinationCount | auto_sbatch/auto_sbatch.py:111-117 | `n_jobs` is the product of the lengths of the grid lists. A configuration without leaves never calls the filter and raises the unpacking `ValueError`. Once there is a leaf, the filter raises at it: `KeyError` without `--grid-search`, and `TypeError` when `--grid-search` cannot be searched, whatever the key. Otherwise a selection with no list raises the unpacking `ValueError` |
| AutoSbatch.CombinationCountLeafOrder | auto_sbatch/auto_sbatch.py:106-115 | `{}` and `{a: {}}` raise the unpacking `ValueError` although `--grid-search` is missing; `{a: 1}` raises the `KeyError` |
| AutoSbatch.ResolveArray | auto_sbatch/auto_sbatch.py:133-146 | a grid search adds `--array=auto`; `auto` then becomes `0-(n_jobs−1)`, or is dropped for one job; `auto` without a grid fails the assertion. The other keys keep their membership, their values and their order: the keys are those of the merged configuration, in its order, less `--array` when it is dropped |
| Processes.FormatRendersTemplate | auto_sbatch/processes.py:14-15 | formatting a template whose fields are plain keyword names (no `:`, `!`, `.` or `[`) that all have values writes the literal characters once and each field as the `str` of its value |
| Processes.FormatPlainText | auto_sbatch/processes.py:14-15 | text without braces formats to itself |
| Processes.FormatMissingField | auto_sbatch/processes.py:14-15 | a field without a value raises `KeyError` naming it |
| Processes.FormatTrailingBrace | auto_sbatch/processes.py:14-15 | a template ending in a lone `{`, such as `"{"` or `"ab{"`, raises `ValueError("Single '{' encountered in format string")` |
| Processes.FormatBraceInName | auto_sbatch/processes.py:14-15 | in `"{abc{"` the `{` inside the field name raises "unexpected '{' in field name" before the missing `}` is noticed |
| Processes.FormatUnclosedField | auto_sbatch/processes.py:14-15 | a field that is never closed, `"{abc"`, raises "expected '}' before end of string" |
| Processes.Command.FormatWith | auto_sbatch/processes.py:14-15 | the text becomes its formatted version; when formatting raises, the text is unchanged |
| Processes.Command.Get | auto_sbatch/processes.py:11-12 | a `Python` command wraps its text in `python << EOF` … `EOF`, and a plain one returns it |
| Processes.NewCommand | auto_sbatch/processes.py:5-9 | a command copies a string, or another command's `get()`; any other input fails the assertion |
| Processes.CopyCommand | auto_sbatch/processes.py:18-20 | a command copied from a `Python` command holds the wrapped text, and one copied from a plain command holds the same text |

## Left out

- The `sbatch` submission in `processes.run` is not modelled, and neither are
  `SBatch.__call__` (auto_sbatch.py:81-95), the printing, or the writing of scripts to
  `save_script` (sbatch.py:214-221). `run` is modelled as the list of scripts it would
  submit.
- Regular expression matching (`re.match` in `parse`) and `json.loads` are not modelled.
  They are parameters: `matcher` returns the groups of a match, and `decode` is the JSON
  decoder.
- OmegaConf is not modelled. `OmegaConf.merge` in `get_grid_combinations` is the `merge`
  parameter of `ResolveArray`. `from_cli`, `create` and `from_dotlist` are left out, and so
  is the column rewrite `new_dict` of `get_grid_combinations` (118-122): only its job
  count is modelled.
- `_get_full_key` is modelled as joining the path with dots.
- The default configuration and the merges at the start of `auto_sbatch`
  (auto_sbatch.py:9-18, 127-131) are left out, because they are OmegaConf calls on outside
  input.
- The `ExperimentHandler`, `registry`, `register_run`, `setup.py`, the package
  `__init__.py` and tests/utils.py are not part of this model. The handler is a value
  holding its new-run commands, its main-command arguments and its script name.
- `SBatch.from_slurm_script` and `num_available_jobs` are not modelled. They just chain
  the parser and the constructor, or read a field.
- tests/test_sbatch.py is not modelled. It passes a `run_script` keyword and calls the
  `SBatch` object, and this version of `SBatch` has neither.
- Membership in a `ListConfig` is the test `Str(key) in items`. OmegaConf's comparison
  of elements of other types is not modelled.
- Command objects are stored as their texts. The `Command` copies `SBatch` makes in
  `add_command` are private and never mutated, so their object identity is not modelled.
- Python integers are unbounded, as Dafny's are; no width is modelled.
- ExcludedMeaning: `Value` has no floating-point numbers, so a grid over float values
  (a learning rate, say), their comparison in the exclusion rules and their `str` are not
  modelled. Comparison of the other kinds follows Python's `==` (`PyEq`).
- FormatRendersTemplate: it covers plain keyword fields only. `Format` looks up a field
  with a format spec (`{a:>3}`), a conversion (`{a!r}`), an attribute (`{a.b}`) or an index
  (`{a[0]}`) as one whole name and raises `KeyError` for it, where Python would apply the
  spec, conversion, attribute or index; nested fields inside a spec are not modelled
  either.
- `strip` removes the ASCII whitespace of `str.strip` (`IsSpace`), not the other Unicode
  whitespace such as `\xa0`.
- `int()` (`ParseInt`) accepts ASCII digits only, so the underscores (`1_0`) and
  non-ASCII digits that Python accepts are rejected.
- `repr` of a string (`ReprString`) escapes the backslash, the quote, `\n`, `\r` and `\t`,
  but not the other non-printable characters Python writes as `\x..` or `\u....`.

## Findings

| source | as written | input that shows it | evidently intended | confidence | as-written member | corrected member |
|---|---|---|---|---|---|---|
| auto_sbatch/grid_search.py:31 | `if 0 < job_id or job_id >= self.n_jobs: raise ValueError(...)` | any grid search with `n_jobs >= 2` and `job_id = 1`: raises although 1 is a valid id; `job_id = -1` returns the last job instead of raising | `if job_id < 0 or job_id >= self.n_jobs`, as the message "job_id should be >= 0" says | not executed | GridSearching.JobParamsAsWrittenRejectsValidIds | GridSearching.JobParamsMeaning |

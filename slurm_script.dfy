/** auto_sbatch/slurm_script.py: `SlurmScriptParser`, which reads a Slurm script back into
    its directives, the commands before and after the main command, and the main command's
    script name and parameters. Matching a line against the main-command pattern (Python's
    `re.match`) and decoding a parameter value (`json.loads`) are parameters of the model. */
module SlurmScripts {
  import opened Wrappers
  import opened PyStrings
  import opened OrderedDicts
  import opened PyValues
  import SBatches

  const Marker: string := "#SBATCH"

  // ---------------------------------------------------------------------------
  // _parse_slurm_line

  /** `line.replace("#SBATCH", "").strip()`. */
  function DirectiveBody(line: string): string {
    Strip(ReplaceAll(line, Marker, ""))
  }

  /** The split of a directive body: on `=` when it has one, otherwise on a space; unpacking
      into a key and a value fails unless there are exactly two parts. Both are trimmed. */
  function ParseBody(body: string): Result<(string, string)> {
    var parts := if '=' in body then Split(body, '=') else Split(body, ' ');
    if |parts| > 2 then Err(ValueError("too many values to unpack (expected 2)"))
    else if |parts| < 2 then Err(ValueError("not enough values to unpack (expected 2, got 1)"))
    else Ok((Strip(parts[0]), Strip(parts[1])))
  }

  /** `_parse_slurm_line`. */
  function ParseSlurmLine(line: string): Result<(string, string)> {
    ParseBody(DirectiveBody(line))
  }

  /** A string with no whitespace at either end. */
  predicate Trimmed(s: string) {
    s == [] || (!IsSpace(s[0]) && !IsSpace(s[|s| - 1]))
  }

  /** The text after the marker and one space is the directive body, when it holds no `#`
      and no whitespace at its ends. */
  lemma BodyOfMarked(s: string)
    requires '#' !in s && s != [] && Trimmed(s)
    ensures DirectiveBody(Marker + " " + s) == s
  {
    var rest := " " + s;
    assert Marker + " " + s == Marker + rest;
    ReplaceAtFront(rest, Marker, "");
    assert '#' !in rest;
    ReplaceSkipsPlainText(rest, "", Marker, "");
    assert rest + "" == rest;
    ReplaceShort("", Marker, "");
    assert ReplaceAll(Marker + rest, Marker, "") == rest;
    assert rest[1..] == s;
    assert TrimStart(rest, IsSpace) == TrimStart(s, IsSpace) == s;
  }

  /** Text without `#` and without whitespace at its ends is its own body. */
  lemma BodyOfPlain(s: string)
    requires '#' !in s && Trimmed(s)
    ensures DirectiveBody(s) == s
  {
    ReplaceSkipsPlainText(s, "", Marker, "");
    assert s + "" == s;
    ReplaceShort("", Marker, "");
    StripClean(s);
  }

  /** `k=v` splits into `k` and `v`. */
  lemma ParseBodyPair(k: string, v: string)
    requires '=' !in k && '=' !in v && Trimmed(k) && Trimmed(v)
    ensures ParseBody(k + "=" + v) == Ok((k, v))
  {
    var body := k + "=" + v;
    assert body[|k|] == '=';
    assert body == k + ['='] + v;
    SplitAt(k, v, '=');
    SplitAbsent(v, '=');
    StripClean(k);
    StripClean(v);
  }

  /** `k v`, with no `=` anywhere, splits into `k` and `v`. */
  lemma ParseBodySpaced(k: string, v: string)
    requires '=' !in k && '=' !in v && ' ' !in k && ' ' !in v && Trimmed(k) && Trimmed(v)
    ensures ParseBody(k + " " + v) == Ok((k, v))
  {
    var body := k + " " + v;
    assert body == k + [' '] + v;
    assert '=' !in body by {
      forall i | 0 <= i < |body| ensures body[i] != '=' {
        if i < |k| {
          assert body[i] == k[i];
        } else if i > |k| {
          assert body[i] == v[i - |k| - 1];
        }
      }
    }
    SplitAt(k, v, ' ');
    SplitAbsent(v, ' ');
    StripClean(k);
    StripClean(v);
  }

  /** A body with two `=` is rejected: `--export=A=1` cannot be read back. */
  lemma ParseBodyExtraEquals(a: string, b: string, c: string)
    requires '=' !in a && '=' !in b
    ensures ParseBody(a + "=" + b + "=" + c).Err?
  {
    var body := a + "=" + b + "=" + c;
    assert body[|a|] == '=';
    assert body == a + ['='] + (b + ['='] + c);
    SplitAt(a, b + ['='] + c, '=');
    SplitAt(b, c, '=');
  }

  /** A body with neither `=` nor a space is rejected. */
  lemma ParseBodyOnePart(s: string)
    requires '=' !in s && ' ' !in s
    ensures ParseBody(s).Err?
  {
    SplitAbsent(s, ' ');
  }

  /** `#SBATCH --time=01:00:00` gives `("--time", "01:00:00")`. */
  lemma ParseLongDirective(k: string, v: string)
    requires k != [] && '=' !in k && '#' !in k && Trimmed(k)
    requires '=' !in v && '#' !in v && Trimmed(v)
    ensures ParseSlurmLine(Marker + " " + k + "=" + v) == Ok((k, v))
  {
    var s := k + "=" + v;
    assert Marker + " " + k + "=" + v == Marker + " " + s;
    assert '#' !in s by {
      forall i | 0 <= i < |s| ensures s[i] != '#' {
        if i < |k| {
          assert s[i] == k[i];
        } else if i > |k| {
          assert s[i] == v[i - |k| - 1];
        }
      }
    }
    assert s[0] == k[0];
    assert s[|s| - 1] == if v == [] then '=' else v[|v| - 1];
    BodyOfMarked(s);
    ParseBodyPair(k, v);
  }

  /** `#SBATCH -o job-name.out` gives `("-o", "job-name.out")`. */
  lemma ParseShortDirective(k: string, v: string)
    requires k != [] && '=' !in k && '#' !in k && ' ' !in k && Trimmed(k)
    requires v != [] && '=' !in v && '#' !in v && ' ' !in v && Trimmed(v)
    ensures ParseSlurmLine(Marker + " " + k + " " + v) == Ok((k, v))
  {
    var s := k + " " + v;
    assert Marker + " " + k + " " + v == Marker + " " + s;
    assert '#' !in s by {
      forall i | 0 <= i < |s| ensures s[i] != '#' {
        if i < |k| {
          assert s[i] == k[i];
        } else if i > |k| {
          assert s[i] == v[i - |k| - 1];
        }
      }
    }
    assert s[0] == k[0] && s[|s| - 1] == v[|v| - 1];
    BodyOfMarked(s);
    ParseBodySpaced(k, v);
  }

  /** A `--` directive of the parser's example script. */
  lemma ParseTimeDirective()
    ensures ParseSlurmLine("#SBATCH --time=01:00:00") == Ok(("--time", "01:00:00"))
  {
    var k, v := "--time", "01:00:00";
    assert Marker + " " + k + "=" + v == "#SBATCH --time=01:00:00";
    assert Readable(k) && Readable(v);
    ParseLongDirective(k, v);
  }

  /** A `-` directive of the parser's example script. */
  lemma ParseOutputDirective()
    ensures ParseSlurmLine("#SBATCH -o job-name.out") == Ok(("-o", "job-name.out"))
  {
    var k, v := "-o", "job-name.out";
    assert Marker + " " == "#SBATCH ";
    assert "#SBATCH " + k == "#SBATCH -o";
    assert "#SBATCH -o" + " " == "#SBATCH -o ";
    assert "#SBATCH -o " + v == "#SBATCH -o job-name.out";
    assert Readable(k) && ' ' !in k;
    assert Readable(v) && ' ' !in v;
    ParseShortDirective(k, v);
  }

  /** Text that can stand as a directive key or value and be read back. */
  predicate Readable(s: string) {
    '=' !in s && '#' !in s && Trimmed(s)
  }

  /** Reading back a directive line written by `make_slurm_script` gives its key and the
      `str` of its value. The `-k v` form needs a key and a non-empty value without spaces. */
  lemma ParseWrittenDirective(k: string, v: Value)
    requires SBatches.IsDirectiveKey(k) && Readable(k) && Readable(PyStr(v))
    requires !StartsWith(k, "--") ==> ' ' !in k && ' ' !in PyStr(v) && PyStr(v) != []
    ensures ParseSlurmLine(SBatches.DirectiveLine(k, v)) == Ok((k, PyStr(v)))
  {
    var x := PyStr(v);
    assert "#SBATCH " == Marker + " ";
    if StartsWith(k, "--") {
      assert SBatches.DirectiveLine(k, v) == Marker + " " + k + "=" + x;
      ParseLongDirective(k, x);
    } else {
      assert SBatches.DirectiveLine(k, v) == Marker + " " + k + " " + x;
      ParseShortDirective(k, x);
    }
  }

  // ---------------------------------------------------------------------------
  // Parameter tokens of the main command

  /** Python's `token[1:-1]`. */
  function Unquote(token: string): string {
    if |token| < 2 then "" else token[1..|token| - 1]
  }

  /** A token of the main command's parameters: one that starts with `"` loses its first and
      last characters, then it is split like a directive. */
  function ParamToken(token: string): Result<(string, string)> {
    if StartsWith(token, "\"") then ParseSlurmLine(Unquote(token)) else ParseSlurmLine(token)
  }

  lemma ParamTokenQuoted(s: string)
    ensures ParamToken("\"" + s + "\"") == ParseSlurmLine(s)
  {
    var t := "\"" + s + "\"";
    assert t[..1] == "\"";
    assert t[1..|t| - 1] == s;
  }

  lemma NoHashJoined(k: string, a: string)
    requires '#' !in k && '#' !in a
    ensures '#' !in k + "=" + a
  {
    var s := k + "=" + a;
    forall i | 0 <= i < |s| ensures s[i] != '#' {
      if i < |k| {
        assert s[i] == k[i];
      } else if i > |k| {
        assert s[i] == a[i - |k| - 1];
      }
    }
  }

  /** A quoted token `"k=a"` reads back as `k` and `a`. */
  lemma ParamTokenPair(k: string, a: string)
    requires k != [] && Readable(k) && Readable(a)
    ensures ParamToken("\"" + k + "=" + a + "\"") == Ok((k, a))
  {
    var s := k + "=" + a;
    assert "\"" + k + "=" + a + "\"" == "\"" + s + "\"";
    ParamTokenQuoted(s);
    NoHashJoined(k, a);
    assert s[0] == k[0];
    assert s[|s| - 1] == if a == [] then '=' else a[|a| - 1];
    BodyOfPlain(s);
    ParseBodyPair(k, a);
  }

  /** A parameter token written by `get_run_params`, `"k=v"`, reads back as `k` and the
      written value. */
  lemma ParamTokenOfWritten(k: string, v: Value)
    requires k != [] && Readable(k) && Readable(SBatches.ArgValue(v))
    ensures ParamToken("\"" + k + "=" + SBatches.ArgValue(v) + "\"") == Ok((k, SBatches.ArgValue(v)))
  {
    ParamTokenPair(k, SBatches.ArgValue(v));
  }

  /** A quoted token of the parser's example main command loses its quotes. */
  lemma ParamTokenQuotedExample()
    ensures ParamToken("\"script_param=7\"") == Ok(("script_param", "7"))
  {
    var k, a := "script_param", "7";
    assert Readable(k) && Readable(a);
    ParamTokenPair(k, a);
    assert "\"" + k == "\"script_param";
    assert "\"script_param" + "=" == "\"script_param=";
    assert "\"script_param=" + a == "\"script_param=7";
    assert "\"script_param=7" + "\"" == "\"script_param=7\"";
  }

  /** An unquoted token of the parser's example main command keeps the quotes of its value. */
  lemma ParamTokenUnquotedExample()
    ensures ParamToken("another_param=\"a\"") == Ok(("another_param", "\"a\""))
  {
    var k, a := "another_param", "\"a\"";
    var t := k + "=" + a;
    assert t == "another_param=\"a\"";
    assert t[0] == 'a';
    assert Readable(k) && Readable(a);
    assert '#' !in t;
    BodyOfPlain(t);
    ParseBodyPair(k, a);
  }

  /** The parameters of the main command, decoded token by token into a fresh dict, a later
      key overwriting an earlier one; the first token that fails stops the loop, with the
      pairs decoded so far. `decode(v)` stands for `json.loads('{"key": ' + v + '}')["key"]`. */
  function ParamsOf(tokens: seq<string>, decode: string -> Result<Value>): (PyDict<Value>, Outcome) {
    if tokens == [] then (Empty(), Pass)
    else
      var (d, outcome) := ParamsOf(tokens[..|tokens| - 1], decode);
      if outcome.Fail? then (d, outcome)
      else match ParamToken(tokens[|tokens| - 1])
        case Err(e) => (d, Fail(e))
        case Ok((k, v)) =>
          match decode(v)
          case Err(e) => (d, Fail(e))
          case Ok(x) => (Put(d, k, x), Pass)
  }

  /** The inner loop of `parse`: `for match in dotlist`. */
  method DecodeParams(tokens: seq<string>, decode: string -> Result<Value>) returns (params: PyDict<Value>, outcome: Outcome)
    ensures (params, outcome) == ParamsOf(tokens, decode)
  {
    params := Empty();
    for i := 0 to |tokens|
      invariant ParamsOf(tokens[..i], decode) == (params, Pass)
    {
      assert tokens[..i + 1][..i] == tokens[..i];
      var kv := ParamToken(tokens[i]);
      if kv.Err? {
        ParamsPrefixFail(tokens, i + 1, decode);
        return params, Fail(kv.error);
      }
      var x := decode(kv.value.1);
      if x.Err? {
        ParamsPrefixFail(tokens, i + 1, decode);
        return params, Fail(x.error);
      }
      params := Put(params, kv.value.0, x.value);
    }
    assert tokens[..|tokens|] == tokens;
    outcome := Pass;
  }

  lemma {:induction false} ParamsPrefixFail(tokens: seq<string>, n: nat, decode: string -> Result<Value>)
    requires n <= |tokens| && ParamsOf(tokens[..n], decode).1.Fail?
    ensures ParamsOf(tokens, decode) == ParamsOf(tokens[..n], decode)
    decreases |tokens| - n
  {
    if n < |tokens| {
      assert tokens[..n + 1][..n] == tokens[..n];
      ParamsPrefixFail(tokens, n + 1, decode);
    } else {
      assert tokens[..n] == tokens;
    }
  }

  /** When every token splits and decodes, the parameters are exactly the decoded pairs in
      order, a repeated key keeping its last value. */
  lemma {:induction false} ParamsOfAll(tokens: seq<string>, decode: string -> Result<Value>)
    requires forall i :: 0 <= i < |tokens| ==> ParamToken(tokens[i]).Ok? && decode(ParamToken(tokens[i]).value.1).Ok?
    ensures ParamsOf(tokens, decode) == (FromItems(DecodedPairs(tokens, decode)), Pass)
  {
    if tokens != [] {
      var init := tokens[..|tokens| - 1];
      assert forall i :: 0 <= i < |init| ==> init[i] == tokens[i];
      ParamsOfAll(init, decode);
      DecodedPairsSnoc(tokens, decode);
      ParamsOfSnoc(tokens, decode);
      FromItemsSnoc(DecodedPairs(tokens, decode));
    }
  }

  /** One more token that splits and decodes puts its pair into the parameters. */
  lemma ParamsOfSnoc(tokens: seq<string>, decode: string -> Result<Value>)
    requires tokens != [] && ParamsOf(tokens[..|tokens| - 1], decode).1 == Pass
    requires ParamToken(tokens[|tokens| - 1]).Ok? && decode(ParamToken(tokens[|tokens| - 1]).value.1).Ok?
    ensures var kv := ParamToken(tokens[|tokens| - 1]).value;
      ParamsOf(tokens, decode) == (Put(ParamsOf(tokens[..|tokens| - 1], decode).0, kv.0, decode(kv.1).value), Pass)
  {
  }

  lemma DecodedPairsSnoc(tokens: seq<string>, decode: string -> Result<Value>)
    requires tokens != []
    requires forall i :: 0 <= i < |tokens| ==> ParamToken(tokens[i]).Ok? && decode(ParamToken(tokens[i]).value.1).Ok?
    ensures var init, pairs := tokens[..|tokens| - 1], DecodedPairs(tokens, decode);
      var kv := ParamToken(tokens[|tokens| - 1]).value;
      && pairs[..|init|] == DecodedPairs(init, decode)
      && pairs[|init|] == (kv.0, decode(kv.1).value)
  {
    var init, pairs := tokens[..|tokens| - 1], DecodedPairs(tokens, decode);
    var before := DecodedPairs(init, decode);
    forall i | 0 <= i < |init| ensures pairs[..|init|][i] == before[i] {
      assert init[i] == tokens[i];
    }
  }

  /** The decoded `(key, value)` pair of every token, in order. */
  function DecodedPairs(tokens: seq<string>, decode: string -> Result<Value>): (r: seq<(string, Value)>)
    requires forall i :: 0 <= i < |tokens| ==> ParamToken(tokens[i]).Ok? && decode(ParamToken(tokens[i]).value.1).Ok?
    ensures |r| == |tokens|
    ensures forall i :: 0 <= i < |tokens| ==>
      r[i] == (ParamToken(tokens[i]).value.0, decode(ParamToken(tokens[i]).value.1).value)
  {
    seq(|tokens|, i requires 0 <= i < |tokens| =>
      (ParamToken(tokens[i]).value.0, decode(ParamToken(tokens[i]).value.1).value))
  }

  // ---------------------------------------------------------------------------
  // _format_main_command

  /** The capture group standing for a script name or a GPU count: Python's `r"([^\s]*?)"`. */
  const NamePattern: string := "([^\\s]*?)"
  /** The capture group standing for a parameter list: `r"(.*)"`. */
  const RestPattern: string := "(.*)"

  /** The placeholders `_format_main_command` knows, in its order, with their groups. */
  const FormatKeys: seq<(string, string)> := [
    ("script_name", NamePattern), ("num_gpus", NamePattern), ("params", RestPattern),
    ("grid_search_params", RestPattern), ("grid_search_string", RestPattern), ("all_params", RestPattern)]

  function Placeholder(key: string): string {
    "{" + key + "}"
  }

  /** `template.replace("{" + key + "}", val)` for each `(key, val)` in turn. */
  function ReplaceEach(template: string, subs: seq<(string, string)>): string {
    if subs == [] then template
    else
      var last := subs[|subs| - 1];
      ReplaceAll(ReplaceEach(template, subs[..|subs| - 1]), Placeholder(last.0), last.1)
  }

  /** The main-command pattern the template becomes. */
  function Formatted(template: string): string {
    ReplaceEach(template, FormatKeys)
  }

  /** A template read as its parts: plain text and `{name}` placeholders. */
  datatype TemplatePiece = Plain(text: string) | Hole(name: string)

  predicate PieceReadable(p: TemplatePiece) {
    match p
    case Plain(s) => '{' !in s
    case Hole(n) => '{' !in n && '}' !in n
  }

  function TemplateText(pieces: seq<TemplatePiece>): string {
    if pieces == [] then ""
    else
      var head := match pieces[0]
        case Plain(s) => s
        case Hole(n) => Placeholder(n);
      head + TemplateText(pieces[1..])
  }

  /** The value a substitution list gives a placeholder name, if any. */
  function Lookup(subs: seq<(string, string)>, name: string): (r: Option<string>)
    ensures r.Some? <==> name in KeysOf(subs)
  {
    if subs == [] then Option.None
    else if subs[|subs| - 1].0 == name then Some(subs[|subs| - 1].1)
    else Lookup(subs[..|subs| - 1], name)
  }

  /** The template with every placeholder that has a substitution replaced by it, and every
      other placeholder and all plain text kept. */
  function RenderWith(pieces: seq<TemplatePiece>, subs: seq<(string, string)>): string {
    if pieces == [] then ""
    else
      var head := match pieces[0]
        case Plain(s) => s
        case Hole(n) => if Lookup(subs, n).Some? then Lookup(subs, n).value else Placeholder(n);
      head + RenderWith(pieces[1..], subs)
  }

  predicate SubsReadable(subs: seq<(string, string)>) {
    forall i :: 0 <= i < |subs| ==> '{' !in subs[i].0 && '}' !in subs[i].0 && '{' !in subs[i].1
  }

  /** A placeholder does not start with a different placeholder. */
  lemma PlaceholderNotPrefix(n: string, k: string, b: string)
    requires n != k && '}' !in n && '}' !in k && |Placeholder(n) + b| >= |Placeholder(k)|
    ensures (Placeholder(n) + b)[..|Placeholder(k)|] != Placeholder(k)
  {
    var s, pat := Placeholder(n) + b, Placeholder(k);
    if |k| < |n| {
      assert pat[|k| + 1] == '}' && s[|k| + 1] == n[|k|];
    } else if |k| > |n| {
      assert s[|n| + 1] == '}' && pat[|n| + 1] == k[|n|];
    } else {
      var i :| 0 <= i < |n| && n[i] != k[i];
      assert s[i + 1] == n[i] && pat[i + 1] == k[i];
    }
  }

  /** Replacing one placeholder passes over a different placeholder at the front. */
  lemma ReplacePassesOtherHole(n: string, k: string, b: string, v: string)
    requires n != k && '{' !in n && '}' !in n && '}' !in k
    ensures ReplaceAll(Placeholder(n) + b, Placeholder(k), v) == Placeholder(n) + ReplaceAll(b, Placeholder(k), v)
  {
    var s, pat := Placeholder(n) + b, Placeholder(k);
    if |s| < |pat| {
      ReplaceShort(s, pat, v);
      ReplaceShort(b, pat, v);
    } else {
      PlaceholderNotPrefix(n, k, b);
      var close := n + "}";
      ReplaceSkipOne(s, pat, v);
      AppendAssoc("{", n, "}");
      AppendAssoc("{", close, b);
      assert s == "{" + (close + b);
      assert s[0] == '{' && s[1..] == close + b;
      assert '{' !in close;
      ReplaceSkipsPlainText(close, b, pat, v);
      var r := ReplaceAll(b, pat, v);
      AppendAssoc("{", close, r);
    }
  }

  /** With no substitutions a template renders as itself. */
  lemma {:induction false} RenderWithNone(pieces: seq<TemplatePiece>)
    ensures RenderWith(pieces, []) == TemplateText(pieces)
  {
    if pieces != [] {
      RenderWithNone(pieces[1..]);
    }
  }

  /** One more replacement fills exactly the placeholders of its key. */
  lemma {:induction false} ReplaceStep(pieces: seq<TemplatePiece>, subs: seq<(string, string)>, k: string, v: string)
    requires forall i :: 0 <= i < |pieces| ==> PieceReadable(pieces[i])
    requires SubsReadable(subs) && k !in KeysOf(subs)
    requires '{' !in k && '}' !in k && '{' !in v
    ensures ReplaceAll(RenderWith(pieces, subs), Placeholder(k), v) == RenderWith(pieces, subs + [(k, v)])
  {
    if pieces != [] {
      var more := subs + [(k, v)];
      assert more[..|more| - 1] == subs;
      ReplaceStep(pieces[1..], subs, k, v);
      var pat := Placeholder(k);
      var rest := RenderWith(pieces[1..], subs);
      match pieces[0]
      case Plain(s) =>
        ReplaceSkipsPlainText(s, rest, pat, v);
      case Hole(n) =>
        var found := Lookup(subs, n);
        if found.Some? {
          var i :| 0 <= i < |subs| && KeysOf(subs)[i] == n;
          assert '{' !in found.value by { LookupFrom(subs, n); }
          ReplaceSkipsPlainText(found.value, rest, pat, v);
        } else if n == k {
          ReplaceAtFront(rest, pat, v);
        } else {
          ReplacePassesOtherHole(n, k, rest, v);
        }
    }
  }

  /** A value found for a name is the value of one of the substitutions. */
  lemma {:induction false} LookupFrom(subs: seq<(string, string)>, name: string)
    requires Lookup(subs, name).Some?
    ensures exists i :: 0 <= i < |subs| && subs[i].1 == Lookup(subs, name).value
  {
    if subs[|subs| - 1].0 != name {
      LookupFrom(subs[..|subs| - 1], name);
      var i :| 0 <= i < |subs| - 1 && subs[..|subs| - 1][i].1 == Lookup(subs, name).value;
      assert subs[i].1 == Lookup(subs, name).value;
    }
  }

  /** Replacing the placeholders of distinct keys in turn fills each placeholder with a
      substitution and leaves the rest of the template as it was. */
  lemma {:induction false} ReplaceEachRenders(pieces: seq<TemplatePiece>, subs: seq<(string, string)>)
    requires forall i :: 0 <= i < |pieces| ==> PieceReadable(pieces[i])
    requires SubsReadable(subs) && Distinct(KeysOf(subs))
    ensures ReplaceEach(TemplateText(pieces), subs) == RenderWith(pieces, subs)
  {
    if subs == [] {
      RenderWithNone(pieces);
    } else {
      var init, last := subs[..|subs| - 1], subs[|subs| - 1];
      assert KeysOf(init) == KeysOf(subs)[..|init|];
      assert Distinct(KeysOf(init));
      ReplaceEachRenders(pieces, init);
      assert last.0 !in KeysOf(init) by {
        forall i | 0 <= i < |init| ensures KeysOf(init)[i] != last.0 {
          assert KeysOf(subs)[i] != KeysOf(subs)[|init|];
        }
      }
      ReplaceStep(pieces, init, last.0, last.1);
      assert init + [last] == subs;
    }
  }

  /** `_format_main_command` turns each known placeholder into its capture group and keeps
      all other text, unknown placeholders included. */
  lemma FormattedRenders(pieces: seq<TemplatePiece>)
    requires forall i :: 0 <= i < |pieces| ==> PieceReadable(pieces[i])
    ensures Formatted(TemplateText(pieces)) == RenderWith(pieces, FormatKeys)
  {
    FormatKeysDistinct();
    FormatKeysReadable();
    ReplaceEachRenders(pieces, FormatKeys);
  }

  lemma FormatKeysDistinct()
    ensures Distinct(KeysOf(FormatKeys))
  {
    var keys := KeysOf(FormatKeys);
    assert keys == ["script_name", "num_gpus", "params", "grid_search_params", "grid_search_string", "all_params"];
    assert |keys[0]| == 11 && |keys[1]| == 8 && |keys[2]| == 6 && |keys[3]| == 18 && |keys[4]| == 18 && |keys[5]| == 10;
    assert keys[3][12] != keys[4][12];
  }

  lemma FormatKeysReadable()
    ensures SubsReadable(FormatKeys)
  {
    assert '{' !in NamePattern && '{' !in RestPattern;
    forall i | 0 <= i < |FormatKeys| ensures '{' !in FormatKeys[i].0 && '}' !in FormatKeys[i].0 {
      var k := FormatKeys[i].0;
      assert forall j :: 0 <= j < |k| ==> 'a' <= k[j] <= 'z' || k[j] == '_';
    }
  }

  // ---------------------------------------------------------------------------
  // parse

  /** What `parse` records, with the local `has_main_command` flag. */
  datatype ParseState = ParseState(
    slurmParams: PyDict<string>, commands: seq<string>, postCommands: seq<string>,
    mainCommand: Option<string>, scriptName: Option<string>, params: Option<PyDict<Value>>,
    hasMain: bool)

  /** Capture groups 1, 2, …; a group that took no part in the match is `None`. */
  type Groups = seq<Option<string>>

  /** `matches.group(k)`: a group the pattern does not have is an `IndexError`. */
  function Group(groups: Groups, k: nat): Result<Option<string>> {
    if 1 <= k <= |groups| then Ok(groups[k - 1]) else Err(IndexError)
  }

  /** The lines of the script: stripped of newlines at both ends, split on newlines, each
      line trimmed. */
  function ScriptLines(script: string): (r: seq<string>)
    ensures var raw := Split(StripNewlines(script), '\n');
      |r| == |raw| && forall i :: 0 <= i < |r| ==> r[i] == Strip(raw[i])
  {
    var raw := Split(StripNewlines(script), '\n');
    seq(|raw|, i requires 0 <= i < |raw| => Strip(raw[i]))
  }

  predicate IsDirective(line: string) {
    StartsWith(line, Marker)
  }

  /** A line matched by the main-command pattern: every such line is recorded as the main
      command, the first one included. */
  predicate IsMain(line: string, pattern: string, matcher: (string, string) -> Option<Groups>) {
    !IsDirective(line) && matcher(pattern, line).Some?
  }

  /** A recorded line that matches the main command: the line, then group 1 as the script
      name, then group 2 split into parameters, then the flag. */
  function MainLine(st: ParseState, line: string, groups: Groups, decode: string -> Result<Value>): (ParseState, Outcome) {
    var st1 := st.(mainCommand := Some(line));
    match Group(groups, 1)
    case Err(e) => (st1, Fail(e))
    case Ok(name) =>
      var st2 := st1.(scriptName := name);
      match Group(groups, 2)
      case Err(e) => (st2, Fail(e))
      case Ok(text) =>
        if text.None? then (st2, Fail(AttributeError))
        else
          var (params, outcome) := ParamsOf(Split(text.value, ' '), decode);
          var st3 := st2.(params := Some(params));
          if outcome.Fail? then (st3, outcome) else (st3.(hasMain := true), Pass)
  }

  /** A directive line: recorded under its key, or raising when it cannot be split. */
  function DirectiveStep(st: ParseState, line: string): (ParseState, Outcome) {
    match ParseSlurmLine(line)
    case Err(e) => (st, Fail(e))
    case Ok((k, v)) => (st.(slurmParams := Put(st.slurmParams, k, v)), Pass)
  }

  /** One line of `parse`: a directive is recorded under its key, a match of the main
      command is taken apart, and any other line is a command before the first match and a
      post command after it. */
  function Step(st: ParseState, line: string, pattern: string, matcher: (string, string) -> Option<Groups>,
                decode: string -> Result<Value>): (ParseState, Outcome)
  {
    if IsDirective(line) then DirectiveStep(st, line)
    else match matcher(pattern, line)
      case Some(groups) => MainLine(st, line, groups, decode)
      case None =>
        if !st.hasMain then (st.(commands := st.commands + [line]), Pass)
        else (st.(postCommands := st.postCommands + [line]), Pass)
  }

  /** The lines in turn, up to the first that raises. */
  function ParseLines(st: ParseState, lines: seq<string>, pattern: string,
                      matcher: (string, string) -> Option<Groups>, decode: string -> Result<Value>): (ParseState, Outcome)
  {
    if lines == [] then (st, Pass)
    else
      var (s, outcome) := ParseLines(st, lines[..|lines| - 1], pattern, matcher, decode);
      if outcome.Fail? then (s, outcome) else Step(s, lines[|lines| - 1], pattern, matcher, decode)
  }

  /** A successful run over the lines is a successful run over all but the last, then the
      last line. */
  lemma ParseLinesSnoc(st: ParseState, lines: seq<string>, pattern: string,
                       matcher: (string, string) -> Option<Groups>, decode: string -> Result<Value>)
    requires lines != []
    ensures var r, r0 := ParseLines(st, lines, pattern, matcher, decode),
                         ParseLines(st, lines[..|lines| - 1], pattern, matcher, decode);
      r.1 == Pass ==> r0.1 == Pass && r == Step(r0.0, lines[|lines| - 1], pattern, matcher, decode)
  {
  }

  /** A successful run over the first `i` lines, extended by line `i`. */
  lemma ParseLinesNext(st: ParseState, lines: seq<string>, i: nat, pattern: string,
                       matcher: (string, string) -> Option<Groups>, decode: string -> Result<Value>)
    requires i < |lines| && ParseLines(st, lines[..i], pattern, matcher, decode).1 == Pass
    ensures ParseLines(st, lines[..i + 1], pattern, matcher, decode) ==
      Step(ParseLines(st, lines[..i], pattern, matcher, decode).0, lines[i], pattern, matcher, decode)
  {
    var l := lines[..i + 1];
    assert l[..|l| - 1] == lines[..i];
    assert l[|l| - 1] == lines[i];
  }

  lemma {:induction false} ParseLinesPrefixFail(st: ParseState, lines: seq<string>, n: nat, pattern: string,
                                                matcher: (string, string) -> Option<Groups>, decode: string -> Result<Value>)
    requires n <= |lines| && ParseLines(st, lines[..n], pattern, matcher, decode).1.Fail?
    ensures ParseLines(st, lines, pattern, matcher, decode) == ParseLines(st, lines[..n], pattern, matcher, decode)
    decreases |lines| - n
  {
    if n < |lines| {
      assert lines[..n + 1][..n] == lines[..n];
      ParseLinesPrefixFail(st, lines, n + 1, pattern, matcher, decode);
    } else {
      assert lines[..n] == lines;
    }
  }

  /** What a directive line contributes to the directives: its `(key, value)` when it
      splits. */
  function DirectivePair(line: string): seq<(string, string)> {
    if IsDirective(line) && ParseSlurmLine(line).Ok? then [ParseSlurmLine(line).value] else []
  }

  /** The `(key, value)` of every directive line that splits, in order. */
  function DirectivePairs(lines: seq<string>): seq<(string, string)> {
    if lines == [] then [] else DirectivePairs(lines[..|lines| - 1]) + DirectivePair(lines[|lines| - 1])
  }

  /** What a line contributes to the commands: itself, unless it is a directive or a match. */
  function OtherLine(line: string, pattern: string, matcher: (string, string) -> Option<Groups>): seq<string> {
    if IsDirective(line) || IsMain(line, pattern, matcher) then [] else [line]
  }

  /** The lines that are neither directives nor matches of the main command, in order. */
  function Others(lines: seq<string>, pattern: string, matcher: (string, string) -> Option<Groups>): seq<string> {
    if lines == [] then []
    else Others(lines[..|lines| - 1], pattern, matcher) + OtherLine(lines[|lines| - 1], pattern, matcher)
  }

  /** Taking a match apart touches only the main command, the script name, the parameters
      and, when it succeeds, the flag. */
  lemma MainLineKeeps(st: ParseState, line: string, groups: Groups, decode: string -> Result<Value>)
    ensures var r := MainLine(st, line, groups, decode);
      && r.0.slurmParams == st.slurmParams && r.0.commands == st.commands
      && r.0.postCommands == st.postCommands && r.0.hasMain == (st.hasMain || r.1 == Pass)
  {
  }

  /** What one successful line does to the directives. */
  lemma StepDirective(st: ParseState, line: string, pattern: string,
                      matcher: (string, string) -> Option<Groups>, decode: string -> Result<Value>)
    ensures var r := Step(st, line, pattern, matcher, decode);
      r.1 == Pass ==>
        && (IsDirective(line) ==> ParseSlurmLine(line).Ok?)
        && r.0.slurmParams == PutAll(st.slurmParams, DirectivePair(line))
  {
    if !IsDirective(line) && matcher(pattern, line).Some? {
      MainLineKeeps(st, line, matcher(pattern, line).value, decode);
    }
    if IsDirective(line) && ParseSlurmLine(line).Ok? {
      assert DirectivePair(line)[..0] == [];
    }
  }

  /** What one successful line does to the commands and the flag. */
  lemma StepSorts(st: ParseState, line: string, pattern: string,
                  matcher: (string, string) -> Option<Groups>, decode: string -> Result<Value>)
    ensures var r := Step(st, line, pattern, matcher, decode);
      var other := OtherLine(line, pattern, matcher);
      r.1 == Pass ==>
        && r.0.hasMain == (st.hasMain || IsMain(line, pattern, matcher))
        && r.0.commands == st.commands + (if st.hasMain then [] else other)
        && r.0.postCommands == st.postCommands + (if st.hasMain then other else [])
  {
    if !IsDirective(line) && matcher(pattern, line).Some? {
      MainLineKeeps(st, line, matcher(pattern, line).value, decode);
    }
  }

  /** What one line does to the main command, the script name and the parameters. */
  lemma StepMainFields(st: ParseState, line: string, pattern: string,
                       matcher: (string, string) -> Option<Groups>, decode: string -> Result<Value>)
    ensures var r := Step(st, line, pattern, matcher, decode);
      && (!IsMain(line, pattern, matcher) ==>
            r.0.mainCommand == st.mainCommand && r.0.scriptName == st.scriptName && r.0.params == st.params)
      && (!IsMain(line, pattern, matcher) ==>
            (r.1 == Pass <==> !IsDirective(line) || ParseSlurmLine(line).Ok?))
      && (IsMain(line, pattern, matcher) && r.1 == Pass ==>
            var groups := matcher(pattern, line).value;
            && |groups| >= 2 && groups[1].Some?
            && r.0.mainCommand == Some(line) && r.0.scriptName == groups[0]
            && r.0.params == Some(ParamsOf(Split(groups[1].value, ' '), decode).0))
  {
  }

  /** Every directive line is recorded in order, so a later duplicate key overwrites an
      earlier one. */
  lemma {:induction false} ParseRecordsDirectives(st: ParseState, lines: seq<string>, pattern: string,
                                                  matcher: (string, string) -> Option<Groups>, decode: string -> Result<Value>)
    ensures var r := ParseLines(st, lines, pattern, matcher, decode);
      r.1 == Pass ==> r.0.slurmParams == PutAll(st.slurmParams, DirectivePairs(lines))
  {
    var r := ParseLines(st, lines, pattern, matcher, decode);
    if lines != [] && r.1 == Pass {
      var init, last := lines[..|lines| - 1], lines[|lines| - 1];
      var r0 := ParseLines(st, init, pattern, matcher, decode);
      ParseLinesSnoc(st, lines, pattern, matcher, decode);
      ParseRecordsDirectives(st, init, pattern, matcher, decode);
      StepDirective(r0.0, last, pattern, matcher, decode);
      PutAllSnoc(st.slurmParams, DirectivePairs(init), DirectivePair(last));
    }
  }

  /** Assigning the pairs of `a`, then those of a list of at most one pair. */
  lemma PutAllSnoc<V>(d: PyDict<V>, a: seq<(string, V)>, b: seq<(string, V)>)
    requires |b| <= 1
    ensures PutAll(d, a + b) == PutAll(PutAll(d, a), b)
  {
    if b == [] {
      assert a + b == a;
    } else {
      assert (a + b)[..|a|] == a;
      assert b[..0] == [];
    }
  }

  /** When `parse` succeeds, every directive line split. */
  lemma {:induction false} ParseSplitsDirectives(st: ParseState, lines: seq<string>, pattern: string,
                                                 matcher: (string, string) -> Option<Groups>, decode: string -> Result<Value>)
    ensures ParseLines(st, lines, pattern, matcher, decode).1 == Pass ==>
      forall i :: 0 <= i < |lines| && IsDirective(lines[i]) ==> ParseSlurmLine(lines[i]).Ok?
  {
    var r := ParseLines(st, lines, pattern, matcher, decode);
    if lines != [] && r.1 == Pass {
      var init, last := lines[..|lines| - 1], lines[|lines| - 1];
      var r0 := ParseLines(st, init, pattern, matcher, decode);
      ParseLinesSnoc(st, lines, pattern, matcher, decode);
      ParseSplitsDirectives(st, init, pattern, matcher, decode);
      StepDirective(r0.0, last, pattern, matcher, decode);
      assert r0.1 == Pass && r == Step(r0.0, last, pattern, matcher, decode);
      assert IsDirective(last) ==> ParseSlurmLine(last).Ok?;
      assert forall i :: 0 <= i < |init| && IsDirective(init[i]) ==> ParseSlurmLine(init[i]).Ok?;
      forall i | 0 <= i < |lines| && IsDirective(lines[i]) ensures ParseSlurmLine(lines[i]).Ok? {
        if i < |init| {
          assert lines[i] == init[i];
        } else {
          assert lines[i] == last;
        }
      }
    }
  }

  /** The directives as a lookup: each key has the value of its last directive line. */
  lemma ParseDirectiveValues(st: ParseState, lines: seq<string>, pattern: string,
                             matcher: (string, string) -> Option<Groups>, decode: string -> Result<Value>)
    ensures var r := ParseLines(st, lines, pattern, matcher, decode);
      r.1 == Pass ==> r.0.slurmParams.values == st.slurmParams.values + ToMap(DirectivePairs(lines))
  {
    ParseRecordsDirectives(st, lines, pattern, matcher, decode);
    PutAllValues(st.slurmParams, DirectivePairs(lines));
  }

  /** The position of the first match of the main command, or the number of lines. */
  function FirstMain(lines: seq<string>, pattern: string, matcher: (string, string) -> Option<Groups>): (m: nat)
    ensures m <= |lines|
    ensures m < |lines| ==> IsMain(lines[m], pattern, matcher)
    ensures forall i :: 0 <= i < m ==> !IsMain(lines[i], pattern, matcher)
  {
    if lines == [] then 0
    else
      var init := lines[..|lines| - 1];
      var m := FirstMain(init, pattern, matcher);
      if m < |init| then m
      else if IsMain(lines[|lines| - 1], pattern, matcher) then |init|
      else |lines|
  }

  /** Lines that are neither directives nor matches become setup commands before the first
      match and post commands after it, in order; a successful match sets the flag. */
  lemma {:induction false} ParseSortsCommands(st: ParseState, lines: seq<string>, pattern: string,
                                              matcher: (string, string) -> Option<Groups>, decode: string -> Result<Value>)
    requires !st.hasMain
    ensures var r := ParseLines(st, lines, pattern, matcher, decode);
      var m := FirstMain(lines, pattern, matcher);
      r.1 == Pass ==>
        && r.0.hasMain == (m < |lines|)
        && r.0.commands == st.commands + Others(lines[..m], pattern, matcher)
        && r.0.postCommands == st.postCommands + Others(lines[m..], pattern, matcher)
  {
    var r := ParseLines(st, lines, pattern, matcher, decode);
    if lines == [] {
      assert lines[..0] == lines[0..] == [];
    } else if r.1 == Pass {
      var init, last := lines[..|lines| - 1], lines[|lines| - 1];
      var r0 := ParseLines(st, init, pattern, matcher, decode);
      ParseLinesSnoc(st, lines, pattern, matcher, decode);
      ParseSortsCommands(st, init, pattern, matcher, decode);
      StepSorts(r0.0, last, pattern, matcher, decode);
      OthersSnoc(lines, pattern, matcher);
      var m0 := FirstMain(init, pattern, matcher);
      var before, other := m0 < |init|, OtherLine(last, pattern, matcher);
      assert r0.0.hasMain == before;
      SeqAppendAssoc(st.commands, Others(init[..m0], pattern, matcher), if before then [] else other);
      SeqAppendAssoc(st.postCommands, Others(init[m0..], pattern, matcher), if before then other else []);
    }
  }

  /** How one more line moves the first match and the commands on either side of it. */
  lemma OthersSnoc(lines: seq<string>, pattern: string, matcher: (string, string) -> Option<Groups>)
    requires lines != []
    ensures var init, last := lines[..|lines| - 1], lines[|lines| - 1];
      var m0, m := FirstMain(init, pattern, matcher), FirstMain(lines, pattern, matcher);
      var before, other := m0 < |init|, OtherLine(last, pattern, matcher);
      && (m < |lines|) == (before || IsMain(last, pattern, matcher))
      && Others(lines[..m], pattern, matcher) == Others(init[..m0], pattern, matcher) + (if before then [] else other)
      && Others(lines[m..], pattern, matcher) == Others(init[m0..], pattern, matcher) + (if before then other else [])
  {
    var init, last := lines[..|lines| - 1], lines[|lines| - 1];
    var m0, m := FirstMain(init, pattern, matcher), FirstMain(lines, pattern, matcher);
    if m0 < |init| {
      assert m == m0;
      OthersCutEarlier(lines, m, pattern, matcher);
    } else if IsMain(last, pattern, matcher) {
      assert m == m0 == |init|;
      OthersCutLast(lines, pattern, matcher);
    } else {
      assert m == |lines| && m0 == |init|;
      OthersCutNone(lines, pattern, matcher);
    }
  }

  /** Cutting before a line `j` that precedes the last. */
  lemma OthersCutEarlier(lines: seq<string>, j: nat, pattern: string, matcher: (string, string) -> Option<Groups>)
    requires j < |lines| - 1
    ensures var init, last := lines[..|lines| - 1], lines[|lines| - 1];
      && Others(lines[..j], pattern, matcher) == Others(init[..j], pattern, matcher)
      && Others(lines[j..], pattern, matcher) == Others(init[j..], pattern, matcher) + OtherLine(last, pattern, matcher)
  {
    var init := lines[..|lines| - 1];
    assert lines[..j] == init[..j];
    var tail := lines[j..];
    assert tail[..|tail| - 1] == init[j..];
    assert tail[|tail| - 1] == lines[|lines| - 1];
  }

  /** Cutting before the last line, which matches. */
  lemma OthersCutLast(lines: seq<string>, pattern: string, matcher: (string, string) -> Option<Groups>)
    requires lines != [] && IsMain(lines[|lines| - 1], pattern, matcher)
    ensures var n := |lines| - 1;
      && Others(lines[..n], pattern, matcher) == Others(lines[..n][..n], pattern, matcher) + []
      && Others(lines[n..], pattern, matcher) == Others(lines[..n][n..], pattern, matcher) + []
  {
    var n := |lines| - 1;
    var tail := lines[n..];
    assert lines[..n][..n] == lines[..n] && lines[..n][n..] == [];
    assert tail[..|tail| - 1] == [] && tail[|tail| - 1] == lines[n];
  }

  /** Nothing matches: everything lies before the cut. */
  lemma OthersCutNone(lines: seq<string>, pattern: string, matcher: (string, string) -> Option<Groups>)
    requires lines != []
    ensures var init, last := lines[..|lines| - 1], lines[|lines| - 1];
      && Others(lines[..|lines|], pattern, matcher) == Others(init[..|init|], pattern, matcher) + OtherLine(last, pattern, matcher)
      && Others(lines[|lines|..], pattern, matcher) == Others(init[|init|..], pattern, matcher) + []
  {
    var init := lines[..|lines| - 1];
    assert lines[..|lines|] == lines && init[..|init|] == init;
    assert lines[|lines|..] == [] && init[|init|..] == [];
  }

  /** The position of the last match of the main command, if any. */
  function LastMain(lines: seq<string>, pattern: string, matcher: (string, string) -> Option<Groups>): (r: Option<nat>)
    ensures r.Some? ==> r.value < |lines| && IsMain(lines[r.value], pattern, matcher)
    ensures r.Some? ==> forall i :: r.value < i < |lines| ==> !IsMain(lines[i], pattern, matcher)
    ensures r.None? ==> forall i :: 0 <= i < |lines| ==> !IsMain(lines[i], pattern, matcher)
  {
    if lines == [] then Option.None
    else if IsMain(lines[|lines| - 1], pattern, matcher) then Some(|lines| - 1)
    else
      var r := LastMain(lines[..|lines| - 1], pattern, matcher);
      assert forall i :: 0 <= i < |lines| - 1 ==> lines[..|lines| - 1][i] == lines[i];
      r
  }

  /** Without any match the main command, script name and parameters keep their values, and
      only a directive that cannot be split raises. */
  lemma {:induction false} ParseWithoutMatch(st: ParseState, lines: seq<string>, pattern: string,
                                             matcher: (string, string) -> Option<Groups>, decode: string -> Result<Value>)
    requires LastMain(lines, pattern, matcher).None?
    ensures var r := ParseLines(st, lines, pattern, matcher, decode);
      && r.0.mainCommand == st.mainCommand && r.0.scriptName == st.scriptName && r.0.params == st.params
      && ((forall i :: 0 <= i < |lines| && IsDirective(lines[i]) ==> ParseSlurmLine(lines[i]).Ok?) ==> r.1 == Pass)
  {
    if lines != [] {
      var init, last := lines[..|lines| - 1], lines[|lines| - 1];
      assert forall i :: 0 <= i < |init| ==> init[i] == lines[i];
      assert !IsMain(last, pattern, matcher);
      ParseWithoutMatch(st, init, pattern, matcher, decode);
      var r0 := ParseLines(st, init, pattern, matcher, decode);
      if r0.1 == Pass {
        StepMainFields(r0.0, last, pattern, matcher, decode);
      }
    }
  }

  /** When `parse` succeeds, the last matching line decides the main command, the script
      name and the parameters: every match overwrites them. */
  lemma {:induction false} ParseLastMatchWins(st: ParseState, lines: seq<string>, pattern: string,
                                              matcher: (string, string) -> Option<Groups>, decode: string -> Result<Value>)
    requires LastMain(lines, pattern, matcher).Some?
    ensures var r := ParseLines(st, lines, pattern, matcher, decode);
      var j := LastMain(lines, pattern, matcher).value;
      var groups := matcher(pattern, lines[j]).value;
      r.1 == Pass ==>
        && |groups| >= 2 && groups[1].Some?
        && r.0.mainCommand == Some(lines[j]) && r.0.scriptName == groups[0]
        && r.0.params == Some(ParamsOf(Split(groups[1].value, ' '), decode).0)
  {
    var r := ParseLines(st, lines, pattern, matcher, decode);
    if r.1 == Pass {
      var init, last := lines[..|lines| - 1], lines[|lines| - 1];
      var r0 := ParseLines(st, init, pattern, matcher, decode);
      ParseLinesSnoc(st, lines, pattern, matcher, decode);
      StepMainFields(r0.0, last, pattern, matcher, decode);
      if !IsMain(last, pattern, matcher) {
        assert forall i :: 0 <= i < |init| ==> init[i] == lines[i];
        assert LastMain(lines, pattern, matcher) == LastMain(init, pattern, matcher);
        ParseLastMatchWins(st, init, pattern, matcher, decode);
      }
    }
  }

  // ---------------------------------------------------------------------------
  // The parser object

  class SlurmScriptParser {
    const slurmScript: string
    /** `_main_command`: the template, made a pattern by `FormatMainCommand`. */
    var mainTemplate: string
    var slurmParams: PyDict<string>
    /** The texts of the `Command`s built from the lines. */
    var commands: seq<string>
    var postCommands: seq<string>
    var mainCommand: Option<string>
    var scriptName: Option<string>
    var params: Option<PyDict<Value>>

    constructor (slurmScript: string, mainCommand: string)
      ensures this.slurmScript == slurmScript && mainTemplate == mainCommand
      ensures State(false) == ParseState(Empty(), [], [], Option.None, Option.None, Option.None, false)
    {
      this.slurmScript := slurmScript;
      mainTemplate := mainCommand;
      slurmParams := Empty();
      commands := [];
      postCommands := [];
      this.mainCommand := Option.None;
      scriptName := Option.None;
      params := Option.None;
    }

    /** The recorded fields, with the given value of `has_main_command`. */
    function State(hasMain: bool): ParseState
      reads this
    {
      ParseState(slurmParams, commands, postCommands, mainCommand, scriptName, params, hasMain)
    }

    /** `_format_main_command`: each known placeholder of the template, in turn, becomes its
        capture group. */
    method FormatMainCommand()
      modifies this
      ensures mainTemplate == Formatted(old(mainTemplate))
      ensures State(false) == old(State(false))
    {
      for i := 0 to |FormatKeys|
        invariant mainTemplate == ReplaceEach(old(mainTemplate), FormatKeys[..i])
        invariant State(false) == old(State(false))
      {
        var (key, val) := FormatKeys[i];
        assert FormatKeys[..i + 1][..i] == FormatKeys[..i];
        mainTemplate := ReplaceAll(mainTemplate, Placeholder(key), val);
      }
      assert FormatKeys[..|FormatKeys|] == FormatKeys;
    }

    /** `self.slurm_params[key] = val` for a directive line. */
    method RecordDirective(line: string, ghost hasMain: bool) returns (outcome: Outcome)
      modifies this
      ensures mainTemplate == old(mainTemplate)
      ensures (State(hasMain), outcome) == DirectiveStep(old(State(hasMain)), line)
    {
      var kv := ParseSlurmLine(line);
      if kv.Err? {
        return Fail(kv.error);
      }
      slurmParams := Put(slurmParams, kv.value.0, kv.value.1);
      outcome := Pass;
    }

    /** A line that matches the main command. */
    method RecordMain(line: string, groups: Groups, decode: string -> Result<Value>, ghost hasMain: bool)
      returns (outcome: Outcome)
      modifies this
      ensures mainTemplate == old(mainTemplate)
      ensures var (s, o) := MainLine(old(State(hasMain)), line, groups, decode);
        State(s.hasMain) == s && outcome == o
    {
      mainCommand := Some(line);
      var name := Group(groups, 1);
      if name.Err? {
        return Fail(name.error);
      }
      scriptName := name.value;
      var text := Group(groups, 2);
      if text.Err? {
        return Fail(text.error);
      }
      if text.value.None? {
        return Fail(AttributeError);
      }
      var decoded, o := DecodeParams(Split(text.value.value, ' '), decode);
      params := Some(decoded);
      outcome := o;
    }

    /** One line of the script: a directive, a match of the main command, or a command
        before or after the first match. */
    method ParseLine(line: string, pattern: string, matcher: (string, string) -> Option<Groups>,
                     decode: string -> Result<Value>, hasMain: bool) returns (outcome: Outcome, nowMain: bool)
      modifies this
      ensures mainTemplate == old(mainTemplate)
      ensures var (s, o) := Step(old(State(hasMain)), line, pattern, matcher, decode);
        State(s.hasMain) == s && outcome == o && (o.Pass? ==> nowMain == s.hasMain)
    {
      nowMain := hasMain;
      if IsDirective(line) {
        outcome := RecordDirective(line, hasMain);
      } else {
        var found := matcher(pattern, line);
        if found.Some? {
          outcome := RecordMain(line, found.value, decode, hasMain);
          if outcome.Pass? {
            nowMain := true;
          }
        } else if !hasMain {
          commands := commands + [line];
          outcome := Pass;
        } else {
          postCommands := postCommands + [line];
          outcome := Pass;
        }
      }
    }

    /** `parse`: formats the template into the main-command pattern, then reads the lines
        of the script in turn. */
    method Parse(matcher: (string, string) -> Option<Groups>, decode: string -> Result<Value>)
      returns (outcome: Outcome)
      modifies this
      ensures mainTemplate == Formatted(old(mainTemplate))
      ensures var (s, o) := ParseLines(old(State(false)), ScriptLines(slurmScript), mainTemplate, matcher, decode);
        State(s.hasMain) == s && outcome == o
    {
      var lines := ScriptLines(slurmScript);
      FormatMainCommand();
      var pattern := mainTemplate;
      ghost var start := old(State(false));
      var hasMain := false;
      for i := 0 to |lines|
        invariant mainTemplate == pattern
        invariant ParseLines(start, lines[..i], pattern, matcher, decode) == (State(hasMain), Pass)
      {
        ParseLinesNext(start, lines, i, pattern, matcher, decode);
        var o, nowMain := ParseLine(lines[i], pattern, matcher, decode, hasMain);
        if o.Fail? {
          ParseLinesPrefixFail(start, lines, i + 1, pattern, matcher, decode);
          return o;
        }
        hasMain := nowMain;
      }
      assert lines[..|lines|] == lines;
      outcome := Pass;
    }
  }
}

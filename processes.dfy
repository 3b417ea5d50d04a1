/** auto_sbatch/processes.py: `Command`, the mutable holder of one shell command's text,
    its `Python` variant that wraps the text in a here-document, and `str.format` with
    keyword arguments, which `Command.format` applies. */
module Processes {
  import opened Wrappers
  import opened PyStrings
  import opened PyValues

  /** Index of the first `}` in `s`, or `|s|` when there is none. */
  function FieldEnd(s: string): (k: nat)
    ensures k <= |s|
    ensures forall i :: 0 <= i < k ==> s[i] != '}'
    ensures k < |s| ==> s[k] == '}'
  {
    if s == [] || s[0] == '}' then 0 else 1 + FieldEnd(s[1..])
  }

  /** Python's `template.format(**args)`: `{{` and `}}` stand for one brace, `{name}` for
      `str(args[name])`; a missing name is a `KeyError`, an empty or numeric name asks for a
      positional argument (there are none: `IndexError`), and an unmatched brace is a
      `ValueError`: a lone `{` at the end, a `{` inside a field name (reported before a
      missing `}`), a field without its `}`, or a lone `}`. */
  function Format(template: string, args: map<string, Value>): Result<string>
    decreases |template|
  {
    if template == [] then Ok("")
    else if template[0] == '{' then
      if |template| > 1 && template[1] == '{' then
        var rest :- Format(template[2..], args);
        Ok("{" + rest)
      else
        var body := template[1..];
        var k := FieldEnd(body);
        var name := body[..k];
        if body == [] then Err(ValueError("Single '{' encountered in format string"))
        else if '{' in name then Err(ValueError("unexpected '{' in field name"))
        else if k == |body| then Err(ValueError("expected '}' before end of string"))
        else if name == [] || AllDigits(name) then Err(IndexError)
        else if name !in args then Err(KeyError(name))
        else
          var rest :- Format(body[k + 1..], args);
          Ok(PyStr(args[name]) + rest)
    else if template[0] == '}' then
      if |template| > 1 && template[1] == '}' then
        var rest :- Format(template[2..], args);
        Ok("}" + rest)
      else
        Err(ValueError("Single '}' encountered in format string"))
    else
      var rest :- Format(template[1..], args);
      Ok([template[0]] + rest)
  }

  /** A format template read as its parts: literal characters and named fields. */
  datatype Piece = Literal(c: char) | Field(name: string)

  /** A field that `str.format` fills with `str(args[name])`: a keyword name, with no format
      spec (`:`), conversion (`!`), attribute (`.`) or index (`[`) after it. */
  predicate IsFieldName(name: string) {
    name != [] && !AllDigits(name)
    && forall c :: c in name ==> c !in "{}:!.["
  }

  lemma FieldNameBraceFree(name: string)
    requires IsFieldName(name)
    ensures '{' !in name && '}' !in name
  {
    assert '{' in "{}:!.[" && '}' in "{}:!.[";
  }

  /** The template text that stands for the pieces: a literal brace is doubled. */
  function TemplateText(pieces: seq<Piece>): string {
    if pieces == [] then ""
    else
      var head := match pieces[0]
        case Literal(c) => if c == '{' || c == '}' then [c, c] else [c]
        case Field(name) => "{" + name + "}";
      head + TemplateText(pieces[1..])
  }

  predicate Fillable(pieces: seq<Piece>, args: map<string, Value>) {
    forall i :: 0 <= i < |pieces| && pieces[i].Field? ==> IsFieldName(pieces[i].name) && pieces[i].name in args
  }

  /** The text the pieces stand for once every field is filled in. */
  function Render(pieces: seq<Piece>, args: map<string, Value>): string
    requires Fillable(pieces, args)
  {
    if pieces == [] then ""
    else
      var head := match pieces[0]
        case Literal(c) => [c]
        case Field(name) => PyStr(args[name]);
      head + Render(pieces[1..], args)
  }

  lemma FieldEndAt(a: string, b: string)
    requires '}' !in a
    ensures FieldEnd(a + "}" + b) == |a|
  {
    var s := a + "}" + b;
    assert s[|a|] == '}';
    assert forall i :: 0 <= i < |a| ==> s[i] == a[i];
  }

  /** Formatting a template whose every field has a value writes each literal
      character once and each field as `str` of its value; arguments the template does not
      name are ignored. */
  lemma {:induction false} FormatRendersTemplate(pieces: seq<Piece>, args: map<string, Value>)
    requires Fillable(pieces, args)
    ensures Format(TemplateText(pieces), args) == Ok(Render(pieces, args))
  {
    if pieces != [] {
      var rest := TemplateText(pieces[1..]);
      FormatRendersTemplate(pieces[1..], args);
      match pieces[0]
      case Literal(c) =>
        FormatLiteral(c, rest, args);
      case Field(name) =>
        assert IsFieldName(name) && name in args;
        FormatField(name, rest, args);
    }
  }

  /** One literal character of a template, doubled if it is a brace, formats to itself. */
  lemma FormatLiteral(c: char, rest: string, args: map<string, Value>)
    ensures var t := (if c == '{' || c == '}' then [c, c] else [c]) + rest;
      Format(t, args) == (var r :- Format(rest, args); Ok([c] + r))
  {
    var t := (if c == '{' || c == '}' then [c, c] else [c]) + rest;
    if c == '{' || c == '}' {
      assert t[0] == c && t[1] == c && t[2..] == rest;
    } else {
      assert t[0] == c && t[1..] == rest;
    }
  }

  /** A field with a value formats to the `str` of that value. */
  lemma FormatField(name: string, rest: string, args: map<string, Value>)
    requires IsFieldName(name) && name in args
    ensures Format("{" + name + "}" + rest, args) == (var r :- Format(rest, args); Ok(PyStr(args[name]) + r))
  {
    FieldNameBraceFree(name);
    var t := "{" + name + "}" + rest;
    var body := t[1..];
    assert t[0] == '{';
    assert body == name + "}" + rest;
    FieldEndAt(name, rest);
    assert body[..|name|] == name;
    assert body[|name| + 1..] == rest;
    if |name| > 0 {
      assert t[1] == name[0] != '{';
    }
  }

  /** Text without braces formats to itself. */
  lemma {:induction false} FormatPlainText(s: string, args: map<string, Value>)
    requires '{' !in s && '}' !in s
    ensures Format(s, args) == Ok(s)
  {
    if s != [] {
      assert s[0] != '{' && s[0] != '}';
      assert '{' !in s[1..] && '}' !in s[1..];
      FormatPlainText(s[1..], args);
      assert [s[0]] + s[1..] == s;
    }
  }

  /** A template ending in a lone `{`, such as `"{"` or `"ab{"`, is Python's "Single '{'"
      error. */
  lemma FormatTrailingBrace(prefix: string, args: map<string, Value>)
    requires '{' !in prefix && '}' !in prefix
    ensures Format(prefix + "{", args) == Err(ValueError("Single '{' encountered in format string"))
    decreases |prefix|
  {
    if prefix == [] {
      assert (prefix + "{")[1..] == [];
    } else {
      assert (prefix + "{")[1..] == prefix[1..] + "{";
      FormatTrailingBrace(prefix[1..], args);
    }
  }

  /** In `"{abc{"` the second `{` is met inside the field name, before the end. */
  lemma FormatBraceInName(args: map<string, Value>)
    ensures Format("{abc{", args) == Err(ValueError("unexpected '{' in field name"))
  {
    var b := "{abc{"[1..];
    assert b == "abc{" && FieldEnd(b) == 4 && b[..4] == b && b[3] == '{';
  }

  /** A field that is never closed, as in `"{abc"`, misses its `}`. */
  lemma FormatUnclosedField(args: map<string, Value>)
    ensures Format("{abc", args) == Err(ValueError("expected '}' before end of string"))
  {
    var c := "{abc"[1..];
    assert c == "abc" && FieldEnd(c) == 3 && c[..3] == c;
    assert c[0] != '{' && c[1] != '{' && c[2] != '{';
  }

  /** A field without a value is a `KeyError` naming it. */
  lemma FormatMissingField(name: string, args: map<string, Value>)
    requires IsFieldName(name) && name !in args
    ensures Format("{" + name + "}", args) == Err(KeyError(name))
  {
    FieldNameBraceFree(name);
    var t := "{" + name + "}";
    assert t[1..] == name + "}" + "";
    FieldEndAt(name, "");
    assert t[1..][..|name|] == name;
  }

  const HeredocOpen: string := "python << EOF\n"
  const HeredocClose: string := "\nEOF"

  /** What `Command(...)` may be built from: a string, another command, or anything else
      (which fails the constructor's assertion). */
  datatype CommandInput = Text(text: string) | Existing(command: Command) | Other

  /** The text a new command takes from its input: a command's own `get()`. */
  function InputText(input: CommandInput): Result<string>
    reads if input.Existing? then {input.command} else {}
  {
    match input
    case Text(s) => Ok(s)
    case Existing(c) => Ok(c.Get())
    case Other => Err(AssertionError(""))
  }

  class Command {
    var command: string
    /** True for the `Python` subclass, whose `get` wraps the text. */
    const heredoc: bool

    constructor (text: string, heredoc: bool)
      ensures command == text && this.heredoc == heredoc
    {
      command := text;
      this.heredoc := heredoc;
    }

    /** `get()`: the text, wrapped in a `python` here-document for a `Python` command. */
    function Get(): (r: string)
      reads this
      ensures heredoc ==> r == HeredocOpen + command + HeredocClose
      ensures !heredoc ==> r == command
    {
      if heredoc then HeredocOpen + command + HeredocClose else command
    }

    /** `format(**args)`: the text becomes its formatted version; when formatting raises,
        the text is left as it was. */
    method FormatWith(args: map<string, Value>) returns (outcome: Outcome)
      modifies this
      ensures Format(old(command), args).Ok? ==> command == Format(old(command), args).value && outcome == Pass
      ensures Format(old(command), args).Err? ==> command == old(command) && outcome == Fail(Format(old(command), args).error)
    {
      var r := Format(command, args);
      if r.Ok? {
        command := r.value;
        outcome := Pass;
      } else {
        outcome := Fail(r.error);
      }
    }
  }

  /** `Command(input)` (or `Python(input)` when `heredoc`): copies the text of a string or of
      another command's `get()`; any other input fails the assertion. */
  method NewCommand(input: CommandInput, heredoc: bool) returns (r: Result<Command>)
    ensures InputText(input).Err? ==> r == Err(AssertionError(""))
    ensures InputText(input).Ok? ==> r.Ok? && fresh(r.value) && r.value.command == InputText(input).value
                                     && r.value.heredoc == heredoc
  {
    match input
    case Text(s) =>
      var c := new Command(s, heredoc);
      r := Ok(c);
    case Existing(other) =>
      var c := new Command(other.Get(), heredoc);
      r := Ok(c);
    case Other =>
      r := Err(AssertionError(""));
  }

  /** `Command(Command(s)).get() == s`, and a copy of a `Python` command holds its wrapped text. */
  method CopyCommand(s: string, fromPython: bool) returns (text: string)
    ensures text == if fromPython then HeredocOpen + s + HeredocClose else s
  {
    var original := NewCommand(Text(s), fromPython);
    var copy := NewCommand(Existing(original.value), false);
    text := copy.value.Get();
  }
}

/** The Python string operations the modelled code relies on, on `seq<char>`. */
module PyStrings {
  import opened Wrappers

  predicate StartsWith(s: string, prefix: string) {
    |prefix| <= |s| && s[..|prefix|] == prefix
  }

  /** Python's `sub in s` on strings. */
  predicate Contains(s: string, sub: string)
    decreases |s|
  {
    StartsWith(s, sub) || (|s| > 0 && Contains(s[1..], sub))
  }

  /** Python's `s.replace(pattern, replacement)` for a non-empty pattern:
      occurrences are found left to right and do not overlap. */
  function ReplaceAll(s: string, pattern: string, replacement: string): string
    requires |pattern| > 0
    decreases |s|
  {
    if |s| < |pattern| then s
    else if s[..|pattern|] == pattern then replacement + ReplaceAll(s[|pattern|..], pattern, replacement)
    else [s[0]] + ReplaceAll(s[1..], pattern, replacement)
  }

  /** A string that does not contain the pattern is left unchanged. */
  lemma {:induction false} ReplaceAbsent(s: string, pattern: string, replacement: string)
    requires |pattern| > 0
    requires !Contains(s, pattern)
    ensures ReplaceAll(s, pattern, replacement) == s
    decreases |s|
  {
    if |s| >= |pattern| {
      ReplaceAbsent(s[1..], pattern, replacement);
    }
  }

  /** Text before the pattern's first character passes through unchanged. */
  lemma {:induction false} ReplaceSkipsPlainText(a: string, b: string, pattern: string, replacement: string)
    requires |pattern| > 0
    requires pattern[0] !in a
    ensures ReplaceAll(a + b, pattern, replacement) == a + ReplaceAll(b, pattern, replacement)
    decreases |a|
  {
    if a != [] {
      var s := a + b;
      assert s[0] == a[0] != pattern[0];
      if |s| < |pattern| {
        ReplaceShort(b, pattern, replacement);
      } else {
        assert s[..|pattern|] != pattern;
        assert s[1..] == a[1..] + b;
        ReplaceSkipsPlainText(a[1..], b, pattern, replacement);
        assert [a[0]] + a[1..] == a;
      }
    } else {
      assert a + b == b;
    }
  }

  /** A position where the pattern does not start keeps its character. */
  lemma ReplaceSkipOne(s: string, pattern: string, replacement: string)
    requires 0 < |pattern| <= |s| && s[..|pattern|] != pattern
    ensures ReplaceAll(s, pattern, replacement) == [s[0]] + ReplaceAll(s[1..], pattern, replacement)
  {
  }

  lemma ReplaceShort(s: string, pattern: string, replacement: string)
    requires 0 < |pattern| && |s| < |pattern|
    ensures ReplaceAll(s, pattern, replacement) == s
  {
  }

  /** An occurrence at the front is replaced and scanning resumes after it. */
  lemma ReplaceAtFront(b: string, pattern: string, replacement: string)
    requires |pattern| > 0
    ensures ReplaceAll(pattern + b, pattern, replacement) == replacement + ReplaceAll(b, pattern, replacement)
  {
    var s := pattern + b;
    assert s[..|pattern|] == pattern;
    assert s[|pattern|..] == b;
  }

  /** Python's `sep.join(xs)`. */
  function Join(sep: string, xs: seq<string>): string {
    if xs == [] then "" else xs[0] + Prefixed(sep, xs[1..])
  }

  /** The concatenation of `sep + x` for every `x` in order: the text an accumulating
      loop `s += sep + x` appends. */
  function Prefixed(sep: string, xs: seq<string>): string {
    if xs == [] then "" else Prefixed(sep, xs[..|xs| - 1]) + sep + xs[|xs| - 1]
  }

  lemma {:induction false} PrefixedConcat(sep: string, a: seq<string>, b: seq<string>)
    ensures Prefixed(sep, a + b) == Prefixed(sep, a) + Prefixed(sep, b)
    decreases |b|
  {
    if b == [] {
      assert a + b == a;
    } else {
      var b' := b[..|b| - 1];
      assert (a + b)[..|a + b| - 1] == a + b';
      PrefixedConcat(sep, a, b');
    }
  }

  lemma PrefixedCons(sep: string, x: string, xs: seq<string>)
    ensures Prefixed(sep, [x] + xs) == sep + x + Prefixed(sep, xs)
  {
    PrefixedConcat(sep, [x], xs);
    PrefixedSingle(sep, x);
  }

  lemma PrefixedSingle(sep: string, x: string)
    ensures Prefixed(sep, [x]) == sep + x
  {
    var xs := [x];
    assert xs[..0] == [];
    assert Prefixed(sep, xs) == Prefixed(sep, []) + sep + x;
    assert Prefixed(sep, []) == [];
    assert [] + sep == sep;
  }

  /** One more round of an accumulating loop appends `sep + xs[i]`. */
  lemma PrefixedStep(sep: string, xs: seq<string>, i: nat)
    requires i < |xs|
    ensures Prefixed(sep, xs[..i + 1]) == Prefixed(sep, xs[..i]) + sep + xs[i]
  {
    assert xs[..i + 1][..i] == xs[..i];
  }

  /** Python's `s[1:]`. */
  function DropFirst(s: string): string {
    if s == [] then s else s[1..]
  }

  /** Accumulating ` x` for each `x` and then dropping the first character is `" ".join`. */
  lemma {:induction false} DropFirstOfPrefixed(sep: char, xs: seq<string>)
    ensures DropFirst(Prefixed([sep], xs)) == Join([sep], xs)
  {
    if xs != [] {
      var rest := Prefixed([sep], xs[1..]);
      PrefixedCons([sep], xs[0], xs[1..]);
      assert [xs[0]] + xs[1..] == xs;
      var p := Prefixed([sep], xs);
      assert p == [sep] + (xs[0] + rest);
      assert Join([sep], xs) == xs[0] + rest;
      assert DropFirst(p) == p[1..];
    }
  }

  /** Python's `s.split(sep)` for a one-character separator. */
  function Split(s: string, sep: char): (r: seq<string>)
    ensures |r| >= 1
    ensures forall i :: 0 <= i < |r| ==> sep !in r[i]
  {
    if s == [] then [""]
    else if s[0] == sep then [""] + Split(s[1..], sep)
    else
      var t := Split(s[1..], sep);
      [[s[0]] + t[0]] + t[1..]
  }

  /** Splitting and joining on the same separator give the string back. */
  lemma {:induction false} JoinSplit(s: string, sep: char)
    ensures Join([sep], Split(s, sep)) == s
  {
    if s != [] {
      var t := Split(s[1..], sep);
      JoinSplit(s[1..], sep);
      if s[0] == sep {
        PrefixedCons([sep], t[0], t[1..]);
        assert [t[0]] + t[1..] == t;
      }
    }
  }

  /** A string without the separator splits into itself alone. */
  lemma {:induction false} SplitAbsent(s: string, sep: char)
    requires sep !in s
    ensures Split(s, sep) == [s]
  {
    if s != [] {
      assert s[0] != sep;
      assert sep !in s[1..];
      SplitAbsent(s[1..], sep);
      assert [s[0]] + s[1..] == s;
    }
  }

  /** Splitting `a + [sep] + b` where `a` holds no separator. */
  lemma {:induction false} SplitAt(a: string, b: string, sep: char)
    requires sep !in a
    ensures Split(a + [sep] + b, sep) == [a] + Split(b, sep)
  {
    if a == [] {
      assert a + [sep] + b == [sep] + b;
      assert ([sep] + b)[1..] == b;
    } else {
      var s := a + [sep] + b;
      assert s[0] == a[0] != sep;
      assert s[1..] == a[1..] + [sep] + b;
      assert sep !in a[1..];
      SplitAt(a[1..], b, sep);
      assert [a[0]] + a[1..] == a;
    }
  }

  /** The characters Python's `str.strip()` removes (its ASCII part). */
  predicate IsSpace(c: char) {
    c == ' ' || c == '\t' || c == '\n' || c == '\r' || c == '\U{000B}' || c == '\U{000C}'
    || ('\U{001C}' <= c <= '\U{001F}')
  }

  function TrimStart(s: string, drop: char -> bool): string {
    if s != [] && drop(s[0]) then TrimStart(s[1..], drop) else s
  }

  function TrimEnd(s: string, drop: char -> bool): string {
    if s != [] && drop(s[|s| - 1]) then TrimEnd(s[..|s| - 1], drop) else s
  }

  /** Python's `s.strip()`. */
  function Strip(s: string): string {
    TrimEnd(TrimStart(s, IsSpace), IsSpace)
  }

  /** Python's `s.strip("\n")`. */
  function StripNewlines(s: string): string {
    TrimEnd(TrimStart(s, c => c == '\n'), c => c == '\n')
  }

  /** A string whose ends are not whitespace is its own strip. */
  lemma StripClean(s: string)
    requires s == [] || (!IsSpace(s[0]) && !IsSpace(s[|s| - 1]))
    ensures Strip(s) == s
  {
  }

  function DigitChar(d: nat): char
    requires d < 10
  {
    "0123456789"[d]
  }

  predicate IsDigit(c: char) { '0' <= c <= '9' }

  function DigitValue(c: char): nat
    requires IsDigit(c)
  {
    (c as int - '0' as int) as nat
  }

  /** Decimal digits of a natural number, as Python's `str` writes them. */
  function NatToString(n: nat): string
    decreases n
  {
    if n < 10 then [DigitChar(n)] else NatToString(n / 10) + [DigitChar(n % 10)]
  }

  /** Python's `str(i)` for an int. */
  function IntToString(i: int): string {
    if i < 0 then "-" + NatToString(-i) else NatToString(i)
  }

  predicate AllDigits(s: string) {
    forall i :: 0 <= i < |s| ==> IsDigit(s[i])
  }

  function DigitsValue(s: string): nat
    requires AllDigits(s)
  {
    if s == [] then 0 else DigitsValue(s[..|s| - 1]) * 10 + DigitValue(s[|s| - 1])
  }

  /** Python's `repr` of a string: single quotes unless the text holds a single quote and no
      double quote; backslash, the chosen quote, newline, carriage return and tab escaped. */
  function ReprString(s: string): string {
    var q := if '\'' in s && '"' !in s then '"' else '\'';
    [q] + EscapeRepr(s, q) + [q]
  }

  function EscapeRepr(s: string, q: char): string {
    if s == [] then ""
    else
      var c := s[0];
      var e := if c == '\\' then "\\\\"
               else if c == q then ['\\', q]
               else if c == '\n' then "\\n"
               else if c == '\r' then "\\r"
               else if c == '\t' then "\\t"
               else [c];
      e + EscapeRepr(s[1..], q)
  }

  /** Python's `int(s)` for base 10: surrounding whitespace, an optional sign, then digits. */
  function ParseInt(s: string): Result<int> {
    var t := Strip(s);
    var negative := |t| > 0 && t[0] == '-';
    var digits := if |t| > 0 && (t[0] == '-' || t[0] == '+') then t[1..] else t;
    if |digits| > 0 && AllDigits(digits) then
      Ok(if negative then -(DigitsValue(digits) as int) else DigitsValue(digits))
    else
      Err(ValueError("invalid literal for int() with base 10: " + ReprString(s)))
  }

  /** `int("x")` names the rejected text in its message, as its `repr`. */
  lemma ParseIntMessage()
    ensures ParseInt("x") == Err(ValueError("invalid literal for int() with base 10: 'x'"))
  {
    StripClean("x");
    assert !IsDigit("x"[0]);
    assert '\'' !in "x";
    assert "x"[1..] == [];
    assert EscapeRepr("x", '\'') == "x";
    assert ReprString("x") == ['\''] + "x" + ['\''] == "'x'";
    assert Strip("x") == "x" && !AllDigits("x");
    assert "invalid literal for int() with base 10: " + "'x'" == "invalid literal for int() with base 10: 'x'";
  }

  lemma {:induction false} NatToStringDigits(n: nat)
    ensures |NatToString(n)| > 0 && AllDigits(NatToString(n))
    ensures DigitsValue(NatToString(n)) == n
    decreases n
  {
    DigitCharValue(n % 10);
    if n >= 10 {
      NatToStringDigits(n / 10);
      var s, init := NatToString(n), NatToString(n / 10);
      assert s == init + [DigitChar(n % 10)];
      assert s[..|s| - 1] == init && s[|s| - 1] == DigitChar(n % 10);
      assert DigitsValue(s) == n / 10 * 10 + n % 10;
    } else {
      assert n % 10 == n;
    }
  }

  lemma DigitCharValue(d: nat)
    requires d < 10
    ensures IsDigit(DigitChar(d)) && DigitValue(DigitChar(d)) == d
  {
  }

  /** `int(str(i)) == i`. */
  lemma ParseIntToString(i: int)
    ensures ParseInt(IntToString(i)) == Ok(i)
  {
    var n: nat := if i < 0 then -i else i;
    NatToStringDigits(n);
    var d := NatToString(n);
    var s := IntToString(i);
    assert IsDigit(d[0]) && IsDigit(d[|d| - 1]);
    if i < 0 {
      assert s == "-" + d && s[0] == '-' && s[1..] == d && s[|s| - 1] == d[|d| - 1];
    } else {
      assert s == d && s[0] != '-' && s[0] != '+';
    }
    StripClean(s);
  }

  lemma JoinCons(sep: string, x: string, xs: seq<string>)
    requires xs != []
    ensures Join(sep, [x] + xs) == x + sep + Join(sep, xs)
  {
    var t := [x] + xs;
    assert t[0] == x && t[1..] == xs;
    assert Join(sep, t) == x + Prefixed(sep, xs);
    PrefixedCons(sep, xs[0], xs[1..]);
    assert [xs[0]] + xs[1..] == xs;
    var p := Prefixed(sep, xs[1..]);
    assert Join(sep, xs) == xs[0] + p;
    AppendAssoc(sep, xs[0], p);
    AppendAssoc(x, sep, xs[0] + p);
  }

  /** Joining lines that hold no separator and splitting again gives the lines back. */
  lemma {:induction false} SplitJoin(xs: seq<string>, sep: char)
    requires xs != []
    requires forall i :: 0 <= i < |xs| ==> sep !in xs[i]
    ensures Split(Join([sep], xs), sep) == xs
  {
    if |xs| == 1 {
      assert Join([sep], xs) == xs[0] + Prefixed([sep], []);
      assert Join([sep], xs) == xs[0];
      SplitAbsent(xs[0], sep);
    } else {
      var rest := xs[1..];
      SplitJoin(rest, sep);
      JoinCons([sep], xs[0], rest);
      assert [xs[0]] + rest == xs;
      SplitAt(xs[0], Join([sep], rest), sep);
    }
  }

  /** Putting a backslash before every double quote, the way a value is written inside a
      double-quoted shell word. */
  function EscapeQuotes(s: string): string {
    ReplaceAll(s, "\"", "\\\"")
  }

  /** Reading the word back: every backslash-quote pair stands for a double quote. */
  function UnescapeQuotes(s: string): string {
    ReplaceAll(s, "\\\"", "\"")
  }

  lemma {:induction false} EscapeQuotesSteps(s: string)
    ensures s == [] ==> EscapeQuotes(s) == []
    ensures s != [] && s[0] == '"' ==> EscapeQuotes(s) == "\\\"" + EscapeQuotes(s[1..])
    ensures s != [] && s[0] != '"' ==> EscapeQuotes(s) == [s[0]] + EscapeQuotes(s[1..])
  {
    if s != [] && s[0] == '"' {
      assert s[..1] == "\"";
    }
  }

  /** An escaped word never starts with a double quote. */
  lemma EscapeQuotesHead(s: string)
    ensures EscapeQuotes(s) == [] || EscapeQuotes(s)[0] != '"'
  {
    EscapeQuotesSteps(s);
  }

  /** Escaping loses nothing: unescaping gives the original text back. */
  lemma {:induction false} UnescapeEscapeQuotes(s: string)
    ensures UnescapeQuotes(EscapeQuotes(s)) == s
  {
    EscapeQuotesSteps(s);
    if s != [] {
      var rest := EscapeQuotes(s[1..]);
      UnescapeEscapeQuotes(s[1..]);
      if s[0] == '"' {
        ReplaceAtFront(rest, "\\\"", "\"");
        assert [s[0]] + s[1..] == s;
      } else {
        var t := [s[0]] + rest;
        EscapeQuotesHead(s[1..]);
        if |t| >= 2 {
          assert t[..2] != "\\\"" by {
            assert t[1] == rest[0];
          }
        }
        assert t[1..] == rest;
        assert UnescapeQuotes(t) == [s[0]] + UnescapeQuotes(rest);
        assert [s[0]] + s[1..] == s;
      }
    }
  }

  /** Replacing one character by another, everywhere. */
  lemma {:induction false} ReplaceChar(s: string, c: char, d: char)
    ensures |ReplaceAll(s, [c], [d])| == |s|
    ensures forall i :: 0 <= i < |s| ==> ReplaceAll(s, [c], [d])[i] == if s[i] == c then d else s[i]
  {
    if s != [] {
      ReplaceChar(s[1..], c, d);
      var r := ReplaceAll(s, [c], [d]);
      var rest := ReplaceAll(s[1..], [c], [d]);
      assert s[..1] == [s[0]];
      assert r == [if s[0] == c then d else s[0]] + rest;
      forall i | 0 <= i < |s| ensures r[i] == if s[i] == c then d else s[i] {
        if i > 0 {
          assert r[i] == rest[i - 1] && s[i] == s[1..][i - 1];
        }
      }
    }
  }

  /** Every double quote of an escaped word follows a backslash. */
  lemma {:induction false} EscapeQuotesGuarded(s: string)
    ensures var r := EscapeQuotes(s); forall i :: 0 <= i < |r| && r[i] == '"' ==> 0 < i && r[i - 1] == '\\'
  {
    EscapeQuotesSteps(s);
    if s != [] {
      EscapeQuotesGuarded(s[1..]);
      var r := EscapeQuotes(s);
      var rest := EscapeQuotes(s[1..]);
      EscapeQuotesHead(s[1..]);
      var k := if s[0] == '"' then 2 else 1;
      assert r[k..] == rest;
      forall i | 0 <= i < |r| && r[i] == '"' ensures 0 < i && r[i - 1] == '\\' {
        if i >= k {
          assert r[i] == rest[i - k];
          if i - k > 0 {
            assert r[i - 1] == rest[i - k - 1];
          }
        }
      }
    }
  }

  lemma {:induction false} JoinSnoc(sep: string, xs: seq<string>, x: string)
    requires xs != []
    ensures Join(sep, xs + [x]) == Join(sep, xs) + sep + x
  {
    var t := xs + [x];
    assert t[0] == xs[0];
    assert t[1..] == xs[1..] + [x];
    assert (xs[1..] + [x])[..|xs[1..] + [x]| - 1] == xs[1..];
  }

  /** Joining two non-empty runs is joining each and putting one separator between them. */
  lemma JoinConcat(sep: string, xs: seq<string>, ys: seq<string>)
    requires xs != [] && ys != []
    ensures Join(sep, xs + ys) == Join(sep, xs) + sep + Join(sep, ys)
  {
    assert (xs + ys)[0] == xs[0] && (xs + ys)[1..] == xs[1..] + ys;
    PrefixedConcat(sep, xs[1..], ys);
    PrefixedOfNonEmpty(sep, ys);
    ConcatAssoc(xs[0], Prefixed(sep, xs[1..]), sep, Join(sep, ys));
  }

  /** A non-empty list prefixed item by item is the separator before its joined text. */
  lemma PrefixedOfNonEmpty(sep: string, ys: seq<string>)
    requires ys != []
    ensures Prefixed(sep, ys) == sep + Join(sep, ys)
  {
    assert ys == [ys[0]] + ys[1..];
    PrefixedCons(sep, ys[0], ys[1..]);
  }

  lemma AppendAssoc(a: string, b: string, c: string)
    ensures (a + b) + c == a + (b + c)
  {
  }

  lemma SeqAppendAssoc<T>(a: seq<T>, b: seq<T>, c: seq<T>)
    ensures (a + b) + c == a + (b + c)
  {
  }

  lemma AppendEmpty(a: string)
    ensures a + "" == a
  {
  }

  /** Appending `sep + x` to `head + Prefixed(sep, xs)` extends the list by `x`. */
  lemma PrefixedSnoc(head: string, sep: string, xs: seq<string>, x: string)
    ensures head + Prefixed(sep, xs) + sep + x == head + Prefixed(sep, xs + [x])
  {
    assert (xs + [x])[..|xs|] == xs;
    assert Prefixed(sep, xs + [x]) == Prefixed(sep, xs) + sep + x;
    AppendAssoc(head, Prefixed(sep, xs), sep);
    AppendAssoc(head, Prefixed(sep, xs) + sep, x);
  }

  /** Appending `Prefixed(sep, ys)` to `head + Prefixed(sep, xs)` extends the list by `ys`. */
  lemma PrefixedAppend(head: string, sep: string, xs: seq<string>, ys: seq<string>)
    ensures head + Prefixed(sep, xs) + Prefixed(sep, ys) == head + Prefixed(sep, xs + ys)
  {
    PrefixedConcat(sep, xs, ys);
    AppendAssoc(head, Prefixed(sep, xs), Prefixed(sep, ys));
  }

  lemma ConcatAssoc(x: string, a: string, sep: string, j: string)
    ensures x + (a + (sep + j)) == x + a + sep + j
  {
  }



  /** The characters of `s` other than `c`, in order. */
  function Omit(s: string, c: char): (r: string)
    ensures forall x :: x in r <==> x in s && x != c
  {
    if s == [] then [] else (if s[0] == c then [] else [s[0]]) + Omit(s[1..], c)
  }

  /** `s.replace(c, "")` deletes every `c`. */
  lemma {:induction false} DeleteChar(s: string, c: char)
    ensures ReplaceAll(s, [c], "") == Omit(s, c)
  {
    if s != [] {
      DeleteChar(s[1..], c);
      assert s[..1] == [s[0]];
    }
  }

  /** Deleting a character that does not occur changes nothing. */
  lemma {:induction false} OmitAbsent(s: string, c: char)
    requires c !in s
    ensures Omit(s, c) == s
  {
    if s != [] {
      OmitAbsent(s[1..], c);
      assert [s[0]] + s[1..] == s;
    }
  }
}

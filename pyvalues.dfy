/** The Python values that flow through the modelled code: parameters, directive values,
    grid-search values, and OmegaConf configuration trees, where `Dict` is a `DictConfig`
    (its entries in order) and `List` a `ListConfig`. */
module PyValues {
  import opened Wrappers
  import opened PyStrings

  datatype Value =
    | None
    | Bool(b: bool)
    | Int(i: int)
    | Str(s: string)
    | List(items: seq<Value>)
    | Dict(entries: seq<(string, Value)>)

  /** Python's `str(v)`, which is also what `f"{v}"` and `str.format` insert. */
  function PyStr(v: Value): string
    decreases v, 1
  {
    match v
    case Str(s) => s
    case _ => PyRepr(v)
  }

  /** Python's `repr(v)`: how a value is written inside a container. */
  function PyRepr(v: Value): string
    decreases v, 0
  {
    match v
    case None => "None"
    case Bool(b) => if b then "True" else "False"
    case Int(i) => IntToString(i)
    case Str(s) => ReprString(s)
    case List(items) =>
      "[" + Join(", ", seq(|items|, k requires 0 <= k < |items| => PyRepr(items[k]))) + "]"
    case Dict(entries) =>
      "{" + Join(", ", seq(|entries|, k requires 0 <= k < |entries| =>
                   ReprString(entries[k].0) + ": " + PyRepr(entries[k].1))) + "}"
  }

  /** Python's `a == b`: `True` and `False` equal the integers 1 and 0, lists are equal
      element by element, and dictionaries are equal when they have the same keys with equal
      values, whatever the order of their entries; values of different kinds are unequal. */
  function PyEq(a: Value, b: Value): bool
    decreases a
  {
    match a
    case None => b.None?
    case Bool(x) => (b.Bool? || b.Int?) && Numeric(a) == Numeric(b)
    case Int(x) => (b.Bool? || b.Int?) && Numeric(a) == Numeric(b)
    case Str(x) => b.Str? && b.s == x
    case List(xs) =>
      b.List? && |xs| == |b.items|
      && forall k :: 0 <= k < |xs| ==> PyEq(xs[k], b.items[k])
    case Dict(es) =>
      b.Dict? && KeySet(es) == KeySet(b.entries)
      && forall i, j ::
           0 <= i < |es| && 0 <= j < |b.entries| && es[i].0 == b.entries[j].0
           && IsLastKey(es, i) && IsLastKey(b.entries, j)
           ==> PyEq(es[i].1, b.entries[j].1)
  }

  /** The integer a `bool` or an `int` stands for in arithmetic and comparison. */
  function Numeric(v: Value): int
    requires v.Bool? || v.Int?
  {
    if v.Bool? then (if v.b then 1 else 0) else v.i
  }

  function KeySet(es: seq<(string, Value)>): set<string> {
    set i | 0 <= i < |es| :: es[i].0
  }

  /** Entry `i` holds its key's current value: no later entry has the same key. */
  predicate IsLastKey(es: seq<(string, Value)>, i: int)
    requires 0 <= i < |es|
  {
    forall i' :: i < i' < |es| ==> es[i'].0 != es[i].0
  }

  /** Every value equals itself under Python's `==` (there is no float, so no NaN). */
  lemma {:induction false} PyEqReflexive(v: Value)
    ensures PyEq(v, v)
  {
    match v
    case List(xs) =>
      forall k | 0 <= k < |xs| ensures PyEq(xs[k], xs[k]) {
        PyEqReflexive(xs[k]);
      }
    case Dict(es) =>
      forall i, j | 0 <= i < |es| && 0 <= j < |es| && es[i].0 == es[j].0 && IsLastKey(es, i) && IsLastKey(es, j)
        ensures PyEq(es[i].1, es[j].1)
      {
        assert i == j;
        PyEqReflexive(es[i].1);
      }
    case _ =>
  }

  /** Python's `==` is symmetric on these values. */
  lemma {:induction false} PyEqSymmetric(a: Value, b: Value)
    ensures PyEq(a, b) == PyEq(b, a)
    decreases a
  {
    match a
    case List(xs) =>
      if b.List? && |xs| == |b.items| {
        forall k | 0 <= k < |xs| ensures PyEq(xs[k], b.items[k]) == PyEq(b.items[k], xs[k]) {
          PyEqSymmetric(xs[k], b.items[k]);
        }
      }
    case Dict(es) =>
      if b.Dict? {
        var fs := b.entries;
        forall i, j | 0 <= i < |es| && 0 <= j < |fs|
          ensures PyEq(es[i].1, fs[j].1) == PyEq(fs[j].1, es[i].1)
        {
          PyEqSymmetric(es[i].1, fs[j].1);
        }
      }
    case _ =>
  }

  /** `True == 1` and `False == 0`, but not `True == 2`. */
  lemma BoolEqualsInt()
    ensures PyEq(Int(1), Bool(true)) && PyEq(Bool(true), Int(1))
    ensures PyEq(Int(0), Bool(false)) && !PyEq(Int(2), Bool(true))
    ensures !PyEq(Str("1"), Int(1)) && !PyEq(Value.None, Bool(false))
  {
  }

  /** Two dictionaries with the same entries in another order are equal. */
  lemma DictOrderIgnored(k1: string, k2: string, v1: Value, v2: Value)
    requires k1 != k2
    ensures PyEq(Dict([(k1, v1), (k2, v2)]), Dict([(k2, v2), (k1, v1)]))
  {
    PyEqReflexive(v1);
    PyEqReflexive(v2);
    var a := [(k1, v1), (k2, v2)];
    var b := [(k2, v2), (k1, v1)];
    assert KeySet(a) == {k1, k2} == KeySet(b) by {
      assert a[0].0 == k1 && a[1].0 == k2 && b[0].0 == k2 && b[1].0 == k1;
    }
  }

  /** Python's `s[i]` on a list: a negative index counts from the end; out of range is an
      `IndexError`. */
  function Index<T>(s: seq<T>, i: int): (r: Result<T>)
    ensures r.Ok? <==> -|s| <= i < |s|
    ensures 0 <= i < |s| ==> r == Ok(s[i])
    ensures -|s| <= i < 0 ==> r == Ok(s[|s| + i])
  {
    if 0 <= i < |s| then Ok(s[i])
    else if -|s| <= i < 0 then Ok(s[|s| + i])
    else Err(IndexError)
  }
}

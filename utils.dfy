/** auto_sbatch/utils.py: `get_dotlist_params`, which flattens an OmegaConf configuration
    tree into a dictionary from dotted keys (`model.lr`) to the values at its leaves. The
    same traversal is the one `walk_dict` of auto_sbatch.py performs. */
module Dotlists {
  import opened Wrappers
  import opened PyStrings
  import opened OrderedDicts
  import opened PyValues

  const ListRootMessage: string := "ListConfig not supported as first container."

  /** The optional filter `cond`: `None`, or a callable on the dotted key and the value. */
  type Filter = Option<(string, Value) -> bool>

  /** Whether a leaf is recorded: `cond is None or cond(key, value)`. */
  predicate Keeps(cond: Filter, key: string, v: Value) {
    cond.None? || cond.value(key, v)
  }

  /** The dotted key of `key` below the path `prefix`: `".".join(prefix + [key])`. */
  function DottedKey(prefix: seq<string>, key: string): string {
    Join(".", prefix + [key])
  }

  // ---------------------------------------------------------------------------
  // The traversal, as a specification

  /** The leaves of a `DictConfig` node below the path `prefix`, in traversal order: the
      entries in order, a nested node replaced by its own leaves, every other entry kept
      under its dotted key when the filter admits it. Repeated keys stay in the list;
      assigning the list into a dict makes the later pair win. */
  function Leaves(node: Value, prefix: seq<string>, cond: Filter): seq<(string, Value)>
    requires node.Dict?
    decreases node, 1
  {
    LeavesUpTo(node, |node.entries|, prefix, cond)
  }

  /** The leaves of the first `n` entries. */
  function LeavesUpTo(node: Value, n: nat, prefix: seq<string>, cond: Filter): seq<(string, Value)>
    requires node.Dict? && n <= |node.entries|
    decreases node, 0, n
  {
    if n == 0 then [] else LeavesUpTo(node, n - 1, prefix, cond) + EntryLeaves(node, n - 1, prefix, cond)
  }

  /** The leaves contributed by entry `i`. */
  function EntryLeaves(node: Value, i: nat, prefix: seq<string>, cond: Filter): seq<(string, Value)>
    requires node.Dict? && i < |node.entries|
    decreases node, 0, i
  {
    var (key, v) := node.entries[i];
    if v.Dict? then Leaves(v, prefix + [key], cond)
    else if Keeps(cond, DottedKey(prefix, key), v) then [(DottedKey(prefix, key), v)]
    else []
  }

  // ---------------------------------------------------------------------------
  // Properties of the traversal

  /** A leaf comes from exactly one place: an entry that is not a node and that the filter
      admits, recorded under its dotted key, or a leaf of a nested node. */
  lemma {:induction false} LeavesUpToMembers(node: Value, n: nat, prefix: seq<string>, cond: Filter, x: (string, Value))
    requires node.Dict? && n <= |node.entries|
    ensures x in LeavesUpTo(node, n, prefix, cond) <==>
      exists i :: 0 <= i < n && x in EntryLeaves(node, i, prefix, cond)
  {
    if n > 0 {
      LeavesUpToMembers(node, n - 1, prefix, cond, x);
      var init, last := LeavesUpTo(node, n - 1, prefix, cond), EntryLeaves(node, n - 1, prefix, cond);
      assert LeavesUpTo(node, n, prefix, cond) == init + last;
      if x in last {
        assert x in init + last;
        assert x in LeavesUpTo(node, n, prefix, cond);
        assert exists i :: 0 <= i < n && x in EntryLeaves(node, i, prefix, cond) by {
          assert 0 <= n - 1 < n && x in EntryLeaves(node, n - 1, prefix, cond);
        }
      }
    }
  }

  /** Entry `i`'s contribution: a nested node gives its leaves below `prefix + [key]`; a
      leaf admitted by the filter gives itself under its dotted key; anything else nothing. */
  lemma EntryLeavesMeaning(node: Value, i: nat, prefix: seq<string>, cond: Filter, x: (string, Value))
    requires node.Dict? && i < |node.entries|
    ensures node.entries[i].1.Dict? ==>
      (x in EntryLeaves(node, i, prefix, cond) <==> x in Leaves(node.entries[i].1, prefix + [node.entries[i].0], cond))
    ensures !node.entries[i].1.Dict? ==>
      (x in EntryLeaves(node, i, prefix, cond) <==>
        x == (DottedKey(prefix, node.entries[i].0), node.entries[i].1) && Keeps(cond, x.0, x.1))
  {
  }

  /** Every recorded value is a leaf, never a node, and the filter admits it under its
      dotted key. */
  lemma {:induction false} LeavesAreAdmitted(node: Value, n: nat, prefix: seq<string>, cond: Filter)
    requires node.Dict? && n <= |node.entries|
    ensures forall x :: x in LeavesUpTo(node, n, prefix, cond) ==> !x.1.Dict? && Keeps(cond, x.0, x.1)
    decreases node, n
  {
    if n > 0 {
      LeavesAreAdmitted(node, n - 1, prefix, cond);
      var (key, v) := node.entries[n - 1];
      assert LeavesUpTo(node, n, prefix, cond) ==
        LeavesUpTo(node, n - 1, prefix, cond) + EntryLeaves(node, n - 1, prefix, cond);
      if v.Dict? {
        LeavesAreAdmitted(v, |v.entries|, prefix + [key], cond);
        assert EntryLeaves(node, n - 1, prefix, cond) == LeavesUpTo(v, |v.entries|, prefix + [key], cond);
      }
    }
  }

  /** The traversal keeps the order of the entries: the leaves of the first `n` entries
      come first. */
  lemma {:induction false} LeavesInOrder(node: Value, n: nat, m: nat, prefix: seq<string>, cond: Filter)
    requires node.Dict? && n <= m <= |node.entries|
    ensures LeavesUpTo(node, n, prefix, cond) <= LeavesUpTo(node, m, prefix, cond)
    decreases m - n
  {
    if n < m {
      LeavesInOrder(node, n, m - 1, prefix, cond);
    }
  }

  /** A node without nested nodes and without a filter, at the top, is its own list of
      leaves: flattening an already flat dictionary changes nothing. */
  lemma {:induction false} FlatLeaves(node: Value, n: nat)
    requires node.Dict? && n <= |node.entries|
    requires forall i :: 0 <= i < |node.entries| ==> !node.entries[i].1.Dict?
    ensures LeavesUpTo(node, n, [], Option.None) == node.entries[..n]
  {
    if n > 0 {
      FlatLeaves(node, n - 1);
      var key := node.entries[n - 1].0;
      assert [] + [key] == [key];
      assert DottedKey([], key) == key;
      assert node.entries[..n] == node.entries[..n - 1] + [node.entries[n - 1]];
    }
  }

  /** A node holding one leaf that the filter admits. */
  lemma SingleLeaf(key: string, v: Value, prefix: seq<string>)
    requires !v.Dict?
    ensures Leaves(Dict([(key, v)]), prefix, Option.None) == [(DottedKey(prefix, key), v)]
  {
    var node := Dict([(key, v)]);
    var leaf := [(DottedKey(prefix, key), v)];
    assert EntryLeaves(node, 0, prefix, Option.None) == leaf;
    assert LeavesUpTo(node, 1, prefix, Option.None) == LeavesUpTo(node, 0, prefix, Option.None) + leaf;
    assert [] + leaf == leaf;
  }

  /** The dotted key of `b` below `a`. */
  lemma DottedTwo(a: string, b: string)
    ensures DottedKey([a], b) == a + "." + b
  {
    assert [a] + [b] == [a, b];
    PrefixedSingle(".", b);
    assert [a, b][1..] == [b];
  }

  /** A key nested one level down is joined to its parent's with a dot. */
  lemma NestedLeaf(a: string, b: string, v: Value)
    requires !v.Dict?
    ensures Leaves(Dict([(a, Dict([(b, v)]))]), [], Option.None) == [(a + "." + b, v)]
  {
    var inner := Dict([(b, v)]);
    var outer := Dict([(a, inner)]);
    var leaf := [(a + "." + b, v)];
    assert [] + [a] == [a];
    SingleLeaf(b, v, [a]);
    DottedTwo(a, b);
    assert EntryLeaves(outer, 0, [], Option.None) == leaf;
    assert LeavesUpTo(outer, 1, [], Option.None) == LeavesUpTo(outer, 0, [], Option.None) + leaf;
    assert [] + leaf == leaf;
  }

  /** A flat key that looks dotted and a nested key meet under one dotted key; the later
      entry's value is the one kept. */
  lemma CollidingKeys(a: string, b: string, x: Value, y: Value)
    requires !x.Dict? && !y.Dict?
    ensures FromItems(Leaves(Dict([(a + "." + b, x), (a, Dict([(b, y)]))]), [], Option.None)) ==
      DictRep([a + "." + b], map[a + "." + b := y])
  {
    var ab := a + "." + b;
    CollidingLeaves(a, b, x, y);
    var e := Empty<Value>();
    assert [(ab, x), (ab, y)][..1] == [(ab, x)];
    assert [(ab, x)][..0] == [];
    assert PutAll(e, [(ab, x)]) == DictRep([ab], map[ab := x]);
  }

  lemma CollidingLeaves(a: string, b: string, x: Value, y: Value)
    requires !x.Dict? && !y.Dict?
    ensures Leaves(Dict([(a + "." + b, x), (a, Dict([(b, y)]))]), [], Option.None) == [(a + "." + b, x), (a + "." + b, y)]
  {
    var ab := a + "." + b;
    var inner := Dict([(b, y)]);
    var node := Dict([(ab, x), (a, inner)]);
    assert [] + [ab] == [ab];
    assert [] + [a] == [a];
    assert DottedKey([], ab) == ab;
    assert EntryLeaves(node, 0, [], Option.None) == [(ab, x)];
    SingleLeaf(b, y, [a]);
    DottedTwo(a, b);
    assert EntryLeaves(node, 1, [], Option.None) == [(ab, y)];
    assert LeavesUpTo(node, 1, [], Option.None) == LeavesUpTo(node, 0, [], Option.None) + [(ab, x)];
    assert [] + [(ab, x)] == [(ab, x)];
    assert [(ab, x)] + [(ab, y)] == [(ab, x), (ab, y)];
  }

  // ---------------------------------------------------------------------------
  // get_dotlist_params

  /** The nested `gather`: for each entry, a `DictConfig` is gathered in turn, every other
      value the filter admits is assigned to `dotlist` under its full key. The result is the
      dictionary after all these assignments. */
  method Gather(node: Value, prefix: seq<string>, cond: Filter, dotlist: PyDict<Value>) returns (r: PyDict<Value>)
    requires node.Dict?
    ensures r == PutAll(dotlist, Leaves(node, prefix, cond))
    decreases node, 1
  {
    r := dotlist;
    for i := 0 to |node.entries|
      invariant r == PutAll(dotlist, LeavesUpTo(node, i, prefix, cond))
    {
      r := GatherEntry(node, i, prefix, cond, dotlist, r);
    }
  }

  /** The body of the loop of `gather` for the entry at `i`. */
  method GatherEntry(node: Value, i: nat, prefix: seq<string>, cond: Filter, dotlist: PyDict<Value>, d: PyDict<Value>)
    returns (r: PyDict<Value>)
    requires node.Dict? && i < |node.entries|
    requires d == PutAll(dotlist, LeavesUpTo(node, i, prefix, cond))
    ensures r == PutAll(dotlist, LeavesUpTo(node, i + 1, prefix, cond))
    decreases node, 0
  {
    var (key, v) := node.entries[i];
    var dotlistKey := DottedKey(prefix, key);
    GatherStep(dotlist, node, i, prefix, cond);
    if v.Dict? {
      r := Gather(v, prefix + [key], cond, d);
    } else if cond.None? || cond.value(dotlistKey, v) {
      r := Put(d, dotlistKey, v);
    } else {
      r := d;
    }
  }

  /** One more entry: a nested node assigns its own leaves, a leaf the filter admits is
      assigned, anything else changes nothing. */
  lemma GatherStep(dotlist: PyDict<Value>, node: Value, i: nat, prefix: seq<string>, cond: Filter)
    requires node.Dict? && i < |node.entries|
    ensures var (key, v) := node.entries[i];
      var d := PutAll(dotlist, LeavesUpTo(node, i, prefix, cond));
      PutAll(dotlist, LeavesUpTo(node, i + 1, prefix, cond)) ==
        if v.Dict? then PutAll(d, Leaves(v, prefix + [key], cond))
        else if Keeps(cond, DottedKey(prefix, key), v) then Put(d, DottedKey(prefix, key), v)
        else d
  {
    var init, last := LeavesUpTo(node, i, prefix, cond), EntryLeaves(node, i, prefix, cond);
    PutAllConcat(dotlist, init, last);
    if !node.entries[i].1.Dict? && Keeps(cond, DottedKey(prefix, node.entries[i].0), node.entries[i].1) {
      assert last[..0] == [];
    }
  }

  /** `get_dotlist_params(cfg, cond)`: a `ListConfig` at the top raises `ValueError`; a
      `DictConfig` gives the dictionary of its admitted leaves under their dotted keys. A
      string has no `_get_full_key` unless it is empty, and the other scalars cannot be
      iterated. */
  method GetDotlistParams(cfg: Value, cond: Filter) returns (r: Result<PyDict<Value>>)
    ensures cfg.List? ==> r == Err(ValueError(ListRootMessage))
    ensures cfg.Dict? ==> r == Ok(FromItems(Leaves(cfg, [], cond)))
    ensures r.Ok? <==> cfg.Dict? || cfg == Str("")
  {
    if cfg.List? {
      return Err(ValueError(ListRootMessage));
    }
    match cfg
    case Dict(_) =>
      var dotlist := Gather(cfg, [], cond, Empty());
      r := Ok(dotlist);
    case Str(s) =>
      r := if s == "" then Ok(Empty()) else Err(AttributeError);
    case _ =>
      r := Err(TypeError);
  }
}

// The locale dictionaries as the scripts change them: nested objects updated
// in place, proved equal to the functions in Locale.dfy.
module LocaleFiles {
  import opened Wrappers
  import opened Locale

  datatype Value = Str(text: string) | Misc | Child(node: Node)

  // The dictionary with these keys and values, in order.
  function DictOf(keys: seq<string>, trees: seq<Tree>): Dict
    requires |keys| == |trees|
  {
    if keys == [] then Nil else Entry(keys[0], trees[0], DictOf(keys[1..], trees[1..]))
  }

  // The first place of a key, or the number of keys.
  ghost predicate Finds(keys: seq<string>, k: string, i: nat) {
    i <= |keys| && (i < |keys| ==> keys[i] == k) && forall j :: 0 <= j < i ==> keys[j] != k
  }

  lemma {:induction false} GetIs(keys: seq<string>, trees: seq<Tree>, k: string, i: nat)
    requires |keys| == |trees| && Finds(keys, k, i)
    ensures Get(DictOf(keys, trees), k) == if i < |keys| then Some(trees[i]) else None
  {
    if keys != [] && keys[0] != k {
      GetIs(keys[1..], trees[1..], k, i - 1);
    }
  }

  // Assignment in place or at the end is Put.
  lemma {:induction false} PutIs(keys: seq<string>, trees: seq<Tree>, k: string, i: nat, v: Tree)
    requires |keys| == |trees| && Finds(keys, k, i)
    ensures Put(DictOf(keys, trees), k, v) ==
      if i < |keys| then DictOf(keys, trees[i := v]) else DictOf(keys + [k], trees + [v])
  {
    if keys == [] {
      assert (keys + [k])[1..] == [] && (trees + [v])[1..] == [];
    } else if keys[0] != k {
      PutIs(keys[1..], trees[1..], k, i - 1, v);
      if i < |keys| {
        assert trees[i := v][1..] == trees[1..][i - 1 := v];
      } else {
        assert (keys + [k])[1..] == keys[1..] + [k] && (trees + [v])[1..] == trees[1..] + [v];
      }
    } else {
      assert trees[0 := v][1..] == trees[1..];
    }
  }

  ghost predicate Disjoint(values: seq<Value>)
    reads set i | 0 <= i < |values| && values[i].Child? :: values[i].node
  {
    forall i, j :: 0 <= i < |values| && 0 <= j < |values| && i != j ==> Apart(values[i], values[j])
  }

  // A value whose nodes are among these stands for the tree t.
  ghost predicate Holds(nodes: set<Node>, v: Value, t: Tree)
    reads nodes
    decreases nodes, 1
  {
    match v
    case Str(s) => t == Text(s)
    case Misc => t == Other
    case Child(c) => c in nodes && c.repr <= nodes && c.Valid() && c in c.repr && |c.keys| == |c.trees| && t == Sub(c.View())
  }

  ghost predicate Apart(v: Value, w: Value)
    reads (if v.Child? then {v.node} else {}), (if w.Child? then {w.node} else {})
  {
    v.Child? && w.Child? ==> v.node.repr !! w.node.repr
  }

  lemma Wider(nodes: set<Node>, more: set<Node>, v: Value, t: Tree)
    requires Holds(nodes, v, t)
    ensures Holds(nodes + more, v, t) && (v.Child? ==> v.node in nodes)
  {
  }

  lemma WithinHolds(nodes: set<Node>, more: set<Node>, v: Value, t: Tree, w: Value, u: Tree)
    requires Holds(nodes, v, t) && Holds(more, w, u) && nodes !! more
    ensures Apart(w, v) && Apart(v, w)
  {
  }

  // The flattened form of the entries from i on.
  ghost function FlatFrom(keys: seq<string>, trees: seq<Tree>, i: nat, prefix: string): seq<(string, string)>
    requires i <= |keys| == |trees|
  {
    Flatten(DictOf(keys[i..], trees[i..]), prefix)
  }

  function FlatOne(key: string, tree: Tree, prefix: string): seq<(string, string)> {
    match tree
    case Sub(sub) => Flatten(sub, Dotted(prefix, key))
    case Text(t) => [(Dotted(prefix, key), t)]
    case Other => []
  }

  lemma FlattenNext(keys: seq<string>, trees: seq<Tree>, i: nat, prefix: string)
    requires i < |keys| == |trees|
    ensures FlatFrom(keys, trees, i, prefix) == FlatOne(keys[i], trees[i], prefix) + FlatFrom(keys, trees, i + 1, prefix)
    ensures forall out: seq<(string, string)> ::
      out + FlatFrom(keys, trees, i, prefix) == (out + FlatOne(keys[i], trees[i], prefix)) + FlatFrom(keys, trees, i + 1, prefix)
  {
    assert keys[i..][1..] == keys[i + 1..] && trees[i..][1..] == trees[i + 1..];
  }

  class Node {
    var keys: seq<string>
    var values: seq<Value>
    ghost var trees: seq<Tree>
    ghost var repr: set<Node>

    ghost function View(): Dict
      requires |keys| == |trees|
      reads this
    {
      DictOf(keys, trees)
    }

    // A tree of nodes: children own disjoint sets of the nodes below.
    ghost predicate Valid()
      reads this, repr
      decreases repr, 0
    {
      && this in repr && |keys| == |values| == |trees|
      && (forall i :: 0 <= i < |values| ==> Holds(repr - {this}, values[i], trees[i]))
      && Disjoint(values)
    }

    constructor ()
      ensures Valid() && View() == Nil && repr == {this}
    {
      keys, values, trees, repr := [], [], [], {this};
    }

    method Find(k: string) returns (i: nat)
      ensures Finds(keys, k, i)
    {
      i := 0;
      while i < |keys| && keys[i] != k
        invariant i <= |keys| && forall j :: 0 <= j < i ==> keys[j] != k
      {
        i := i + 1;
      }
    }

    // The key keeps its place, or comes last.
    method Place(k: string, v: Value, ghost t: Tree) returns (i: nat)
      requires |keys| == |values| == |trees|
      modifies this`keys, this`values, this`trees
      ensures |keys| == |values| == |trees| && i < |keys| && Finds(keys, k, i)
      ensures values[i] == v && trees[i] == t && |old(values)| <= |values|
      ensures forall j :: 0 <= j < |values| && j != i ==> j < |old(values)| && values[j] == old(values[j]) && trees[j] == old(trees[j])
      ensures View() == Put(old(View()), k, t)
    {
      i := Find(k);
      PutIs(keys, trees, k, i, t);
      if i < |keys| {
        values, trees := values[i := v], trees[i := t];
      } else {
        keys, values, trees := keys + [k], values + [v], trees + [t];
      }
    }

    // node[k] = v
    method Assign(k: string, v: Value, ghost t: Tree, ghost more: set<Node>) returns (i: nat)
      requires Valid() && Holds(more, v, t) && more !! repr
      modifies this
      ensures Valid() && repr == old(repr) + more
      ensures i < |keys| && Finds(keys, k, i) && values[i] == v
      ensures View() == Put(old(View()), k, t)
    {
      hide Holds, Apart, DictOf, Finds;
      ghost var nodes := repr - {this} + more;
      forall j | 0 <= j < |values|
        ensures Holds(nodes, values[j], trees[j]) && Apart(v, values[j]) && Apart(values[j], v)
        ensures values[j].Child? ==> values[j].node != this
      {
        Wider(repr - {this}, more, values[j], trees[j]);
        WithinHolds(repr - {this}, more, values[j], trees[j], v, t);
      }
      Wider(more, repr - {this}, v, t);
      assert more + (repr - {this}) == nodes && (repr + more) - {this} == nodes;
      i := Place(k, v, t);
      repr := repr + more;
    }

    // A child changed: so did the dictionary at its key.
    ghost method Changed(k: string, i: nat, c: Node)
      requires this in repr && |keys| == |values| == |trees|
      requires i < |values| && values[i] == Child(c) && Finds(keys, k, i)
      requires c.Valid() && this !in c.repr
      requires forall j :: 0 <= j < |values| && j != i ==> Holds(repr - {this}, values[j], trees[j])
      requires Disjoint(values)
      modifies this`trees, this`repr
      ensures Valid() && repr == old(repr) + c.repr && View() == Put(old(View()), k, Sub(c.View()))
    {
      PutIs(keys, trees, k, i, Sub(c.View()));
      trees := trees[i := Sub(c.View())];
      repr := repr + c.repr;
    }

    // `set_at`: go down the path, replacing what is no dictionary.
    method SetAt(path: seq<string>, text: string)
      requires Valid() && path != []
      modifies repr
      ensures Valid() && fresh(repr - old(repr))
      ensures View() == Locale.SetAt(old(View()), path, text)
      decreases |path|, 0
    {
      var k := path[0];
      var i;
      if |path| == 1 {
        i := Assign(k, Str(text), Text(text), {});
        return;
      }
      i := Find(k);
      GetIs(keys, trees, k, i);
      var c: Node;
      if i < |keys| && values[i].Child? {
        c := values[i].node;
        assert Holds(repr - {this}, values[i], trees[i]);
      } else {
        c := new Node();
        i := Assign(k, Child(c), Sub(Nil), {c});
        PutTwice(old(View()), k, Sub(Nil), Sub(Locale.SetAt(Nil, path[1..], text)));
      }
      SetBelow(k, i, c, path[1..], text);
    }

    method SetBelow(k: string, i: nat, c: Node, path: seq<string>, text: string)
      requires Valid() && path != [] && i < |keys| && Finds(keys, k, i) && values[i] == Child(c) && Holds(repr - {this}, Child(c), trees[i])
      modifies repr
      ensures Valid() && fresh(repr - old(repr))
      ensures View() == Put(old(View()), k, Sub(Locale.SetAt(old(c.View()), path, text)))
      decreases |path|, 1
    {
      forall j | 0 <= j < |values| && j != i && values[j].Child?
        ensures values[j].node.repr !! c.repr && values[j].node in values[j].node.repr
      {
        assert Holds(repr - {this}, values[j], trees[j]);
        assert Apart(values[j], values[i]);
      }
      label Before:
      c.SetAt(path, text);
      forall j | 0 <= j < |values| && j != i
        ensures Holds(repr - {this}, values[j], trees[j])
      {
        assert old@Before(Holds(repr - {this}, values[j], trees[j]));
      }
      Changed(k, i, c);
    }

    // `flatten`
    method Flat(prefix: string) returns (out: seq<(string, string)>)
      requires Valid()
      ensures out == Flatten(View(), prefix)
      decreases repr, 1
    {
      assert |keys| == |trees| && keys[0..] == keys && trees[0..] == trees;
      ghost var all := Flatten(View(), prefix);
      assert FlatFrom(keys, trees, 0, prefix) == all && FlatFrom(keys, trees, |keys|, prefix) == [];
      hide *;
      out := [];
      var i := 0;
      while i < |keys|
        invariant i <= |keys| && out + FlatFrom(keys, trees, i, prefix) == all
      {
        FlattenNext(keys, trees, i, prefix);
        var part := FlatEntry(i, prefix);
        out := out + part;
        i := i + 1;
      }
    }

    method FlatEntry(i: nat, prefix: string) returns (part: seq<(string, string)>)
      requires Valid() && i < |keys|
      ensures part == FlatOne(keys[i], trees[i], prefix)
      decreases repr, 0
    {
      assert Holds(repr - {this}, values[i], trees[i]);
      match values[i]
      case Str(s) =>
        part := [(Dotted(prefix, keys[i]), s)];
      case Misc =>
        part := [];
      case Child(c) =>
        part := c.Flat(Dotted(prefix, keys[i]));
    }

    // One key of `unflatten`: a string on the way is an error.
    method Insert(path: seq<string>, text: string) returns (ok: bool)
      requires Valid() && path != []
      modifies repr
      ensures Valid() && fresh(repr - old(repr))
      ensures ok <==> Locale.Insert(old(View()), path, text).Some?
      ensures ok ==> View() == Locale.Insert(old(View()), path, text).value
      decreases |path|, 0
    {
      var k := path[0];
      var i;
      if |path| == 1 {
        i := Assign(k, Str(text), Text(text), {});
        return true;
      }
      i := Find(k);
      GetIs(keys, trees, k, i);
      var c: Node;
      if i < |keys| {
        assert Holds(repr - {this}, values[i], trees[i]);
        if !values[i].Child? {
          return false;
        }
        c := values[i].node;
      } else {
        c := new Node();
        i := Assign(k, Child(c), Sub(Nil), {c});
        var r := Locale.Insert(Nil, path[1..], text);
        if r.Some? {
          PutTwice(old(View()), k, Sub(Nil), Sub(r.value));
        }
      }
      ok := InsertBelow(k, i, c, path[1..], text);
    }

    method InsertBelow(k: string, i: nat, c: Node, path: seq<string>, text: string) returns (ok: bool)
      requires Valid() && path != [] && i < |keys| && Finds(keys, k, i) && values[i] == Child(c) && Holds(repr - {this}, Child(c), trees[i])
      modifies repr
      ensures Valid() && fresh(repr - old(repr))
      ensures ok <==> Locale.Insert(old(c.View()), path, text).Some?
      ensures ok ==> View() == Put(old(View()), k, Sub(Locale.Insert(old(c.View()), path, text).value))
      decreases |path|, 1
    {
      forall j | 0 <= j < |values| && j != i && values[j].Child?
        ensures values[j].node.repr !! c.repr && values[j].node in values[j].node.repr
      {
        assert Holds(repr - {this}, values[j], trees[j]);
        assert Apart(values[j], values[i]);
      }
      label Before:
      ok := c.Insert(path, text);
      forall j | 0 <= j < |values| && j != i
        ensures Holds(repr - {this}, values[j], trees[j])
      {
        assert old@Before(Holds(repr - {this}, values[j], trees[j]));
      }
      Changed(k, i, c);
    }
  }

  // `unflatten`
  method Unflatten(pairs: seq<(string, string)>) returns (root: Node, ok: bool)
    ensures root.Valid()
    ensures ok <==> Build(Nil, Parsed(pairs)).Some?
    ensures ok ==> root.View() == Build(Nil, Parsed(pairs)).value
  {
    root := new Node();
    ghost var leaves := Parsed(pairs);
    var i := 0;
    while i < |pairs|
      invariant i <= |pairs| && root.Valid() && fresh(root.repr)
      invariant Build(root.View(), leaves[i..]) == Build(Nil, leaves)
    {
      assert leaves[i..][0] == leaves[i] && leaves[i..][1..] == leaves[i + 1..];
      ok := root.Insert(Split(pairs[i].0), pairs[i].1);
      if !ok {
        return;
      }
      i := i + 1;
    }
    ok := true;
  }

  // `translate_locale`: find the missing keys, then set each to its answer.
  method Update(en: Dict, existing: Node, invalid: set<string>, answer: (string, string) -> string)
      returns (missing: seq<(string, string)>)
    requires WellKeyed(en) && existing.Valid() && WellKeyed(existing.View())
    modifies existing.repr
    ensures existing.Valid() && WellKeyed(existing.View())
    ensures forall s, t :: (s, t) in missing <==> TextAt(en, s) == Some(t) && !Present(old(existing.View()), invalid, s)
    // Every English key keeps its string if it has one, else gets the answer.
    ensures forall s :: TextAt(en, s).Some? ==>
      TextAt(existing.View(), s) ==
        if Present(old(existing.View()), invalid, s) then TextAt(old(existing.View()), s)
        else Some(answer(s, TextAt(en, s).value))
    // So a second run with nothing invalidated finds nothing missing.
    ensures forall s :: TextAt(en, s).Some? ==> Present(existing.View(), {}, s)
    // What lies neither above nor below a missing key is left alone.
    ensures forall q :: Untouched(missing, q) ==> Lookup(existing.View(), q) == Lookup(old(existing.View()), q)
    ensures missing == [] ==> existing.View() == old(existing.View())
  {
    hide Lookup, Split, Locale.SetAt, Flatten, WellKeyed, Untouched;
    ghost var was := existing.View();
    var flat := existing.Flat("");
    missing := Missing(en, was, flat, invalid);
    var i := 0;
    while i < |missing|
      invariant i <= |missing| && existing.Valid() && fresh(existing.repr - old(existing.repr))
      invariant Patched(was, answer, missing[..i], existing.View())
    {
      forall j | 0 <= j <= i ensures TextAt(en, missing[j].0) == Some(missing[j].1) {
        assert (missing[j].0, missing[j].1) in missing;
      }
      PatchOne(en, was, answer, missing[..i], existing.View(), missing[i].0, missing[i].1);
      assert missing[..i + 1] == missing[..i] + [(missing[i].0, missing[i].1)];
      existing.SetAt(Split(missing[i].0), answer(missing[i].0, missing[i].1));
      i := i + 1;
    }
    assert missing[..i] == missing;
    forall s | TextAt(en, s).Some?
      ensures TextAt(existing.View(), s) ==
        if Present(was, invalid, s) then TextAt(was, s) else Some(answer(s, TextAt(en, s).value))
    {
      PatchedKey(en, was, invalid, answer, missing, existing.View(), s);
    }
  }
}

// The locale files: nested dictionaries of strings, flattened to dotted keys
// for translation and rebuilt from them, or patched key by key.
module Locale {
  import opened Wrappers

  datatype Tree = Text(text: string) | Other | Sub(dict: Dict)
  // A dictionary in insertion order.
  datatype Dict = Nil | Entry(key: string, value: Tree, rest: Dict)

  function Keys(d: Dict): set<string> {
    if d.Nil? then {} else {d.key} + Keys(d.rest)
  }

  function Get(d: Dict, k: string): (r: Option<Tree>)
    ensures r.Some? <==> k in Keys(d)
  {
    if d.Nil? then None else if d.key == k then Some(d.value) else Get(d.rest, k)
  }

  // Assignment keeps the place of a key that is there and appends one that is not.
  function Put(d: Dict, k: string, v: Tree): (r: Dict)
    ensures Keys(r) == Keys(d) + {k}
  {
    match d
    case Nil => Entry(k, v, Nil)
    case Entry(k', v', rest) => if k' == k then Entry(k, v, rest) else Entry(k', v', Put(rest, k, v))
  }

  function Append(a: Dict, b: Dict): Dict {
    if a.Nil? then b else Entry(a.key, a.value, Append(a.rest, b))
  }

  // Keys are distinct, not empty and hold no dot, at every depth.
  ghost predicate WellKeyed(d: Dict) {
    d.Entry? ==>
      && d.key != "" && '.' !in d.key && d.key !in Keys(d.rest)
      && (d.value.Sub? ==> WellKeyed(d.value.dict))
      && WellKeyed(d.rest)
  }

  // ------------------------------------------------------------ dotted keys

  function Join(path: seq<string>): string {
    if path == [] then "" else if |path| == 1 then path[0] else path[0] + "." + Join(path[1..])
  }

  function Split(s: string): (parts: seq<string>)
    ensures parts != []
  {
    if s == "" then [""]
    else if s[0] == '.' then [""] + Split(s[1..])
    else
      var parts := Split(s[1..]);
      [[s[0]] + parts[0]] + parts[1..]
  }

  ghost predicate Plain(path: seq<string>) {
    path != [] && forall i :: 0 <= i < |path| ==> '.' !in path[i]
  }

  lemma {:induction false} SplitFirst(part: string, rest: string)
    requires '.' !in part
    ensures Split(part) == [part]
    ensures Split(part + "." + rest) == [part] + Split(rest)
  {
    var s := part + "." + rest;
    if part == "" {
      assert s[1..] == rest;
    } else {
      SplitFirst(part[1..], rest);
      assert s[1..] == part[1..] + "." + rest && s[0] == part[0];
      assert [part[0]] + part[1..] == part;
    }
  }

  lemma {:induction false} SplitOfJoin(path: seq<string>)
    requires Plain(path)
    ensures Split(Join(path)) == path
  {
    SplitFirst(path[0], if |path| == 1 then "" else Join(path[1..]));
    if |path| > 1 {
      SplitOfJoin(path[1..]);
    }
  }

  lemma JoinHead(c: char, parts: seq<string>)
    requires parts != []
    ensures Join([[c] + parts[0]] + parts[1..]) == [c] + Join(parts)
  {
    var more := [[c] + parts[0]] + parts[1..];
    assert more[1..] == parts[1..];
    if |parts| > 1 {
      assert ([c] + parts[0]) + "." + Join(parts[1..]) == [c] + (parts[0] + "." + Join(parts[1..]));
    }
  }

  lemma JoinDot(parts: seq<string>)
    requires parts != []
    ensures Join([""] + parts) == "." + Join(parts)
  {
    assert ([""] + parts)[1..] == parts;
  }

  lemma {:induction false} JoinOfSplit(s: string)
    ensures Join(Split(s)) == s && Plain(Split(s))
  {
    if s == "" {
    } else {
      var parts := Split(s[1..]);
      JoinOfSplit(s[1..]);
      JoinHead(s[0], parts);
      JoinDot(parts);
      assert s == [s[0]] + s[1..];
      hide Join;
    }
  }

  // ------------------------------------------------------------ flatten

  function Dotted(prefix: string, k: string): string {
    if prefix == "" then k else prefix + "." + k
  }

  function Flatten(d: Dict, prefix: string): seq<(string, string)> {
    match d
    case Nil => []
    case Entry(k, v, rest) =>
      (match v
       case Sub(sub) => Flatten(sub, Dotted(prefix, k))
       case Text(t) => [(Dotted(prefix, k), t)]
       case Other => []) + Flatten(rest, prefix)
  }

  type Leaf = (seq<string>, string)

  function Under(k: string, leaves: seq<Leaf>): (r: seq<Leaf>)
    ensures |r| == |leaves|
    ensures forall i :: 0 <= i < |r| ==> r[i] == ([k] + leaves[i].0, leaves[i].1)
  {
    seq(|leaves|, i requires 0 <= i < |leaves| => ([k] + leaves[i].0, leaves[i].1))
  }

  // The same with paths in place of dotted keys.
  function Leaves(d: Dict): seq<Leaf> {
    match d
    case Nil => []
    case Entry(k, v, rest) =>
      (match v
       case Sub(sub) => Under(k, Leaves(sub))
       case Text(t) => [([k], t)]
       case Other => []) + Leaves(rest)
  }

  function Named(prefix: string, leaves: seq<Leaf>): (r: seq<(string, string)>)
    ensures |r| == |leaves|
    ensures forall i :: 0 <= i < |r| ==> r[i] == (Dotted(prefix, Join(leaves[i].0)), leaves[i].1)
  {
    seq(|leaves|, i requires 0 <= i < |leaves| => (Dotted(prefix, Join(leaves[i].0)), leaves[i].1))
  }

  lemma {:induction false} LeavesArePlain(d: Dict)
    requires WellKeyed(d)
    ensures forall leaf :: leaf in Leaves(d) ==> Plain(leaf.0) && leaf.0[0] in Keys(d) && forall i :: 0 <= i < |leaf.0| ==> leaf.0[i] != ""
  {
    if d.Entry? {
      LeavesArePlain(d.rest);
      if d.value.Sub? {
        LeavesArePlain(d.value.dict);
      }
    }
  }

  lemma JoinUnder(prefix: string, k: string, p: seq<string>)
    requires k != "" && p != []
    ensures Dotted(Dotted(prefix, k), Join(p)) == Dotted(prefix, Join([k] + p))
  {
    assert ([k] + p)[1..] == p;
    assert Join([k] + p) == k + "." + Join(p);
    var tail := Join(p);
    hide Join;
    assert (prefix + "." + k) + "." + tail == prefix + "." + (k + "." + tail);
  }

  lemma NamedUnder(prefix: string, k: string, sub: seq<Leaf>)
    requires k != "" && forall i :: 0 <= i < |sub| ==> sub[i].0 != []
    ensures Named(Dotted(prefix, k), sub) == Named(prefix, Under(k, sub))
  {
    hide Join, Dotted;
    forall i | 0 <= i < |sub| ensures Named(Dotted(prefix, k), sub)[i] == Named(prefix, Under(k, sub))[i] {
      JoinUnder(prefix, k, sub[i].0);
    }
  }

  lemma NamedAppend(prefix: string, a: seq<Leaf>, b: seq<Leaf>)
    ensures Named(prefix, a + b) == Named(prefix, a) + Named(prefix, b)
  {
  }

  lemma {:induction false} FlattenIsLeaves(d: Dict, prefix: string)
    requires WellKeyed(d)
    ensures Flatten(d, prefix) == Named(prefix, Leaves(d))
  {
    if d.Entry? {
      FlattenIsLeaves(d.rest, prefix);
      match d.value
      case Other =>
        assert Leaves(d) == Leaves(d.rest);
      case Text(t) =>
        NamedAppend(prefix, [([d.key], t)], Leaves(d.rest));
      case Sub(sub) =>
        FlattenIsLeaves(sub, Dotted(prefix, d.key));
        LeavesArePlain(sub);
        NamedUnder(prefix, d.key, Leaves(sub)) by {
          forall i | 0 <= i < |Leaves(sub)| ensures Leaves(sub)[i].0 != [] {
            assert Leaves(sub)[i] in Leaves(sub);
          }
        }
        NamedAppend(prefix, Under(d.key, Leaves(sub)), Leaves(d.rest));
    }
  }

  // ------------------------------------------------------------ unflatten

  // One key of `unflatten`: walk down with `setdefault`, then assign. A string
  // on the way has no `setdefault`, so it is an error.
  function Insert(d: Dict, path: seq<string>, v: string): Option<Dict>
    requires path != []
    decreases |path|
  {
    var k := path[0];
    if |path| == 1 then Some(Put(d, k, Text(v)))
    else
      match Get(d, k)
      case None => Within(d, k, Insert(Nil, path[1..], v))
      case Some(Sub(sub)) => Within(d, k, Insert(sub, path[1..], v))
      case Some(_) => None
  }

  function Within(d: Dict, k: string, sub: Option<Dict>): Option<Dict> {
    if sub.Some? then Some(Put(d, k, Sub(sub.value))) else None
  }

  function Build(d: Dict, leaves: seq<Leaf>): Option<Dict>
    requires forall i :: 0 <= i < |leaves| ==> leaves[i].0 != []
    decreases |leaves|
  {
    if leaves == [] then Some(d)
    else
      match Insert(d, leaves[0].0, leaves[0].1)
      case None => None
      case Some(d') => Build(d', leaves[1..])
  }

  function Parsed(pairs: seq<(string, string)>): (r: seq<Leaf>)
    ensures |r| == |pairs|
    ensures forall i :: 0 <= i < |r| ==> r[i] == (Split(pairs[i].0), pairs[i].1)
  {
    seq(|pairs|, i requires 0 <= i < |pairs| => (Split(pairs[i].0), pairs[i].1))
  }

  // ------------------------------------------------------------ the round trip

  // What the dotted keys can carry: no leaf that is not a string, no empty
  // dictionary below the root.
  function Prune(d: Dict): Dict {
    match d
    case Nil => Nil
    case Entry(k, v, rest) =>
      match v
      case Text(_) => Entry(k, v, Prune(rest))
      case Other => Prune(rest)
      case Sub(sub) => if Prune(sub).Nil? then Prune(rest) else Entry(k, Sub(Prune(sub)), Prune(rest))
  }

  ghost predicate Full(d: Dict) {
    d.Entry? ==> !d.value.Other? && (d.value.Sub? ==> d.value.dict.Entry? && Full(d.value.dict)) && Full(d.rest)
  }

  lemma {:induction false} PruneKeeps(d: Dict)
    ensures Full(Prune(d)) && Keys(Prune(d)) <= Keys(d)
    ensures Prune(d) == d <==> Full(d)
    ensures Prune(d).Nil? <==> Leaves(d) == []
  {
    if d.Entry? {
      PruneKeeps(d.rest);
      if d.value.Sub? {
        PruneKeeps(d.value.dict);
      }
      assert d.key in Keys(d);
    }
  }

  lemma {:induction false} PutTwice(d: Dict, k: string, v: Tree, w: Tree)
    ensures Get(Put(d, k, v), k) == Some(v)
    ensures Put(Put(d, k, v), k, w) == Put(d, k, w)
    ensures Get(d, k) == Some(v) ==> Put(d, k, v) == d
  {
    if d.Entry? {
      PutTwice(d.rest, k, v, w);
    }
  }

  lemma {:induction false} PutAtEnd(d: Dict, k: string, v: Tree, rest: Dict)
    requires k !in Keys(d)
    ensures Append(Put(d, k, v), rest) == Append(d, Entry(k, v, rest))
  {
    if d.Entry? {
      PutAtEnd(d.rest, k, v, rest);
    }
  }

  lemma {:induction false} BuildAppend(d: Dict, a: seq<Leaf>, b: seq<Leaf>)
    requires forall i :: 0 <= i < |a| ==> a[i].0 != []
    requires forall i :: 0 <= i < |b| ==> b[i].0 != []
    ensures Build(d, a + b) == if Build(d, a) == None then None else Build(Build(d, a).value, b)
    decreases |a|
  {
    if a == [] {
      assert a + b == b;
    } else {
      assert (a + b)[1..] == a[1..] + b;
      var next := Insert(d, a[0].0, a[0].1);
      if next.Some? {
        BuildAppend(next.value, a[1..], b);
      }
    }
  }

  // Building below one key builds that key's dictionary.
  lemma {:induction false} BuildUnder(d: Dict, k: string, sub: Dict, leaves: seq<Leaf>)
    requires forall i :: 0 <= i < |leaves| ==> leaves[i].0 != []
    requires Get(d, k) == Some(Sub(sub)) || (sub == Nil && Get(d, k) == None && leaves != [])
    ensures Build(d, Under(k, leaves)) == Within(d, k, Build(sub, leaves))
    decreases |leaves|
  {
    PutTwice(d, k, Sub(sub), Sub(sub));
    if leaves != [] {
      var path := leaves[0].0;
      var below := Under(k, leaves);
      assert below[0].0[1..] == path && below[1..] == Under(k, leaves[1..]);
      var next := Insert(sub, path, leaves[0].1);
      if next.Some? {
        var d' := Put(d, k, Sub(next.value));
        PutTwice(d, k, Sub(next.value), Sub(sub));
        BuildUnder(d', k, next.value, leaves[1..]);
        var done := Build(next.value, leaves[1..]);
        if done.Some? {
          PutTwice(d, k, Sub(next.value), Sub(done.value));
        }
      }
    }
  }

  lemma {:induction false} BuildLeaves(base: Dict, d: Dict)
    requires WellKeyed(d) && Keys(base) !! Keys(d)
    ensures forall i :: 0 <= i < |Leaves(d)| ==> Leaves(d)[i].0 != []
    ensures Build(base, Leaves(d)) == Some(Append(base, Prune(d)))
    decreases d
  {
    LeavesArePlain(d);
    match d
    case Nil =>
      AppendNil(base);
    case Entry(k, v, rest) =>
      LeavesArePlain(rest);
      match v {
        case Other =>
          assert Leaves(d) == Leaves(rest);
          BuildLeaves(base, rest);
        case Text(t) =>
          PutAtEnd(base, k, v, Prune(rest));
          BuildLeaves(Put(base, k, v), rest);
          assert Leaves(d)[1..] == Leaves(rest);
        case Sub(sub) =>
          PruneKeeps(sub);
          var below := Under(k, Leaves(sub));
          if Leaves(sub) == [] {
            assert Leaves(d) == Leaves(rest);
            BuildLeaves(base, rest);
          } else {
            BuildLeaves(Nil, sub);
            BuildUnder(base, k, Nil, Leaves(sub));
            var v' := Sub(Prune(sub));
            PutAtEnd(base, k, v', Prune(rest));
            BuildLeaves(Put(base, k, v'), rest);
            BuildAppend(base, below, Leaves(rest));
          }
      }
  }

  lemma {:induction false} AppendNil(d: Dict)
    ensures Append(d, Nil) == d
  {
    if d.Entry? {
      AppendNil(d.rest);
    }
  }

  lemma ParsedFlatten(d: Dict)
    requires WellKeyed(d)
    ensures Parsed(Flatten(d, "")) == Leaves(d)
  {
    FlattenIsLeaves(d, "");
    LeavesArePlain(d);
    forall i | 0 <= i < |Leaves(d)| ensures Split(Join(Leaves(d)[i].0)) == Leaves(d)[i].0 {
      assert Leaves(d)[i] in Leaves(d);
      SplitOfJoin(Leaves(d)[i].0);
    }
  }

  // Flattening and rebuilding gives back the tree in its own order, less what
  // dotted keys cannot carry; it is the identity exactly on full trees.
  lemma RoundTrip(d: Dict)
    requires WellKeyed(d)
    ensures Build(Nil, Parsed(Flatten(d, ""))) == Some(Prune(d))
    ensures Build(Nil, Parsed(Flatten(d, ""))) == Some(d) <==> Full(d)
  {
    ParsedFlatten(d);
    BuildLeaves(Nil, d);
    PruneKeeps(d);
  }

  // A tree with every string replaced, the answer depending on its key and text.
  function Translated(d: Dict, prefix: string, answer: (string, string) -> string): Dict {
    match d
    case Nil => Nil
    case Entry(k, v, rest) =>
      var path := Dotted(prefix, k);
      var v' := match v
        case Text(t) => Text(answer(path, t))
        case Sub(sub) => Sub(Translated(sub, path, answer))
        case Other => Other;
      Entry(k, v', Translated(rest, prefix, answer))
  }

  function Answers(pairs: seq<(string, string)>, answer: (string, string) -> string): (r: seq<(string, string)>)
    ensures |r| == |pairs|
    ensures forall i :: 0 <= i < |r| ==> r[i] == (pairs[i].0, answer(pairs[i].0, pairs[i].1))
  {
    seq(|pairs|, i requires 0 <= i < |pairs| => (pairs[i].0, answer(pairs[i].0, pairs[i].1)))
  }

  lemma {:induction false} FlattenTranslated(d: Dict, prefix: string, answer: (string, string) -> string)
    ensures Flatten(Translated(d, prefix, answer), prefix) == Answers(Flatten(d, prefix), answer)
    ensures Keys(Translated(d, prefix, answer)) == Keys(d)
    ensures WellKeyed(d) ==> WellKeyed(Translated(d, prefix, answer))
    ensures Full(d) ==> Full(Translated(d, prefix, answer))
  {
    if d.Entry? {
      FlattenTranslated(d.rest, prefix, answer);
      if d.value.Sub? {
        FlattenTranslated(d.value.dict, Dotted(prefix, d.key), answer);
      }
    }
  }

  // What one language's file holds: the English tree, string by string.
  lemma TranslationKeepsShape(en: Dict, answer: (string, string) -> string)
    requires WellKeyed(en) && Full(en)
    ensures Build(Nil, Parsed(Answers(Flatten(en, ""), answer))) == Some(Translated(en, "", answer))
  {
    FlattenTranslated(en, "", answer);
    RoundTrip(Translated(en, "", answer));
  }

  // ------------------------------------------------------------ one key at a time

  function Lookup(d: Dict, path: seq<string>): Option<string>
    decreases |path|
  {
    if path == [] then None
    else
      match Get(d, path[0])
      case None => None
      case Some(Text(t)) => if |path| == 1 then Some(t) else None
      case Some(Sub(sub)) => Lookup(sub, path[1..])
      case Some(Other) => None
  }

  function TextAt(d: Dict, dotted: string): Option<string> {
    Lookup(d, Split(dotted))
  }

  lemma UnderHas(k: string, sub: seq<Leaf>, path: seq<string>, t: string)
    ensures (path, t) in Under(k, sub) <==> path != [] && path[0] == k && (path[1..], t) in sub
  {
    if (path, t) in Under(k, sub) {
      var i :| 0 <= i < |sub| && Under(k, sub)[i] == (path, t);
      assert path[1..] == sub[i].0 && sub[i] in sub;
    }
    if path != [] && path[0] == k && (path[1..], t) in sub {
      var i :| 0 <= i < |sub| && sub[i] == (path[1..], t);
      assert [k] + path[1..] == path && Under(k, sub)[i] == (path, t);
    }
  }

  lemma {:induction false} LeavesAreLookups(d: Dict, path: seq<string>, t: string)
    requires WellKeyed(d)
    ensures (path, t) in Leaves(d) <==> Lookup(d, path) == Some(t)
    decreases d
  {
    LeavesArePlain(d);
    if d.Entry? && path != [] {
      LeavesArePlain(d.rest);
      LeavesAreLookups(d.rest, path, t);
      LookupHead(d, path);
      LeavesHead(d, path, t);
      if d.value.Sub? {
        LeavesAreLookups(d.value.dict, path[1..], t);
      }
      hide Leaves, Lookup, WellKeyed;
    }
  }

  // The head of a dictionary, looked up and flattened.
  lemma LookupHead(d: Dict, path: seq<string>)
    requires d.Entry? && path != []
    ensures Lookup(d, path) ==
      if path[0] != d.key then Lookup(d.rest, path)
      else match d.value
        case Text(t) => if |path| == 1 then Some(t) else None
        case Sub(sub) => Lookup(sub, path[1..])
        case Other => None
    ensures path[0] !in Keys(d.rest) ==> Lookup(d.rest, path) == None
  {
  }

  lemma LeavesHead(d: Dict, path: seq<string>, t: string)
    requires d.Entry? && path != []
    ensures (path, t) in Leaves(d) <==>
      || (path, t) in Leaves(d.rest)
      || (path[0] == d.key && match d.value
           case Text(t') => |path| == 1 && t == t'
           case Sub(sub) => (path[1..], t) in Leaves(sub)
           case Other => false)
  {
    match d.value
    case Other =>
      assert Leaves(d) == Leaves(d.rest);
    case Text(t') =>
      assert path[0] == d.key && |path| == 1 ==> path == [d.key];
    case Sub(sub) =>
      UnderHas(d.key, Leaves(sub), path, t);
  }

  // The dotted keys of a file are exactly those that look up to a string.
  lemma FlattenIsLookup(d: Dict, dotted: string, t: string)
    requires WellKeyed(d)
    ensures (dotted, t) in Flatten(d, "") <==> TextAt(d, dotted) == Some(t)
  {
    var leaves := Leaves(d);
    FlattenIsLeaves(d, "");
    LeavesAreLookups(d, Split(dotted), t);
    LeavesArePlain(d);
    JoinOfSplit(dotted);
    if (dotted, t) in Flatten(d, "") {
      var i :| 0 <= i < |leaves| && Named("", leaves)[i] == (dotted, t);
      assert leaves[i] in leaves;
      SplitOfJoin(leaves[i].0);
    }
    if (Split(dotted), t) in leaves {
      var i :| 0 <= i < |leaves| && leaves[i] == (Split(dotted), t);
      assert Named("", leaves)[i] == (dotted, t);
    }
  }

  // No dotted key of a file lies above another.
  lemma {:induction false} KeysArePrefixFree(d: Dict, p: seq<string>, q: seq<string>)
    requires Lookup(d, p).Some? && Lookup(d, q).Some? && p <= q
    ensures p == q
    decreases |p|
  {
    if Get(d, p[0]).value.Sub? {
      assert p[1..] <= q[1..];
      KeysArePrefixFree(Get(d, p[0]).value.dict, p[1..], q[1..]);
    }
  }

  lemma {:induction false} FlattenDistinct(d: Dict)
    requires WellKeyed(d)
    ensures forall i, j :: 0 <= i < j < |Leaves(d)| ==> Leaves(d)[i].0 != Leaves(d)[j].0
  {
    if d.Entry? {
      FlattenDistinct(d.rest);
      LeavesArePlain(d.rest);
      if d.value.Sub? {
        var sub := Leaves(d.value.dict);
        FlattenDistinct(d.value.dict);
        forall i, j | 0 <= i < j < |Leaves(d)| ensures Leaves(d)[i].0 != Leaves(d)[j].0 {
          if j < |sub| {
            assert Leaves(d)[i].0[1..] == sub[i].0 && Leaves(d)[j].0[1..] == sub[j].0;
          } else if i < |sub| {
            assert Leaves(d)[j] in Leaves(d.rest) && Leaves(d)[i].0[0] == d.key;
          }
        }
      } else {
        forall i, j | 0 <= i < j < |Leaves(d)| ensures Leaves(d)[i].0 != Leaves(d)[j].0 {
          assert Leaves(d)[j] in Leaves(d.rest);
        }
      }
    }
  }

  // `set_at`: whatever stands in the way is replaced by a dictionary.
  function SetAt(d: Dict, path: seq<string>, v: string): Dict
    requires path != []
    decreases |path|
  {
    var k := path[0];
    if |path| == 1 then Put(d, k, Text(v))
    else
      match Get(d, k)
      case Some(Sub(sub)) => Put(d, k, Sub(SetAt(sub, path[1..], v)))
      case _ => Put(d, k, Sub(SetAt(Nil, path[1..], v)))
  }

  lemma {:induction false} GetPut(d: Dict, k: string, v: Tree, k': string)
    ensures Get(Put(d, k, v), k') == if k' == k then Some(v) else Get(d, k')
    ensures WellKeyed(d) && k != "" && '.' !in k && (v.Sub? ==> WellKeyed(v.dict)) ==> WellKeyed(Put(d, k, v))
  {
    if d.Entry? {
      GetPut(d.rest, k, v, k');
    }
  }

  lemma {:induction false} GetKeyed(d: Dict, k: string)
    requires WellKeyed(d) && Get(d, k).Some? && Get(d, k).value.Sub?
    ensures WellKeyed(Get(d, k).value.dict)
  {
    if d.key != k {
      GetKeyed(d.rest, k);
    }
  }

  // All that a write changes: its own key, and what lies above or below it.
  lemma {:induction false} SetAtMeans(d: Dict, p: seq<string>, v: string, q: seq<string>)
    requires p != []
    ensures Lookup(SetAt(d, p, v), q) == if q == p then Some(v) else if p <= q || q <= p then None else Lookup(d, q)
    decreases |p|
  {
    if q != [] {
      var k := p[0];
      var sub := match Get(d, k) case Some(Sub(s)) => s case _ => Nil;
      GetPut(d, k, if |p| == 1 then Text(v) else Sub(SetAt(sub, p[1..], v)), q[0]);
      assert p == [k] + p[1..] && q == [q[0]] + q[1..];
      if |p| > 1 && q[0] == k {
        SetAtMeans(sub, p[1..], v, q[1..]);
        assert p[1..] <= q[1..] <==> p <= q;
        assert q[1..] <= p[1..] <==> q <= p;
      }
    }
  }

  lemma {:induction false} SetAtKeeps(d: Dict, p: seq<string>, v: string)
    requires WellKeyed(d) && Plain(p) && forall i :: 0 <= i < |p| ==> p[i] != ""
    ensures WellKeyed(SetAt(d, p, v))
    decreases |p|
  {
    var k := p[0];
    if |p| == 1 {
      GetPut(d, k, Text(v), k);
    } else {
      var sub := match Get(d, k) case Some(Sub(s)) => s case _ => Nil;
      assert WellKeyed(sub) by {
        if Get(d, k).Some? && Get(d, k).value.Sub? {
          GetKeyed(d, k);
        }
      }
      SetAtKeeps(sub, p[1..], v);
      GetPut(d, k, Sub(SetAt(sub, p[1..], v)), k);
    }
  }

  // ------------------------------------------------------------ the delta update

  // The keys of one file that are read as present.
  predicate Present(existing: Dict, invalid: set<string>, dotted: string) {
    TextAt(existing, dotted).Some? && dotted !in invalid
  }

  predicate Related(p: seq<string>, q: seq<string>) {
    p <= q || q <= p
  }

  // Two English keys never lie above one another.
  lemma Unrelated(en: Dict, s: string, s': string)
    requires TextAt(en, s).Some? && TextAt(en, s').Some? && s != s'
    ensures !Related(Split(s), Split(s'))
  {
    JoinOfSplit(s);
    JoinOfSplit(s');
    if Split(s) <= Split(s') {
      KeysArePrefixFree(en, Split(s), Split(s'));
    } else if Split(s') <= Split(s) {
      KeysArePrefixFree(en, Split(s'), Split(s));
    }
  }

  lemma KeyIsPlain(en: Dict, s: string)
    requires WellKeyed(en) && TextAt(en, s).Some?
    ensures Plain(Split(s)) && forall i :: 0 <= i < |Split(s)| ==> Split(s)[i] != ""
  {
    LeavesAreLookups(en, Split(s), TextAt(en, s).value);
    LeavesArePlain(en);
    assert (Split(s), TextAt(en, s).value) in Leaves(en);
  }

  ghost predicate Untouched(missing: seq<(string, string)>, q: seq<string>) {
    forall j :: 0 <= j < |missing| ==> !Related(Split(missing[j].0), q)
  }

  // The keys in `done` are set, and what is not related to them is as it was.
  ghost predicate Patched(existing: Dict, answer: (string, string) -> string, done: seq<(string, string)>, d: Dict) {
    && WellKeyed(d)
    && (done == [] ==> d == existing)
    && (forall q :: Untouched(done, q) ==> Lookup(d, q) == Lookup(existing, q))
    && (forall j :: 0 <= j < |done| ==> TextAt(d, done[j].0) == Some(answer(done[j].0, done[j].1)))
  }

  lemma PatchOne(en: Dict, existing: Dict, answer: (string, string) -> string, done: seq<(string, string)>, d: Dict, s: string, t: string)
    requires WellKeyed(en) && TextAt(en, s) == Some(t)
    requires forall j :: 0 <= j < |done| ==> TextAt(en, done[j].0) == Some(done[j].1)
    requires Patched(existing, answer, done, d)
    ensures Patched(existing, answer, done + [(s, t)], SetAt(d, Split(s), answer(s, t)))
  {
    hide Lookup, Split, SetAt;
    KeyIsPlain(en, s);
    SetAtKeeps(d, Split(s), answer(s, t));
    var d', more := SetAt(d, Split(s), answer(s, t)), done + [(s, t)];
    forall q | Untouched(more, q) ensures Lookup(d', q) == Lookup(existing, q) {
      assert !Related(Split(more[|done|].0), q);
      forall j | 0 <= j < |done| ensures !Related(Split(done[j].0), q) {
        assert more[j] == done[j];
      }
      SetAtMeans(d, Split(s), answer(s, t), q);
    }
    forall j | 0 <= j < |more| ensures TextAt(d', more[j].0) == Some(answer(more[j].0, more[j].1)) {
      SetAtMeans(d, Split(s), answer(s, t), Split(more[j].0));
      if more[j].0 != s {
        Unrelated(en, s, more[j].0);
      }
    }
  }

  // What the update means for one English key.
  lemma PatchedKey(en: Dict, existing: Dict, invalid: set<string>, answer: (string, string) -> string,
                   missing: seq<(string, string)>, d: Dict, s: string)
    requires WellKeyed(en) && TextAt(en, s).Some?
    requires forall s, t :: (s, t) in missing <==> TextAt(en, s) == Some(t) && !Present(existing, invalid, s)
    requires Patched(existing, answer, missing, d)
    ensures TextAt(d, s) == if Present(existing, invalid, s) then TextAt(existing, s) else Some(answer(s, TextAt(en, s).value))
  {
    hide Lookup, Split;
    if Present(existing, invalid, s) {
      forall j | 0 <= j < |missing| ensures !Related(Split(missing[j].0), Split(s)) {
        assert (missing[j].0, missing[j].1) in missing;
        Unrelated(en, missing[j].0, s);
      }
      assert Untouched(missing, Split(s));
    } else {
      assert (s, TextAt(en, s).value) in missing;
    }
  }

  function KeysOf(flat: seq<(string, string)>): set<string> {
    set pair | pair in flat :: pair.0
  }

  lemma KeysArePresent(existing: Dict, invalid: set<string>)
    requires WellKeyed(existing)
    ensures forall s :: s in KeysOf(Flatten(existing, "")) - invalid <==> Present(existing, invalid, s)
  {
    var flat := Flatten(existing, "");
    forall s ensures s in KeysOf(flat) <==> TextAt(existing, s).Some? {
      if TextAt(existing, s).Some? {
        FlattenIsLookup(existing, s, TextAt(existing, s).value);
        assert (s, TextAt(existing, s).value).0 == s;
      }
      forall t | (s, t) in flat ensures TextAt(existing, s) == Some(t) {
        FlattenIsLookup(existing, s, t);
      }
    }
  }

  function Lacking(pairs: seq<(string, string)>, keys: set<string>): seq<(string, string)> {
    if pairs == [] then []
    else Lacking(pairs[..|pairs| - 1], keys) + if pairs[|pairs| - 1].0 in keys then [] else [pairs[|pairs| - 1]]
  }

  lemma {:induction false} LackingMeans(pairs: seq<(string, string)>, keys: set<string>, pair: (string, string))
    ensures pair in Lacking(pairs, keys) <==> pair in pairs && pair.0 !in keys
  {
    if pairs != [] {
      LackingMeans(pairs[..|pairs| - 1], keys, pair);
      assert pairs == pairs[..|pairs| - 1] + [pairs[|pairs| - 1]];
    }
  }

  // The English keys that a file does not have; `flat` is its flattened form.
  method Missing(en: Dict, ghost existing: Dict, flat: seq<(string, string)>, invalid: set<string>) returns (missing: seq<(string, string)>)
    requires WellKeyed(en) && WellKeyed(existing) && flat == Flatten(existing, "")
    ensures forall s, t :: (s, t) in missing <==> TextAt(en, s) == Some(t) && !Present(existing, invalid, s)
  {
    var keys := KeysOf(flat) - invalid;
    KeysArePresent(existing, invalid);
    hide KeysOf, Lookup, Split, Flatten, WellKeyed, Present;
    var pairs := Flatten(en, "");
    missing := [];
    var i := 0;
    while i < |pairs|
      invariant i <= |pairs| && missing == Lacking(pairs[..i], keys)
    {
      assert pairs[..i + 1][..i] == pairs[..i];
      if pairs[i].0 !in keys {
        missing := missing + [pairs[i]];
      }
      i := i + 1;
    }
    assert pairs[..i] == pairs;
    forall s, t ensures (s, t) in missing <==> TextAt(en, s) == Some(t) && !Present(existing, invalid, s) {
      LackingMeans(pairs, keys, (s, t));
      FlattenIsLookup(en, s, t);
    }
  }
}

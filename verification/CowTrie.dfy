/**
  The copy-on-write SHAMap: a 16-way radix trie over 256-bit keys whose
  `Insert` rebuilds only the nodes on the key's path.

  `Canonical` is an independent definition: the trie a key-to-item map ought
  to have. Inserting is proved to turn the canonical trie of `m` into the
  canonical trie of `m[key := item]`, so the shape of a tree depends on its
  contents only, never on the order of the inserts.
*/
module CowTrie {
  import opened Basics

  type Byte = b: int | 0 <= b < 256
  type Key = k: seq<Byte> | |k| == 32 witness seq(32, _ => 0)
  type Item = seq<Byte>
  type Contents = map<Key, Item>

  /** The branches taken from the root down to a node. */
  type Path = seq<nat>

  datatype CowNode =
    | Inner(children: seq<Option<CowNode>>)
    | Leaf(key: Key, item: Item)

  function NoChildren(): (c: seq<Option<CowNode>>)
    ensures |c| == 16 && forall i :: 0 <= i < 16 ==> c[i] == None
  {
    [None, None, None, None, None, None, None, None, None, None, None, None, None, None, None, None]
  }

  /** The branch a key takes at a depth: high nibble first. */
  function Branch(key: Key, depth: nat): (b: nat)
    requires depth < 64
    ensures b < 16
  {
    if depth % 2 == 0 then key[depth / 2] / 16 else key[depth / 2] % 16
  }

  ghost predicate OnPath(key: Key, path: Path)
  {
    |path| <= 64 && forall d :: 0 <= d < |path| ==> Branch(key, d) == path[d]
  }

  /** Sixty-four branches determine a key, so splitting two keys must end. */
  lemma PathIsKey(a: Key, b: Key, path: Path)
    requires |path| == 64 && OnPath(a, path) && OnPath(b, path)
    ensures a == b
  {
    forall i | 0 <= i < 32
      ensures a[i] == b[i]
    {
      assert Branch(a, 2 * i) == Branch(b, 2 * i);
      assert Branch(a, 2 * i + 1) == Branch(b, 2 * i + 1);
    }
  }

  lemma SplitIsAboveBottom(a: Key, b: Key, path: Path)
    requires OnPath(a, path) && OnPath(b, path) && a != b
    ensures |path| < 64
  {
    if |path| == 64 {
      PathIsKey(a, b, path);
    }
  }

  /** Inner nodes lie above depth 64 and have sixteen branches; leaves lie on their key's path. */
  ghost predicate Placed(node: CowNode, path: Path)
    decreases node
  {
    match node
    case Leaf(key, _) => OnPath(key, path)
    case Inner(children) =>
      && |path| < 64
      && |children| == 16
      && forall i :: 0 <= i < 16 && children[i].Some? ==> Placed(children[i].value, path + [i])
  }

  /**
    The node that replaces `node` when `item` is stored under `key`. Depth
    stays below 64 at every key access: `Placed` is all a caller must know.
  */
  function InsertAt(node: CowNode, key: Key, item: Item, depth: nat, ghost path: Path): (r: CowNode)
    requires depth == |path| <= 64 && OnPath(key, path) && Placed(node, path)
    ensures Placed(r, path)
    ensures node.Inner? ==> r.Inner?
    decreases 64 - depth
  {
    match node
    case Inner(children) =>
      var idx := Branch(key, depth);
      var newChild :=
        if children[idx].Some? then InsertAt(children[idx].value, key, item, depth + 1, path + [idx])
        else Leaf(key, item);
      Inner(children[idx := Some(newChild)])
    case Leaf(existingKey, existingItem) =>
      if existingKey == key then Leaf(key, item)
      else
        SplitIsAboveBottom(existingKey, key, path);
        var eb := Branch(existingKey, depth);
        var nb := Branch(key, depth);
        if eb == nb then
          var sub := InsertAt(Leaf(existingKey, existingItem), key, item, depth + 1, path + [eb]);
          Inner(NoChildren()[eb := Some(sub)])
        else
          Inner(NoChildren()[eb := Some(Leaf(existingKey, existingItem))][nb := Some(Leaf(key, item))])
  }

  /** `node` has a leaf holding exactly this entry, wherever it is. */
  ghost predicate HasLeaf(node: CowNode, key: Key, item: Item)
    decreases node
  {
    match node
    case Leaf(k, v) => k == key && v == item
    case Inner(children) =>
      exists i :: 0 <= i < |children| && children[i].Some? && HasLeaf(children[i].value, key, item)
  }

  /** The leaves after an insert are the old leaves with the key's entry set. */
  lemma {:induction false} InsertSetsLeaf(node: CowNode, key: Key, item: Item, path: Path, k: Key, v: Item)
    requires OnPath(key, path) && Placed(node, path)
    ensures HasLeaf(InsertAt(node, key, item, |path|, path), k, v)
            <==> if k == key then v == item else HasLeaf(node, k, v)
    decreases 64 - |path|
  {
    hide Branch;
    var r := InsertAt(node, key, item, |path|, path);
    match node
    case Inner(children) =>
      var idx := Branch(key, |path|);
      if children[idx].Some? {
        InsertSetsLeaf(children[idx].value, key, item, path + [idx], k, v);
      }
      OthersOffPath(children, key, path, k, v);
      ChildSetsLeaf(node, r, idx, key, item, k, v);
    case Leaf(existingKey, existingItem) =>
      if existingKey != key {
        SplitIsAboveBottom(existingKey, key, path);
        var eb, nb := Branch(existingKey, |path|), Branch(key, |path|);
        hide HasLeaf;
        if eb == nb {
          InsertSetsLeaf(node, key, item, path + [nb], k, v);
          OnlyChild(eb, InsertAt(node, key, item, |path| + 1, path + [nb]), k, v);
        } else {
          OnlyTwo(eb, node, nb, Leaf(key, item), k, v);
        }
        LeafIs(existingKey, existingItem, k, v);
        LeafIs(key, item, k, v);
      }
  }

  lemma LeafIs(key: Key, item: Item, k: Key, v: Item)
    ensures HasLeaf(Leaf(key, item), k, v) <==> k == key && v == item
  {
  }

  /** What one branch holds, the node holds. */
  lemma OnlyChild(b: nat, child: CowNode, k: Key, v: Item)
    requires b < 16
    ensures HasLeaf(Inner(NoChildren()[b := Some(child)]), k, v) <==> HasLeaf(child, k, v)
  {
    HasLeafChild(Inner(NoChildren()[b := Some(child)]), b, k, v);
  }

  lemma OnlyTwo(a: nat, left: CowNode, b: nat, right: CowNode, k: Key, v: Item)
    requires a < 16 && b < 16 && a != b
    ensures HasLeaf(Inner(NoChildren()[a := Some(left)][b := Some(right)]), k, v) <==> HasLeaf(left, k, v) || HasLeaf(right, k, v)
  {
    var node := Inner(NoChildren()[a := Some(left)][b := Some(right)]);
    HasLeafChild(node, a, k, v);
    HasLeafChild(node, b, k, v);
  }

  /** No branch but the key's own holds an entry for the key. */
  lemma OthersOffPath(children: seq<Option<CowNode>>, key: Key, path: Path, k: Key, v: Item)
    requires OnPath(key, path) && Placed(Inner(children), path)
    ensures forall i :: 0 <= i < 16 && i != Branch(key, |path|) && children[i].Some? && HasLeaf(children[i].value, k, v) ==> k != key
  {
    hide Branch;
    forall i | 0 <= i < 16 && i != Branch(key, |path|) && children[i].Some? && HasLeaf(children[i].value, k, v)
      ensures k != key
    {
      LeafOnPath(children[i].value, k, v, path + [i]);
    }
  }

  /** Setting an entry below one branch sets it in the node. */
  lemma ChildSetsLeaf(node: CowNode, r: CowNode, idx: nat, key: Key, item: Item, k: Key, v: Item)
    requires node.Inner? && r.Inner? && idx < |node.children| == 16 && |r.children| == 16
    requires r.children[idx].Some? && r.children == node.children[idx := r.children[idx]]
    requires HasLeaf(r.children[idx].value, k, v)
             <==> if k == key then v == item else node.children[idx].Some? && HasLeaf(node.children[idx].value, k, v)
    requires forall i :: 0 <= i < 16 && i != idx && node.children[i].Some? && HasLeaf(node.children[i].value, k, v) ==> k != key
    ensures HasLeaf(r, k, v) <==> if k == key then v == item else HasLeaf(node, k, v)
  {
    HasLeafChild(r, idx, k, v);
    HasLeafChild(node, idx, k, v);
    forall i | 0 <= i < 16 && i != idx
      ensures r.children[i] == node.children[i]
    {
    }
  }

  /** A leaf is below the chosen branch or below another one. */
  lemma HasLeafChild(node: CowNode, idx: nat, k: Key, v: Item)
    requires node.Inner? && idx < |node.children|
    ensures HasLeaf(node, k, v) <==>
              || (node.children[idx].Some? && HasLeaf(node.children[idx].value, k, v))
              || (exists i :: 0 <= i < |node.children| && i != idx && node.children[i].Some?
                              && HasLeaf(node.children[i].value, k, v))
  {
  }

  /** Every leaf of a placed node lies on the nibble path of its own key. */
  lemma {:induction false} LeafOnPath(node: CowNode, key: Key, item: Item, path: Path)
    requires Placed(node, path) && HasLeaf(node, key, item)
    ensures OnPath(key, path)
    decreases node
  {
    if node.Inner? {
      var i :| 0 <= i < 16 && node.children[i].Some? && HasLeaf(node.children[i].value, key, item);
      LeafOnPath(node.children[i].value, key, item, path + [i]);
      forall d | 0 <= d < |path|
        ensures Branch(key, d) == path[d]
      {
        assert (path + [i])[d] == path[d];
      }
    }
  }

  /** The node reached by following `steps`. */
  function Subtree(node: CowNode, steps: Path): Option<CowNode>
    decreases |steps|
  {
    if steps == [] then Some(node)
    else if node.Inner? && steps[0] < |node.children| && node.children[steps[0]].Some? then
      Subtree(node.children[steps[0]].value, steps[1..])
    else None
  }

  /** `steps` leaves the path of `key` somewhere below `depth`. */
  ghost predicate Leaves(key: Key, depth: nat, steps: Path)
  {
    exists d :: 0 <= d < |steps| && depth + d < 64 && steps[d] != Branch(key, depth + d)
  }

  /** Every existing subtree off the key's path is shared unchanged. */
  lemma {:induction false} OffPathShared(node: CowNode, key: Key, item: Item, path: Path, steps: Path)
    requires OnPath(key, path) && Placed(node, path)
    requires Subtree(node, steps).Some? && Leaves(key, |path|, steps)
    ensures Subtree(InsertAt(node, key, item, |path|, path), steps) == Subtree(node, steps)
    decreases |steps|
  {
    hide Branch;
    var idx := Branch(key, |path|);
    if steps[0] == idx {
      var d :| 0 <= d < |steps| && |path| + d < 64 && steps[d] != Branch(key, |path| + d);
      assert steps[1..][d - 1] == steps[d];
      assert Leaves(key, |path| + 1, steps[1..]);
      OffPathShared(node.children[idx].value, key, item, path + [idx], steps[1..]);
    }
  }

  // ------------------------------------------------------------------------
  // The canonical trie of a map.
  // ------------------------------------------------------------------------

  ghost predicate Maps(m: Contents, k: Key, v: Item) {
    k in m && m[k] == v
  }

  ghost predicate Under(m: Contents, path: Path)
  {
    |path| <= 64 && forall k :: k in m ==> OnPath(k, path)
  }

  /** The part of `m` below one branch. */
  ghost function Below(m: Contents, depth: nat, branch: nat): Contents
    requires depth < 64
  {
    map k | k in m && Branch(k, depth) == branch :: m[k]
  }

  /** Two distinct keys differ above depth 64. */
  lemma SeveralAreAboveBottom(m: Contents, path: Path)
    requires Under(m, path) && |m| > 1
    ensures |path| < 64
  {
    if |path| == 64 {
      var a :| a in m;
      assert |m.Keys - {a}| > 0;
      var b :| b in m.Keys - {a};
      SplitIsAboveBottom(a, b, path);
    }
  }

  /** A lone entry is a leaf; several entries are spread over an inner node. */
  ghost function Canonical(m: Contents, path: Path): CowNode
    requires Under(m, path) && m != map[]
    decreases 64 - |path|, 1
  {
    if |m| == 1 then
      var k :| k in m;
      Leaf(k, m[k])
    else
      SeveralAreAboveBottom(m, path);
      CanonicalInner(m, path)
  }

  /** Each non-empty branch holds the canonical trie of its own entries. */
  ghost function CanonicalInner(m: Contents, path: Path): (node: CowNode)
    requires Under(m, path) && |path| < 64
    ensures node.Inner? && |node.children| == 16
    decreases 64 - |path|, 0
  {
    Inner(seq(16, i requires 0 <= i < 16 => CanonicalChild(m, path, i)))
  }

  ghost function CanonicalChild(m: Contents, path: Path, i: nat): Option<CowNode>
    requires Under(m, path) && |path| < 64 && i < 16
    decreases 64 - |path|, 0, 0
  {
    var part := Below(m, |path|, i);
    if part == map[] then None else Some(Canonical(part, path + [i]))
  }

  lemma CanonicalInnerAt(m: Contents, path: Path, i: nat)
    requires Under(m, path) && |path| < 64 && i < 16
    ensures CanonicalInner(m, path).children[i] == CanonicalChild(m, path, i)
  {
  }

  /** An inner node is canonical when each of its branches is. */
  lemma CanonicalByChildren(node: CowNode, m: Contents, path: Path)
    requires Under(m, path) && |path| < 64 && node.Inner? && |node.children| == 16
    requires forall i :: 0 <= i < 16 ==> node.children[i] == CanonicalChild(m, path, i)
    ensures node == CanonicalInner(m, path)
  {
    hide CanonicalChild;
    assert node.children == CanonicalInner(m, path).children;
  }

  lemma Singleton(m: Contents, k: Key, path: Path)
    requires Under(m, path) && m.Keys == {k}
    ensures Canonical(m, path) == Leaf(k, m[k])
  {
    assert |m| == |m.Keys| == 1;
  }

  lemma Several(m: Contents, a: Key, b: Key)
    requires a in m && b in m && a != b
    ensures |m| > 1
  {
    assert {a, b} <= m.Keys;
    CardinalityMonotone({a, b}, m.Keys);
  }

  lemma CardinalityMonotone(s: set<Key>, t: set<Key>)
    requires s <= t
    ensures |s| <= |t|
  {
    assert t == s + (t - s);
  }

  /** The canonical trie is properly placed. */
  lemma {:induction false} CanonicalPlaced(m: Contents, path: Path)
    requires Under(m, path) && m != map[]
    ensures Placed(Canonical(m, path), path)
    decreases 64 - |path|, 1
  {
    if |m| != 1 {
      SeveralAreAboveBottom(m, path);
      CanonicalInnerPlaced(m, path);
    }
  }

  lemma {:induction false} CanonicalInnerPlaced(m: Contents, path: Path)
    requires Under(m, path) && |path| < 64
    ensures Placed(CanonicalInner(m, path), path)
    decreases 64 - |path|, 0
  {
    forall i | 0 <= i < 16 && CanonicalChild(m, path, i).Some?
      ensures Placed(CanonicalChild(m, path, i).value, path + [i])
    {
      CanonicalPlaced(Below(m, |path|, i), path + [i]);
    }
  }

  /** Below the root, inserting keeps tries canonical. */
  lemma {:induction false} InsertCanonical(m: Contents, key: Key, item: Item, path: Path)
    requires Under(m, path) && m != map[] && OnPath(key, path)
    ensures Placed(Canonical(m, path), path)
    ensures InsertAt(Canonical(m, path), key, item, |path|, path) == Canonical(m[key := item], path)
    decreases 64 - |path|, 1
  {
    CanonicalPlaced(m, path);
    var m' := m[key := item];
    if |m| == 1 {
      var k :| k in m;
      assert m.Keys == {k} by {
        if exists o :: o in m && o != k {
          var o :| o in m && o != k;
          Several(m, k, o);
        }
      }
      Singleton(m, k, path);
      if k == key {
        Singleton(m', key, path);
      } else {
        SplitCanonical(m, k, key, item, path);
      }
    } else {
      SeveralAreAboveBottom(m, path);
      InsertCanonicalInner(m, key, item, path);
      assert m.Keys <= m'.Keys;
      CardinalityMonotone(m.Keys, m'.Keys);
    }
  }

  /** Splitting a leaf gives the canonical trie of the two entries. */
  lemma {:induction false} SplitCanonical(m: Contents, k: Key, key: Key, item: Item, path: Path)
    requires Under(m, path) && m.Keys == {k} && OnPath(key, path) && k != key
    ensures key in m[key := item]
    ensures InsertAt(Leaf(k, m[k]), key, item, |path|, path) == Canonical(m[key := item], path)
    decreases 64 - |path|, 0
  {
    hide Branch, CanonicalInner;
    var m' := m[key := item];
    Several(m', k, key);
    SeveralAreAboveBottom(m', path);
    var eb, nb := Branch(k, |path|), Branch(key, |path|);
    var r := InsertAt(Leaf(k, m[k]), key, item, |path|, path);
    if eb == nb {
      assert Below(m', |path|, eb) == m';
      InsertCanonical(m, key, item, path + [eb]);
      Singleton(m, k, path + [eb]);
    } else {
      Singleton(Below(m', |path|, eb), k, path + [eb]);
      Singleton(Below(m', |path|, nb), key, path + [nb]);
    }
    forall i | 0 <= i < 16
      ensures r.children[i] == CanonicalChild(m', path, i)
    {
      if i != eb && i != nb {
        assert Below(m', |path|, i) == map[];
      }
    }
    CanonicalByChildren(r, m', path);
  }

  /** A new entry joins the entries of its own branch and of no other. */
  lemma BelowInsert(m: Contents, key: Key, item: Item, depth: nat, i: nat)
    requires depth < 64 && i < 16
    ensures Below(m[key := item], depth, i) == if i == Branch(key, depth) then Below(m, depth, i)[key := item] else Below(m, depth, i)
  {
    hide Branch;
  }

  /** At an inner node, the root included, inserting keeps tries canonical. */
  lemma {:induction false} InsertCanonicalInner(m: Contents, key: Key, item: Item, path: Path)
    requires Under(m, path) && |path| < 64 && OnPath(key, path)
    ensures Placed(CanonicalInner(m, path), path)
    ensures InsertAt(CanonicalInner(m, path), key, item, |path|, path) == CanonicalInner(m[key := item], path)
    decreases 64 - |path|, 0
  {
    hide Branch, CanonicalInner;
    CanonicalInnerPlaced(m, path);
    var m' := m[key := item];
    var idx := Branch(key, |path|);
    BelowInsert(m, key, item, |path|, idx);
    var part := Below(m, |path|, idx);
    if part == map[] {
      Singleton(part[key := item], key, path + [idx]);
    } else {
      InsertCanonical(part, key, item, path + [idx]);
    }
    var r := InsertAt(CanonicalInner(m, path), key, item, |path|, path);
    forall i | 0 <= i < 16
      ensures r.children[i] == CanonicalChild(m', path, i)
    {
      CanonicalInnerAt(m, path, i);
      BelowInsert(m, key, item, |path|, i);
      hide Below, Canonical, Under, Placed, OnPath;
    }
    hide *;
    CanonicalByChildren(r, m', path);
  }

  /** The canonical trie holds exactly the entries of its map. */
  lemma {:induction false} CanonicalHolds(m: Contents, path: Path, k: Key, v: Item)
    requires Under(m, path) && m != map[]
    ensures HasLeaf(Canonical(m, path), k, v) <==> Maps(m, k, v)
    decreases 64 - |path|, 1
  {
    if |m| == 1 {
      var o :| o in m;
      if k in m && k != o {
        Several(m, k, o);
      }
      assert m.Keys == {o} by {
        if exists x :: x in m && x != o {
          var x :| x in m && x != o;
          Several(m, o, x);
        }
      }
      Singleton(m, o, path);
    } else {
      SeveralAreAboveBottom(m, path);
      CanonicalInnerHolds(m, path, k, v);
    }
  }

  lemma {:induction false} CanonicalInnerHolds(m: Contents, path: Path, k: Key, v: Item)
    requires Under(m, path) && |path| < 64
    ensures HasLeaf(CanonicalInner(m, path), k, v) <==> Maps(m, k, v)
    decreases 64 - |path|, 0
  {
    var node := CanonicalInner(m, path);
    forall i | 0 <= i < 16 && node.children[i].Some?
      ensures HasLeaf(node.children[i].value, k, v) <==> Maps(m, k, v) && Branch(k, |path|) == i
    {
      assert node.children[i] == CanonicalChild(m, path, i);
      CanonicalHolds(Below(m, |path|, i), path + [i], k, v);
    }
    HasLeafChild(node, Branch(k, |path|), k, v);
    if k in m {
      assert k in Below(m, |path|, Branch(k, |path|));
    }
  }

  // ------------------------------------------------------------------------
  // Whole histories of inserts.
  // ------------------------------------------------------------------------

  datatype Entry = Entry(key: Key, item: Item)

  /** The map a history of inserts describes. */
  ghost function Folded(inserts: seq<Entry>): Contents {
    if inserts == [] then map[]
    else
      var last := inserts[|inserts| - 1];
      Folded(inserts[..|inserts| - 1])[last.key := last.item]
  }

  /** The tree a history of inserts builds from an empty map. */
  ghost function Built(inserts: seq<Entry>): (root: CowNode)
    ensures root.Inner? && Placed(root, [])
  {
    if inserts == [] then Inner(NoChildren())
    else
      var last := inserts[|inserts| - 1];
      InsertAt(Built(inserts[..|inserts| - 1]), last.key, last.item, 0, [])
  }

  lemma EmptyIsCanonical()
    ensures CanonicalInner(map[], []) == Inner(NoChildren())
  {
    forall i | 0 <= i < 16
      ensures CanonicalChild(map[], [], i) == None
    {
      assert Below(map[], 0, i) == map[];
    }
    assert CanonicalInner(map[], []).children == NoChildren();
  }

  /** Whatever the history, the tree is the canonical trie of its contents. */
  lemma {:induction false} BuiltIsCanonical(inserts: seq<Entry>)
    ensures Built(inserts) == CanonicalInner(Folded(inserts), [])
  {
    if inserts == [] {
      EmptyIsCanonical();
    } else {
      var last := inserts[|inserts| - 1];
      var before := inserts[..|inserts| - 1];
      BuiltIsCanonical(before);
      InsertCanonicalInner(Folded(before), last.key, last.item, []);
    }
  }

  /** Two histories build equal trees exactly when they describe equal maps. */
  lemma OrderIsIrrelevant(a: seq<Entry>, b: seq<Entry>)
    ensures Built(a) == Built(b) <==> Folded(a) == Folded(b)
  {
    BuiltIsCanonical(a);
    BuiltIsCanonical(b);
    if Built(a) == Built(b) {
      forall k: Key, v: Item
        ensures Maps(Folded(a), k, v) <==> Maps(Folded(b), k, v)
      {
        CanonicalInnerHolds(Folded(a), [], k, v);
        CanonicalInnerHolds(Folded(b), [], k, v);
      }
      SameEntries(Folded(a), Folded(b));
    }
  }

  lemma SameEntries(a: Contents, b: Contents)
    requires forall k: Key, v: Item :: Maps(a, k, v) <==> Maps(b, k, v)
    ensures a == b
  {
    forall k | k in a
      ensures k in b && b[k] == a[k]
    {
      assert Maps(a, k, a[k]);
    }
    forall k | k in b
      ensures k in a
    {
      assert Maps(b, k, b[k]);
    }
    assert a.Keys == b.Keys;
  }

  /** Inserts of distinct keys commute; a second insert of a key replaces the first. */
  lemma InsertsCommute(inserts: seq<Entry>, x: Entry, y: Entry)
    ensures x.key != y.key ==> Built(inserts + [x, y]) == Built(inserts + [y, x])
    ensures x.key == y.key ==> Built(inserts + [x, y]) == Built(inserts + [y])
  {
    hide Built;
    var xy, yx := inserts + [x, y], inserts + [y, x];
    assert xy[..|xy| - 1] == inserts + [x] && yx[..|yx| - 1] == inserts + [y];
    assert (inserts + [x])[..|inserts|] == inserts && (inserts + [y])[..|inserts|] == inserts;
    OrderIsIrrelevant(xy, yx);
    OrderIsIrrelevant(xy, inserts + [y]);
    if x.key == y.key {
      assert Folded(xy) == Folded(inserts + [y]);
    } else {
      assert Folded(xy) == Folded(yx);
    }
  }

  /** The map object: a root that inserts replace and forks share. */
  class CowSHAMap {
    var root: CowNode
    ghost var contents: Contents

    ghost predicate Valid()
      reads this
    {
      root == CanonicalInner(contents, []) && Placed(root, [])
    }

    constructor ()
      ensures Valid() && contents == map[]
    {
      root := Inner(NoChildren());
      contents := map[];
      new;
      EmptyIsCanonical();
    }

    constructor Fork(from: CowSHAMap)
      requires from.Valid()
      ensures Valid() && contents == from.contents && root == from.root
    {
      root := from.root;
      contents := from.contents;
    }

    /** Only this map changes: a fork keeps the root it was given. */
    method Insert(key: Key, item: Item)
      requires Valid()
      modifies this
      ensures Valid() && contents == old(contents)[key := item]
      ensures forall k: Key, v: Item :: HasLeaf(root, k, v) <==> Maps(contents, k, v)
      ensures forall steps: Path :: Subtree(old(root), steps).Some? && Leaves(key, 0, steps) ==>
                Subtree(root, steps) == Subtree(old(root), steps)
    {
      var newRoot := InsertAt(root, key, item, 0, []);
      forall steps: Path | Subtree(root, steps).Some? && Leaves(key, 0, steps)
        ensures Subtree(newRoot, steps) == Subtree(root, steps)
      {
        OffPathShared(root, key, item, [], steps);
      }
      InsertCanonicalInner(contents, key, item, []);
      root := newRoot;
      contents := contents[key := item];
      forall k: Key, v: Item
        ensures HasLeaf(root, k, v) <==> Maps(contents, k, v)
      {
        CanonicalInnerHolds(contents, [], k, v);
      }
    }
  }
}

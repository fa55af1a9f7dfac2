/**
  Batches of state-map operations: a batch is applied to a copy-on-write fork
  of the published tree and published only as a whole.

  Trees are abstract here: a root is the map of items it holds and its
  copy-on-write id. A fork edits nodes of its own id in place and clones all
  others, so it is detached from the published root exactly as long as its id
  differs from the root's.
*/
module StateBatch {
  import opened Basics

  type Key = nat
  type Payload = seq<nat>

  /** An unsigned 32-bit copy-on-write id. */
  type Cowid = n: nat | n <= U32_MAX

  datatype Root = Root(items: map<Key, Payload>, cowid: Cowid)

  datatype BatchOp =
    | Insert(key: Key, payload: Payload)
    | Update(key: Key, payload: Payload)
    | Delete(key: Key)

  datatype BatchError = DuplicateExactLeaf(key: Key) | MissingExactLeaf(key: Key) | Unreachable(key: Key)

  datatype Outcome<T> = Ok(value: T) | Err(error: BatchError)

  /** What one operation does to the items; `reachable` says whether the walk to its key found every node. */
  function Apply(items: map<Key, Payload>, op: BatchOp, reachable: bool): Outcome<map<Key, Payload>> {
    if !reachable then Err(Unreachable(op.key))
    else match op
      case Insert(key, payload) => if key in items then Err(DuplicateExactLeaf(key)) else Ok(items[key := payload])
      case Update(key, payload) => if key in items then Ok(items[key := payload]) else Err(MissingExactLeaf(key))
      case Delete(key) => if key in items then Ok(items - {key}) else Err(MissingExactLeaf(key))
  }

  /** The left fold of a batch; the first failure is the batch's. */
  function Fold(items: map<Key, Payload>, ops: seq<BatchOp>, reachable: seq<bool>): Outcome<map<Key, Payload>>
    requires |reachable| == |ops|
    decreases |ops|
  {
    if ops == [] then Ok(items)
    else
      var first := Apply(items, ops[0], reachable[0]);
      if first.Err? then first else Fold(first.value, ops[1..], reachable[1..])
  }

  /** The operation changes the tree: an update that writes what is there does not. */
  predicate Touches(items: map<Key, Payload>, op: BatchOp) {
    op.Update? && op.key in items ==> items[op.key] != op.payload
  }

  /** What does not touch the tree leaves its items. */
  lemma Untouched(items: map<Key, Payload>, op: BatchOp, reachable: bool)
    requires !Touches(items, op) && Apply(items, op, reachable).Ok?
    ensures Apply(items, op, reachable).value == items
  {
  }

  // ------------------------------------------------------------------------
  // What a batch computes.
  // ------------------------------------------------------------------------

  /** The last operation on a key, or the length. */
  function LastOn(ops: seq<BatchOp>, key: Key): (i: nat)
    ensures i <= |ops|
    ensures i < |ops| ==> ops[i].key == key && forall j :: i < j < |ops| ==> ops[j].key != key
    ensures i == |ops| ==> forall j :: 0 <= j < |ops| ==> ops[j].key != key
  {
    if ops == [] then 0
    else if ops[|ops| - 1].key == key then |ops| - 1
    else var i := LastOn(ops[..|ops| - 1], key); if i == |ops| - 1 then |ops| else i
  }

  /** What a batch leaves under a key: the last writer's payload, nothing after a delete, the old item otherwise. */
  function Final(items: map<Key, Payload>, ops: seq<BatchOp>, key: Key): Option<Payload> {
    var i := LastOn(ops, key);
    if i == |ops| then if key in items then Some(items[key]) else None
    else if ops[i].Delete? then None
    else Some(ops[i].payload)
  }

  lemma {:induction false} FoldAppend(items: map<Key, Payload>, a: seq<BatchOp>, ra: seq<bool>, b: seq<BatchOp>, rb: seq<bool>)
    requires |ra| == |a| && |rb| == |b|
    ensures Fold(items, a + b, ra + rb)
            == (var first := Fold(items, a, ra); if first.Err? then first else Fold(first.value, b, rb))
    decreases |a|
  {
    if a == [] {
      assert a + b == b && ra + rb == rb;
    } else {
      assert (a + b)[1..] == a[1..] + b && (ra + rb)[1..] == ra[1..] + rb;
      var first := Apply(items, a[0], ra[0]);
      if first.Ok? {
        FoldAppend(first.value, a[1..], ra[1..], b, rb);
      }
    }
  }

  /** A batch that succeeds leaves under every key exactly what its last operation on it says. */
  lemma {:induction false} LastWriterWins(items: map<Key, Payload>, ops: seq<BatchOp>, reachable: seq<bool>, key: Key)
    requires |reachable| == |ops| && Fold(items, ops, reachable).Ok?
    ensures var after := Fold(items, ops, reachable).value;
            Final(items, ops, key) == if key in after then Some(after[key]) else None
  {
    if ops != [] {
      var n := |ops| - 1;
      var init, last := ops[..n], ops[n];
      assert ops == init + [last] && reachable == reachable[..n] + [reachable[n]];
      FoldAppend(items, init, reachable[..n], [last], [reachable[n]]);
      LastWriterWins(items, init, reachable[..n], key);
      var mid := Fold(items, init, reachable[..n]).value;
      assert Fold(mid, [last], [reachable[n]]) == Apply(mid, last, reachable[n]);
      assert LastOn(ops, key) == if last.key == key then n else if LastOn(init, key) == n then n + 1 else LastOn(init, key);
    }
  }

  /** The key holds an item just before the `i`-th operation. */
  predicate PresentAt(items: map<Key, Payload>, ops: seq<BatchOp>, i: nat, key: Key)
    requires i <= |ops|
  {
    Final(items, ops[..i], key).Some?
  }

  /** The operation fits what the batch so far would leave under its key. */
  predicate Fits(items: map<Key, Payload>, ops: seq<BatchOp>, i: nat)
    requires i < |ops|
  {
    ops[i].Insert? <==> !PresentAt(items, ops, i, ops[i].key)
  }

  /**
    A batch succeeds exactly when every walk succeeds and every operation fits:
    inserts find no item under their key, updates and deletes find one.
  */
  lemma {:induction false} SucceedsIff(items: map<Key, Payload>, ops: seq<BatchOp>, reachable: seq<bool>)
    requires |reachable| == |ops|
    ensures Fold(items, ops, reachable).Ok? <==> forall i :: 0 <= i < |ops| ==> reachable[i] && Fits(items, ops, i)
  {
    if ops != [] {
      var n := |ops| - 1;
      var init, last := ops[..n], ops[n];
      assert ops == init + [last] && reachable == reachable[..n] + [reachable[n]];
      FoldAppend(items, init, reachable[..n], [last], [reachable[n]]);
      SucceedsIff(items, init, reachable[..n]);
      forall i | 0 <= i < n
        ensures Fits(items, ops, i) <==> Fits(items, init, i)
      {
        assert ops[..i] == init[..i];
      }
      if Fold(items, init, reachable[..n]).Ok? {
        var mid := Fold(items, init, reachable[..n]).value;
        LastWriterWins(items, init, reachable[..n], last.key);
        assert Fold(mid, [last], [reachable[n]]).Ok? <==> Apply(mid, last, reachable[n]).Ok?;
        assert Fits(items, ops, n) <==> (last.Insert? <==> last.key !in mid);
      }
    }
  }

  // ------------------------------------------------------------------------
  // Copy-on-write ids.
  // ------------------------------------------------------------------------

  function SatAdd(n: Cowid): Cowid {
    if n == U32_MAX then U32_MAX else n + 1
  }

  function Max(a: Cowid, b: Cowid): Cowid {
    if a < b then b else a
  }

  /** The least id a fork of the root may use. */
  function MinimumFor(root: Cowid): Cowid {
    Max(SatAdd(root), 1)
  }

  function CowidFor(next: Cowid, root: Cowid): Cowid {
    Max(next, MinimumFor(root))
  }

  function NextAfter(next: Cowid, root: Cowid): Cowid {
    SatAdd(Max(next, MinimumFor(root)))
  }

  /** The ids handed out for a sequence of forks, whichever ledgers ask. */
  function Handed(next: Cowid, roots: seq<Cowid>): seq<Cowid>
    decreases |roots|
  {
    if roots == [] then [] else [CowidFor(next, roots[0])] + Handed(NextAfter(next, roots[0]), roots[1..])
  }

  lemma {:induction false} HandedAtLeast(next: Cowid, roots: seq<Cowid>)
    ensures |Handed(next, roots)| == |roots|
    ensures forall i :: 0 <= i < |roots| ==> next <= Handed(next, roots)[i]
    decreases |roots|
  {
    if roots != [] {
      HandedAtLeast(NextAfter(next, roots[0]), roots[1..]);
    }
  }

  /**
    Ids handed out rise strictly, and each lies above the root it forks, until
    the 32-bit counter saturates.
  */
  lemma {:induction false} CowidsRise(next: Cowid, roots: seq<Cowid>, i: nat, j: nat)
    requires i < j < |roots|
    ensures |Handed(next, roots)| == |roots|
    ensures var ids := Handed(next, roots);
            && (ids[i] < ids[j] <==> ids[i] < U32_MAX)
            && (ids[i] == U32_MAX ==> ids[j] == U32_MAX)
            && (roots[i] < ids[i] <==> roots[i] < U32_MAX)
    decreases |roots|
  {
    HandedAtLeast(next, roots);
    var rest := NextAfter(next, roots[0]);
    HandedAtLeast(rest, roots[1..]);
    if i > 0 {
      CowidsRise(rest, roots[1..], i - 1, j - 1);
    } else {
      assert Handed(next, roots)[j] == Handed(rest, roots[1..])[j - 1];
    }
  }

  /** The process-wide source of copy-on-write ids. */
  class CowIds {
    var next: Cowid

    constructor ()
      ensures next == 100
    {
      next := 100;
    }

    /** One atomic draw. */
    method Allocate(root: Cowid) returns (cowid: Cowid)
      modifies this
      ensures cowid == CowidFor(old(next), root) && next == NextAfter(old(next), root)
      ensures root < U32_MAX ==> cowid > root && (cowid < U32_MAX ==> next > cowid)
      ensures root == U32_MAX ==> cowid == root
    {
      var minimum := MinimumFor(root);
      var before := next;
      next := SatAdd(Max(next, minimum));
      cowid := Max(before, minimum);
    }
  }

  // ------------------------------------------------------------------------
  // Forks.
  // ------------------------------------------------------------------------

  /** The fork's tree after the operations before the first that fails: what touches a tree puts the fork's id on it. */
  function Worked(tree: Root, cowid: Cowid, ops: seq<BatchOp>, reachable: seq<bool>): Root
    requires |reachable| == |ops|
    decreases |ops|
  {
    if ops == [] then tree
    else
      var first := Apply(tree.items, ops[0], reachable[0]);
      if first.Err? then tree
      else
        Worked(Root(first.value, if Touches(tree.items, ops[0]) then cowid else tree.cowid), cowid, ops[1..], reachable[1..])
  }

  /** A batch that succeeds works through all of it. */
  lemma {:induction false} WorkedIsFold(tree: Root, cowid: Cowid, ops: seq<BatchOp>, reachable: seq<bool>)
    requires |reachable| == |ops|
    ensures Fold(tree.items, ops, reachable).Ok? ==> Worked(tree, cowid, ops, reachable).items == Fold(tree.items, ops, reachable).value
    ensures Worked(tree, cowid, ops, reachable).cowid in {tree.cowid, cowid}
    decreases |ops|
  {
    if ops != [] {
      var first := Apply(tree.items, ops[0], reachable[0]);
      if first.Ok? {
        var next := Root(first.value, if Touches(tree.items, ops[0]) then cowid else tree.cowid);
        WorkedIsFold(next, cowid, ops[1..], reachable[1..]);
      }
    }
  }

  /** What a holder of the forked root sees after the batch: the fork's own work when the two share an id. */
  function Shown(root: Root, next: Cowid, ops: seq<BatchOp>, reachable: seq<bool>): map<Key, Payload>
    requires |reachable| == |ops|
  {
    var cowid := CowidFor(next, root.cowid);
    if cowid == root.cowid then Worked(root, cowid, ops, reachable).items else root.items
  }

  /** A failed batch leaves everyone who holds the forked root what they saw. */
  ghost predicate LeavesNoTrace(root: Root, next: Cowid, ops: seq<BatchOp>, reachable: seq<bool>)
    requires |reachable| == |ops|
  {
    Fold(root.items, ops, reachable).Err? ==> Shown(root, next, ops, reachable) == root.items
  }

  /** A batch that changes the tree and then fails: one key deleted twice, or inserted twice into an empty tree. */
  ghost function Failing(items: map<Key, Payload>): (ops: seq<BatchOp>)
    ensures |ops| == 2
  {
    if items == map[] then [Insert(0, []), Insert(0, [])]
    else var key :| key in items; [Delete(key), Delete(key)]
  }

  lemma FailingShows(root: Root, next: Cowid)
    requires root.cowid == U32_MAX
    ensures !LeavesNoTrace(root, next, Failing(root.items), [true, true])
  {
    var ops, both := Failing(root.items), [true, true];
    var mid := Apply(root.items, ops[0], true).value;
    var last, one := ops[1..], both[1..];
    assert last[0] == ops[1] && one[0];
    assert Apply(mid, last[0], one[0]).Err?;
    assert Fold(mid, last, one).Err?;
    assert Worked(Root(mid, U32_MAX), U32_MAX, last, one) == Root(mid, U32_MAX);
    assert ops[0].key in mid <==> ops[0].key !in root.items;
  }

  /**
    Failed batches are atomic for whoever holds the root if and only if the
    root's id is not yet the largest: at the largest id the fork draws the
    root's own id and edits it in place.
  */
  lemma AtomicExactlyBelowSaturation(root: Root, next: Cowid)
    ensures (forall ops: seq<BatchOp>, reachable: seq<bool> :: |reachable| == |ops| ==> LeavesNoTrace(root, next, ops, reachable))
            <==> root.cowid < U32_MAX
  {
    if root.cowid == U32_MAX {
      FailingShows(root, next);
    }
  }

  // ------------------------------------------------------------------------
  // The ledger.
  // ------------------------------------------------------------------------

  /** A published root: edited in place by a fork of the same id, shared by everyone who holds it. */
  class TreeRoot {
    var items: map<Key, Payload>
    const cowid: Cowid

    constructor (items: map<Key, Payload>, cowid: Cowid)
      ensures this.items == items && this.cowid == cowid
    {
      this.items, this.cowid := items, cowid;
    }

    function Value(): Root
      reads this
    {
      Root(items, cowid)
    }
  }

  datatype Batch = Batch(ops: seq<BatchOp>, reachable: seq<bool>)

  /** The published root and the shared source of ids. */
  datatype Published = Published(root: Root, next: Cowid)

  /** One batch: what is published afterwards. */
  function AfterBatch(p: Published, b: Batch): Published
    requires |b.reachable| == |b.ops|
  {
    if b.ops == [] then p
    else
      var root :=
        if Fold(p.root.items, b.ops, b.reachable).Ok? then Worked(p.root, CowidFor(p.next, p.root.cowid), b.ops, b.reachable)
        else p.root.(items := Shown(p.root, p.next, b.ops, b.reachable));
      Published(root, NextAfter(p.next, p.root.cowid))
  }

  /** The two views a ledger keeps of its state tree. */
  class LedgerState {
    var stateMap: TreeRoot
    var mutableState: TreeRoot?

    /** Once there is a mutable tree, both views share one root. */
    ghost predicate Agree()
      reads this
    {
      mutableState != null ==> mutableState == stateMap
    }

    constructor (root: TreeRoot)
      ensures Agree() && stateMap == root && mutableState == null
    {
      stateMap := root;
      mutableState := null;
    }

    /**
      Applies a batch to a fork of the published root and publishes the fork
      only when every operation succeeded. A root whose id is not the largest
      is never written, so a failed batch changes nothing anyone can see; a
      root of the largest id shows the work done before the failure.
    */
    method ApplyStateBatch(ops: seq<BatchOp>, reachable: seq<bool>, ids: CowIds) returns (r: Outcome<()>)
      requires |reachable| == |ops| && Agree()
      modifies this, ids, stateMap
      ensures Agree()
      ensures Published(stateMap.Value(), ids.next) == AfterBatch(Published(old(stateMap.Value()), old(ids.next)), Batch(ops, reachable))
      ensures r.Ok? <==> Fold(old(stateMap.items), ops, reachable).Ok?
      ensures r.Err? ==> r.error == Fold(old(stateMap.items), ops, reachable).error
      ensures r.Err? ==> stateMap == old(stateMap) && mutableState == old(mutableState)
      ensures r.Ok? ==> stateMap.items == Fold(old(stateMap.items), ops, reachable).value
      ensures r.Ok? && ops != [] ==> mutableState == stateMap
      ensures old(stateMap).items == Shown(old(stateMap.Value()), old(ids.next), ops, reachable)
      ensures old(stateMap).cowid < U32_MAX ==> old(stateMap).items == old(stateMap.items)
      ensures stateMap == old(stateMap) || fresh(stateMap)
    {
      if ops == [] {
        return Ok(());
      }
      var root: TreeRoot := if mutableState != null then mutableState else stateMap;
      ghost var was := root.Value();
      var cowid := ids.Allocate(root.cowid);
      WorkedIsFold(was, cowid, ops, reachable);
      var tree := root;
      var i := 0;
      while i < |ops|
        invariant 0 <= i <= |ops|
        invariant Fold(tree.items, ops[i..], reachable[i..]) == Fold(was.items, ops, reachable)
        invariant Worked(tree.Value(), cowid, ops[i..], reachable[i..]) == Worked(was, cowid, ops, reachable)
        invariant tree == root || (fresh(tree) && tree.cowid == cowid != root.cowid)
        invariant root.cowid != cowid ==> root.items == was.items
        invariant stateMap == old(stateMap) && mutableState == old(mutableState) && ids.next == NextAfter(old(ids.next), root.cowid)
      {
        assert ops[i..][0] == ops[i] && ops[i..][1..] == ops[i + 1..];
        assert reachable[i..][0] == reachable[i] && reachable[i..][1..] == reachable[i + 1..];
        var applied := Apply(tree.items, ops[i], reachable[i]);
        if applied.Err? {
          return Err(applied.error);
        }
        if !Touches(tree.items, ops[i]) {
          Untouched(tree.items, ops[i], reachable[i]);
        } else {
          if tree.cowid == cowid {
            tree.items := applied.value;
          } else {
            tree := new TreeRoot(applied.value, cowid);
          }
        }
        i := i + 1;
      }
      stateMap := tree;
      mutableState := tree;
      return Ok(());
    }
  }

  // ------------------------------------------------------------------------
  // Sequences of batches.
  // ------------------------------------------------------------------------

  /** A batch of this ledger, or a fork of another root drawing from the same source of ids. */
  datatype Turn = OwnBatch(batch: Batch) | ForkElsewhere(root: Cowid)

  ghost predicate WellFormed(turns: seq<Turn>) {
    forall i :: 0 <= i < |turns| && turns[i].OwnBatch? ==> |turns[i].batch.reachable| == |turns[i].batch.ops|
  }

  function AfterTurn(p: Published, turn: Turn): Published
    requires turn.OwnBatch? ==> |turn.batch.reachable| == |turn.batch.ops|
  {
    match turn
    case OwnBatch(batch) => AfterBatch(p, batch)
    case ForkElsewhere(root) => p.(next := NextAfter(p.next, root))
  }

  ghost function AfterTurns(p: Published, turns: seq<Turn>): Published
    requires WellFormed(turns)
    decreases |turns|
  {
    if turns == [] then p else AfterTurns(AfterTurn(p, turns[0]), turns[1..])
  }

  /** No batch meets a root of the largest id. */
  ghost predicate Unsaturated(p: Published, turns: seq<Turn>)
    requires WellFormed(turns)
    decreases |turns|
  {
    turns == [] || ((turns[0].OwnBatch? ==> p.root.cowid < U32_MAX) && Unsaturated(AfterTurn(p, turns[0]), turns[1..]))
  }

  /** The batches that succeed when their turn comes. */
  ghost function Kept(p: Published, turns: seq<Turn>): (kept: seq<Batch>)
    requires WellFormed(turns)
    ensures forall i :: 0 <= i < |kept| ==> |kept[i].reachable| == |kept[i].ops|
    decreases |turns|
  {
    if turns == [] then []
    else
      var rest := Kept(AfterTurn(p, turns[0]), turns[1..]);
      if turns[0].OwnBatch? && Fold(p.root.items, turns[0].batch.ops, turns[0].batch.reachable).Ok? then [turns[0].batch] + rest
      else rest
  }

  ghost function Joined(batches: seq<Batch>): (b: Batch)
    requires forall i :: 0 <= i < |batches| ==> |batches[i].reachable| == |batches[i].ops|
    ensures |b.reachable| == |b.ops|
  {
    if batches == [] then Batch([], [])
    else
      var rest := Joined(batches[1..]);
      Batch(batches[0].ops + rest.ops, batches[0].reachable + rest.reachable)
  }

  /** Below saturation a batch publishes its fold, or nothing when it fails. */
  lemma BatchPublishes(p: Published, b: Batch)
    requires |b.reachable| == |b.ops| && p.root.cowid < U32_MAX
    ensures var r := Fold(p.root.items, b.ops, b.reachable);
            AfterBatch(p, b).root.items == if r.Ok? then r.value else p.root.items
  {
    WorkedIsFold(p.root, CowidFor(p.next, p.root.cowid), b.ops, b.reachable);
  }

  /**
    As long as no batch meets a root of the largest id, running batches one
    after the other is the same as one big batch of those that succeed,
    whatever other ledgers fork in between: boundaries are invisible and a
    failed batch leaves nothing behind.
  */
  lemma {:induction false} BatchesAreOneFold(p: Published, turns: seq<Turn>)
    requires WellFormed(turns) && Unsaturated(p, turns)
    ensures var all := Joined(Kept(p, turns));
            Fold(p.root.items, all.ops, all.reachable) == Ok(AfterTurns(p, turns).root.items)
    decreases |turns|
  {
    if turns != [] {
      var q := AfterTurn(p, turns[0]);
      BatchesAreOneFold(q, turns[1..]);
      if turns[0].OwnBatch? {
        var b := turns[0].batch;
        BatchPublishes(p, b);
        if Fold(p.root.items, b.ops, b.reachable).Ok? {
          var kept := Kept(p, turns);
          assert kept[1..] == Kept(q, turns[1..]);
          var rest := Joined(kept[1..]);
          FoldAppend(p.root.items, b.ops, b.reachable, rest.ops, rest.reachable);
        }
      }
    }
  }

  /** The source of ids is above every root in use, with room for one id a turn. */
  ghost predicate RoomFor(p: Published, turns: seq<Turn>) {
    && p.root.cowid < p.next && p.next + |turns| <= U32_MAX
    && forall i :: 0 <= i < |turns| && turns[i].ForkElsewhere? ==> turns[i].root < p.next
  }

  lemma TurnLeavesRoom(p: Published, turns: seq<Turn>)
    requires WellFormed(turns) && turns != [] && RoomFor(p, turns)
    ensures RoomFor(AfterTurn(p, turns[0]), turns[1..])
  {
    if turns[0].OwnBatch? {
      var b := turns[0].batch;
      WorkedIsFold(p.root, CowidFor(p.next, p.root.cowid), b.ops, b.reachable);
    }
  }

  /** Ids last: starting above every root in use, no batch meets the largest id before that many turns were taken. */
  lemma {:induction false} RoomLasts(p: Published, turns: seq<Turn>)
    requires WellFormed(turns) && RoomFor(p, turns)
    ensures Unsaturated(p, turns)
    decreases |turns|
  {
    if turns != [] {
      TurnLeavesRoom(p, turns);
      RoomLasts(AfterTurn(p, turns[0]), turns[1..]);
    }
  }
}

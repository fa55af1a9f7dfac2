/** Ordered lists without duplicates: what the frontier queues are made of. */
module Lists {

  ghost predicate NoDup<T>(s: seq<T>) {
    forall i, j :: 0 <= i < j < |s| ==> s[i] != s[j]
  }

  /** `a` is `b` with some entries left out, order kept. */
  ghost predicate Sublist<T>(a: seq<T>, b: seq<T>)
    decreases |b|
  {
    if a == [] then true
    else if b == [] then false
    else if a[0] == b[0] then Sublist(a[1..], b[1..])
    else Sublist(a, b[1..])
  }

  /** `s` with every entry of `gone` removed, the rest in place and in order (`retain`). */
  function Minus<T(==)>(s: seq<T>, gone: set<T>): (r: seq<T>)
    ensures |r| <= |s|
  {
    if s == [] then []
    else if s[0] in gone then Minus(s[1..], gone)
    else [s[0]] + Minus(s[1..], gone)
  }

  lemma {:induction false} MinusMember<T>(s: seq<T>, gone: set<T>, x: T)
    ensures x in Minus(s, gone) <==> x in s && x !in gone
  {
    if s != [] {
      MinusMember(s[1..], gone, x);
      assert s == [s[0]] + s[1..];
    }
  }

  lemma {:induction false} MinusNoDup<T>(s: seq<T>, gone: set<T>)
    requires NoDup(s)
    ensures NoDup(Minus(s, gone))
  {
    if s != [] {
      MinusNoDup(s[1..], gone);
      MinusMember(s[1..], gone, s[0]);
    }
  }

  lemma MinusHead<T>(x: T, rest: seq<T>, gone: set<T>)
    ensures Minus([x] + rest, gone) == (if x in gone then [] else [x]) + Minus(rest, gone)
  {
    assert ([x] + rest)[1..] == rest;
  }

  lemma Associative<T>(a: seq<T>, b: seq<T>, c: seq<T>)
    ensures a + b + c == a + (b + c)
  {
  }

  lemma {:induction false} MinusConcat<T>(a: seq<T>, b: seq<T>, gone: set<T>)
    ensures Minus(a + b, gone) == Minus(a, gone) + Minus(b, gone)
  {
    if a == [] {
      assert a + b == b;
    } else {
      hide Minus;
      var x, rest := a[0], a[1..];
      var front := if x in gone then [] else [x];
      assert a == [x] + rest;
      calc {
        Minus(a + b, gone);
        { Associative([x], rest, b); }
        Minus([x] + (rest + b), gone);
        { MinusHead(x, rest + b, gone); }
        front + Minus(rest + b, gone);
        { MinusConcat(rest, b, gone); }
        front + (Minus(rest, gone) + Minus(b, gone));
        { Associative(front, Minus(rest, gone), Minus(b, gone)); }
        front + Minus(rest, gone) + Minus(b, gone);
        { MinusHead(x, rest, gone); }
        Minus(a, gone) + Minus(b, gone);
      }
    }
  }

  /** Removing one entry of a list without duplicates cuts out exactly its place. */
  lemma {:induction false} MinusOne<T>(s: seq<T>, i: nat)
    requires NoDup(s) && i < |s|
    ensures Minus(s, {s[i]}) == s[..i] + s[i + 1..]
  {
    if i == 0 {
      MinusNothing(s[1..], {s[0]});
    } else {
      MinusOne(s[1..], i - 1);
      assert s[..i] == [s[0]] + s[1..][..i - 1] && s[1..][i..] == s[i + 1..];
    }
  }

  lemma {:induction false} MinusNothing<T>(s: seq<T>, gone: set<T>)
    requires forall x :: x in s ==> x !in gone
    ensures Minus(s, gone) == s
  {
    if s != [] {
      MinusNothing(s[1..], gone);
    }
  }

  lemma {:induction false} MinusTwice<T>(s: seq<T>, a: set<T>, b: set<T>)
    ensures Minus(Minus(s, a), b) == Minus(s, a + b)
  {
    if s != [] {
      MinusTwice(s[1..], a, b);
      if s[0] !in a {
        var rest := Minus(s[1..], a);
        assert Minus(s, a) == [s[0]] + rest;
        assert ([s[0]] + rest)[1..] == rest;
      }
    }
  }

  lemma {:induction false} SublistMember<T>(a: seq<T>, b: seq<T>, x: T)
    requires Sublist(a, b) && x in a
    ensures x in b
    decreases |b|
  {
    if a[0] == b[0] {
      if x != a[0] {
        assert x in a[1..];
        SublistMember(a[1..], b[1..], x);
      }
    } else {
      SublistMember(a, b[1..], x);
    }
  }

  lemma {:induction false} SublistTail<T>(a: seq<T>, b: seq<T>)
    requires Sublist(a, b) && a != []
    ensures Sublist(a[1..], b)
    decreases |b|, 1
  {
    if a[0] == b[0] {
      SublistSkip(a[1..], b);
    } else {
      SublistTail(a, b[1..]);
      SublistSkip(a[1..], b);
    }
  }

  /** A sub-list of the tail is a sub-list of the whole. */
  lemma {:induction false} SublistSkip<T>(a: seq<T>, b: seq<T>)
    requires b != [] && Sublist(a, b[1..])
    ensures Sublist(a, b)
    decreases |b|, 0
  {
    if a != [] && a[0] == b[0] {
      SublistTail(a, b[1..]);
    }
  }

  lemma {:induction false} SublistDrop<T>(a: seq<T>, b: seq<T>, n: nat)
    requires Sublist(a, b) && n <= |a|
    ensures Sublist(a[n..], b)
  {
    if n > 0 {
      SublistTail(a, b);
      SublistDrop(a[1..], b, n - 1);
      assert a[1..][n - 1..] == a[n..];
    } else {
      assert a[0..] == a;
    }
  }

  lemma {:induction false} SublistAppend<T>(a: seq<T>, b: seq<T>, c: seq<T>)
    requires Sublist(a, b)
    ensures Sublist(a + c, b + c)
    decreases |b|
  {
    if b == [] {
      assert a + c == c && b + c == c;
      SublistRefl(c);
    } else if a == [] {
      SublistAppend(a, b[1..], c);
      assert (b + c)[1..] == b[1..] + c;
      SublistSkip(a + c, b + c);
    } else if a[0] == b[0] {
      SublistAppend(a[1..], b[1..], c);
      assert (a + c)[1..] == a[1..] + c && (b + c)[1..] == b[1..] + c;
    } else {
      SublistAppend(a, b[1..], c);
      assert (b + c)[1..] == b[1..] + c;
    }
  }

  lemma {:induction false} SublistRefl<T>(a: seq<T>)
    ensures Sublist(a, a)
  {
    if a != [] {
      SublistRefl(a[1..]);
    }
  }

  lemma {:induction false} SublistMinus<T>(a: seq<T>, b: seq<T>, gone: set<T>)
    requires Sublist(a, b)
    ensures Sublist(Minus(a, gone), Minus(b, gone))
    decreases |b|
  {
    if a != [] {
      if a[0] == b[0] {
        SublistMinus(a[1..], b[1..], gone);
      } else {
        SublistMinus(a, b[1..], gone);
        if b[0] !in gone {
          assert Minus(b, gone)[1..] == Minus(b[1..], gone);
          SublistSkip(Minus(a, gone), Minus(b, gone));
        }
      }
    }
  }

  /** Leaving out more entries of a sub-list still gives a sub-list. */
  lemma {:induction false} MinusSublist<T>(a: seq<T>, b: seq<T>, gone: set<T>)
    requires Sublist(a, b)
    ensures Sublist(Minus(a, gone), b)
    decreases |b|
  {
    if a != [] {
      if a[0] == b[0] {
        MinusSublist(a[1..], b[1..], gone);
        if a[0] in gone {
          SublistSkip(Minus(a, gone), b);
        }
      } else {
        MinusSublist(a, b[1..], gone);
        SublistSkip(Minus(a, gone), b);
      }
    }
  }

  lemma {:induction false} SublistNoDup<T>(a: seq<T>, b: seq<T>)
    requires Sublist(a, b) && NoDup(b)
    ensures NoDup(a)
    decreases |b|
  {
    if a != [] {
      if a[0] == b[0] {
        SublistNoDup(a[1..], b[1..]);
        forall j | 0 < j < |a|
          ensures a[0] != a[j]
        {
          SublistMember(a[1..], b[1..], a[j]);
        }
      } else {
        SublistNoDup(a, b[1..]);
      }
    }
  }

  lemma NoDupConcat<T>(a: seq<T>, b: seq<T>)
    ensures NoDup(a + b) <==> NoDup(a) && NoDup(b) && forall x :: x in a ==> x !in b
  {
    if NoDup(a + b) {
      forall i, j | 0 <= i < j < |a|
        ensures a[i] != a[j]
      {
        assert (a + b)[i] != (a + b)[j];
      }
      forall i, j | 0 <= i < j < |b|
        ensures b[i] != b[j]
      {
        assert (a + b)[|a| + i] != (a + b)[|a| + j];
      }
      forall i, j | 0 <= i < |a| && 0 <= j < |b|
        ensures a[i] != b[j]
      {
        assert (a + b)[i] != (a + b)[|a| + j];
      }
    } else {
      var i, j :| 0 <= i < j < |a + b| && (a + b)[i] == (a + b)[j];
      if i < |a| && |a| <= j {
        assert a[i] in a && b[j - |a|] in b;
      }
    }
  }

  lemma NoDupAppend<T>(s: seq<T>, x: T)
    requires NoDup(s) && x !in s
    ensures NoDup(s + [x])
  {
  }
}

/**
  The exact network frontier of one session: needs dispatched to peers
  (`retained`), those of them not yet put on the wire (`unemitted`), needs
  waiting for a slot (`backlog`), the hash view (`pending`) and the rotating
  cursor of timeout recovery.
*/
module Frontiers {
  import opened Identity
  import opened Lists

  const MAX_RETAINED := 768
  const MAX_REPROBES := 12

  datatype TreeKind = StateTree | TransactionTree

  /** One missing node: location, hash and tree together identify it. */
  datatype Need = Need(nodeId: nat, hash: Hash, kind: TreeKind)

  datatype Frontier = Frontier(
    retained: seq<Need>, unemitted: seq<Need>, backlog: seq<Need>, cursor: nat, pending: set<Hash>)

  function Elements(s: seq<Need>): set<Need> {
    set n | n in s
  }

  function Hashes(s: seq<Need>): set<Hash> {
    set n | n in s :: n.hash
  }

  function Empty(): Frontier {
    Frontier([], [], [], 0, {})
  }

  function Refreshed(f: Frontier): Frontier {
    f.(pending := Hashes(f.retained) + Hashes(f.backlog))
  }

  function Normalized(f: Frontier): Frontier {
    f.(cursor := if f.retained == [] then 0 else f.cursor % |f.retained|)
  }

  /** Removes exactly the resolved needs from all three queues. */
  function Retired(f: Frontier, gone: set<Need>): Frontier {
    Refreshed(Normalized(f.(
      retained := Minus(f.retained, gone), unemitted := Minus(f.unemitted, gone), backlog := Minus(f.backlog, gone))))
  }

  /** The backlog after announced needs were queued; recent hashes and known needs are skipped. */
  function Queue(backlog: seq<Need>, retained: seq<Need>, recent: set<Hash>, nodes: seq<Need>): seq<Need>
    decreases |nodes|
  {
    if nodes == [] then backlog
    else
      var n := nodes[0];
      Queue(if n.hash in recent || n in retained || n in backlog then backlog else backlog + [n],
            retained, recent, nodes[1..])
  }

  function Enqueued(f: Frontier, recent: set<Hash>, nodes: seq<Need>): Frontier {
    Refreshed(f.(backlog := Queue(f.backlog, f.retained, recent, nodes)))
  }

  /** How many backlogged needs find a retained slot. */
  function Slots(f: Frontier): (n: nat)
    ensures n <= |f.backlog|
  {
    var capacity := if |f.retained| >= MAX_RETAINED then 0 else MAX_RETAINED - |f.retained|;
    if capacity <= |f.backlog| then capacity else |f.backlog|
  }

  function Dispatched(f: Frontier): Frontier {
    var moved := f.backlog[..Slots(f)];
    Refreshed(Normalized(f.(
      retained := f.retained + moved, unemitted := f.unemitted + moved, backlog := f.backlog[Slots(f)..])))
  }

  /** Drops what was never requested from a peer. */
  function TailDiscarded(f: Frontier): Frontier {
    Refreshed(Normalized(f.(
      retained := Minus(f.retained, Elements(f.unemitted) + Elements(f.backlog)), unemitted := [], backlog := [])))
  }

  /** The length of the longest same-kind prefix within `max`. */
  function SameKind(s: seq<Need>, kind: TreeKind, max: nat): (n: nat)
    ensures n <= |s| && n <= max
  {
    if max == 0 || s == [] || s[0].kind != kind then 0 else 1 + SameKind(s[1..], kind, max - 1)
  }

  /** The next normal request batch. */
  function NextBatch(f: Frontier, max: nat): seq<Need> {
    if f.unemitted == [] then [] else f.unemitted[..SameKind(f.unemitted, f.unemitted[0].kind, max)]
  }

  function Emitted(f: Frontier, max: nat): Frontier {
    f.(unemitted := f.unemitted[|NextBatch(f, max)|..])
  }

  // ------------------------------------------------------------------------
  // What every operation keeps.
  // ------------------------------------------------------------------------

  /**
    No need is tracked twice, what is unemitted is retained and in dispatch
    order, the hash view is exact, the cursor is in range, and the retained
    part is bounded.
  */
  ghost predicate Tidy(f: Frontier) {
    && NoDup(f.retained + f.backlog)
    && Sublist(f.unemitted, f.retained)
    && f.pending == Hashes(f.retained) + Hashes(f.backlog)
    && (f.retained == [] ==> f.cursor == 0)
    && (f.retained != [] ==> f.cursor < |f.retained|)
    && |f.retained| <= MAX_RETAINED
  }

  lemma EmptyTidy()
    ensures Tidy(Empty())
  {
  }

  lemma RetiredTidy(f: Frontier, gone: set<Need>)
    requires Tidy(f)
    ensures Tidy(Retired(f, gone))
  {
    MinusConcat(f.retained, f.backlog, gone);
    MinusNoDup(f.retained + f.backlog, gone);
    SublistMinus(f.unemitted, f.retained, gone);
  }

  /** Retirement is exact: every other need, same hash or not, stays where it was. */
  lemma RetiredExactly(f: Frontier, gone: set<Need>, n: Need)
    ensures n in Retired(f, gone).retained <==> n in f.retained && n !in gone
    ensures n in Retired(f, gone).unemitted <==> n in f.unemitted && n !in gone
    ensures n in Retired(f, gone).backlog <==> n in f.backlog && n !in gone
  {
    MinusMember(f.retained, gone, n);
    MinusMember(f.unemitted, gone, n);
    MinusMember(f.backlog, gone, n);
  }

  /** Retiring one retained need cuts out its own place only. */
  lemma RetireOneInPlace(f: Frontier, i: nat)
    requires Tidy(f) && i < |f.retained|
    ensures var g := Retired(f, {f.retained[i]});
            g.retained == f.retained[..i] + f.retained[i + 1..] && g.backlog == f.backlog
  {
    NoDupConcat(f.retained, f.backlog);
    MinusOne(f.retained, i);
    MinusNothing(f.backlog, {f.retained[i]});
  }

  /** Queueing appends, never duplicates, and loses nothing it does not know already. */
  lemma {:induction false} QueueKeeps(backlog: seq<Need>, retained: seq<Need>, recent: set<Hash>, nodes: seq<Need>)
    requires NoDup(retained + backlog)
    ensures var q := Queue(backlog, retained, recent, nodes);
            && NoDup(retained + q)
            && |backlog| <= |q| && q[..|backlog|] == backlog
            && (forall n :: n in nodes ==> n in retained || n in q || n.hash in recent)
            && (forall n :: n in q[|backlog|..] ==> n in nodes && n.hash !in recent)
            && Sublist(q[|backlog|..], nodes)
    decreases |nodes|
  {
    if nodes == [] {
      assert backlog[|backlog|..] == [];
    } else {
      var n := nodes[0];
      var skip := n.hash in recent || n in retained || n in backlog;
      var next := if skip then backlog else backlog + [n];
      if !skip {
        NoDupAppend(retained + backlog, n);
        assert retained + next == retained + backlog + [n];
      }
      QueueKeeps(next, retained, recent, nodes[1..]);
      var q := Queue(next, retained, recent, nodes[1..]);
      if skip {
        SublistSkip(q[|backlog|..], nodes);
      } else {
        assert q[..|backlog|] == q[..|next|][..|backlog|];
        assert q[|backlog|] == n by { assert q[..|next|][|backlog|] == n; }
        assert q[|backlog|..] == [n] + q[|next|..];
        assert q[|backlog|..][1..] == q[|next|..];
        assert n in q;
      }
    }
  }

  lemma EnqueuedTidy(f: Frontier, recent: set<Hash>, nodes: seq<Need>)
    requires Tidy(f)
    ensures Tidy(Enqueued(f, recent, nodes))
  {
    QueueKeeps(f.backlog, f.retained, recent, nodes);
  }

  lemma DispatchedTidy(f: Frontier)
    requires Tidy(f)
    ensures Tidy(Dispatched(f))
    ensures Dispatched(f).retained + Dispatched(f).backlog == f.retained + f.backlog
    ensures Slots(f) == 0 ==> Dispatched(f) == f
  {
    var n := Slots(f);
    var moved, left := f.backlog[..n], f.backlog[n..];
    assert f.retained + moved + left == f.retained + f.backlog by {
      assert f.backlog == moved + left;
    }
    SublistAppend(f.unemitted, f.retained, moved);
    var g := Dispatched(f);
    assert g.retained == f.retained + moved && g.backlog == left && g.unemitted == f.unemitted + moved;
    CursorInRange(f.cursor, |g.retained|);
    if n == 0 {
      assert g.retained == f.retained && g.unemitted == f.unemitted && g.backlog == f.backlog;
      if f.retained != [] {
        Wrap(f.cursor, |f.retained|);
      }
    }
  }

  lemma CursorInRange(cursor: nat, len: nat)
    ensures len > 0 ==> 0 <= cursor % len < len
  {
  }

  lemma TailDiscardedTidy(f: Frontier)
    requires Tidy(f)
    ensures Tidy(TailDiscarded(f))
    ensures forall n :: n in TailDiscarded(f).retained <==> n in f.retained && n !in f.unemitted
  {
    var gone := Elements(f.unemitted) + Elements(f.backlog);
    NoDupConcat(f.retained, f.backlog);
    MinusNoDup(f.retained, gone);
    forall n
      ensures n in TailDiscarded(f).retained <==> n in f.retained && n !in f.unemitted
    {
      MinusMember(f.retained, gone, n);
    }
    assert TailDiscarded(f).retained + [] == TailDiscarded(f).retained;
  }

  /** A batch is the front of the queue, of one tree kind, within its limit, and as long as it can be. */
  lemma {:induction false} SameKindIs(s: seq<Need>, kind: TreeKind, max: nat)
    ensures var n := SameKind(s, kind, max);
            && (forall i :: 0 <= i < n ==> s[i].kind == kind)
            && (n == max || n == |s| || s[n].kind != kind)
  {
    if max > 0 && s != [] && s[0].kind == kind {
      SameKindIs(s[1..], kind, max - 1);
    }
  }

  lemma EmittedTidy(f: Frontier, max: nat)
    requires Tidy(f)
    ensures Tidy(Emitted(f, max))
    ensures NextBatch(f, max) + Emitted(f, max).unemitted == f.unemitted
    ensures |NextBatch(f, max)| <= max
    ensures forall n, m :: n in NextBatch(f, max) && m in NextBatch(f, max) ==> n.kind == m.kind
    ensures f.unemitted != [] && max > 0 ==> NextBatch(f, max) != []
  {
    SublistDrop(f.unemitted, f.retained, |NextBatch(f, max)|);
    if f.unemitted != [] {
      SameKindIs(f.unemitted, f.unemitted[0].kind, max);
    }
  }

  // ------------------------------------------------------------------------
  // Timeout recovery.
  // ------------------------------------------------------------------------

  /** The next bounded retry batch: consecutive retained needs from the cursor, wrapping around. */
  function RecoveryBatch(f: Frontier): seq<Need> {
    var len := |f.retained|;
    if len == 0 then []
    else
      var start := f.cursor % len;
      seq(RecoverySize(len), i requires 0 <= i < RecoverySize(len) => f.retained[(start + i) % len])
  }

  function RecoverySize(len: nat): nat {
    if len <= MAX_REPROBES then len else MAX_REPROBES
  }

  function Rotated(f: Frontier): Frontier {
    var len := |f.retained|;
    if len == 0 then f else f.(cursor := (f.cursor % len + RecoverySize(len)) % len)
  }

  lemma Wrap(x: nat, len: nat)
    requires 0 < len && x < 2 * len
    ensures x % len == if x < len then x else x - len
  {
    if x >= len {
      assert x == len + (x - len);
      assert (len + (x - len)) % len == x - len;
    }
  }

  lemma RotatedTidy(f: Frontier)
    requires Tidy(f)
    ensures Tidy(Rotated(f))
  {
    if f.retained != [] {
      RotatedTo(f);
    }
  }

  /** The place of the batch's `i`-th entry. */
  function Place(f: Frontier, i: nat): nat {
    if f.cursor + i < |f.retained| then f.cursor + i else f.cursor + i - |f.retained|
  }

  lemma BatchAt(f: Frontier, i: nat)
    requires f.cursor < |f.retained| && i < RecoverySize(|f.retained|)
    ensures |RecoveryBatch(f)| == RecoverySize(|f.retained|)
    ensures Place(f, i) < |f.retained| && RecoveryBatch(f)[i] == f.retained[Place(f, i)]
  {
    Wrap(f.cursor, |f.retained|);
    Wrap(f.cursor + i, |f.retained|);
  }

  lemma RotatedTo(f: Frontier)
    requires f.cursor < |f.retained|
    ensures Rotated(f) == f.(cursor := Place(f, RecoverySize(|f.retained|)))
    ensures Rotated(f).cursor < |f.retained|
  {
    Wrap(f.cursor, |f.retained|);
    Wrap(f.cursor + RecoverySize(|f.retained|), |f.retained|);
  }

  /** A batch holds min(len, 12) distinct retained needs. */
  lemma RecoveryBatchDistinct(f: Frontier)
    requires Tidy(f)
    ensures |RecoveryBatch(f)| == RecoverySize(|f.retained|)
    ensures NoDup(RecoveryBatch(f))
    ensures forall n :: n in RecoveryBatch(f) ==> n in f.retained
  {
    if f.retained != [] {
      BatchAt(f, 0);
      forall i | 0 <= i < RecoverySize(|f.retained|)
        ensures Place(f, i) < |f.retained| && RecoveryBatch(f)[i] == f.retained[Place(f, i)]
      {
        BatchAt(f, i);
      }
      NoDupConcat(f.retained, f.backlog);
      hide RecoveryBatch;
    }
  }

  /** The batches of `k` consecutive timeouts on an unchanged frontier. */
  function RecoveryBatches(f: Frontier, k: nat): seq<seq<Need>>
    decreases k
  {
    if k == 0 then [] else [RecoveryBatch(f)] + RecoveryBatches(Rotated(f), k - 1)
  }

  /** How far ahead of the cursor an index lies. */
  function Ahead(f: Frontier, i: nat): nat
    requires i < |f.retained| && f.cursor < |f.retained|
  {
    if i >= f.cursor then i - f.cursor else i + |f.retained| - f.cursor
  }

  /** An index is retried as soon as the batches have advanced past it. */
  lemma {:induction false} RetriedInTime(f: Frontier, i: nat, k: nat)
    requires i < |f.retained| && f.cursor < |f.retained|
    requires Ahead(f, i) < k * RecoverySize(|f.retained|)
    ensures exists j :: 0 <= j < |RecoveryBatches(f, k)| && f.retained[i] in RecoveryBatches(f, k)[j]
    decreases k
  {
    hide RecoveryBatch, Rotated;
    var size, o := RecoverySize(|f.retained|), Ahead(f, i);
    var all := RecoveryBatches(f, k);
    if k > 0 {
      assert all[0] == RecoveryBatch(f);
      if o < size {
        BatchAt(f, o);
        assert RecoveryBatch(f)[o] == f.retained[i];
      } else {
        var g := Rotated(f);
        RotatedTo(f);
        assert Ahead(g, i) == o - size;
        assert (k - 1) * size == k * size - size;
        RetriedInTime(g, i, k - 1);
        var j :| 0 <= j < |RecoveryBatches(g, k - 1)| && f.retained[i] in RecoveryBatches(g, k - 1)[j];
        assert all[j + 1] == RecoveryBatches(g, k - 1)[j];
      }
    }
  }

  /** Whatever the cursor, ceil(len / 12) consecutive batches retry every retained need. */
  lemma RecoveryCoversAll(f: Frontier, n: Need)
    requires Tidy(f) && n in f.retained
    ensures var k := (|f.retained| + MAX_REPROBES - 1) / MAX_REPROBES;
            exists j :: 0 <= j < |RecoveryBatches(f, k)| && n in RecoveryBatches(f, k)[j]
  {
    var i :| 0 <= i < |f.retained| && f.retained[i] == n;
    assert f.cursor < |f.retained|;
    hide RecoveryBatches, Tidy;
    EnoughBatches(|f.retained|);
    RetriedInTime(f, i, (|f.retained| + MAX_REPROBES - 1) / MAX_REPROBES);
  }

  lemma EnoughBatches(len: nat)
    requires len > 0
    ensures len <= (len + MAX_REPROBES - 1) / MAX_REPROBES * RecoverySize(len)
  {
    var k := (len + 11) / 12;
    if len <= 12 {
      assert k == 1;
    }
  }
}

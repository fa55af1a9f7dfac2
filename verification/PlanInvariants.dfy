/**
  What every operation of the session plan keeps, and what a turn may do to
  the work the engine announced.
*/
module PlanInvariants {
  import opened Identity
  import opened Frontiers
  import opened Mailbox
  import opened PlanSpec

  /** Waiting reads have distinct hashes, none of them in flight. */
  ghost predicate ReadsTidy(pending: map<Hash, OperationRef>, backlog: seq<ReadNeed>) {
    && (forall i, j :: 0 <= i < j < |backlog| ==> backlog[i].hash != backlog[j].hash)
    && (forall i :: 0 <= i < |backlog| ==> backlog[i].hash !in pending)
  }

  ghost predicate PlanOk(s: PlanState) {
    && Tidy(s.net)
    && ReadsTidy(s.pendingReads, s.readBacklog)
    && |s.pendingReads| <= s.readsCap
  }

  lemma NewPlanOk(maxPackets: nat, maxBytes: nat, maxTimeouts: nat, readsCap: nat)
    ensures PlanOk(NewPlan(maxPackets, maxBytes, maxTimeouts, readsCap))
  {
    EmptyTidy();
  }

  // ------------------------------------------------------------------------
  // Reads.
  // ------------------------------------------------------------------------

  /** The counter after `n` draws. */
  ghost function Drawn(ids: nat, n: nat): nat
    decreases n
  {
    if n == 0 then ids else Drawn(Succ(ids), n - 1)
  }

  lemma {:induction false} DrawnAdds(ids: nat, m: nat, n: nat)
    ensures Drawn(ids, m + n) == Drawn(Drawn(ids, m), n)
    decreases m
  {
    if m > 0 {
      DrawnAdds(Succ(ids), m - 1, n);
    }
  }

  lemma {:induction false} DrawnNth(j: nat, n: nat)
    ensures Drawn(NthId(j), n) == NthId(j + n)
    decreases n
  {
    if n > 0 {
      DrawnNth(j + 1, n - 1);
    }
  }

  lemma TwoDraws(ids: nat)
    ensures AfterMint(ids) == Drawn(ids, 2)
  {
    assert Drawn(ids, 2) == Drawn(Succ(ids), 1) == Drawn(Succ(Succ(ids)), 0);
  }

  /** The requests are freshly minted operations of one kind, in counter order. */
  ghost predicate MintedFrom(requests: seq<ReadRequest>, session: SessionRef, kind: OperationKind, ids: nat) {
    forall i :: 0 <= i < |requests| ==> requests[i].op == Mint(session, kind, Drawn(ids, 2 * i))
  }

  ghost function Keys(r: ReadRound): set<Hash> {
    r.pending.Keys + ReadHashes(r.backlog)
  }

  /** What a round of reads keeps while it submits, from the state `r0` it started in. */
  ghost predicate RoundKeeps(r0: ReadRound, r: ReadRound, ctx: TurnContext, cap: nat) {
    && ReadsTidy(r.pending, r.backlog)
    && (|r0.pending| <= cap ==> |r.pending| <= cap)
    && Minting(r0, r, ctx)
    && Flying(r0, r)
  }

  lemma SubmittedKeeps(r: ReadRound, need: ReadNeed, ctx: TurnContext, cap: nat)
    requires need.hash !in r.pending && |r.pending| < cap
    requires ReadsTidy(r.pending[need.hash := Mint(ctx.session, Read, r.ids)], r.backlog)
    ensures RoundKeeps(r, Submitted(r, need, ctx), ctx, cap)
    ensures Submitted(r, need, ctx).pending.Keys == r.pending.Keys + {need.hash}
  {
    var t := Submitted(r, need, ctx);
    TwoDraws(r.ids);
    assert t.requests[|r.requests|..] == [t.requests[|r.requests|]];
    assert t.pending.Keys == r.pending.Keys + {need.hash};
    assert t.requests[|r.requests|].key == need.hash;
  }

  /** Two consecutive runs of minted requests are one. */
  lemma MintedConcat(a: seq<ReadRequest>, b: seq<ReadRequest>, session: SessionRef, kind: OperationKind, ids: nat)
    requires MintedFrom(a, session, kind, ids) && MintedFrom(b, session, kind, Drawn(ids, 2 * |a|))
    ensures MintedFrom(a + b, session, kind, ids)
  {
    forall i | 0 <= i < |a + b|
      ensures (a + b)[i].op == Mint(session, kind, Drawn(ids, 2 * i))
    {
      if i >= |a| {
        DrawnAdds(ids, 2 * |a|, 2 * (i - |a|));
        assert (a + b)[i] == b[i - |a|];
      }
    }
  }

  /** The minted part of `RoundKeeps`. */
  ghost predicate Minting(r0: ReadRound, r: ReadRound, ctx: TurnContext) {
    && r0.requests <= r.requests
    && r.ids == Drawn(r0.ids, 2 * (|r.requests| - |r0.requests|))
    && MintedFrom(r.requests[|r0.requests|..], ctx.session, Read, r0.ids)
  }

  lemma MintingTrans(r0: ReadRound, r1: ReadRound, r2: ReadRound, ctx: TurnContext)
    requires Minting(r0, r1, ctx) && Minting(r1, r2, ctx)
    ensures Minting(r0, r2, ctx)
  {
    hide MintedFrom, Drawn;
    var a, b, c := |r0.requests|, |r1.requests|, |r2.requests|;
    assert r2.requests[a..] == r1.requests[a..] + r2.requests[b..] by {
      assert r2.requests[..b] == r1.requests;
    }
    MintedConcat(r1.requests[a..], r2.requests[b..], ctx.session, Read, r0.ids);
    DrawnAdds(r0.ids, 2 * (b - a), 2 * (c - b));
  }

  /** The in-flight part of `RoundKeeps`: old reads stay, new ones were requested. */
  ghost predicate Flying(r0: ReadRound, r: ReadRound) {
    && r0.requests <= r.requests
    && (forall h :: h in r0.pending ==> h in r.pending && r.pending[h] == r0.pending[h])
    && (forall h :: h in r.pending && h !in r0.pending ==> Requested(r, |r0.requests|, h))
  }

  ghost predicate Requested(r: ReadRound, from: nat, h: Hash)
    requires h in r.pending
  {
    exists i :: from <= i < |r.requests| && r.requests[i].key == h && r.requests[i].op == r.pending[h]
  }

  lemma FlyingTrans(r0: ReadRound, r1: ReadRound, r2: ReadRound)
    requires Flying(r0, r1) && Flying(r1, r2)
    ensures Flying(r0, r2)
  {
    forall h | h in r2.pending && h !in r0.pending
      ensures Requested(r2, |r0.requests|, h)
    {
      if h in r1.pending {
        var i :| |r0.requests| <= i < |r1.requests| && r1.requests[i].key == h && r1.requests[i].op == r1.pending[h];
        assert r2.requests[i] == r1.requests[i];
      } else {
        var i :| |r1.requests| <= i < |r2.requests| && r2.requests[i].key == h && r2.requests[i].op == r2.pending[h];
      }
    }
  }

  lemma RoundKeepsTrans(r0: ReadRound, r1: ReadRound, r2: ReadRound, ctx: TurnContext, cap: nat)
    requires RoundKeeps(r0, r1, ctx, cap) && RoundKeeps(r1, r2, ctx, cap)
    ensures RoundKeeps(r0, r2, ctx, cap)
  {
    hide Minting, Flying, ReadsTidy;
    MintingTrans(r0, r1, r2, ctx);
    FlyingTrans(r0, r1, r2);
  }

  lemma RoundKeepsRefl(r: ReadRound, ctx: TurnContext, cap: nat)
    requires ReadsTidy(r.pending, r.backlog)
    ensures RoundKeeps(r, r, ctx, cap)
  {
  }

  lemma ReadHashesHead(backlog: seq<ReadNeed>)
    requires backlog != []
    ensures ReadHashes(backlog) == {backlog[0].hash} + ReadHashes(backlog[1..])
  {
    assert backlog == [backlog[0]] + backlog[1..];
  }

  lemma ReadHashesAppend(backlog: seq<ReadNeed>, need: ReadNeed)
    ensures ReadHashes(backlog + [need]) == ReadHashes(backlog) + {need.hash}
  {
    assert need in backlog + [need];
  }

  /** Draining submits waiting reads as fresh operations and keeps the rest tidy. */
  lemma {:induction false} DrainedKeeps(r: ReadRound, ctx: TurnContext, cap: nat)
    requires ReadsTidy(r.pending, r.backlog)
    ensures RoundKeeps(r, Drained(r, ctx, cap), ctx, cap)
    decreases |r.backlog|
  {
    if r.backlog == [] || |r.pending| >= cap {
      RoundKeepsRefl(r, ctx, cap);
    } else {
      var need, popped := r.backlog[0], r.(backlog := r.backlog[1..]);
      PoppedTidy(r, Mint(ctx.session, Read, r.ids));
      hide ReadsTidy;
      SubmittedKeeps(popped, need, ctx, cap);
      var next := Submitted(popped, need, ctx);
      FromPopped(r, popped, next, ctx, cap);
      assert ReadsTidy(next.pending, next.backlog);
      hide RoundKeeps;
      DrainedKeeps(next, ctx, cap);
      RoundKeepsTrans(r, next, Drained(next, ctx, cap), ctx, cap);
    }
  }

  lemma PoppedTidy(r: ReadRound, op: OperationRef)
    requires ReadsTidy(r.pending, r.backlog) && r.backlog != []
    ensures r.backlog[0].hash !in r.pending
    ensures ReadsTidy(r.pending[r.backlog[0].hash := op], r.backlog[1..])
  {
  }

  lemma FromPopped(r: ReadRound, popped: ReadRound, next: ReadRound, ctx: TurnContext, cap: nat)
    requires popped == r.(backlog := popped.backlog) && RoundKeeps(popped, next, ctx, cap)
    ensures RoundKeeps(r, next, ctx, cap)
  {
  }

  /** Draining forgets no hash. */
  lemma {:induction false} DrainedKeys(r: ReadRound, ctx: TurnContext, cap: nat)
    ensures Keys(Drained(r, ctx, cap)) == Keys(r)
    decreases |r.backlog|
  {
    hide ReadHashes, Mint, AfterMint;
    if r.backlog != [] && |r.pending| < cap {
      var next := Submitted(r.(backlog := r.backlog[1..]), r.backlog[0], ctx);
      DrainedKeys(next, ctx, cap);
      ReadHashesHead(r.backlog);
      assert next.pending.Keys == r.pending.Keys + {r.backlog[0].hash};
    }
  }

  /** Announced reads have distinct hashes, none of them waiting already. */
  ghost predicate Apart(needs: seq<ReadNeed>, backlog: seq<ReadNeed>) {
    && (forall i, j :: 0 <= i < j < |needs| ==> needs[i].hash != needs[j].hash)
    && (forall i :: 0 <= i < |needs| ==> needs[i].hash !in ReadHashes(backlog))
  }

  lemma ApartTail(needs: seq<ReadNeed>, backlog: seq<ReadNeed>)
    requires needs != [] && Apart(needs, backlog)
    ensures needs[0].hash !in ReadHashes(backlog)
    ensures Apart(needs[1..], backlog) && Apart(needs[1..], backlog + [needs[0]])
  {
    ReadHashesAppend(backlog, needs[0]);
    hide ReadHashes;
  }

  /** Admitting submits reads up to the cap as fresh operations; the rest waits. */
  lemma {:induction false} AdmittedKeeps(r: ReadRound, needs: seq<ReadNeed>, ctx: TurnContext, cap: nat)
    requires ReadsTidy(r.pending, r.backlog) && Apart(needs, r.backlog)
    ensures RoundKeeps(r, Admitted(r, needs, ctx, cap), ctx, cap)
    decreases |needs|
  {
    if needs == [] {
      RoundKeepsRefl(r, ctx, cap);
    } else {
      hide RoundKeeps, Apart, ReadsTidy, ReadHashes;
      var need := needs[0];
      ApartTail(needs, r.backlog);
      if need.hash in r.pending {
        AdmittedKeeps(r, needs[1..], ctx, cap);
      } else if |r.pending| >= cap {
        var next := r.(backlog := r.backlog + [need]);
        WaitingTidy(r, need);
        AdmittedKeeps(next, needs[1..], ctx, cap);
        FromPopped(r, next, Admitted(next, needs[1..], ctx, cap), ctx, cap);
      } else {
        var next := Submitted(r, need, ctx);
        FlightTidy(r, need.hash, Mint(ctx.session, Read, r.ids));
        SubmittedKeeps(r, need, ctx, cap);
        KeepsTidy(r, next, ctx, cap);
        AdmittedKeeps(next, needs[1..], ctx, cap);
        RoundKeepsTrans(r, next, Admitted(next, needs[1..], ctx, cap), ctx, cap);
      }
    }
  }

  lemma KeepsTidy(r0: ReadRound, r: ReadRound, ctx: TurnContext, cap: nat)
    requires RoundKeeps(r0, r, ctx, cap)
    ensures ReadsTidy(r.pending, r.backlog)
  {
  }

  lemma FlightTidy(r: ReadRound, h: Hash, op: OperationRef)
    requires ReadsTidy(r.pending, r.backlog) && h !in ReadHashes(r.backlog)
    ensures ReadsTidy(r.pending[h := op], r.backlog)
  {
    forall i | 0 <= i < |r.backlog|
      ensures r.backlog[i].hash !in r.pending[h := op]
    {
      assert r.backlog[i] in r.backlog;
    }
  }

  /** Admitting keeps every announced hash in flight or waiting. */
  lemma {:induction false} AdmittedKeys(r: ReadRound, needs: seq<ReadNeed>, ctx: TurnContext, cap: nat)
    ensures Keys(Admitted(r, needs, ctx, cap)) == Keys(r) + ReadHashes(needs)
    decreases |needs|
  {
    if needs != [] {
      ReadHashesHead(needs);
      var need := needs[0];
      if need.hash in r.pending {
        AdmittedKeys(r, needs[1..], ctx, cap);
      } else if |r.pending| >= cap {
        ReadHashesAppend(r.backlog, need);
        AdmittedKeys(r.(backlog := r.backlog + [need]), needs[1..], ctx, cap);
      } else {
        var next := Submitted(r, need, ctx);
        AdmittedKeys(next, needs[1..], ctx, cap);
        assert next.pending.Keys == r.pending.Keys + {need.hash};
      }
    }
  }

  lemma WaitingTidy(r: ReadRound, need: ReadNeed)
    requires ReadsTidy(r.pending, r.backlog) && need.hash !in r.pending && need.hash !in ReadHashes(r.backlog)
    ensures ReadsTidy(r.pending, r.backlog + [need])
  {
    forall i | 0 <= i < |r.backlog|
      ensures r.backlog[i].hash != need.hash
    {
      assert r.backlog[i] in r.backlog;
    }
  }

  /** Deferring keeps every announced hash in flight or waiting, and what waited keeps its place. */
  lemma {:induction false} DeferredKeeps(backlog: seq<ReadNeed>, pending: map<Hash, OperationRef>, needs: seq<ReadNeed>)
    requires ReadsTidy(pending, backlog)
    ensures var b := DeferredReads(backlog, pending, needs);
            && ReadsTidy(pending, b)
            && backlog <= b
            && pending.Keys + ReadHashes(b) == pending.Keys + ReadHashes(backlog) + ReadHashes(needs)
    decreases |needs|
  {
    if needs == [] {
      assert ReadHashes(needs) == {};
    } else {
      hide ReadHashes, ReadsTidy;
      ReadHashesHead(needs);
      var need := needs[0];
      if need.hash in pending || need.hash in ReadHashes(backlog) {
        DeferredKeeps(backlog, pending, needs[1..]);
      } else {
        WaitingTidy(ReadRound(pending, backlog, 0, []), need);
        ReadHashesAppend(backlog, need);
        DeferredKeeps(backlog + [need], pending, needs[1..]);
      }
    }
  }

  /** What a reprobe keeps: old probes stay, new ones are fresh operations for the batch's needs. */
  ghost predicate ProbeKeeps(p0: Probing, p: Probing, ctx: TurnContext) {
    && p0.requests <= p.requests
    && p.ids == Drawn(p0.ids, 2 * (|p.requests| - |p0.requests|))
    && MintedFrom(p.requests[|p0.requests|..], ctx.session, RecoveryRead, p0.ids)
    && (forall op :: op in p.inFlight && (op !in p0.inFlight || p.inFlight[op] != p0.inFlight[op]) ==>
         exists i :: |p0.requests| <= i < |p.requests| && p.requests[i].op == op)
  }

  lemma {:induction false} ProbedKeeps(p: Probing, needs: seq<Need>, ordinary: nat, cap: nat, ctx: TurnContext, ledgerSeq: nat)
    ensures ProbeKeeps(p, Probed(p, needs, ordinary, cap, ctx, ledgerSeq), ctx)
    decreases |needs|
  {
    if needs != [] {
      if AlreadyProbed(p, needs[0]) || ordinary + |p.inFlight| + |p.requests| >= cap {
        ProbedKeeps(p, needs[1..], ordinary, cap, ctx, ledgerSeq);
      } else {
        var op := Mint(ctx.session, RecoveryRead, p.ids);
        var request := ReadRequest(op, needs[0].hash, ledgerSeq, ctx.storeGeneration, ctx.priority);
        var next := Probing(p.inFlight[op := needs[0]], AfterMint(p.ids), p.requests + [request]);
        var last := Probed(next, needs[1..], ordinary, cap, ctx, ledgerSeq);
        ProbedKeeps(next, needs[1..], ordinary, cap, ctx, ledgerSeq);
        ProbeStep(p, next, last, op, ctx);
      }
    }
  }

  lemma ProbeStep(p: Probing, next: Probing, last: Probing, op: OperationRef, ctx: TurnContext)
    requires op == Mint(ctx.session, RecoveryRead, p.ids)
    requires |next.requests| == |p.requests| + 1 && p.requests <= next.requests
    requires next.requests[|p.requests|].op == op && next.ids == AfterMint(p.ids)
    requires forall o :: o in next.inFlight && o != op ==> o in p.inFlight && next.inFlight[o] == p.inFlight[o]
    requires ProbeKeeps(next, last, ctx)
    ensures ProbeKeeps(p, last, ctx)
  {
    var a, c := |p.requests|, |last.requests|;
    TwoDraws(p.ids);
    DrawnAdds(p.ids, 2, 2 * (c - a - 1));
    forall i | 0 <= i < c - a
      ensures last.requests[a..][i].op == Mint(ctx.session, RecoveryRead, Drawn(p.ids, 2 * i))
    {
      if i == 0 {
        assert last.requests[a] == next.requests[a];
      } else {
        DrawnAdds(p.ids, 2, 2 * (i - 1));
        assert last.requests[a..][i] == last.requests[a + 1..][i - 1];
      }
    }
    assert last.requests[a] == next.requests[a];
  }

  // ------------------------------------------------------------------------
  // Packets and peer credit.
  // ------------------------------------------------------------------------

  /** Crediting keeps each peer's best score, and neither order nor repetition matters. */
  lemma ScoresMerge(a: map<PeerId, int>, b: map<PeerId, int>, c: map<PeerId, int>)
    ensures MergeScores(a, b) == MergeScores(b, a)
    ensures MergeScores(MergeScores(a, b), c) == MergeScores(a, MergeScores(b, c))
    ensures MergeScores(a, a) == a
    ensures forall p :: p in a ==> p in MergeScores(a, b) && MergeScores(a, b)[p] >= a[p]
    ensures forall p :: p in MergeScores(a, b) ==>
              (p in a && MergeScores(a, b)[p] == a[p]) || (p in b && MergeScores(a, b)[p] == b[p])
  {
    ScoresAssociate(a, b, c);
    ScoresCommute(a, b);
  }

  lemma ScoresAssociate(a: map<PeerId, int>, b: map<PeerId, int>, c: map<PeerId, int>)
    ensures MergeScores(MergeScores(a, b), c) == MergeScores(a, MergeScores(b, c))
  {
    var left, right := MergeScores(MergeScores(a, b), c), MergeScores(a, MergeScores(b, c));
    assert left.Keys == a.Keys + b.Keys + c.Keys == right.Keys;
  }

  lemma ScoresCommute(a: map<PeerId, int>, b: map<PeerId, int>)
    ensures MergeScores(a, b) == MergeScores(b, a)
  {
    assert a.Keys + b.Keys == b.Keys + a.Keys;
  }

  /** Feeding takes the oldest packets, one per answer, and leaves the rest in order. */
  lemma {:induction false} PacketsFed(f: Feeding, rooted: bool, feeds: seq<PacketFeed>)
    ensures var g := FedPackets(f, rooted, feeds);
            var n := if !rooted then 0 else if |feeds| <= |f.mail.queue| then |feeds| else |f.mail.queue|;
            g.mail.queue == f.mail.queue[n..] && (Exact(f.mail) ==> Exact(g.mail))
    decreases |feeds|
  {
    if feeds != [] && rooted && f.mail.queue != [] {
      if Exact(f.mail) {
        PopKeepsExact(f.mail);
      }
      hide Exact, MergeScores;
      PacketsFed(Feeding(Popped(f.mail), Merged(f.feed, feeds[0])), rooted, feeds[1..]);
    }
  }
}

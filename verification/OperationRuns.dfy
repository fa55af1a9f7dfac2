/**
  The operations a plan dispatches, over whole runs: each is accepted at most
  as often as it was issued, reads are owed until they settle, and a plan is
  durable only after its final batch went through the whole protocol.
*/
module OperationRuns {
  import opened Basics
  import opened Identity
  import opened Frontiers
  import opened PlanSpec
  import opened PlanInvariants
  import opened PlanTurns
  import opened PlanRuns
  import opened FrontierRuns

  // ------------------------------------------------------------------------
  // Issued, in flight, accepted.
  // ------------------------------------------------------------------------

  function RequestOps(requests: seq<ReadRequest>): seq<OperationRef> {
    if requests == [] then [] else [requests[0].op] + RequestOps(requests[1..])
  }

  function BatchOps(batch: WriteBatch): seq<OperationRef> {
    [batch.op] + if batch.fence.Some? then [batch.fence.value] else []
  }

  function TurnOps(turn: Option<PlanTurn>): seq<OperationRef> {
    if turn.Some? && turn.value.Reads? then RequestOps(turn.value.requests)
    else if turn.Some? && turn.value.Persist? then BatchOps(turn.value.batch)
    else []
  }

  /** The operations a step hands out. */
  ghost function IssuedBy(w: World, op: Op): seq<OperationRef>
    requires Legal(op)
  {
    if op.Turn? then TurnOps(TurnOf(w, op).turn)
    else if op.ReprobeBatch? then RequestOps(ProbeOf(w, op).requests)
    else []
  }

  /** The completion a step accepts, if any: one not answered with stale. */
  ghost function AcceptedBy(s: PlanState, op: Op): seq<OperationRef> {
    if op.ReadDone? && OnRead(s, op.op, op.apply).outcome == ReadApplied then [op.op]
    else if op.WriteDone? && OnWrite(s, op.op, op.written).outcome != StaleWrite then [op.op]
    else if op.FenceDone? && OnDurability(s, op.op, op.fenced).outcome != StaleFence then [op.op]
    else []
  }

  ghost function AllIssued(w: World, ops: seq<Op>): seq<OperationRef>
    requires AllLegal(ops)
  {
    if ops == [] then []
    else var init := ops[..|ops| - 1]; AllIssued(w, init) + IssuedBy(Run(w, init), ops[|ops| - 1])
  }

  ghost function AllAccepted(w: World, ops: seq<Op>): seq<OperationRef>
    requires AllLegal(ops)
  {
    if ops == [] then []
    else var init := ops[..|ops| - 1]; AllAccepted(w, init) + AcceptedBy(Run(w, init).plan, ops[|ops| - 1])
  }

  function Matching(pending: map<Hash, OperationRef>, o: OperationRef): set<Hash> {
    set h | h in pending && pending[h] == o
  }

  function One(b: bool): nat {
    if b then 1 else 0
  }

  function Persisting(p: Persistence, o: OperationRef): nat {
    match p
    case IncrementalWritePending(op) => One(op == o)
    case FinalWritePending(op, fence) => One(op == o) + One(fence == o)
    case FencePending(op) => One(op == o)
    case _ => 0
  }

  /** How often an operation may still be accepted. */
  function InFlight(s: PlanState, o: OperationRef): nat {
    |Matching(s.pendingReads, o)| + One(o in s.recoveryReads) + Persisting(s.persistence, o)
  }

  function Count(ops: seq<OperationRef>, o: OperationRef): nat {
    multiset(ops)[o]
  }

  lemma CountAppend(a: seq<OperationRef>, b: seq<OperationRef>, o: OperationRef)
    ensures Count(a + b, o) == Count(a, o) + Count(b, o)
  {
  }

  lemma {:induction false} RequestOpsAppend(requests: seq<ReadRequest>, last: ReadRequest, o: OperationRef)
    ensures Count(RequestOps(requests + [last]), o) == Count(RequestOps(requests), o) + One(last.op == o)
  {
    if requests == [] {
      assert (requests + [last])[1..] == [];
    } else {
      RequestOpsAppend(requests[1..], last, o);
      assert (requests + [last])[1..] == requests[1..] + [last];
    }
  }

  lemma {:induction false} RequestOpsAt(requests: seq<ReadRequest>)
    ensures |RequestOps(requests)| == |requests|
    ensures forall i :: 0 <= i < |requests| ==> RequestOps(requests)[i] == requests[i].op
  {
    if requests != [] {
      RequestOpsAt(requests[1..]);
    }
  }

  /** Hashes requested under one operation number at most its requests. */
  lemma {:induction false} RequestedAtMost(hashes: set<Hash>, requests: seq<ReadRequest>, o: OperationRef)
    requires forall h :: h in hashes ==> exists i :: 0 <= i < |requests| && requests[i].key == h && requests[i].op == o
    ensures |hashes| <= Count(RequestOps(requests), o)
  {
    if requests == [] {
      assert hashes == {};
    } else {
      var init, last := requests[..|requests| - 1], requests[|requests| - 1];
      assert requests == init + [last];
      var fewer := if last.op == o then hashes - {last.key} else hashes;
      RequestedAtMost(fewer, init, o);
      RequestOpsAppend(init, last, o);
      assert hashes <= fewer + {last.key};
      if last.key in hashes && last.op == o {
        assert hashes == fewer + {last.key};
      }
    }
  }

  /** The step neither loses count of an operation nor lets it be accepted twice. */
  ghost predicate Balanced(s: PlanState, t: PlanState, issued: seq<OperationRef>, accepted: seq<OperationRef>, o: OperationRef) {
    Count(accepted, o) + InFlight(t, o) <= InFlight(s, o) + Count(issued, o)
  }

  lemma ReadsBalanced(w: World, op: Op, o: OperationRef)
    requires PlanOk(w.plan) && Legal(op) && op.Turn?
    ensures var r := TurnOf(w, op);
            |Matching(r.plan.pendingReads, o)|
              <= |Matching(w.plan.pendingReads, o)|
                 + if r.turn.Some? && r.turn.value.Reads? then Count(TurnOps(r.turn), o) else 0
  {
    hide RunTurn, PlanOk, FrontierMoves, PersistMoves, KeysMove, AllWorkKept, Drawn;
    RunTurnFacts(w.plan, NthId(w.drawn), op.ctx, op.replies);
    var r := TurnOf(w, op);
    if r.turn.Some? && r.turn.value.Reads? {
      var was, now := Matching(w.plan.pendingReads, o), Matching(r.plan.pendingReads, o);
      RequestedAtMost(now - was, r.turn.value.requests, o);
      assert |now| <= |now - was| + |was| by {
        assert now <= (now - was) + was;
        SubsetSize(now, (now - was) + was);
      }
    }
  }

  lemma TurnBalanced(w: World, op: Op, o: OperationRef)
    requires PlanOk(w.plan) && Legal(op) && op.Turn?
    ensures Balanced(w.plan, Step(w, op).plan, IssuedBy(w, op), [], o)
  {
    hide RunTurn, PlanOk, FrontierMoves, ReadsMove, KeysMove, AllWorkKept, Drawn, Matching;
    RunTurnFacts(w.plan, NthId(w.drawn), op.ctx, op.replies);
    ReadsBalanced(w, op, o);
  }

  lemma ProbeBalanced(w: World, op: Op, o: OperationRef)
    requires op.ReprobeBatch?
    ensures Balanced(w.plan, Step(w, op).plan, IssuedBy(w, op), [], o)
  {
    hide Probed, Matching, Drawn, MintedFrom;
    var s, p := w.plan, ProbeOf(w, op);
    if p.plan != s && o in p.plan.recoveryReads && o !in s.recoveryReads {
      ProbedKeeps(Probing(s.recoveryReads, NthId(w.drawn), []), op.batch, |s.pendingReads|, s.readsCap, op.ctx,
                  op.ledgerSequence.value);
      var i :| 0 <= i < |p.requests| && p.requests[i].op == o;
      RequestOpsAt(p.requests);
      assert RequestOps(p.requests)[i] == o;
    }
  }

  /** One settled read leaves one hash fewer under its operation. */
  lemma OneFewer(pending: map<Hash, OperationRef>, h: Hash, o: OperationRef)
    requires h in pending
    ensures |Matching(pending - {h}, o)| + One(pending[h] == o) == |Matching(pending, o)|
  {
    var was, now := Matching(pending, o), Matching(pending - {h}, o);
    assert now == was - {h};
  }

  lemma ReadBalanced(s: PlanState, op: Op, o: OperationRef)
    requires op.ReadDone?
    ensures Balanced(s, Next(s, op), [], AcceptedBy(s, op), o)
  {
    hide Retired, FirstMatch, Matching, Persisting;
    if s.rooted && op.op.kind == Read {
      var h := FirstMatch(s.pendingReads, op.op);
      if h.Some? {
        OneFewer(s.pendingReads, h.value, o);
      }
    }
  }

  lemma WriteBalanced(s: PlanState, op: OperationRef, written: WriteOutcome, o: OperationRef)
    ensures var r := OnWrite(s, op, written);
            One(r.outcome != StaleWrite && op == o) + Persisting(r.plan.persistence, o) <= Persisting(s.persistence, o)
  {
  }

  lemma FenceBalanced(s: PlanState, op: OperationRef, fenced: FenceOutcome, o: OperationRef)
    ensures var r := OnDurability(s, op, fenced);
            One(r.outcome != StaleFence && op == o) + Persisting(r.plan.persistence, o) <= Persisting(s.persistence, o)
  {
  }

  lemma PersistBalanced(s: PlanState, op: Op, o: OperationRef)
    requires op.WriteDone? || op.FenceDone?
    ensures Balanced(s, Next(s, op), [], AcceptedBy(s, op), o)
  {
    hide Matching, OnWrite, OnDurability, Persisting;
    if op.WriteDone? {
      WriteBalanced(s, op.op, op.written, o);
      PersistenceFrame(s, op.op, op.written, FenceStale);
    } else {
      FenceBalanced(s, op.op, op.fenced, o);
      PersistenceFrame(s, op.op, WriteStale, op.fenced);
    }
  }

  lemma DropBalanced(s: PlanState, op: Op, o: OperationRef)
    requires op.Suspend? || op.Terminalize? || op.Cancel?
    ensures Balanced(s, Next(s, op), [], [], o)
  {
    assert Matching(map[], o) == {};
  }

  lemma StepBalanced(w: World, op: Op, o: OperationRef)
    requires PlanOk(w.plan) && Legal(op)
    ensures Balanced(w.plan, Step(w, op).plan, IssuedBy(w, op), AcceptedBy(w.plan, op), o)
  {
    hide Matching, OnRead, OnWrite, OnDurability, Probed, Acted, PlanOk, RunTurn, Emitted, NextBatch, TailDiscarded, Hashes;
    if op.Turn? {
      TurnBalanced(w, op, o);
    } else if op.ReprobeBatch? {
      ProbeBalanced(w, op, o);
    } else if op.ReadDone? {
      ReadBalanced(w.plan, op, o);
    } else if op.WriteDone? || op.FenceDone? {
      PersistBalanced(w.plan, op, o);
    } else if op.Suspend? || op.Terminalize? || op.Cancel? {
      DropBalanced(w.plan, op, o);
    } else if op.Minor? {
      ActedKeeps(w.plan, op.action);
    }
  }

  /** In every run an operation is accepted or in flight at most as often as it was issued. */
  lemma {:induction false} AcceptedAsIssued(w: World, ops: seq<Op>, o: OperationRef)
    requires Fresh(w) && AllLegal(ops)
    ensures Count(AllAccepted(w, ops), o) + InFlight(Run(w, ops).plan, o) <= Count(AllIssued(w, ops), o)
  {
    FreshOk(w);
    if ops == [] {
      assert Matching(map[], o) == {};
    } else {
      var init, op := ops[..|ops| - 1], ops[|ops| - 1];
      AcceptedAsIssued(w, init, o);
      RunOk(w, init);
      hide Step, IssuedBy, AcceptedBy, InFlight, PlanOk, Count, Fresh;
      StepBalanced(Run(w, init), op, o);
      CountAppend(AllIssued(w, init), IssuedBy(Run(w, init), op), o);
      CountAppend(AllAccepted(w, init), AcceptedBy(Run(w, init).plan, op), o);
    }
  }

  // ------------------------------------------------------------------------
  // Issued operations are fresh.
  // ------------------------------------------------------------------------

  /** The operations carry increasing ids from `lo` (excluded) to `hi`. */
  ghost predicate Rising(ops: seq<OperationRef>, lo: nat, hi: nat) {
    && (forall i :: 0 <= i < |ops| ==> lo < ops[i].operationId <= hi)
    && (forall i, j :: 0 <= i < j < |ops| ==> ops[i].operationId < ops[j].operationId)
  }

  lemma RisingAppend(a: seq<OperationRef>, b: seq<OperationRef>, lo: nat, mid: nat, hi: nat)
    requires Rising(a, lo, mid) && Rising(b, mid, hi) && lo <= mid <= hi
    ensures Rising(a + b, lo, hi)
  {
    var c := a + b;
    forall i, j | 0 <= i < j < |c|
      ensures c[i].operationId < c[j].operationId
    {
      if i < |a| && |a| <= j {
        assert c[j] == b[j - |a|];
      } else if |a| <= i {
        assert c[i] == b[i - |a|] && c[j] == b[j - |a|];
      }
    }
  }

  lemma IdIs(k: nat)
    requires k < U64 - 1
    ensures NthId(k) == k + 1
  {
    IdsCountUp(0, k);
  }

  /** Ids drawn from here on count up. */
  ghost predicate CountsUp(drawn: nat, draws: nat) {
    forall k :: drawn <= k < drawn + draws ==> NthId(k) == k + 1
  }

  lemma CountingUp(drawn: nat, draws: nat)
    requires drawn + draws < U64
    ensures CountsUp(drawn, draws)
  {
    forall k | drawn <= k < drawn + draws
      ensures NthId(k) == k + 1
    {
      IdIs(k);
    }
  }

  /** Requests minted in counter order. */
  lemma RequestsRise(requests: seq<ReadRequest>, session: SessionRef, kind: OperationKind, drawn: nat)
    requires MintedFrom(requests, session, kind, NthId(drawn)) && CountsUp(drawn, 2 * |requests|)
    ensures Rising(RequestOps(requests), drawn, drawn + 2 * |requests|)
  {
    hide Drawn, NthId, Succ;
    RequestOpsAt(requests);
    var ops := RequestOps(requests);
    forall i | 0 <= i < |requests|
      ensures ops[i].operationId == drawn + 2 * i + 1
    {
      DrawnNth(drawn, 2 * i);
    }
  }

  lemma BatchRises(w: World, op: Op)
    requires PlanOk(w.plan) && Legal(op) && op.Turn? && Step(w, op).drawn < U64
    requires TurnOf(w, op).turn.Some? && TurnOf(w, op).turn.value.Persist?
    ensures Rising(IssuedBy(w, op), w.drawn, Step(w, op).drawn)
  {
    hide RunTurn, PlanOk, FrontierMoves, ReadsMove, KeysMove, AllWorkKept, Drawn;
    RunTurnFacts(w.plan, NthId(w.drawn), op.ctx, op.replies);
    IdIs(w.drawn);
    if TurnOf(w, op).turn.value.batch.fence.Some? {
      TwoDraws(NthId(w.drawn));
      DrawnNth(w.drawn, 2);
      IdIs(w.drawn + 2);
    }
  }

  lemma StepRises(w: World, op: Op)
    requires PlanOk(w.plan) && Legal(op) && Step(w, op).drawn < U64
    ensures Rising(IssuedBy(w, op), w.drawn, Step(w, op).drawn)
  {
    hide RunTurn, PlanOk, FrontierMoves, PersistMoves, KeysMove, AllWorkKept, Drawn, Probed, Next;
    if op.Turn? {
      RunTurnFacts(w.plan, NthId(w.drawn), op.ctx, op.replies);
      var turn := TurnOf(w, op).turn;
      if turn.value.Reads? {
        CountingUp(w.drawn, 2 * |turn.value.requests|);
        RequestsRise(turn.value.requests, op.ctx.session, Read, w.drawn);
      } else if turn.value.Persist? {
        BatchRises(w, op);
      }
    } else if op.ReprobeBatch? && ProbeOf(w, op).requests != [] {
      var s := w.plan;
      ProbedKeeps(Probing(s.recoveryReads, NthId(w.drawn), []), op.batch, |s.pendingReads|, s.readsCap, op.ctx,
                  op.ledgerSequence.value);
      assert ProbeOf(w, op).requests[0..] == ProbeOf(w, op).requests;
      CountingUp(w.drawn, 2 * |ProbeOf(w, op).requests|);
      RequestsRise(ProbeOf(w, op).requests, op.ctx.session, RecoveryRead, w.drawn);
    }
  }

  /** Until the 64-bit counter wraps, ids rise through the whole run. */
  lemma {:induction false} IssuedRise(w: World, ops: seq<Op>)
    requires Fresh(w) && AllLegal(ops) && Run(w, ops).drawn < U64
    ensures w.drawn <= Run(w, ops).drawn && Rising(AllIssued(w, ops), w.drawn, Run(w, ops).drawn)
  {
    FreshOk(w);
    if ops != [] {
      var init, op := ops[..|ops| - 1], ops[|ops| - 1];
      assert Run(w, init).drawn <= Run(w, ops).drawn;
      RunOk(w, init);
      hide PlanOk, IssuedBy, Step, Fresh, Rising;
      IssuedRise(w, init);
      StepRises(Run(w, init), op);
      RisingAppend(AllIssued(w, init), IssuedBy(Run(w, init), op), w.drawn, Run(w, init).drawn, Run(w, ops).drawn);
    }
  }

  lemma {:induction false} CountOnce(ops: seq<OperationRef>, lo: nat, hi: nat, o: OperationRef)
    requires Rising(ops, lo, hi)
    ensures Count(ops, o) <= 1
  {
    if ops != [] {
      var init, last := ops[..|ops| - 1], ops[|ops| - 1];
      CountOnce(init, lo, hi, o);
      assert ops == init + [last];
      forall i | 0 <= i < |init|
        ensures init[i] != last
      {
        assert ops[i].operationId < ops[|ops| - 1].operationId;
      }
    }
  }

  /**
    Every dispatched operation is accepted at most once, and never while it
    was not dispatched. Ids start over only after 2^64 - 1 draws.
  */
  lemma AcceptedAtMostOnce(w: World, ops: seq<Op>, o: OperationRef)
    requires Fresh(w) && AllLegal(ops) && Run(w, ops).drawn < U64
    ensures Count(AllAccepted(w, ops), o) <= 1
    ensures Count(AllAccepted(w, ops), o) == 1 ==> o in AllIssued(w, ops) && InFlight(Run(w, ops).plan, o) == 0
  {
    AcceptedAsIssued(w, ops, o);
    IssuedRise(w, ops);
    CountOnce(AllIssued(w, ops), w.drawn, Run(w, ops).drawn, o);
  }

  // ------------------------------------------------------------------------
  // Durable only after the whole protocol.
  // ------------------------------------------------------------------------

  ghost predicate Drops(op: Op) {
    op.Cancel? || op.Terminalize?
  }

  /** The turn at `i` handed out the final batch of a complete tree, and nothing was dropped since. */
  ghost predicate HandedAt(w: World, ops: seq<Op>, i: nat, write: OperationRef, fence: OperationRef)
    requires AllLegal(ops)
  {
    && i < |ops| && ops[i].Turn?
    && HandsFinal(TurnOf(Run(w, ops[..i]), ops[i]), write, fence)
    && (forall m :: i < m < |ops| ==> !Drops(ops[m]))
  }

  ghost predicate HandsFinal(r: TurnResult, write: OperationRef, fence: OperationRef) {
    && r.turn.Some? && r.turn.value.Persist?
    && r.turn.value.batch.op == write && r.turn.value.batch.fence == Some(fence)
    && r.outcomes != [] && r.outcomes[|r.outcomes| - 1].CompleteTree?
  }

  /** The completion of that write came at `j`, and the plan took it as the acceptance of its final batch. */
  ghost predicate TakenAt(w: World, ops: seq<Op>, i: nat, j: nat, write: OperationRef, fence: OperationRef)
    requires AllLegal(ops)
  {
    && HandedAt(w, ops, i, write, fence) && i < j < |ops| && ops[j] == WriteDone(write, WriteAccepted)
    && OnWrite(Run(w, ops[..j]).plan, write, WriteAccepted).outcome == FinalAccepted
  }

  /** The fence of that batch passed at `k`, and the plan answered that it is durable. */
  ghost predicate FencedAt(w: World, ops: seq<Op>, i: nat, j: nat, k: nat, write: OperationRef, fence: OperationRef)
    requires AllLegal(ops)
  {
    && TakenAt(w, ops, i, j, write, fence) && j < k < |ops| && ops[k] == FenceDone(fence, FencePassed)
    && OnDurability(Run(w, ops[..k]).plan, fence, FencePassed).outcome == DurableNow
  }

  /** The persistence machine is where the run's history puts it. */
  ghost predicate Justified(w: World, ops: seq<Op>)
    requires AllLegal(ops)
  {
    match Run(w, ops).plan.persistence
    case FinalWritePending(write, fence) => exists i :: HandedAt(w, ops, i, write, fence)
    case FencePending(fence) => exists i, j, write :: TakenAt(w, ops, i, j, write, fence)
    case Durable => exists i, j, k, write, fence :: FencedAt(w, ops, i, j, k, write, fence)
    case _ => true
  }

  lemma HandedLonger(w: World, ops: seq<Op>, i: nat, write: OperationRef, fence: OperationRef)
    requires AllLegal(ops) && ops != [] && !Drops(ops[|ops| - 1])
    requires HandedAt(w, ops[..|ops| - 1], i, write, fence)
    ensures HandedAt(w, ops, i, write, fence)
  {
    hide Run, TurnOf, HandsFinal, Legal;
    assert ops[..|ops| - 1][..i] == ops[..i];
  }

  lemma TakenLonger(w: World, ops: seq<Op>, i: nat, j: nat, write: OperationRef, fence: OperationRef)
    requires AllLegal(ops) && ops != [] && !Drops(ops[|ops| - 1])
    requires TakenAt(w, ops[..|ops| - 1], i, j, write, fence)
    ensures TakenAt(w, ops, i, j, write, fence)
  {
    hide Run, OnWrite, HandedAt;
    HandedLonger(w, ops, i, write, fence);
    assert ops[..|ops| - 1][..j] == ops[..j];
  }

  lemma FencedLonger(w: World, ops: seq<Op>, i: nat, j: nat, k: nat, write: OperationRef, fence: OperationRef)
    requires AllLegal(ops) && ops != [] && !Drops(ops[|ops| - 1])
    requires FencedAt(w, ops[..|ops| - 1], i, j, k, write, fence)
    ensures FencedAt(w, ops, i, j, k, write, fence)
  {
    hide Run, OnDurability, TakenAt;
    TakenLonger(w, ops, i, j, write, fence);
    assert ops[..|ops| - 1][..k] == ops[..k];
  }

  /** A persistence state that did not change stays justified. */
  lemma StillJustified(w: World, ops: seq<Op>)
    requires AllLegal(ops) && ops != [] && !Drops(ops[|ops| - 1])
    requires Justified(w, ops[..|ops| - 1])
    requires Run(w, ops).plan.persistence == Run(w, ops[..|ops| - 1]).plan.persistence
    ensures Justified(w, ops)
  {
    hide Run, HandedAt, TakenAt, FencedAt;
    var init := ops[..|ops| - 1];
    match Run(w, ops).plan.persistence
    case FinalWritePending(write, fence) =>
      var i :| HandedAt(w, init, i, write, fence);
      HandedLonger(w, ops, i, write, fence);
    case FencePending(fence) =>
      var i, j, write :| TakenAt(w, init, i, j, write, fence);
      TakenLonger(w, ops, i, j, write, fence);
    case Durable =>
      var i, j, k, write, fence :| FencedAt(w, init, i, j, k, write, fence);
      FencedLonger(w, ops, i, j, k, write, fence);
    case _ =>
  }

  /** What a move of the persistence machine needs. */
  ghost predicate PersistenceMove(w: World, op: Op, p: Persistence, q: Persistence)
    requires Legal(op)
  {
    || (q == p && !Drops(op))
    || !(q.FinalWritePending? || q.FencePending? || q.Durable?)
    || (q.FinalWritePending? && op.Turn? && HandsFinal(TurnOf(w, op), q.op, q.fence))
    || (&& q.FencePending? && p.FinalWritePending? && p.fence == q.op && op == WriteDone(p.op, WriteAccepted)
        && OnWrite(w.plan, p.op, WriteAccepted).outcome == FinalAccepted)
    || (&& q.Durable? && p.FencePending? && op == FenceDone(p.op, FencePassed)
        && OnDurability(w.plan, p.op, FencePassed).outcome == DurableNow)
  }

  lemma TurnPersistence(w: World, op: Op)
    requires PlanOk(w.plan) && Legal(op) && op.Turn?
    ensures PersistenceMove(w, op, w.plan.persistence, Step(w, op).plan.persistence)
  {
    hide RunTurn, PlanOk, FrontierMoves, ReadsMove, KeysMove, AllWorkKept, Drawn;
    RunTurnFacts(w.plan, NthId(w.drawn), op.ctx, op.replies);
  }

  lemma WritePersistence(s: PlanState, op: OperationRef, written: WriteOutcome)
    ensures var p, q := s.persistence, OnWrite(s, op, written).plan.persistence;
            || q == p
            || q.NothingPending? || q.PersistFailed?
            || (&& q.FencePending? && p.FinalWritePending? && p.fence == q.op && p.op == op && written.WriteAccepted?
                && OnWrite(s, op, written).outcome == FinalAccepted)
  {
  }

  lemma FencePersistence(s: PlanState, op: OperationRef, fenced: FenceOutcome)
    ensures var p, q := s.persistence, OnDurability(s, op, fenced).plan.persistence;
            || q == p
            || q.PersistFailed?
            || (&& q.Durable? && p.FencePending? && p.op == op && fenced.FencePassed?
                && OnDurability(s, op, fenced).outcome == DurableNow)
  {
  }

  lemma CompletionPersistence(w: World, op: Op)
    requires op.WriteDone? || op.FenceDone?
    ensures PersistenceMove(w, op, w.plan.persistence, Step(w, op).plan.persistence)
  {
    hide OnWrite, OnDurability, HandsFinal, TurnOf;
    if op.WriteDone? {
      WritePersistence(w.plan, op.op, op.written);
    } else {
      FencePersistence(w.plan, op.op, op.fenced);
    }
  }

  /** How one operation moves the persistence machine. */
  lemma PersistenceStep(w: World, op: Op)
    requires PlanOk(w.plan) && Legal(op)
    ensures PersistenceMove(w, op, w.plan.persistence, Step(w, op).plan.persistence)
  {
    if op.Turn? {
      TurnPersistence(w, op);
    } else if op.WriteDone? || op.FenceDone? {
      CompletionPersistence(w, op);
    } else {
      hide PlanOk, Probed, Acted, OnRead, Emitted, NextBatch, TailDiscarded, Hashes, HandsFinal, TurnOf;
      if op.Minor? {
        ActedKeeps(w.plan, op.action);
      } else if op.ReadDone? {
        ReadFrame(w.plan, op.op, op.apply);
      }
    }
  }

  /** The final batch handed out by the last operation. */
  lemma HandedLast(w: World, ops: seq<Op>, write: OperationRef, fence: OperationRef)
    requires AllLegal(ops) && ops != [] && ops[|ops| - 1].Turn?
    requires HandsFinal(TurnOf(Run(w, ops[..|ops| - 1]), ops[|ops| - 1]), write, fence)
    ensures HandedAt(w, ops, |ops| - 1, write, fence)
  {
    hide Run, TurnOf, HandsFinal, Legal;
  }

  /** The final batch accepted by the last operation. */
  lemma TakenLast(w: World, ops: seq<Op>, i: nat, write: OperationRef, fence: OperationRef)
    requires AllLegal(ops) && ops != [] && HandedAt(w, ops[..|ops| - 1], i, write, fence)
    requires ops[|ops| - 1] == WriteDone(write, WriteAccepted)
    requires OnWrite(Run(w, ops[..|ops| - 1]).plan, write, WriteAccepted).outcome == FinalAccepted
    ensures TakenAt(w, ops, i, |ops| - 1, write, fence)
  {
    hide Run, OnWrite, HandedAt;
    HandedLonger(w, ops, i, write, fence);
    HandedBefore(w, ops[..|ops| - 1], i, write, fence);
  }

  /** The fence passed by the last operation. */
  lemma FencedLast(w: World, ops: seq<Op>, i: nat, j: nat, write: OperationRef, fence: OperationRef)
    requires AllLegal(ops) && ops != [] && TakenAt(w, ops[..|ops| - 1], i, j, write, fence)
    requires ops[|ops| - 1] == FenceDone(fence, FencePassed)
    requires OnDurability(Run(w, ops[..|ops| - 1]).plan, fence, FencePassed).outcome == DurableNow
    ensures FencedAt(w, ops, i, j, |ops| - 1, write, fence)
  {
    hide Run, OnDurability, OnWrite, HandedAt;
    TakenLonger(w, ops, i, j, write, fence);
  }

  /** A move of the persistence machine leaves it where the longer history puts it. */
  lemma JustifiedStep(w: World, ops: seq<Op>, p: Persistence, q: Persistence)
    requires AllLegal(ops) && ops != [] && Justified(w, ops[..|ops| - 1])
    requires p == Run(w, ops[..|ops| - 1]).plan.persistence && q == Run(w, ops).plan.persistence
    requires PersistenceMove(Run(w, ops[..|ops| - 1]), ops[|ops| - 1], p, q)
    ensures Justified(w, ops)
  {
    hide Run, HandedAt, TakenAt, FencedAt, HandsFinal, TurnOf, Legal, OnWrite, OnDurability;
    var init, op := ops[..|ops| - 1], ops[|ops| - 1];
    if q == p && !Drops(op) {
      StillJustified(w, ops);
    } else if q.FinalWritePending? {
      HandedLast(w, ops, q.op, q.fence);
    } else if q.FencePending? {
      var i :| HandedAt(w, init, i, p.op, p.fence);
      TakenLast(w, ops, i, p.op, q.op);
    } else if q.Durable? {
      var i, j, write :| TakenAt(w, init, i, j, write, p.op);
      FencedLast(w, ops, i, j, write, p.op);
    }
  }

  lemma HandedBefore(w: World, ops: seq<Op>, i: nat, write: OperationRef, fence: OperationRef)
    requires AllLegal(ops) && HandedAt(w, ops, i, write, fence)
    ensures i < |ops|
  {
  }

  /**
    In every run a durable plan went through, in this order and with nothing
    dropped in between: a complete tree and its final batch, exactly that
    write taken as the acceptance of the final batch, exactly that fence
    passed and answered as durable.
  */
  lemma {:induction false} DurableInOrder(w: World, ops: seq<Op>)
    requires Fresh(w) && AllLegal(ops)
    ensures Justified(w, ops)
  {
    FreshOk(w);
    if ops != [] {
      var init, op := ops[..|ops| - 1], ops[|ops| - 1];
      DurableInOrder(w, init);
      RunOk(w, init);
      hide PlanOk, Step, Fresh, Justified, PersistenceMove;
      PersistenceStep(Run(w, init), op);
      JustifiedStep(w, ops, Run(w, init).plan.persistence, Run(w, ops).plan.persistence);
    }
  }

  // ------------------------------------------------------------------------
  // Announced reads are owed until they settle.
  // ------------------------------------------------------------------------

  /** The read hashes a step settles: the one that completed, or all in flight on suspension. */
  ghost function SettledBy(s: PlanState, op: Op): set<Hash> {
    if op.Suspend? then s.pendingReads.Keys
    else if op.ReadDone? && s.rooted && op.op.kind == Read && FirstMatch(s.pendingReads, op.op).Some? then
      {FirstMatch(s.pendingReads, op.op).value}
    else {}
  }

  ghost function AnnouncedReads(w: World, op: Op): set<Hash>
    requires Legal(op)
  {
    if op.Turn? then ReadHashes(LastReads(TurnOf(w, op).outcomes)) else {}
  }

  ghost function OwedReads(w: World, ops: seq<Op>): set<Hash>
    requires AllLegal(ops)
  {
    if ops == [] then {}
    else
      var init, op := ops[..|ops| - 1], ops[|ops| - 1];
      if Drops(op) then {}
      else OwedReads(w, init) - SettledBy(Run(w, init).plan, op) + AnnouncedReads(Run(w, init), op)
  }

  lemma WaitingApart(s: PlanState)
    requires PlanOk(s)
    ensures s.pendingReads.Keys !! ReadHashes(s.readBacklog)
  {
    hide Tidy;
    forall h | h in ReadHashes(s.readBacklog)
      ensures h !in s.pendingReads
    {
      var n :| n in s.readBacklog && n.hash == h;
      var i :| 0 <= i < |s.readBacklog| && s.readBacklog[i] == n;
    }
  }

  lemma ReadSettles(s: PlanState, op: Op)
    requires PlanOk(s) && op.ReadDone?
    ensures ReadKeys(Next(s, op)) == ReadKeys(s) - SettledBy(s, op)
  {
    hide PlanOk, FirstMatch, ReadHashes, Retired;
    WaitingApart(s);
    var h := FirstMatch(s.pendingReads, op.op);
    if SettledBy(s, op) != {} {
      assert (s.pendingReads - {h.value}).Keys == s.pendingReads.Keys - {h.value};
      assert h.value in s.pendingReads;
    }
  }

  lemma ReadsStep(w: World, op: Op)
    requires PlanOk(w.plan) && Legal(op)
    ensures ReadKeys(Step(w, op).plan)
            == if Drops(op) then {} else ReadKeys(w.plan) - SettledBy(w.plan, op) + AnnouncedReads(w, op)
  {
    hide RunTurn, PlanOk, FrontierMoves, ReadsMove, PersistMoves, AllWorkKept, Drawn, Probed, Acted, OnRead, OnWrite, OnDurability,
      Emitted, NextBatch, TailDiscarded, Hashes, ReadHashes, FirstMatch;
    NoHashes();
    if op.Turn? {
      RunTurnFacts(w.plan, NthId(w.drawn), op.ctx, op.replies);
    } else if op.Minor? {
      ActedKeeps(w.plan, op.action);
    } else if op.ReadDone? {
      ReadSettles(w.plan, op);
    } else if op.WriteDone? {
      PersistenceFrame(w.plan, op.op, op.written, FenceStale);
    } else if op.FenceDone? {
      PersistenceFrame(w.plan, op.op, WriteStale, op.fenced);
    } else if op.Suspend? {
      WaitingApart(w.plan);
    }
  }

  /** In every reachable state the reads in flight and waiting are exactly the ones owed. */
  lemma {:induction false} ReadsAreOwed(w: World, ops: seq<Op>)
    requires Fresh(w) && AllLegal(ops)
    ensures ReadKeys(Run(w, ops).plan) == OwedReads(w, ops)
  {
    FreshOk(w);
    if ops == [] {
      NoHashes();
    } else {
      var init := ops[..|ops| - 1];
      ReadsAreOwed(w, init);
      RunOk(w, init);
      hide PlanOk, Step, Fresh, ReadKeys, SettledBy, AnnouncedReads;
      ReadsStep(Run(w, init), ops[|ops| - 1]);
    }
  }
}

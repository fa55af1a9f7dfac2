/**
  Runs of a session plan: any sequence of its public operations, with any
  engine answers and any completions, on a counter it shares with others.
*/
module PlanRuns {
  import opened Basics
  import opened Identity
  import opened Frontiers
  import opened Mailbox
  import opened PlanSpec
  import opened PlanInvariants
  import opened PlanTurns

  /** Operations that leave all announced and dispatched work alone. */
  datatype Action =
    | TimeOut(noProgress: bool)
    | RecoveryTick
    | BeginTimeoutScan(existing: seq<PeerId>, added: seq<PeerId>)
    | ClearRecent
    | Install
    | ReleaseEngine
    | PushPacket(packet: Packet)
    | NotePeer(peer: PeerId, score: int)
    | SetProgress(value: bool)

  datatype Op =
    | Turn(ctx: TurnContext, replies: seq<EngineReply>)
    | ReprobeBatch(batch: seq<Need>, ctx: TurnContext, ledgerSequence: Option<nat>)
    | DrawElsewhere(count: nat)
    | ReadDone(op: OperationRef, apply: ReadApply)
    | WriteDone(op: OperationRef, written: WriteOutcome)
    | FenceDone(op: OperationRef, fenced: FenceOutcome)
    | TakeBatch(max: nat)
    | FinishLane
    | Suspend
    | Terminalize
    | Cancel
    | Minor(action: Action)

  /** The plan, and how many ids were drawn so far. */
  datatype World = World(plan: PlanState, drawn: nat)

  ghost predicate Legal(op: Op) {
    op.Turn? ==> Replies(op.replies)
  }

  ghost predicate AllLegal(ops: seq<Op>) {
    forall i :: 0 <= i < |ops| ==> Legal(ops[i])
  }

  ghost function TurnOf(w: World, op: Op): TurnResult
    requires op.Turn? && Legal(op)
  {
    RunTurn(w.plan, NthId(w.drawn), op.ctx, op.replies)
  }

  ghost function ProbeOf(w: World, op: Op): ProbeResult
    requires op.ReprobeBatch?
  {
    Reprobe(w.plan, NthId(w.drawn), op.batch, op.ctx, op.ledgerSequence)
  }

  function Acted(s: PlanState, action: Action): PlanState {
    match action
    case TimeOut(noProgress) => OnTimeout(s, noProgress).plan
    case RecoveryTick => TimeoutRotated(s)
    case BeginTimeoutScan(existing, added) => TimeoutScan(s, existing, added)
    case ClearRecent => s.(recent := {})
    case Install => Installed(s)
    case ReleaseEngine => s.(rooted := false)
    case PushPacket(packet) => s.(mail := Pushed(s.mail, packet))
    case NotePeer(peer, score) => PeerNoted(s, peer, score)
    case SetProgress(value) => s.(progress := value)
  }

  /** The operations that draw no id. */
  ghost function Next(s: PlanState, op: Op): PlanState
    requires !op.Turn? && !op.ReprobeBatch? && !op.DrawElsewhere?
  {
    match op
    case ReadDone(o, apply) => OnRead(s, o, apply).plan
    case WriteDone(o, written) => OnWrite(s, o, written).plan
    case FenceDone(o, fenced) => OnDurability(s, o, fenced).plan
    case TakeBatch(max) => BatchTaken(s, max)
    case FinishLane => LaneFinished(s)
    case Suspend => Suspended(s)
    case Terminalize => Terminalized(s)
    case Cancel => CancelledPlan(s)
    case Minor(action) => Acted(s, action)
  }

  ghost function Step(w: World, op: Op): World
    requires Legal(op)
  {
    if op.Turn? then World(TurnOf(w, op).plan, w.drawn + Draws(TurnOf(w, op).turn))
    else if op.ReprobeBatch? then World(ProbeOf(w, op).plan, w.drawn + 2 * |ProbeOf(w, op).requests|)
    else if op.DrawElsewhere? then w.(drawn := w.drawn + op.count)
    else w.(plan := Next(w.plan, op))
  }

  ghost function Run(w: World, ops: seq<Op>): World
    requires AllLegal(ops)
  {
    if ops == [] then w else Step(Run(w, ops[..|ops| - 1]), ops[|ops| - 1])
  }

  // ------------------------------------------------------------------------
  // What every operation keeps.
  // ------------------------------------------------------------------------

  /** What an action may touch. */
  lemma ActedKeeps(s: PlanState, action: Action)
    ensures var t := Acted(s, action);
            && t.pendingReads == s.pendingReads && t.recoveryReads == s.recoveryReads && t.readBacklog == s.readBacklog
            && t.readsCap == s.readsCap && t.persistence == s.persistence
            && t.net in {s.net, Rotated(s.net)}
  {
    hide Rotated, Pushed, MergeScores, AddedLanes;
  }

  /** Only the two timer operations clear the recent set. */
  lemma ActedRecent(s: PlanState, action: Action)
    ensures Acted(s, action).recent == if action.BeginTimeoutScan? || action.ClearRecent? then {} else s.recent
  {
    hide Rotated, Pushed, MergeScores, AddedLanes;
  }

  /** Only a no-progress timeout touches the budget. */
  lemma ActedBudget(s: PlanState, action: Action)
    requires action != TimeOut(true)
    ensures var t := Acted(s, action);
            t.maxTimeouts == s.maxTimeouts && t.cancelled == s.cancelled && t.timeouts == s.timeouts
  {
    hide Rotated, Pushed, MergeScores, AddedLanes;
  }

  lemma WriteFrame(s: PlanState, op: OperationRef, written: WriteOutcome)
    ensures var t := OnWrite(s, op, written).plan; t == s.(persistence := t.persistence)
  {
    var p := s.persistence;
    if p.IncrementalWritePending? || p.FinalWritePending? {
    } else {
      assert OnWrite(s, op, written).plan == s;
    }
  }

  lemma FenceFrame(s: PlanState, op: OperationRef, fenced: FenceOutcome)
    ensures var t := OnDurability(s, op, fenced).plan; t == s.(persistence := t.persistence)
  {
  }

  /** Completions of writes and fences move the persistence machine only. */
  lemma PersistenceFrame(s: PlanState, op: OperationRef, written: WriteOutcome, fenced: FenceOutcome)
    ensures var t := OnWrite(s, op, written).plan; t == s.(persistence := t.persistence)
    ensures var t := OnDurability(s, op, fenced).plan; t == s.(persistence := t.persistence)
  {
    hide OnWrite, OnDurability;
    WriteFrame(s, op, written);
    FenceFrame(s, op, fenced);
  }

  lemma ReadFrame(s: PlanState, op: OperationRef, apply: ReadApply)
    ensures var t := OnRead(s, op, apply).plan;
            t == s.(pendingReads := t.pendingReads, recoveryReads := t.recoveryReads, net := t.net, progress := t.progress)
  {
    hide FirstMatch, Retired;
  }

  lemma NextOk(s: PlanState, op: Op)
    requires PlanOk(s) && !op.Turn? && !op.ReprobeBatch? && !op.DrawElsewhere?
    ensures PlanOk(Next(s, op))
  {
    hide Tidy, ReadsTidy, Emitted, NextBatch, Rotated, TailDiscarded, Acted, OnRead, OnWrite, OnDurability, Retired, Hashes, Empty,
      Terminalized, CancelledPlan;
    match op
    case ReadDone(o, apply) => ReadDoneOk(s, o, apply);
    case WriteDone(o, written) => PersistenceFrame(s, o, written, FenceStale);
    case FenceDone(o, fenced) => PersistenceFrame(s, o, WriteStale, fenced);
    case TakeBatch(max) => EmittedTidy(s.net, max);
    case FinishLane => TailDiscardedTidy(s.net);
    case Suspend => NoReadsTidy(s.pendingReads, s.readBacklog);
    case Terminalize => TerminalizedOk(s);
    case Cancel => TerminalizedOk(s);
    case Minor(action) =>
      ActedKeeps(s, action);
      RotatedTidy(s.net);
  }

  lemma TerminalizedOk(s: PlanState)
    ensures PlanOk(Terminalized(s)) && PlanOk(CancelledPlan(s))
  {
    EmptyTidy();
  }

  lemma NoReadsTidy(pending: map<Hash, OperationRef>, backlog: seq<ReadNeed>)
    requires ReadsTidy(pending, backlog)
    ensures ReadsTidy(map[], backlog)
  {
  }

  lemma ReadDoneOk(s: PlanState, op: OperationRef, apply: ReadApply)
    requires PlanOk(s)
    ensures PlanOk(OnRead(s, op, apply).plan)
  {
    hide Tidy, ReadsTidy, Retired, FirstMatch;
    if op.kind == Read {
      var h := FirstMatch(s.pendingReads, op);
      if h.Some? {
        FewerReads(s.pendingReads, s.readBacklog, h.value);
      }
    } else if op in s.recoveryReads {
      RetiredTidy(s.net, {s.recoveryReads[op]});
    }
  }

  lemma FewerReads(pending: map<Hash, OperationRef>, backlog: seq<ReadNeed>, h: Hash)
    requires ReadsTidy(pending, backlog)
    ensures |pending - {h}| <= |pending| && ReadsTidy(pending - {h}, backlog)
  {
    var fewer := pending - {h};
    assert fewer.Keys <= pending.Keys;
    SubsetSize(fewer.Keys, pending.Keys);
    assert |fewer| == |fewer.Keys| && |pending| == |pending.Keys|;
  }

  lemma {:induction false} SubsetSize(a: set<Hash>, b: set<Hash>)
    requires a <= b
    ensures |a| <= |b|
  {
    if a != {} {
      var h :| h in a;
      SubsetSize(a - {h}, b - {h});
    }
  }

  lemma StepOk(w: World, op: Op)
    requires PlanOk(w.plan) && Legal(op)
    ensures PlanOk(Step(w, op).plan)
  {
    hide PlanOk, Next, Probed;
    if op.Turn? {
      RunTurnFacts(w.plan, NthId(w.drawn), op.ctx, op.replies);
      hide RunTurn;
      TurnFactsOk(w.plan, NthId(w.drawn), op.ctx, TurnOf(w, op));
    } else if op.ReprobeBatch? {
      ProbeOk(w.plan, NthId(w.drawn), op);
    } else if !op.DrawElsewhere? {
      NextOk(w.plan, op);
    }
  }

  lemma ProbeOk(s: PlanState, ids: nat, op: Op)
    requires PlanOk(s) && op.ReprobeBatch?
    ensures PlanOk(Reprobe(s, ids, op.batch, op.ctx, op.ledgerSequence).plan)
  {
    hide Tidy, ReadsTidy, Probed;
  }

  /** Every reachable plan keeps its bookkeeping exact and its frontier bounded. */
  lemma {:induction false} RunOk(w: World, ops: seq<Op>)
    requires PlanOk(w.plan) && AllLegal(ops)
    ensures PlanOk(Run(w, ops).plan)
  {
    hide PlanOk, Step;
    if ops != [] {
      RunOk(w, ops[..|ops| - 1]);
      StepOk(Run(w, ops[..|ops| - 1]), ops[|ops| - 1]);
    }
  }

  /** The counter an operation leaves behind is the one the next operation draws from. */
  lemma IdsAgree(w: World, op: Op)
    requires PlanOk(w.plan) && Legal(op)
    ensures op.Turn? ==> TurnOf(w, op).ids == NthId(Step(w, op).drawn)
    ensures op.ReprobeBatch? ==> ProbeOf(w, op).ids == NthId(Step(w, op).drawn)
  {
    hide RunTurn, Probed, PlanOk, NthId;
    if op.Turn? {
      RunTurnFacts(w.plan, NthId(w.drawn), op.ctx, op.replies);
      DrawnNth(w.drawn, Draws(TurnOf(w, op).turn));
    } else if op.ReprobeBatch? {
      var s := w.plan;
      if ProbeOf(w, op).requests != [] || ProbeOf(w, op).ids != NthId(w.drawn) {
        ProbedKeeps(Probing(s.recoveryReads, NthId(w.drawn), []), op.batch, |s.pendingReads|, s.readsCap, op.ctx,
                    op.ledgerSequence.value);
        DrawnNth(w.drawn, 2 * |ProbeOf(w, op).requests|);
      }
    }
  }

  // ------------------------------------------------------------------------
  // Cancellation.
  // ------------------------------------------------------------------------

  /** Nothing is in flight and nothing can start. */
  ghost predicate Dead(s: PlanState) {
    && s.cancelled
    && s.pendingReads == map[] && s.recoveryReads == map[]
    && s.persistence == NothingPending
  }

  lemma DeadActs(s: PlanState, action: Action)
    requires Dead(s)
    ensures Dead(Acted(s, action))
  {
    hide Rotated, Pushed, MergeScores, AddedLanes;
  }

  /** A dead plan rejects every completion. */
  lemma DeadRejects(s: PlanState, op: OperationRef, apply: ReadApply, written: WriteOutcome, fenced: FenceOutcome)
    requires Dead(s)
    ensures OnRead(s, op, apply) == ReadResult(s, ReadStale)
    ensures OnWrite(s, op, written) == WriteResult(s, StaleWrite)
    ensures OnDurability(s, op, fenced) == FenceResult(s, StaleFence)
  {
  }

  /** A dead plan stays dead and does no work, whatever it is asked. */
  lemma DeadStaysDead(w: World, op: Op)
    requires Dead(w.plan) && Legal(op)
    ensures Dead(Step(w, op).plan)
    ensures op.Turn? ==> TurnOf(w, op).turn == Some(Continue)
    ensures op.ReprobeBatch? ==> ProbeOf(w, op).requests == []
    ensures op.TakeBatch? ==> NormalBatch(w.plan, op.max) == []
    ensures op == Minor(RecoveryTick) ==> TimeoutBatch(w.plan) == []
  {
    hide Acted, OnRead, OnWrite, OnDurability;
    if op.Minor? {
      DeadActs(w.plan, op.action);
    } else if op.ReadDone? {
      DeadRejects(w.plan, op.op, op.apply, WriteStale, FenceStale);
    } else if op.WriteDone? {
      DeadRejects(w.plan, op.op, NotApplied, op.written, FenceStale);
    } else if op.FenceDone? {
      DeadRejects(w.plan, op.op, NotApplied, WriteStale, op.fenced);
    }
  }

  lemma CancelKills(w: World, op: Op)
    requires op.Cancel? || op.Terminalize?
    ensures Dead(Step(w, op).plan)
  {
  }

  /** Once a plan was cancelled or terminalized, every later completion is stale and every turn idle. */
  lemma {:induction false} StaleAfterCancel(w: World, before: seq<Op>, after: seq<Op>)
    requires AllLegal(before) && AllLegal(after)
    requires before != [] && (before[|before| - 1].Cancel? || before[|before| - 1].Terminalize?)
    ensures AllLegal(before + after) && Dead(Run(w, before + after).plan)
  {
    hide Step;
    var all := before + after;
    if after == [] {
      CancelKills(Run(w, before[..|before| - 1]), before[|before| - 1]);
      assert all == before;
    } else {
      var init := after[..|after| - 1];
      StaleAfterCancel(w, before, init);
      assert all[..|all| - 1] == before + init;
      DeadStaysDead(Run(w, before + init), after[|after| - 1]);
    }
  }

  // ------------------------------------------------------------------------
  // The timeout budget.
  // ------------------------------------------------------------------------

  /** How many no-progress intervals a run applied. */
  ghost function QuietIntervals(ops: seq<Op>): nat {
    if ops == [] then 0
    else QuietIntervals(ops[..|ops| - 1]) + if ops[|ops| - 1] == Minor(TimeOut(true)) then 1 else 0
  }

  ghost predicate NeverDropped(ops: seq<Op>) {
    forall i :: 0 <= i < |ops| ==> !ops[i].Cancel? && !ops[i].Terminalize?
  }

  ghost predicate Budgeted(s: PlanState, maxTimeouts: nat, quiet: nat) {
    && s.maxTimeouts == maxTimeouts
    && (s.cancelled <==> quiet > maxTimeouts && maxTimeouts < U32_MAX)
    && (!s.cancelled ==> s.timeouts == if quiet < U32_MAX then quiet else U32_MAX)
  }

  lemma TurnBudget(w: World, op: Op, maxTimeouts: nat, quiet: nat)
    requires PlanOk(w.plan) && Legal(op) && op.Turn?
    requires Budgeted(w.plan, maxTimeouts, quiet)
    ensures Budgeted(Step(w, op).plan, maxTimeouts, quiet)
  {
    hide RunTurn, PlanOk, ReadsMove, PersistMoves, FrontierMoves, KeysMove, AllWorkKept;
    RunTurnFacts(w.plan, NthId(w.drawn), op.ctx, op.replies);
  }

  lemma StepBudget(w: World, op: Op, maxTimeouts: nat, quiet: nat)
    requires PlanOk(w.plan) && Legal(op) && !op.Cancel? && !op.Terminalize?
    requires maxTimeouts <= U32_MAX && Budgeted(w.plan, maxTimeouts, quiet)
    ensures Budgeted(Step(w, op).plan, maxTimeouts, if op == Minor(TimeOut(true)) then quiet + 1 else quiet)
  {
    hide Acted, OnRead, OnWrite, OnDurability, Probed, Emitted, NextBatch, TailDiscarded, Hashes;
    if op.Turn? {
      TurnBudget(w, op, maxTimeouts, quiet);
    } else if op.ReadDone? {
      ReadFrame(w.plan, op.op, op.apply);
    } else if op.WriteDone? {
      PersistenceFrame(w.plan, op.op, op.written, FenceStale);
    } else if op.FenceDone? {
      PersistenceFrame(w.plan, op.op, WriteStale, op.fenced);
    } else if op == Minor(TimeOut(true)) {
      assert Step(w, op).plan == Acted(w.plan, op.action) == OnTimeout(w.plan, true).plan by { TimedOut(w.plan); }
    } else if op.Minor? {
      ActedBudget(w.plan, op.action);
    }
  }

  lemma TimedOut(s: PlanState)
    ensures Acted(s, TimeOut(true)) == OnTimeout(s, true).plan
  {
  }

  /**
    A plan gives up exactly when its no-progress intervals exceed the budget.
    Progress never refunds one; the largest 32-bit budget is never exceeded.
  */
  lemma {:induction false} TimeoutBudget(w: World, ops: seq<Op>)
    requires PlanOk(w.plan) && AllLegal(ops) && NeverDropped(ops)
    requires w.plan.maxTimeouts <= U32_MAX && !w.plan.cancelled && w.plan.timeouts == 0
    ensures Budgeted(Run(w, ops).plan, w.plan.maxTimeouts, QuietIntervals(ops))
  {
    hide PlanOk, Step;
    if ops != [] {
      var init := ops[..|ops| - 1];
      TimeoutBudget(w, init);
      RunOk(w, init);
      StepBudget(Run(w, init), ops[|ops| - 1], w.plan.maxTimeouts, QuietIntervals(init));
    }
  }

  // ------------------------------------------------------------------------
  // The mailbox.
  // ------------------------------------------------------------------------

  /** Exact counters under bounds below the largest 64-bit value. */
  ghost predicate MailOk(s: PlanState) {
    Exact(s.mail) && Bounded(s.mail)
  }

  lemma ActedMail(s: PlanState, action: Action)
    requires MailOk(s)
    ensures MailOk(Acted(s, action))
  {
    if action.PushPacket? {
      PushKeepsExact(s.mail, action.packet);
      hide Exact, Pushed;
    } else {
      hide Exact, Pushed, Rotated, MergeScores, AddedLanes;
    }
  }

  lemma TurnMailOk(w: World, op: Op)
    requires PlanOk(w.plan) && Legal(op) && op.Turn? && MailOk(w.plan)
    ensures MailOk(Step(w, op).plan)
  {
    hide RunTurn, PlanOk, Exact, ReadsMove, PersistMoves, FrontierMoves, KeysMove, AllWorkKept;
    RunTurnFacts(w.plan, NthId(w.drawn), op.ctx, op.replies);
    TurnMail(w.plan, NthId(w.drawn), op.ctx, op.replies);
  }

  lemma StepMail(w: World, op: Op)
    requires PlanOk(w.plan) && Legal(op) && MailOk(w.plan)
    ensures MailOk(Step(w, op).plan)
  {
    if op.Turn? {
      TurnMailOk(w, op);
    } else if op.Minor? {
      ActedMail(w.plan, op.action);
    } else if op.Terminalize? || op.Cancel? {
      PopKeepsExact(w.plan.mail);
      hide Exact;
    } else {
      hide Acted, OnRead, OnWrite, OnDurability, Probed, Emitted, NextBatch, TailDiscarded, Hashes, Exact, Bounded;
      if op.ReadDone? {
        ReadFrame(w.plan, op.op, op.apply);
      } else if op.WriteDone? {
        WriteFrame(w.plan, op.op, op.written);
      } else if op.FenceDone? {
        FenceFrame(w.plan, op.op, op.fenced);
      }
    }
  }

  /** In every reachable plan the mailbox counters are the sums over its queued packets and within bounds. */
  lemma {:induction false} MailboxStaysExact(w: World, ops: seq<Op>)
    requires PlanOk(w.plan) && AllLegal(ops) && MailOk(w.plan)
    ensures MailOk(Run(w, ops).plan)
  {
    hide PlanOk, Step, MailOk;
    if ops != [] {
      var init := ops[..|ops| - 1];
      MailboxStaysExact(w, init);
      RunOk(w, init);
      StepMail(Run(w, init), ops[|ops| - 1]);
    }
  }
}

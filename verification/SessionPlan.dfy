/**
  The session plan itself: the coordinator-owned object whose methods update
  its queues, maps and flags in place. Every method is proved to do what its
  function in `PlanSpec` says, from every state.
*/
module SessionPlans {
  import opened Basics
  import opened Identity
  import opened Lists
  import opened Frontiers
  import opened Sessions
  import opened Mailbox
  import opened PlanSpec
  import opened PlanInvariants
  import opened PlanTurns

  /** A turn keeps every invariant of the plan. */
  lemma TurnKeepsOk(s: PlanState, ids: nat, ctx: TurnContext, replies: seq<EngineReply>)
    requires PlanOk(s) && Replies(replies)
    ensures PlanOk(PlanSpec.RunTurn(s, ids, ctx, replies).plan)
  {
    hide PlanSpec.RunTurn, PlanOk;
    RunTurnFacts(s, ids, ctx, replies);
  }

  /** Keeps the entries not listed, in order. */
  method Retain(needs: seq<Need>, gone: seq<Need>) returns (kept: seq<Need>)
    ensures kept == Minus(needs, Elements(gone))
  {
    kept := [];
    var i := 0;
    while i < |needs|
      invariant 0 <= i <= |needs|
      invariant kept + Minus(needs[i..], Elements(gone)) == Minus(needs, Elements(gone))
    {
      ghost var rest := needs[i..];
      assert rest[0] == needs[i] && rest[1..] == needs[i + 1..];
      if needs[i] !in gone {
        assert kept + ([needs[i]] + Minus(rest[1..], Elements(gone))) == kept + [needs[i]] + Minus(rest[1..], Elements(gone));
        kept := kept + [needs[i]];
      }
      i := i + 1;
    }
  }

  /** Splits off the longest front of one tree kind within the limit. */
  method TakeSameKind(queue: seq<Need>, max: nat) returns (batch: seq<Need>, rest: seq<Need>)
    requires queue != [] && max > 0
    ensures batch == queue[..SameKind(queue, queue[0].kind, max)] && rest == queue[|batch|..]
    ensures |batch| <= max && forall n, m :: n in batch && m in batch ==> n.kind == m.kind
  {
    var kind, k := queue[0].kind, 1;
    while k < max && k < |queue| && queue[k].kind == kind
      invariant 1 <= k <= max && k <= |queue|
      invariant k + SameKind(queue[k..], kind, max - k) == SameKind(queue, kind, max)
      invariant forall i :: 0 <= i < k ==> queue[i].kind == kind
    {
      assert queue[k..][0] == queue[k] && queue[k..][1..] == queue[k + 1..];
      k := k + 1;
    }
    batch, rest := queue[..k], queue[k..];
  }

  /** `count` entries from `start` on, wrapping around. */
  method Around(needs: seq<Need>, start: nat, count: nat) returns (batch: seq<Need>)
    requires needs != []
    ensures |batch| == count
    ensures forall i :: 0 <= i < count ==> batch[i] == needs[(start + i) % |needs|]
  {
    batch := [];
    while |batch| < count
      invariant |batch| <= count
      invariant forall i :: 0 <= i < |batch| ==> batch[i] == needs[(start + i) % |needs|]
    {
      var at := (start + |batch|) % |needs|;
      batch := batch + [needs[at]];
    }
  }

  lemma AroundIsBatch(f: Frontier, batch: seq<Need>)
    requires f.retained != [] && |batch| == RecoverySize(|f.retained|)
    requires forall i :: 0 <= i < |batch| ==> batch[i] == f.retained[(f.cursor % |f.retained| + i) % |f.retained|]
    ensures batch == RecoveryBatch(f)
  {
    assert |batch| == |RecoveryBatch(f)|;
  }

  class SessionPlan {
    const mailbox: SessionMailbox
    const maxTimeouts: nat
    const readsCap: nat
    var rooted: bool
    var pendingReads: map<Hash, OperationRef>
    var recoveryReads: map<OperationRef, Need>
    var readBacklog: seq<ReadNeed>
    var backlog: seq<Need>
    var pendingNetwork: set<Hash>
    var retained: seq<Need>
    var unemitted: seq<Need>
    var cursor: nat
    var scores: map<PeerId, int>
    var lanes: seq<Lane>
    var recent: set<Hash>
    var persistence: Persistence
    var timeouts: nat
    var progress: bool
    var cancelled: bool
    var runs: nat

    function Net(): Frontier
      reads this
    {
      Frontier(retained, unemitted, backlog, cursor, pendingNetwork)
    }

    function State(): PlanState
      reads this, mailbox
    {
      PlanState(rooted, mailbox.State(), pendingReads, recoveryReads, readBacklog, Net(), scores, lanes, recent,
                persistence, timeouts, progress, maxTimeouts, readsCap, cancelled, runs)
    }

    constructor (maxPackets: nat, maxBytes: nat, maxTimeouts: nat, readsCap: nat)
      requires Admission.IsU64(maxPackets) && Admission.IsU64(maxBytes)
      ensures fresh(mailbox) && mailbox.Valid()
      ensures State() == NewPlan(maxPackets, maxBytes, maxTimeouts, readsCap)
      ensures PlanOk(State())
    {
      mailbox := new SessionMailbox(maxPackets, maxBytes);
      this.maxTimeouts, this.readsCap := maxTimeouts, readsCap;
      rooted, cancelled, progress := false, false, false;
      pendingReads, recoveryReads, readBacklog := map[], map[], [];
      backlog, pendingNetwork, retained, unemitted, cursor := [], {}, [], [], 0;
      scores, lanes, recent := map[], [], {};
      persistence, timeouts, runs := NothingPending, 0, 0;
      new;
      NewPlanOk(maxPackets, maxBytes, maxTimeouts, readsCap);
    }

    // ----------------------------------------------------------------------
    // The frontier queues.
    // ----------------------------------------------------------------------

    method RefreshPendingNetwork()
      modifies this
      ensures State() == old(State()).(net := Refreshed(old(State()).net))
    {
      pendingNetwork := (set n | n in retained :: n.hash) + (set n | n in backlog :: n.hash);
    }

    method NormalizeCursor()
      modifies this
      ensures State() == old(State()).(net := Normalized(old(State()).net))
    {
      if retained == [] {
        cursor := 0;
      } else {
        cursor := cursor % |retained|;
      }
    }

    method RetireNetworkResolutions(resolutions: seq<Need>)
      modifies this
      ensures State() == old(State()).(net := Retired(old(State()).net, Elements(resolutions)))
    {
      hide Normalized, Refreshed, Minus, Elements;
      var kept := Retain(retained, resolutions);
      var unsent := Retain(unemitted, resolutions);
      var waiting := Retain(backlog, resolutions);
      Requeue(kept, unsent, waiting);
    }

    /** Replaces the three queues, then brings the cursor and the hash view in line. */
    method Requeue(kept: seq<Need>, unsent: seq<Need>, waiting: seq<Need>)
      modifies this
      ensures State() == old(State()).(net := Refreshed(Normalized(old(State()).net.(retained := kept, unemitted := unsent, backlog := waiting))))
    {
      hide Normalized, Refreshed;
      retained, unemitted, backlog := kept, unsent, waiting;
      assert State() == old(State()).(net := old(State()).net.(retained := kept, unemitted := unsent, backlog := waiting));
      hide State, Net;
      NormalizeCursor();
      RefreshPendingNetwork();
    }

    method EnqueueNetworkFrontier(nodes: seq<Need>)
      modifies this
      ensures State() == old(State()).(net := Enqueued(old(State()).net, old(State()).recent, nodes))
    {
      var i := 0;
      while i < |nodes|
        invariant 0 <= i <= |nodes|
        invariant Queue(backlog, retained, recent, nodes[i..]) == Queue(old(backlog), retained, recent, nodes)
        modifies this`backlog
      {
        assert nodes[i..][0] == nodes[i] && nodes[i..][1..] == nodes[i + 1..];
        if nodes[i].hash !in recent && nodes[i] !in retained && nodes[i] !in backlog {
          backlog := backlog + [nodes[i]];
        }
        i := i + 1;
      }
      RefreshPendingNetwork();
    }

    method DispatchNetworkBacklog() returns (dispatched: seq<Need>)
      modifies this
      ensures State() == old(State()).(net := Dispatched(old(State()).net))
      ensures dispatched == old(State()).net.backlog[..Slots(old(State()).net)]
    {
      hide Refreshed, Normalized;
      var capacity := if |retained| >= MAX_RETAINED then 0 else MAX_RETAINED - |retained|;
      dispatched := [];
      var i := 0;
      while i < capacity && backlog != []
        invariant 0 <= i <= Slots(old(Net()))
        invariant dispatched == old(backlog)[..i] && backlog == old(backlog)[i..]
        invariant retained == old(retained) + dispatched && unemitted == old(unemitted) + dispatched
        modifies this`retained, this`unemitted, this`backlog
      {
        var node := backlog[0];
        assert node == old(backlog)[i];
        backlog := backlog[1..];
        retained := retained + [node];
        unemitted := unemitted + [node];
        dispatched := dispatched + [node];
        i := i + 1;
      }
      assert State() == old(State()).(net := old(State()).net.(retained := retained, unemitted := unemitted, backlog := backlog));
      hide Slots, State, Net;
      NormalizeCursor();
      RefreshPendingNetwork();
    }

    method DiscardUnrequestedTail()
      modifies this
      ensures State() == old(State()).(net := TailDiscarded(old(State()).net))
    {
      hide Normalized, Refreshed, Minus;
      var unrequested := unemitted + backlog;
      var kept := Retain(retained, unrequested);
      assert Elements(unrequested) == Elements(unemitted) + Elements(backlog);
      Requeue(kept, [], []);
    }

    method ResetNetworkEpoch()
      modifies this
      ensures State() == old(State()).(net := Empty())
    {
      backlog, pendingNetwork, retained, unemitted, cursor := [], {}, [], [], 0;
    }

    /** The next request batch: FIFO, of one tree kind, remembered as recent. */
    method TakeNextNormalNetworkBatch(maxNodes: nat) returns (batch: seq<Need>)
      modifies this`unemitted, this`recent
      ensures batch == NormalBatch(old(State()), maxNodes)
      ensures State() == BatchTaken(old(State()), maxNodes)
      ensures |batch| <= maxNodes && forall n, m :: n in batch && m in batch ==> n.kind == m.kind
    {
      if cancelled || maxNodes == 0 || unemitted == [] {
        assert State().recent + Hashes([]) == State().recent;
        assert unemitted[0..] == unemitted;
        return [];
      }
      batch, unemitted := TakeSameKind(unemitted, maxNodes);
      recent := recent + (set n | n in batch :: n.hash);
    }

    method NextTimeoutRecoveryBatch() returns (batch: seq<Need>)
      modifies this`cursor
      ensures batch == TimeoutBatch(old(State()))
      ensures State() == TimeoutRotated(old(State()))
    {
      var len := |retained|;
      if cancelled || len == 0 {
        return [];
      }
      hide RecoveryBatch;
      var start := cursor % len;
      var count := if len <= MAX_REPROBES then len else MAX_REPROBES;
      batch := Around(retained, start, count);
      AroundIsBatch(Net(), batch);
      cursor := (start + count) % len;
    }

    // ----------------------------------------------------------------------
    // Reads.
    // ----------------------------------------------------------------------

    /** Puts one read in flight under a fresh operation. */
    method SubmitRead(need: ReadNeed, ctx: TurnContext, ids: IdCounter) returns (request: ReadRequest)
      requires ids.Valid()
      modifies this`pendingReads, ids
      ensures ids.Valid() && ids.next == AfterMint(old(ids.next))
      ensures pendingReads == old(pendingReads)[need.hash := request.op]
      ensures request == ReadRequest(Mint(ctx.session, Read, old(ids.next)), need.hash, need.ledgerSeq,
                                     ctx.storeGeneration, ctx.priority)
    {
      var id := ids.NextId();
      var generation := ids.NextId();
      var op := OperationRef(ctx.session, Read, id, generation);
      pendingReads := pendingReads[need.hash := op];
      request := ReadRequest(op, need.hash, need.ledgerSeq, ctx.storeGeneration, ctx.priority);
    }

    method DrainReadBacklog(ctx: TurnContext, ids: IdCounter) returns (requests: seq<ReadRequest>)
      requires ids.Valid()
      modifies this`pendingReads, this`readBacklog, ids
      ensures ids.Valid()
      ensures ReadRound(pendingReads, readBacklog, ids.next, requests)
              == Drained(ReadRound(old(pendingReads), old(readBacklog), old(ids.next), []), ctx, readsCap)
    {
      requests := [];
      ghost var goal := Drained(ReadRound(pendingReads, readBacklog, ids.next, []), ctx, readsCap);
      while readBacklog != [] && |pendingReads| < readsCap
        invariant ids.Valid()
        invariant Drained(ReadRound(pendingReads, readBacklog, ids.next, requests), ctx, readsCap) == goal
        decreases |readBacklog|
      {
        var need := readBacklog[0];
        readBacklog := readBacklog[1..];
        var request := SubmitRead(need, ctx, ids);
        requests := requests + [request];
      }
    }

    method AdmitReads(needs: seq<ReadNeed>, ctx: TurnContext, ids: IdCounter) returns (requests: seq<ReadRequest>)
      requires ids.Valid()
      modifies this`pendingReads, this`readBacklog, ids
      ensures ids.Valid()
      ensures ReadRound(pendingReads, readBacklog, ids.next, requests)
              == Admitted(ReadRound(old(pendingReads), old(readBacklog), old(ids.next), []), needs, ctx, readsCap)
    {
      requests := [];
      var i := 0;
      ghost var goal := Admitted(ReadRound(pendingReads, readBacklog, ids.next, []), needs, ctx, readsCap);
      while i < |needs|
        invariant 0 <= i <= |needs| && ids.Valid()
        invariant Admitted(ReadRound(pendingReads, readBacklog, ids.next, requests), needs[i..], ctx, readsCap) == goal
      {
        assert needs[i..][0] == needs[i] && needs[i..][1..] == needs[i + 1..];
        if needs[i].hash in pendingReads {
        } else if |pendingReads| >= readsCap {
          readBacklog := readBacklog + [needs[i]];
        } else {
          var request := SubmitRead(needs[i], ctx, ids);
          requests := requests + [request];
        }
        i := i + 1;
      }
    }

    method DeferReadsAfterIncrementalWrite(needs: seq<ReadNeed>)
      modifies this`readBacklog
      ensures readBacklog == DeferredReads(old(readBacklog), pendingReads, needs)
    {
      var i := 0;
      while i < |needs|
        invariant 0 <= i <= |needs|
        invariant DeferredReads(readBacklog, pendingReads, needs[i..]) == DeferredReads(old(readBacklog), pendingReads, needs)
      {
        assert needs[i..][0] == needs[i] && needs[i..][1..] == needs[i + 1..];
        if needs[i].hash !in pendingReads && needs[i].hash !in ReadHashes(readBacklog) {
          readBacklog := readBacklog + [needs[i]];
        }
        i := i + 1;
      }
    }

    method ReprobeNetworkBatch(needs: seq<Need>, ctx: TurnContext, ids: IdCounter, ledgerSequence: Option<nat>)
      returns (requests: seq<ReadRequest>)
      requires ids.Valid()
      modifies this`recoveryReads, ids
      ensures ids.Valid()
      ensures ProbeResult(State(), ids.next, requests) == Reprobe(old(State()), old(ids.next), needs, ctx, ledgerSequence)
    {
      requests := [];
      if cancelled || persistence != NothingPending || !rooted || ledgerSequence in {None, Some(0)} {
        return;
      }
      var i := 0;
      ghost var goal :=
        Probed(Probing(recoveryReads, ids.next, []), needs, |pendingReads|, readsCap, ctx, ledgerSequence.value);
      while i < |needs|
        invariant 0 <= i <= |needs| && ids.Valid()
        invariant Probed(Probing(recoveryReads, ids.next, requests), needs[i..], |pendingReads|, readsCap, ctx,
                         ledgerSequence.value) == goal
      {
        assert needs[i..][0] == needs[i] && needs[i..][1..] == needs[i + 1..];
        if !AlreadyProbed(Probing(recoveryReads, ids.next, requests), needs[i])
           && |pendingReads| + |recoveryReads| + |requests| < readsCap
        {
          var id := ids.NextId();
          var generation := ids.NextId();
          var op := OperationRef(ctx.session, RecoveryRead, id, generation);
          recoveryReads := recoveryReads[op := needs[i]];
          requests := requests +
            [ReadRequest(op, needs[i].hash, ledgerSequence.value, ctx.storeGeneration, ctx.priority)];
        }
        i := i + 1;
      }
    }

    /** The first pending hash, in hash order, dispatched as exactly this operation. */
    method FindRead(op: OperationRef) returns (found: Option<Hash>)
      ensures found == FirstMatch(pendingReads, op)
    {
      var keys := pendingReads.Keys;
      found := None;
      while keys != {}
        invariant keys <= pendingReads.Keys
        invariant found.None? ==> forall g :: g in pendingReads.Keys - keys ==> pendingReads[g] != op
        invariant found.Some? ==>
          && found.value in pendingReads && pendingReads[found.value] == op
          && forall g :: g in pendingReads.Keys - keys && pendingReads[g] == op ==> found.value <= g
        decreases keys
      {
        var g :| g in keys;
        keys := keys - {g};
        if pendingReads[g].IsExpectedFor(op) && (found.None? || g < found.value) {
          found := Some(g);
        }
      }
      LeastMatchUnique(pendingReads, op, found);
    }

    // ----------------------------------------------------------------------
    // One turn.
    // ----------------------------------------------------------------------

    /** Feeds queued packets to the engine while there are any. */
    method FeedPackets(feeds: seq<PacketFeed>) returns (fed: PacketFeed)
      requires |feeds| == MAX_FEEDS
      modifies mailbox
      ensures Feeding(mailbox.State(), fed) == FedPackets(Feeding(old(mailbox.State()), NoFeed()), rooted, feeds)
    {
      fed := NoFeed();
      var k := 0;
      ghost var goal := FedPackets(Feeding(mailbox.State(), fed), rooted, feeds);
      while k < MAX_FEEDS
        invariant 0 <= k <= MAX_FEEDS
        invariant FedPackets(Feeding(mailbox.State(), fed), rooted, feeds[k..]) == goal
      {
        assert feeds[k..][0] == feeds[k] && feeds[k..][1..] == feeds[k + 1..];
        if !rooted {
          break;
        }
        var empty, _ := mailbox.PopFront();
        if empty {
          break;
        }
        fed := Merged(fed, feeds[k]);
        k := k + 1;
      }
    }

    /** Credits useful peers; the drained mailbox turns them into lanes and may start a fresh scan. */
    method CreditPeers(feed: PacketFeed, replyPeers: seq<PeerId>)
      modifies this
      ensures State() == Credited(old(State()), feed, replyPeers)
    {
      hide MergeScores, Empty;
      scores := MergeScores(scores, feed.peers);
      if mailbox.queue == [] && scores != map[] {
        scores := map[];
        var wasEmpty := lanes == [];
        lanes := lanes + ReplyLanes(replyPeers);
        ReplyLanesEmpty(replyPeers);
        if wasEmpty && lanes != [] && rooted {
          ResetNetworkEpoch();
        }
      }
    }

    /** Keeps what the engine announced while its accepted nodes are written first. */
    method WriteIncrementally(ctx: TurnContext, ids: IdCounter, reply: EngineReply) returns (turn: PlanTurn)
      requires ids.Valid()
      modifies this, ids
      ensures ids.Valid()
      ensures Answer(State(), ids.next, Some(turn)) == WriteIncrement(old(State()), old(ids.next), ctx, reply)
    {
      hide DeferredReads, Enqueued;
      match reply.outcome {
        case NeedsReads(needs) => DeferReadsAfterIncrementalWrite(needs);
        case NeedsNetwork(nodes) => EnqueueNetworkFrontier(nodes);
        case _ =>
      }
      if !HasSequence(reply.ledgerSequence) {
        return InvalidTurn;
      }
      var id := ids.NextId();
      var generation := ids.NextId();
      var op := OperationRef(ctx.session, Write, id, generation);
      persistence := IncrementalWritePending(op);
      return Persist(WriteBatch(op, None, ctx.storeGeneration, reply.ledgerSequence.value, reply.writes));
    }

    /** Hands out the final batch, the only one that carries a fence. */
    method Complete(ctx: TurnContext, ids: IdCounter, reply: EngineReply) returns (turn: PlanTurn)
      requires ids.Valid()
      modifies this`persistence, ids
      ensures ids.Valid()
      ensures Answer(State(), ids.next, Some(turn)) == OnComplete(old(State()), old(ids.next), ctx, reply)
    {
      if !HasSequence(reply.finalSequence) {
        return InvalidTurn;
      }
      var id := ids.NextId();
      var generation := ids.NextId();
      var write := OperationRef(ctx.session, Write, id, generation);
      id := ids.NextId();
      generation := ids.NextId();
      var fence := OperationRef(ctx.session, DurabilityFence, id, generation);
      persistence := FinalWritePending(write, fence);
      return Persist(WriteBatch(write, Some(fence), ctx.storeGeneration, reply.finalSequence.value, reply.writes));
    }

    method RespondTo(ctx: TurnContext, ids: IdCounter, reply: EngineReply, attached: bool) returns (turn: Option<PlanTurn>)
      requires ids.Valid()
      modifies this, ids
      ensures ids.Valid()
      ensures Answer(State(), ids.next, turn) == Respond(old(State()), old(ids.next), ctx, reply, attached)
    {
      hide Enqueued, Dispatched, Slots, Admitted, OnComplete;
      match reply.outcome {
        case Ready =>
          if attached || reply.runnable {
            return None;
          }
          return Some(Continue);
        case Yielded =>
          return Some(YieldedTurn);
        case NeedsReads(needs) =>
          var requests := AdmitReads(needs, ctx, ids);
          return Some(if requests == [] then Continue else Reads(requests));
        case NeedsNetwork(nodes) =>
          EnqueueNetworkFrontier(nodes);
          var moved := DispatchNetworkBacklog();
          return Some(if moved == [] then Continue else Network(moved));
        case CompleteTree =>
          var final := Complete(ctx, ids, reply);
          return Some(final);
        case InvalidTree =>
          return Some(InvalidTurn);
      }
    }

    /** Brings the plan to the point where the engine may be advanced. */
    method ApplyPackets(reply: EngineReply) returns (fed: PacketFeed)
      requires |reply.feeds| == MAX_FEEDS
      modifies this, mailbox
      ensures State() == AtEngine(old(State()), reply) && fed == FeedOf(old(State()), reply)
      ensures State().rooted == old(State()).rooted
    {
      hide FedPackets, Credited;
      AtEngineKeeps(State(), reply);
      fed := FeedPackets(reply.feeds);
      CreditPeers(fed, reply.replyPeers);
    }

    /** Retires what peers resolved and notes useful data as progress; `ran` counts an engine call. */
    method Settle(fed: PacketFeed, ran: nat)
      modifies this
      ensures State() == WithProgress(old(State()).(net := Retired(old(State()).net, Elements(fed.resolved))), fed.useful)
                         .(runs := old(State()).runs + ran)
    {
      hide Retired;
      runs := runs + ran;
      RetireNetworkResolutions(fed.resolved);
      progress := progress || fed.useful;
    }

    method DispatchTurn() returns (turn: PlanTurn)
      modifies this
      ensures State() == old(State()).(net := Dispatched(old(State()).net))
      ensures turn == PlanSpec.DispatchTurn(old(State()))
    {
      hide Dispatched, Slots;
      var moved := DispatchNetworkBacklog();
      return if moved == [] then Continue else Network(moved);
    }

    predicate OutputBlocked()
      reads this, mailbox
      ensures OutputBlocked() == Blocked(State())
    {
      backlog != [] && |retained| >= MAX_RETAINED
    }

    predicate IsRooted()
      reads this, mailbox
      ensures IsRooted() == State().rooted
    {
      rooted
    }

    /** One pass of the turn's loop; no turn means go round again. */
    method RunRound(ctx: TurnContext, ids: IdCounter, reply: EngineReply) returns (turn: Option<PlanTurn>)
      requires ids.Valid() && |reply.feeds| == MAX_FEEDS
      modifies this, mailbox, ids
      ensures ids.Valid()
      ensures var r := Round(old(State()), old(ids.next), ctx, reply);
              State() == r.plan && ids.next == r.ids && turn == r.turn
    {
      hide State, AtEngine, FeedOf, Restarts, Retired, Elements, Dispatched, Slots, WriteIncrement, Respond;
      var fed := ApplyPackets(reply);
      if OutputBlocked() {
        Settle(fed, 0);
        var dispatched := DispatchTurn();
        return Some(dispatched);
      }
      if !IsRooted() {
        return Some(Continue);
      }
      Settle(fed, 1);
      if !reply.outcome.CompleteTree? && reply.writes != [] {
        var increment := WriteIncrementally(ctx, ids, reply);
        return Some(increment);
      }
      turn := RespondTo(ctx, ids, reply, fed.attached);
    }

    /** At most four rounds. */
    method RunRounds(ctx: TurnContext, ids: IdCounter, replies: seq<EngineReply>) returns (turn: PlanTurn)
      requires ids.Valid() && Replies(replies)
      modifies this, mailbox, ids
      ensures ids.Valid()
      ensures var r := Rounds(old(State()), old(ids.next), ctx, replies, 0);
              State() == r.plan && ids.next == r.ids && r.turn == Some(turn)
    {
      hide State, Round;
      var k := 0;
      ghost var goal := Rounds(State(), ids.next, ctx, replies, 0);
      while k < MAX_TURNS
        invariant 0 <= k <= MAX_TURNS && ids.Valid()
        invariant var r := Rounds(State(), ids.next, ctx, replies, k);
                  r.plan == goal.plan && r.ids == goal.ids && r.turn == goal.turn
      {
        var next := RunRound(ctx, ids, replies[k]);
        if next.Some? {
          return next.value;
        }
        k := k + 1;
      }
      return Continue;
    }

    method RunTurn(ctx: TurnContext, ids: IdCounter, replies: seq<EngineReply>) returns (turn: PlanTurn)
      requires ids.Valid() && Replies(replies)
      modifies this, mailbox, ids
      ensures ids.Valid()
      ensures var r := PlanSpec.RunTurn(old(State()), old(ids.next), ctx, replies);
              State() == r.plan && ids.next == r.ids && r.turn == Some(turn)
      ensures old(PlanOk(State())) ==> PlanOk(State())
    {
      hide PlanSpec.RunTurn, PlanOk, State;
      if PlanOk(State()) {
        TurnKeepsOk(State(), ids.next, ctx, replies);
      }
      turn := TakeTurn(ctx, ids, replies);
    }

    method TakeTurn(ctx: TurnContext, ids: IdCounter, replies: seq<EngineReply>) returns (turn: PlanTurn)
      requires ids.Valid() && Replies(replies)
      modifies this, mailbox, ids
      ensures ids.Valid()
      ensures var r := PlanSpec.RunTurn(old(State()), old(ids.next), ctx, replies);
              State() == r.plan && ids.next == r.ids && r.turn == Some(turn)
    {
      hide Drained, Rounds, Dispatched, Slots;
      if cancelled || persistence != NothingPending || pendingReads != map[] {
        return Continue;
      }
      if readBacklog != [] {
        var requests := DrainReadBacklog(ctx, ids);
        return if requests == [] then Continue else Reads(requests);
      }
      if backlog != [] {
        var moved := DispatchNetworkBacklog();
        if moved != [] {
          return Network(moved);
        }
        if mailbox.queue == [] {
          return Continue;
        }
      }
      turn := RunRounds(ctx, ids, replies);
    }

    // ----------------------------------------------------------------------
    // Completions, timers and lifecycle.
    // ----------------------------------------------------------------------

    method OnRead(op: OperationRef, apply: ReadApply) returns (outcome: ReadOutcome)
      modifies this
      ensures ReadResult(State(), outcome) == PlanSpec.OnRead(old(State()), op, apply)
    {
      hide Retired, FirstMatch;
      if !rooted {
        return ReadStale;
      }
      var attached := apply.Applied? && apply.attachedEdges >= 1;
      if op.kind == Read {
        var found := FindRead(op);
        if found.None? {
          return ReadStale;
        }
        pendingReads := pendingReads - {found.value};
      } else if op.kind == RecoveryRead {
        if op !in recoveryReads {
          return ReadStale;
        }
        var need := recoveryReads[op];
        recoveryReads := recoveryReads - {op};
        if apply.Applied? {
          assert Elements([need]) == {need};
          RetireNetworkResolutions([need]);
        }
      } else {
        return ReadStale;
      }
      progress := progress || attached;
      return ReadApplied;
    }

    method OnWrite(op: OperationRef, written: WriteOutcome) returns (outcome: PlanWriteOutcome)
      modifies this`persistence
      ensures WriteResult(State(), outcome) == PlanSpec.OnWrite(old(State()), op, written)
    {
      if op.kind != Write {
        return StaleWrite;
      }
      match persistence {
        case IncrementalWritePending(expected) =>
          if expected.IsExpectedFor(op) {
            match written {
              case WriteAccepted =>
                persistence := NothingPending;
                return IncrementalAccepted;
              case WriteFailed =>
                persistence := PersistFailed(WriteFailure);
                return FailedWrite(WriteFailure);
              case WriteCancelled =>
                persistence := NothingPending;
                return CancelledWrite(StoreRotated);
              case WriteStale =>
            }
          }
        case FinalWritePending(expected, fence) =>
          if expected.IsExpectedFor(op) {
            match written {
              case WriteAccepted =>
                persistence := FencePending(fence);
                return FinalAccepted;
              case WriteFailed =>
                persistence := PersistFailed(WriteFailure);
                return FailedWrite(WriteFailure);
              case WriteCancelled =>
                persistence := NothingPending;
                return CancelledWrite(StoreRotated);
              case WriteStale =>
            }
          }
        case _ =>
      }
      return StaleWrite;
    }

    method OnDurability(op: OperationRef, fenced: FenceOutcome) returns (outcome: PlanFenceOutcome)
      modifies this`persistence
      ensures FenceResult(State(), outcome) == PlanSpec.OnDurability(old(State()), op, fenced)
    {
      if op.kind == DurabilityFence && persistence.FencePending? && persistence.op.IsExpectedFor(op) {
        match fenced {
          case FencePassed =>
            persistence := Durable;
            return DurableNow;
          case FenceFailed =>
            persistence := PersistFailed(DurabilityFenceFailed);
            return FailedFence(DurabilityFenceFailed);
          case FenceStale =>
        }
      }
      return StaleFence;
    }

    method OnTimeout(noProgress: bool) returns (verdict: TimeoutVerdict)
      modifies this`timeouts, this`cancelled
      ensures TimeoutResult(State(), verdict) == PlanSpec.OnTimeout(old(State()), noProgress)
    {
      if cancelled {
        return GiveUp;
      }
      if !noProgress {
        return KeepGoing;
      }
      timeouts := if timeouts >= U32_MAX then U32_MAX else timeouts + 1;
      if timeouts > maxTimeouts {
        cancelled := true;
        return GiveUp;
      }
      return KeepGoing;
    }

    method FinishNetworkLane()
      modifies this
      ensures State() == LaneFinished(old(State()))
    {
      hide TailDiscarded;
      if lanes != [] {
        lanes := lanes[1..];
        DiscardUnrequestedTail();
      }
    }

    method BeginTimeoutScan(existing: seq<PeerId>, added: seq<PeerId>)
      modifies this`recent, this`lanes
      ensures State() == TimeoutScan(old(State()), existing, added)
    {
      recent := {};
      lanes := lanes + [TimeoutLane(existing)];
      lanes := lanes + AddedLanes(added);
    }

    method InstallEngine() returns (installed: bool)
      modifies this`rooted
      ensures State() == Installed(old(State()))
      ensures installed <==> !cancelled && !old(rooted)
    {
      if cancelled || rooted {
        return false;
      }
      rooted := true;
      return true;
    }

    /** Accepts a packet into the bounded mailbox. */
    method PushPacket(packet: Packet) returns (ok: bool)
      modifies mailbox
      ensures State() == old(State()).(mail := Pushed(old(State()).mail, packet))
      ensures ok <==> HasRoom(old(State()).mail, packet)
    {
      ok := mailbox.Push(packet);
    }

    method NoteUsefulPeer(peer: PeerId, count: int)
      modifies this`scores
      ensures State() == PeerNoted(old(State()), peer, count)
    {
      scores := MergeScores(scores, map[peer := count]);
    }

    method ClearRecentNodes()
      modifies this`recent
      ensures State() == old(State()).(recent := {})
    {
      recent := {};
    }

    method NoteProgress()
      modifies this`progress
      ensures State() == old(State()).(progress := true)
    {
      progress := true;
    }

    /** Consumes the interval's progress bit. */
    method TakeNoProgressInterval() returns (quiet: bool)
      modifies this`progress
      ensures quiet <==> !old(progress)
      ensures State() == old(State()).(progress := false)
    {
      quiet := !progress;
      progress := false;
    }

    method ReleaseRetainedEngine()
      modifies this`rooted
      ensures State() == old(State()).(rooted := false)
    {
      rooted := false;
    }

    method SuspendForDormancy()
      modifies this`pendingReads, this`recoveryReads
      ensures State() == Suspended(old(State()))
    {
      pendingReads := map[];
      recoveryReads := map[];
    }

    method TerminalizeRetainingEngine()
      modifies this, mailbox
      ensures State() == Terminalized(old(State()))
    {
      hide Empty, Cleared;
      cancelled := true;
      mailbox.Clear();
      pendingReads, recoveryReads, readBacklog := map[], map[], [];
      ResetNetworkEpoch();
      scores, lanes, recent := map[], [], {};
      persistence := NothingPending;
    }

    method Cancel()
      modifies this, mailbox
      ensures State() == CancelledPlan(old(State()))
    {
      TerminalizeRetainingEngine();
      rooted := false;
    }
  }

  lemma ReplyLanesEmpty(peers: seq<PeerId>)
    ensures ReplyLanes(peers) == [] <==> peers == []
  {
  }

  lemma LeastMatchUnique(pending: map<Hash, OperationRef>, op: OperationRef, found: Option<Hash>)
    requires found.None? ==> forall g :: g in pending ==> pending[g] != op
    requires found.Some? ==> LeastMatch(pending, op, found.value)
    ensures found == FirstMatch(pending, op)
  {
    var first := FirstMatch(pending, op);
    if found.Some? && first.Some? {
      assert found.value <= first.value <= found.value;
    }
  }
}

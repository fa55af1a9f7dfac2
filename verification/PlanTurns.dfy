/**
  What one turn of the session plan does, whatever the engine answers: when
  the engine may be advanced, that no announced work is lost, and how the
  frontier, the reads and the persistence machine move.
*/
module PlanTurns {
  import opened Basics
  import opened Identity
  import opened Lists
  import opened Frontiers
  import opened Mailbox
  import opened PlanSpec
  import opened PlanInvariants

  /** The engine may be advanced: nothing it announced earlier is still waiting or in flight. */
  ghost predicate Quiescent(s: PlanState) {
    && !s.cancelled
    && s.persistence == NothingPending
    && s.pendingReads == map[]
    && s.readBacklog == []
    && s.net.backlog == []
  }

  /** How every round of a turn finds the plan. */
  ghost predicate LoopReady(s: PlanState) {
    && !s.cancelled
    && s.persistence == NothingPending
    && s.pendingReads == map[]
    && s.readBacklog == []
    && (s.net.backlog == [] || |s.net.retained| >= MAX_RETAINED)
  }

  /** What no turn touches. */
  ghost predicate SameElsewhere(s: PlanState, t: PlanState) {
    && t.rooted == s.rooted
    && t.cancelled == s.cancelled
    && t.recoveryReads == s.recoveryReads
    && t.recent == s.recent
    && t.readsCap == s.readsCap
    && t.timeouts == s.timeouts && t.maxTimeouts == s.maxTimeouts
    && t.mail.maxPackets == s.mail.maxPackets && t.mail.maxBytes == s.mail.maxBytes
    && (s.progress ==> t.progress)
  }

  lemma {:induction false} FeedingKeepsBounds(f: Feeding, rooted: bool, feeds: seq<PacketFeed>)
    ensures var g := FedPackets(f, rooted, feeds);
            g.mail.maxPackets == f.mail.maxPackets && g.mail.maxBytes == f.mail.maxBytes
    decreases |feeds|
  {
    if feeds != [] && rooted && f.mail.queue != [] {
      FeedingKeepsBounds(Feeding(Popped(f.mail), Merged(f.feed, feeds[0])), rooted, feeds[1..]);
    }
  }

  /** Up to the engine call a round changes the mailbox, scores and lanes; only a fresh scan touches the frontier. */
  lemma AtEngineKeeps(s: PlanState, reply: EngineReply)
    ensures var at := AtEngine(s, reply);
            && SameElsewhere(s, at)
            && at.pendingReads == s.pendingReads && at.readBacklog == s.readBacklog && at.persistence == s.persistence
            && at.net == (if Restarts(s, reply) then Empty() else s.net)
            && at.runs == s.runs
  {
    FeedingKeepsBounds(Feeding(s.mail, NoFeed()), s.rooted, reply.feeds);
    hide FedPackets, MergeScores, ReplyLanes, Empty, NoFeed;
  }

  /** The engine is only ever advanced in a quiescent plan. */
  lemma EngineSeesQuiescentPlan(s: PlanState, reply: EngineReply)
    requires LoopReady(s) && Advances(s, reply)
    ensures Quiescent(AtEngine(s, reply))
  {
    AtEngineKeeps(s, reply);
  }

  /** Announced work is still there: requested, waiting, or deliberately suppressed as recent. */
  ghost predicate WorkKept(s: PlanState, outcome: StepOutcome) {
    match outcome
    case NeedsReads(needs) =>
      forall i :: 0 <= i < |needs| ==> needs[i].hash in s.pendingReads || needs[i].hash in ReadHashes(s.readBacklog)
    case NeedsNetwork(nodes) =>
      forall n :: n in nodes ==> n in s.net.retained || n in s.net.backlog || n.hash in s.recent
    case _ => true
  }

  // ------------------------------------------------------------------------
  // The frontier.
  // ------------------------------------------------------------------------

  function LastNodes(outcomes: seq<StepOutcome>): seq<Need> {
    if outcomes != [] && outcomes[|outcomes| - 1].NeedsNetwork? then outcomes[|outcomes| - 1].nodes else []
  }

  function LastReads(outcomes: seq<StepOutcome>): seq<ReadNeed> {
    if outcomes != [] && outcomes[|outcomes| - 1].NeedsReads? then outcomes[|outcomes| - 1].needs else []
  }

  /** The reads in flight or waiting. */
  function ReadKeys(s: PlanState): set<Hash> {
    s.pendingReads.Keys + ReadHashes(s.readBacklog)
  }

  function Moved(turn: Option<PlanTurn>): seq<Need> {
    if turn.Some? && turn.value.Network? then turn.value.needs else []
  }

  function Base(net: Frontier, restarted: bool): Frontier {
    if restarted then Empty() else net
  }

  /**
    How a turn moves the frontier: resolved needs leave, announced ones queue
    up behind the rest, and a prefix of the queue is dispatched.
  */
  ghost predicate FrontierMoves(
    net: Frontier, g: Frontier, restarted: bool, retired: set<Need>, announced: seq<Need>, recent: set<Hash>, moved: seq<Need>)
  {
    var base := Base(net, restarted);
    var kept := Minus(base.retained, retired);
    && g.retained == kept + moved
    && g.unemitted == Minus(base.unemitted, retired) + moved
    && moved + g.backlog == Queue(Minus(base.backlog, retired), kept, recent, announced)
    && (announced != [] ==> Minus(base.backlog, retired) == [])
  }

  lemma RetiredMoves(net: Frontier, gone: set<Need>, restarted: bool, recent: set<Hash>)
    ensures FrontierMoves(net, Retired(Base(net, restarted), gone), restarted, gone, [], recent, [])
  {
    var g := Retired(Base(net, restarted), gone);
    assert g.retained + [] == g.retained && g.unemitted + [] == g.unemitted && [] + g.backlog == g.backlog;
  }

  lemma FrontierUnmoved(net: Frontier, g: Frontier, restarted: bool, retired: set<Need>, recent: set<Hash>)
    requires FrontierMoves(net, g, restarted, retired, [], recent, [])
    ensures var base := Base(net, restarted);
            && g.retained == Minus(base.retained, retired)
            && g.unemitted == Minus(base.unemitted, retired)
            && g.backlog == Minus(base.backlog, retired)
    ensures Base(net, restarted).backlog == [] ==> g.backlog == []
  {
    var base := Base(net, restarted);
    assert Minus(base.retained, retired) + [] == Minus(base.retained, retired);
    assert Minus(base.unemitted, retired) + [] == Minus(base.unemitted, retired);
    assert [] + g.backlog == g.backlog;
  }

  /** Dispatching a prefix of the queue. */
  lemma DispatchMoves(net: Frontier, g: Frontier, restarted: bool, retired: set<Need>, announced: seq<Need>, recent: set<Hash>)
    requires FrontierMoves(net, g, restarted, retired, announced, recent, [])
    ensures FrontierMoves(net, Dispatched(g), restarted, retired, announced, recent, g.backlog[..Slots(g)])
  {
    hide Minus, Queue, Slots, Base;
    var moved := g.backlog[..Slots(g)];
    assert [] + g.backlog == g.backlog == moved + g.backlog[Slots(g)..];
    var base := Base(net, restarted);
    assert Minus(base.retained, retired) + [] == Minus(base.retained, retired);
    assert Minus(base.unemitted, retired) + [] == Minus(base.unemitted, retired);
  }

  /** Queueing an announced batch, possible only when nothing was waiting. */
  lemma EnqueueMoves(net: Frontier, g: Frontier, restarted: bool, retired: set<Need>, recent: set<Hash>, nodes: seq<Need>)
    requires FrontierMoves(net, g, restarted, retired, [], recent, [])
    requires Base(net, restarted).backlog == []
    ensures FrontierMoves(net, Enqueued(g, recent, nodes), restarted, retired, nodes, recent, [])
  {
    FrontierUnmoved(net, g, restarted, retired, recent);
    hide Minus;
    var h := Enqueued(g, recent, nodes);
    assert h.retained == g.retained + [] && h.unemitted == g.unemitted + [];
    assert [] + h.backlog == h.backlog;
  }

  /** A round that only retired, followed by the rest of the turn, is one move. */
  lemma MovesCompose(
    net: Frontier, mid: Frontier, g: Frontier, r1: bool, r2: bool, gone1: set<Need>, gone2: set<Need>,
    announced: seq<Need>, recent: set<Hash>, moved: seq<Need>)
    requires FrontierMoves(net, mid, r1, gone1, [], recent, [])
    requires FrontierMoves(mid, g, r2, gone2, announced, recent, moved)
    ensures FrontierMoves(net, g, r1 || r2, gone1 + gone2, announced, recent, moved)
  {
    var base := Base(net, r1);
    FrontierUnmoved(net, mid, r1, gone1, recent);
    MinusTwice(base.retained, gone1, gone2);
    MinusTwice(base.unemitted, gone1, gone2);
    MinusTwice(base.backlog, gone1, gone2);
    if r1 || r2 {
      assert Minus<Need>([], gone1 + gone2) == [];
    }
  }

  // ------------------------------------------------------------------------
  // The facts of a turn.
  // ------------------------------------------------------------------------

  function Draws(turn: Option<PlanTurn>): nat {
    if turn.None? then 0
    else match turn.value
      case Reads(requests) => 2 * |requests|
      case Persist(batch) => if batch.fence.Some? then 4 else 2
      case _ => 0
  }

  /** Reads go into flight exactly as requested; nothing else enters or leaves. */
  ghost predicate ReadsMove(s: PlanState, r: TurnResult, ids: nat, ctx: TurnContext) {
    if r.turn.Some? && r.turn.value.Reads? then
      var requests := r.turn.value.requests;
      && MintedFrom(requests, ctx.session, Read, ids)
      && (forall h :: h in s.pendingReads ==> h in r.plan.pendingReads && r.plan.pendingReads[h] == s.pendingReads[h])
      && (forall h :: h in r.plan.pendingReads && h !in s.pendingReads ==>
           exists i :: 0 <= i < |requests| && requests[i].key == h && requests[i].op == r.plan.pendingReads[h])
    else r.plan.pendingReads == s.pendingReads
  }

  /** The reads the plan owes are those it owed before and those announced now. */
  ghost predicate KeysMove(s: PlanState, r: TurnResult) {
    ReadKeys(r.plan) == ReadKeys(s) + ReadHashes(LastReads(r.outcomes))
  }

  lemma KeysUnmoved(s: PlanState, r: TurnResult)
    requires r.plan.pendingReads == s.pendingReads && r.plan.readBacklog == s.readBacklog && LastReads(r.outcomes) == []
    ensures KeysMove(s, r)
  {
  }

  /** A write is pending exactly when a batch was handed out; a fence only for a complete tree. */
  ghost predicate PersistMoves(s: PlanState, r: TurnResult, ids: nat, ctx: TurnContext) {
    if r.turn.Some? && r.turn.value.Persist? then
      var batch := r.turn.value.batch;
      && batch.op == Mint(ctx.session, Write, ids)
      && r.outcomes != []
      && if batch.fence.Some? then
           && batch.fence.value == Mint(ctx.session, DurabilityFence, AfterMint(ids))
           && r.plan.persistence == FinalWritePending(batch.op, batch.fence.value)
           && r.outcomes[|r.outcomes| - 1].CompleteTree?
         else r.plan.persistence == IncrementalWritePending(batch.op)
    else r.plan.persistence == s.persistence
  }

  /** Only the last outcome of a turn asks for anything; the earlier rounds were merely ready. */
  ghost predicate EarlierReady(outcomes: seq<StepOutcome>) {
    forall i :: 0 <= i < |outcomes| - 1 ==> outcomes[i].Ready?
  }

  ghost predicate AllWorkKept(s: PlanState, outcomes: seq<StepOutcome>) {
    forall i :: 0 <= i < |outcomes| ==> WorkKept(s, outcomes[i])
  }

  ghost predicate TurnFacts(s: PlanState, ids: nat, ctx: TurnContext, r: TurnResult) {
    && PlanOk(r.plan)
    && SameElsewhere(s, r.plan)
    && r.ids == Drawn(ids, Draws(r.turn))
    && ReadsMove(s, r, ids, ctx)
    && KeysMove(s, r)
    && PersistMoves(s, r, ids, ctx)
    && FrontierMoves(s.net, r.plan.net, r.restarted, r.retired, LastNodes(r.outcomes), s.recent, Moved(r.turn))
    && EarlierReady(r.outcomes)
    && AllWorkKept(r.plan, r.outcomes)
  }

  /** A settled round: packets applied, resolved needs retired, nothing announced yet. */
  function Settled(s: PlanState, reply: EngineReply): PlanState {
    var at, feed := AtEngine(s, reply), FeedOf(s, reply);
    WithProgress(at.(net := Retired(at.net, Elements(feed.resolved))), feed.useful)
  }

  lemma SettledKeeps(s: PlanState, reply: EngineReply)
    requires PlanOk(s)
    ensures var t := Settled(s, reply);
            && PlanOk(t) && SameElsewhere(s, t)
            && t.pendingReads == s.pendingReads && t.readBacklog == s.readBacklog && t.persistence == s.persistence
            && FrontierMoves(s.net, t.net, Restarts(s, reply), Elements(FeedOf(s, reply).resolved), [], s.recent, [])
            && t.net == Retired(Base(s.net, Restarts(s, reply)), Elements(FeedOf(s, reply).resolved))
  {
    AtEngineKeeps(s, reply);
    hide AtEngine, FeedOf, Restarts, Tidy, Retired, FrontierMoves, ReadsTidy;
    var base := Base(s.net, Restarts(s, reply));
    EmptyTidy();
    RetiredTidy(base, Elements(FeedOf(s, reply).resolved));
    RetiredMoves(s.net, Elements(FeedOf(s, reply).resolved), Restarts(s, reply), s.recent);
  }

  /** `t` is `s` with packets applied and resolved needs retired, about to answer the engine. */
  ghost predicate Answering(s: PlanState, t: PlanState, restarted: bool, retired: set<Need>) {
    && PlanOk(t) && SameElsewhere(s, t)
    && Quiescent(t)
    && t.pendingReads == s.pendingReads && t.readBacklog == s.readBacklog && t.persistence == s.persistence
    && FrontierMoves(s.net, t.net, restarted, retired, [], s.recent, [])
    && Base(s.net, restarted).backlog == []
  }

  ghost predicate AnswerFacts(
    s: PlanState, ids: nat, ctx: TurnContext, a: Answer, outcome: StepOutcome, restarted: bool, retired: set<Need>)
  {
    TurnFacts(s, ids, ctx, TurnResult(a.plan, a.ids, a.turn, [outcome], retired, restarted))
  }

  /** An answer that changes nothing. */
  lemma PlainFacts(
    s: PlanState, t: PlanState, ids: nat, ctx: TurnContext, turn: Option<PlanTurn>, outcome: StepOutcome,
    restarted: bool, retired: set<Need>)
    requires Answering(s, t, restarted, retired)
    requires turn.Some? ==> !turn.value.Reads? && !turn.value.Network? && !turn.value.Persist?
    requires !outcome.NeedsReads? && !outcome.NeedsNetwork?
    ensures AnswerFacts(s, ids, ctx, Answer(t, ids, turn), outcome, restarted, retired)
  {
    hide PlanOk, FrontierMoves, Drawn, KeysMove;
    KeysUnmoved(s, TurnResult(t, ids, turn, [outcome], retired, restarted));
    NoDraw(ids);
  }

  /** Deferred work is all there, and nothing else moved. */
  lemma KeptFacts(s: PlanState, t: PlanState, outcome: StepOutcome, restarted: bool, retired: set<Need>)
    requires Answering(s, t, restarted, retired)
    ensures var k := KeptForLater(t, outcome);
            && PlanOk(k) && SameElsewhere(s, k)
            && k.pendingReads == t.pendingReads && k.persistence == t.persistence
            && FrontierMoves(s.net, k.net, restarted, retired, LastNodes([outcome]), s.recent, [])
            && WorkKept(k, outcome)
            && ReadKeys(k) == ReadKeys(t) + ReadHashes(LastReads([outcome]))
  {
    hide FrontierMoves, PlanOk, WorkKept, DeferredReads, Enqueued, ReadHashes;
    NoHashes();
    if outcome.NeedsReads? {
      KeptReads(t, outcome);
    } else if outcome.NeedsNetwork? {
      EnqueueMoves(s.net, t.net, restarted, retired, s.recent, outcome.nodes);
      KeptNodes(t, outcome);
    } else {
      NothingToKeep(t, outcome);
    }
  }

  lemma NothingToKeep(t: PlanState, outcome: StepOutcome)
    requires !outcome.NeedsReads? && !outcome.NeedsNetwork?
    ensures WorkKept(t, outcome)
  {
  }

  lemma NoHashes()
    ensures ReadHashes([]) == {}
  {
  }

  lemma HashesListed(needs: seq<ReadNeed>)
    ensures forall i :: 0 <= i < |needs| ==> needs[i].hash in ReadHashes(needs)
  {
    forall i | 0 <= i < |needs|
      ensures needs[i].hash in ReadHashes(needs)
    {
      assert needs[i] in needs;
    }
  }

  lemma KeptReads(t: PlanState, outcome: StepOutcome)
    requires PlanOk(t) && outcome.NeedsReads?
    ensures PlanOk(KeptForLater(t, outcome)) && WorkKept(KeptForLater(t, outcome), outcome)
    ensures ReadKeys(KeptForLater(t, outcome)) == ReadKeys(t) + ReadHashes(outcome.needs)
  {
    hide Tidy, ReadsTidy, DeferredReads, ReadHashes;
    DeferredKeeps(t.readBacklog, t.pendingReads, outcome.needs);
    HashesListed(outcome.needs);
  }

  lemma KeptNodes(t: PlanState, outcome: StepOutcome)
    requires PlanOk(t) && outcome.NeedsNetwork?
    ensures PlanOk(KeptForLater(t, outcome)) && WorkKept(KeptForLater(t, outcome), outcome)
  {
    EnqueuedTidy(t.net, t.recent, outcome.nodes);
    QueueKeeps(t.net.backlog, t.net.retained, t.recent, outcome.nodes);
    hide ReadsTidy, Queue;
  }

  lemma WriteIncrementFacts(
    s: PlanState, t: PlanState, ids: nat, ctx: TurnContext, reply: EngineReply, restarted: bool, retired: set<Need>)
    requires Answering(s, t, restarted, retired)
    ensures AnswerFacts(s, ids, ctx, WriteIncrement(t, ids, ctx, reply), reply.outcome, restarted, retired)
  {
    hide FrontierMoves, Tidy, ReadsTidy, ReadHashes, KeptForLater, LastNodes, Mint, AfterMint, Drawn;
    KeptFacts(s, t, reply.outcome, restarted, retired);
    TwoDraws(ids);
    NoDraw(ids);
    var k := KeptForLater(t, reply.outcome);
  }

  lemma NoDraw(ids: nat)
    ensures Drawn(ids, 0) == ids
  {
  }

  /** A quiescent plan's round of reads, before any is admitted, keeps to what admission needs. */
  lemma FirstRound(t: PlanState, ids: nat, ctx: TurnContext, outcome: StepOutcome)
    requires PlanOk(t) && Quiescent(t) && outcome.NeedsReads? && DistinctReads(outcome)
    ensures var r0 := ReadRound(t.pendingReads, t.readBacklog, ids, []);
            RoundKeeps(r0, Admitted(r0, outcome.needs, ctx, t.readsCap), ctx, t.readsCap)
  {
    hide Admitted, Tidy, RoundKeeps;
    assert ReadHashes(t.readBacklog) == {};
    AdmittedKeeps(ReadRound(t.pendingReads, t.readBacklog, ids, []), outcome.needs, ctx, t.readsCap);
  }

  /** Admission forgets none of the announced reads. */
  lemma AdmitKeys(t: PlanState, ids: nat, ctx: TurnContext, outcome: StepOutcome)
    requires outcome.NeedsReads?
    ensures var r := Admitted(ReadRound(t.pendingReads, t.readBacklog, ids, []), outcome.needs, ctx, t.readsCap);
            var u := t.(pendingReads := r.pending, readBacklog := r.backlog);
            WorkKept(u, outcome) && ReadKeys(u) == ReadKeys(t) + ReadHashes(outcome.needs)
  {
    hide Admitted, ReadHashes;
    AdmittedKeys(ReadRound(t.pendingReads, t.readBacklog, ids, []), outcome.needs, ctx, t.readsCap);
    HashesListed(outcome.needs);
  }

  /** From nothing in flight, what is in flight afterwards was requested, under fresh ids in counter order. */
  lemma AdmitMints(r0: ReadRound, r: ReadRound, ctx: TurnContext, cap: nat)
    requires RoundKeeps(r0, r, ctx, cap) && r0.requests == [] && r0.pending == map[]
    ensures r.ids == Drawn(r0.ids, 2 * |r.requests|) && MintedFrom(r.requests, ctx.session, Read, r0.ids)
    ensures r.requests == [] ==> r.pending == map[]
    ensures forall h :: h in r.pending ==>
              exists i :: 0 <= i < |r.requests| && r.requests[i].key == h && r.requests[i].op == r.pending[h]
  {
    hide MintedFrom, Drawn, ReadsTidy;
    assert r.requests[0..] == r.requests;
    if r.requests == [] {
      assert r.pending.Keys == {};
    }
  }

  /** Admitted reads, as the turn's facts need them. */
  lemma AdmitRound(t: PlanState, ids: nat, ctx: TurnContext, outcome: StepOutcome)
    requires PlanOk(t) && Quiescent(t) && outcome.NeedsReads? && DistinctReads(outcome)
    ensures var r := Admitted(ReadRound(t.pendingReads, t.readBacklog, ids, []), outcome.needs, ctx, t.readsCap);
            var u := t.(pendingReads := r.pending, readBacklog := r.backlog);
            && PlanOk(u)
            && WorkKept(u, outcome)
            && ReadKeys(u) == ReadKeys(t) + ReadHashes(outcome.needs)
            && r.ids == Drawn(ids, 2 * |r.requests|)
            && MintedFrom(r.requests, ctx.session, Read, ids)
            && (r.requests == [] ==> r.pending == t.pendingReads)
            && (forall h :: h in r.pending ==>
                 exists i :: 0 <= i < |r.requests| && r.requests[i].key == h && r.requests[i].op == r.pending[h])
  {
    hide Admitted, Tidy, MintedFrom, Drawn, ReadsTidy, ReadHashes, WorkKept, ReadKeys, Minting, Flying;
    FirstRound(t, ids, ctx, outcome);
    AdmitKeys(t, ids, ctx, outcome);
    var r0 := ReadRound(t.pendingReads, t.readBacklog, ids, []);
    AdmitMints(r0, Admitted(r0, outcome.needs, ctx, t.readsCap), ctx, t.readsCap);
  }

  lemma AdmitFacts(
    s: PlanState, t: PlanState, ids: nat, ctx: TurnContext, reply: EngineReply, attached: bool,
    restarted: bool, retired: set<Need>)
    requires Answering(s, t, restarted, retired)
    requires reply.outcome.NeedsReads? && DistinctReads(reply.outcome)
    ensures AnswerFacts(s, ids, ctx, Respond(t, ids, ctx, reply, attached), reply.outcome, restarted, retired)
  {
    hide FrontierMoves, PlanOk, Admitted, MintedFrom, Drawn, WorkKept;
    AdmitRound(t, ids, ctx, reply.outcome);
    NoDraw(ids);
  }

  lemma NetworkFacts(
    s: PlanState, t: PlanState, ids: nat, ctx: TurnContext, reply: EngineReply, attached: bool,
    restarted: bool, retired: set<Need>)
    requires Answering(s, t, restarted, retired)
    requires reply.outcome.NeedsNetwork?
    ensures AnswerFacts(s, ids, ctx, Respond(t, ids, ctx, reply, attached), reply.outcome, restarted, retired)
  {
    hide FrontierMoves, PlanOk, Dispatched, Slots, WorkKept, Drawn, Enqueued, ReadHashes;
    NoHashes();
    var nodes := reply.outcome.nodes;
    KeptFacts(s, t, reply.outcome, restarted, retired);
    var k := KeptForLater(t, reply.outcome);
    assert k == t.(net := Enqueued(t.net, t.recent, nodes));
    DispatchMoves(s.net, k.net, restarted, retired, nodes, s.recent);
    DispatchKeeps(k, reply.outcome);
    NoDraw(ids);
  }

  /** Dispatching only moves work from the queue into the retained part. */
  lemma DispatchKeeps(k: PlanState, outcome: StepOutcome)
    requires PlanOk(k) && WorkKept(k, outcome)
    ensures PlanOk(k.(net := Dispatched(k.net))) && WorkKept(k.(net := Dispatched(k.net)), outcome)
  {
    DispatchedTidy(k.net);
    hide Tidy, Dispatched, ReadsTidy;
    var d := Dispatched(k.net);
    forall n: Need | n in k.net.retained || n in k.net.backlog
      ensures n in d.retained || n in d.backlog
    {
      assert n in k.net.retained + k.net.backlog;
      assert n in d.retained + d.backlog;
    }
  }

  lemma CompleteFacts(
    s: PlanState, t: PlanState, ids: nat, ctx: TurnContext, reply: EngineReply, restarted: bool, retired: set<Need>)
    requires Answering(s, t, restarted, retired)
    requires reply.outcome.CompleteTree?
    ensures AnswerFacts(s, ids, ctx, OnComplete(t, ids, ctx, reply), reply.outcome, restarted, retired)
  {
    hide FrontierMoves, Tidy, ReadsTidy, Drawn, Mint, AfterMint, KeysMove;
    var a := OnComplete(t, ids, ctx, reply);
    KeysUnmoved(s, TurnResult(a.plan, a.ids, a.turn, [reply.outcome], retired, restarted));
    TwoDraws(ids);
    TwoDraws(AfterMint(ids));
    DrawnAdds(ids, 2, 2);
    NoDraw(ids);
  }

  lemma RespondFacts(
    s: PlanState, t: PlanState, ids: nat, ctx: TurnContext, reply: EngineReply, attached: bool,
    restarted: bool, retired: set<Need>)
    requires Answering(s, t, restarted, retired) && DistinctReads(reply.outcome)
    ensures AnswerFacts(s, ids, ctx, Respond(t, ids, ctx, reply, attached), reply.outcome, restarted, retired)
  {
    match reply.outcome
    case NeedsReads(_) => AdmitFacts(s, t, ids, ctx, reply, attached, restarted, retired);
    case NeedsNetwork(_) => NetworkFacts(s, t, ids, ctx, reply, attached, restarted, retired);
    case CompleteTree => CompleteFacts(s, t, ids, ctx, reply, restarted, retired);
    case Ready =>
      PlainFacts(s, t, ids, ctx, if attached || reply.runnable then None else Some(Continue), reply.outcome, restarted, retired);
    case Yielded => PlainFacts(s, t, ids, ctx, Some(YieldedTurn), reply.outcome, restarted, retired);
    case InvalidTree => PlainFacts(s, t, ids, ctx, Some(InvalidTurn), reply.outcome, restarted, retired);
  }

  /** A round that advances the engine answers it from a settled, quiescent plan. */
  lemma SettledAnswers(s: PlanState, reply: EngineReply)
    requires LoopReady(s) && PlanOk(s) && Advances(s, reply)
    ensures Answering(s, Settled(s, reply).(runs := Settled(s, reply).runs + 1), Restarts(s, reply),
                      Elements(FeedOf(s, reply).resolved))
  {
    SettledKeeps(s, reply);
    EngineSeesQuiescentPlan(s, reply);
    AtEngineKeeps(s, reply);
    var restarted, gone := Restarts(s, reply), Elements(FeedOf(s, reply).resolved);
    assert Base(s.net, restarted).backlog == [];
    FrontierUnmoved(s.net, Settled(s, reply).net, restarted, gone, s.recent);
    hide FrontierMoves, Tidy, ReadsTidy, AtEngine, Settled, Restarts, FeedOf, Elements, Retired;
  }

  /** A round with nothing resolved, nothing announced and nothing dispatched. */
  lemma UnrootedMoves(s: PlanState, reply: EngineReply)
    requires PlanOk(s)
    ensures var at := AtEngine(s, reply);
            PlanOk(at) && FrontierMoves(s.net, at.net, Restarts(s, reply), {}, [], s.recent, [])
  {
    AtEngineKeeps(s, reply);
    EmptyTidy();
    hide AtEngine, Restarts, Tidy, ReadsTidy;
    var base := Base(s.net, Restarts(s, reply));
    MinusNothing(base.retained, {});
    MinusNothing(base.unemitted, {});
    MinusNothing(base.backlog, {});
    assert base.retained + [] == base.retained && base.unemitted + [] == base.unemitted && [] + base.backlog == base.backlog;
  }

  /** While output is blocked a round retires, dispatches what fits, and stops. */
  lemma BlockedFacts(s: PlanState, ids: nat, ctx: TurnContext, reply: EngineReply)
    requires PlanOk(s) && Blocked(AtEngine(s, reply))
    ensures TurnFacts(s, ids, ctx, Round(s, ids, ctx, reply)) && Round(s, ids, ctx, reply).turn.Some?
  {
    hide FrontierMoves, Tidy, ReadsTidy, AtEngine, FeedOf, Restarts, Elements, Retired, Dispatched, Slots, Drawn, KeysMove;
    SettledKeeps(s, reply);
    KeysUnmoved(s, Round(s, ids, ctx, reply));
    var t := Settled(s, reply);
    DispatchMoves(s.net, t.net, Restarts(s, reply), Elements(FeedOf(s, reply).resolved), [], s.recent);
    DispatchedTidy(t.net);
    NoDraw(ids);
  }

  lemma UnrootedFacts(s: PlanState, ids: nat, ctx: TurnContext, reply: EngineReply)
    requires PlanOk(s) && !Blocked(AtEngine(s, reply)) && !s.rooted
    ensures TurnFacts(s, ids, ctx, Round(s, ids, ctx, reply)) && Round(s, ids, ctx, reply).turn.Some?
  {
    hide FrontierMoves, PlanOk, AtEngine, FeedOf, Restarts, Elements, Retired, Drawn, ReadHashes;
    NoHashes();
    UnrootedMoves(s, reply);
    AtEngineKeeps(s, reply);
    NoDraw(ids);
  }

  lemma AdvancedFacts(s: PlanState, ids: nat, ctx: TurnContext, reply: EngineReply)
    requires LoopReady(s) && PlanOk(s) && DistinctReads(reply.outcome) && Advances(s, reply)
    ensures TurnFacts(s, ids, ctx, Round(s, ids, ctx, reply))
  {
    hide TurnFacts, Answering, AtEngine, FeedOf, Restarts, Elements, WriteIncrement, Respond, PlanOk, LoopReady, DistinctReads;
    SettledAnswers(s, reply);
    var ran := Settled(s, reply).(runs := Settled(s, reply).runs + 1);
    var gone, restarted := Elements(FeedOf(s, reply).resolved), Restarts(s, reply);
    if !reply.outcome.CompleteTree? && reply.writes != [] {
      WriteIncrementFacts(s, ran, ids, ctx, reply, restarted, gone);
    } else {
      RespondFacts(s, ran, ids, ctx, reply, FeedOf(s, reply).attached, restarted, gone);
    }
  }

  /** Every round is one move of the turn; one that is not the last leaves the plan ready for the next. */
  lemma RoundFacts(s: PlanState, ids: nat, ctx: TurnContext, reply: EngineReply)
    requires LoopReady(s) && PlanOk(s) && DistinctReads(reply.outcome)
    ensures var r := Round(s, ids, ctx, reply);
            && TurnFacts(s, ids, ctx, r)
            && (r.turn.None? ==> r.outcomes == [Ready] && r.ids == ids && LoopReady(r.plan))
  {
    if Blocked(AtEngine(s, reply)) {
      BlockedFacts(s, ids, ctx, reply);
    } else if !s.rooted {
      UnrootedFacts(s, ids, ctx, reply);
    } else {
      AdvancedFacts(s, ids, ctx, reply);
      SettledAnswers(s, reply);
      RoundContinues(s, ids, ctx, reply);
    }
    hide *;
  }

  lemma RoundContinues(s: PlanState, ids: nat, ctx: TurnContext, reply: EngineReply)
    requires Advances(s, reply)
    requires Quiescent(Settled(s, reply).(runs := Settled(s, reply).runs + 1))
    ensures var r := Round(s, ids, ctx, reply);
            r.turn.None? ==> r.outcomes == [Ready] && r.ids == ids && LoopReady(r.plan)
  {
    hide AtEngine, FeedOf, Restarts, Elements, Retired, Admitted, Enqueued, Dispatched, Slots, Mint, AfterMint, KeptForLater;
  }

  lemma FactsCompose(s: PlanState, ids: nat, ctx: TurnContext, r: TurnResult, rest: TurnResult)
    requires TurnFacts(s, ids, ctx, r) && r.turn.None? && r.outcomes == [Ready] && r.ids == ids
    requires TurnFacts(r.plan, ids, ctx, rest)
    ensures TurnFacts(s, ids, ctx,
                      rest.(outcomes := r.outcomes + rest.outcomes, retired := r.retired + rest.retired,
                            restarted := r.restarted || rest.restarted))
  {
    hide PlanOk, FrontierMoves, Drawn, WorkKept, MintedFrom, ReadHashes;
    NoHashes();
    var last := rest.(outcomes := r.outcomes + rest.outcomes, retired := r.retired + rest.retired,
                      restarted := r.restarted || rest.restarted);
    MovesCompose(s.net, r.plan.net, rest.plan.net, r.restarted, rest.restarted, r.retired, rest.retired,
                 LastNodes(rest.outcomes), s.recent, Moved(rest.turn));
    assert LastNodes(last.outcomes) == LastNodes(rest.outcomes) && LastReads(last.outcomes) == LastReads(rest.outcomes);
    ReadyKeepsWork(rest.plan, rest.outcomes);
  }

  lemma ReadyKeepsWork(s: PlanState, outcomes: seq<StepOutcome>)
    requires AllWorkKept(s, outcomes) && EarlierReady(outcomes)
    ensures AllWorkKept(s, [Ready] + outcomes) && EarlierReady([Ready] + outcomes)
  {
    var all := [Ready] + outcomes;
    forall i | 0 <= i < |all|
      ensures WorkKept(s, all[i]) && (i < |all| - 1 ==> all[i].Ready?)
    {
      if i > 0 {
        assert all[i] == outcomes[i - 1];
      }
    }
  }

  lemma {:induction false} RoundsFacts(s: PlanState, ids: nat, ctx: TurnContext, replies: seq<EngineReply>, k: nat)
    requires LoopReady(s) && PlanOk(s) && Replies(replies) && k <= MAX_TURNS
    ensures TurnFacts(s, ids, ctx, Rounds(s, ids, ctx, replies, k))
    ensures Rounds(s, ids, ctx, replies, k).turn.Some?
    decreases MAX_TURNS - k
  {
    hide TurnFacts, Round, PlanOk, LoopReady, DistinctReads;
    if k == MAX_TURNS {
      NothingFacts(s, ids, ctx);
    } else {
      RoundFacts(s, ids, ctx, replies[k]);
      var r := Round(s, ids, ctx, replies[k]);
      if r.turn.None? {
        TurnFactsOk(s, ids, ctx, r);
        RoundsFacts(r.plan, ids, ctx, replies, k + 1);
        FactsCompose(s, ids, ctx, r, Rounds(r.plan, ids, ctx, replies, k + 1));
      }
    }
  }

  lemma TurnFactsOk(s: PlanState, ids: nat, ctx: TurnContext, r: TurnResult)
    requires TurnFacts(s, ids, ctx, r)
    ensures PlanOk(r.plan)
  {
  }

  lemma UnchangedMoves(f: Frontier, recent: set<Hash>)
    ensures FrontierMoves(f, f, false, {}, [], recent, [])
  {
    MinusNothing(f.retained, {});
    MinusNothing(f.unemitted, {});
    MinusNothing(f.backlog, {});
    assert f.retained + [] == f.retained && f.unemitted + [] == f.unemitted && [] + f.backlog == f.backlog;
  }

  /** A turn that does nothing. */
  lemma NothingFacts(s: PlanState, ids: nat, ctx: TurnContext)
    requires PlanOk(s)
    ensures TurnFacts(s, ids, ctx, Quiet(s, ids, Continue))
  {
    hide PlanOk, Drawn, FrontierMoves, ReadHashes;
    NoHashes();
    NoDraw(ids);
    UnchangedMoves(s.net, s.recent);
  }

  /** Draining, as the turn's facts need it. */
  lemma DrainRound(s: PlanState, ids: nat, ctx: TurnContext)
    requires PlanOk(s) && s.pendingReads == map[]
    ensures var r := Drained(ReadRound(s.pendingReads, s.readBacklog, ids, []), ctx, s.readsCap);
            var u := s.(pendingReads := r.pending, readBacklog := r.backlog);
            && PlanOk(u)
            && ReadKeys(u) == ReadKeys(s)
            && r.ids == Drawn(ids, 2 * |r.requests|)
            && MintedFrom(r.requests, ctx.session, Read, ids)
            && (r.requests == [] ==> r.pending == s.pendingReads)
            && (forall h :: h in r.pending ==>
                 exists i :: 0 <= i < |r.requests| && r.requests[i].key == h && r.requests[i].op == r.pending[h])
  {
    hide Tidy, Drained, Drawn, MintedFrom, ReadsTidy, ReadHashes;
    var r0 := ReadRound(s.pendingReads, s.readBacklog, ids, []);
    DrainedKeeps(r0, ctx, s.readsCap);
    DrainedKeys(r0, ctx, s.readsCap);
    var r := Drained(r0, ctx, s.readsCap);
    assert r.requests[0..] == r.requests;
    if r.requests == [] {
      assert r.pending.Keys == {};
    }
  }

  /** A turn that only drains waiting reads. */
  lemma DrainFacts(s: PlanState, ids: nat, ctx: TurnContext)
    requires PlanOk(s) && s.pendingReads == map[]
    ensures var r := Drained(ReadRound(s.pendingReads, s.readBacklog, ids, []), ctx, s.readsCap);
            TurnFacts(s, ids, ctx,
                      Quiet(s.(pendingReads := r.pending, readBacklog := r.backlog), r.ids,
                            if r.requests == [] then Continue else Reads(r.requests)))
  {
    hide PlanOk, FrontierMoves, Drained, Drawn, MintedFrom, ReadKeys, ReadHashes;
    DrainRound(s, ids, ctx);
    NoHashes();
    UnchangedMoves(s.net, s.recent);
    NoDraw(ids);
  }

  /** A turn that only dispatches. */
  lemma DispatchFacts(s: PlanState, ids: nat, ctx: TurnContext)
    requires PlanOk(s)
    ensures TurnFacts(s, ids, ctx, Quiet(s.(net := Dispatched(s.net)), ids, DispatchTurn(s)))
  {
    hide Tidy, FrontierMoves, Dispatched, Slots, Drawn, ReadsTidy, ReadHashes;
    NoHashes();
    UnchangedMoves(s.net, s.recent);
    DispatchMoves(s.net, s.net, false, {}, [], s.recent);
    DispatchedTidy(s.net);
    NoDraw(ids);
  }

  /** Every turn of every well-formed plan, whatever the engine answers. */
  lemma RunTurnFacts(s: PlanState, ids: nat, ctx: TurnContext, replies: seq<EngineReply>)
    requires PlanOk(s) && Replies(replies)
    ensures TurnFacts(s, ids, ctx, RunTurn(s, ids, ctx, replies))
    ensures RunTurn(s, ids, ctx, replies).turn.Some?
  {
    hide TurnFacts, Drained, Dispatched, Rounds, PlanOk;
    if s.cancelled || s.persistence != NothingPending || s.pendingReads != map[] {
      NothingFacts(s, ids, ctx);
    } else if s.readBacklog != [] {
      DrainFacts(s, ids, ctx);
    } else if s.net.backlog != [] {
      if Slots(s.net) > 0 || s.mail.queue == [] {
        DispatchFacts(s, ids, ctx);
      } else {
        OkTidy(s);
        DispatchedTidy(s.net);
        RoundsFacts(s, ids, ctx, replies, 0);
      }
    } else {
      RoundsFacts(s, ids, ctx, replies, 0);
    }
  }

  lemma OkTidy(s: PlanState)
    requires PlanOk(s)
    ensures Tidy(s.net)
  {
  }

  // ------------------------------------------------------------------------
  // When the engine is advanced.
  // ------------------------------------------------------------------------

  /** The plans in which the rounds from the `k`-th on advance the engine. */
  ghost function EngineCalls(s: PlanState, ids: nat, ctx: TurnContext, replies: seq<EngineReply>, k: nat): seq<PlanState>
    requires k <= MAX_TURNS <= |replies|
    decreases MAX_TURNS - k
  {
    if k == MAX_TURNS then []
    else
      var r := Round(s, ids, ctx, replies[k]);
      (if Advances(s, replies[k]) then [AtEngine(s, replies[k])] else [])
      + (if r.turn.Some? then [] else EngineCalls(r.plan, r.ids, ctx, replies, k + 1))
  }

  /** The plans in which a whole turn advances the engine. */
  ghost function TurnCalls(s: PlanState, ids: nat, ctx: TurnContext, replies: seq<EngineReply>): seq<PlanState>
    requires MAX_TURNS <= |replies|
  {
    if s.cancelled || s.persistence != NothingPending || s.pendingReads != map[] || s.readBacklog != [] then []
    else if s.net.backlog != [] && (Slots(s.net) > 0 || s.mail.queue == []) then []
    else EngineCalls(s.(net := if s.net.backlog != [] then Dispatched(s.net) else s.net), ids, ctx, replies, 0)
  }

  /** The round's own counter agrees with the calls. */
  lemma RoundCounts(s: PlanState, ids: nat, ctx: TurnContext, reply: EngineReply)
    ensures Round(s, ids, ctx, reply).plan.runs == s.runs + if Advances(s, reply) then 1 else 0
  {
    hide AtEngine, FeedOf, Restarts, Elements, Retired, Dispatched, Slots, WriteIncrement, Respond;
    AtEngineKeeps(s, reply);
    var ran := Settled(s, reply).(runs := Settled(s, reply).runs + 1);
    AnswersKeepRuns(ran, ids, ctx, reply, FeedOf(s, reply).attached);
  }

  lemma AnswersKeepRuns(t: PlanState, ids: nat, ctx: TurnContext, reply: EngineReply, attached: bool)
    ensures WriteIncrement(t, ids, ctx, reply).plan.runs == t.runs
    ensures Respond(t, ids, ctx, reply, attached).plan.runs == t.runs
  {
    IncrementKeepsRuns(t, ids, ctx, reply);
    hide Admitted, Enqueued, Dispatched, Slots, WriteIncrement;
    match reply.outcome
    case Ready =>
    case Yielded =>
    case NeedsReads(_) =>
    case NeedsNetwork(_) =>
    case CompleteTree =>
    case InvalidTree =>
  }

  lemma IncrementKeepsRuns(t: PlanState, ids: nat, ctx: TurnContext, reply: EngineReply)
    ensures WriteIncrement(t, ids, ctx, reply).plan.runs == t.runs
  {
    hide Enqueued, DeferredReads, Mint, AfterMint;
    assert KeptForLater(t, reply.outcome).runs == t.runs;
    hide KeptForLater;
  }

  lemma {:induction false} CallsAreQuiescent(s: PlanState, ids: nat, ctx: TurnContext, replies: seq<EngineReply>, k: nat)
    requires LoopReady(s) && PlanOk(s) && Replies(replies) && k <= MAX_TURNS
    ensures var calls := EngineCalls(s, ids, ctx, replies, k);
            && (forall i :: 0 <= i < |calls| ==> Quiescent(calls[i]))
            && Rounds(s, ids, ctx, replies, k).plan.runs == s.runs + |calls|
    decreases MAX_TURNS - k
  {
    hide Round, PlanOk, LoopReady, DistinctReads, Quiescent, Advances, AtEngine, TurnFacts;
    if k < MAX_TURNS {
      var r := Round(s, ids, ctx, replies[k]);
      RoundFacts(s, ids, ctx, replies[k]);
      RoundCounts(s, ids, ctx, replies[k]);
      if Advances(s, replies[k]) {
        EngineSeesQuiescentPlan(s, replies[k]);
      }
      if r.turn.None? {
        TurnFactsOk(s, ids, ctx, r);
        CallsAreQuiescent(r.plan, r.ids, ctx, replies, k + 1);
      }
    }
  }

  /**
    Whatever state a turn starts in and whatever the engine answers, the
    engine is advanced only in a quiescent plan, at most four times, and the
    run counter counts exactly those calls.
  */
  lemma EngineOnlyWhenQuiescent(s: PlanState, ids: nat, ctx: TurnContext, replies: seq<EngineReply>)
    requires PlanOk(s) && Replies(replies)
    ensures var calls := TurnCalls(s, ids, ctx, replies);
            && (forall i :: 0 <= i < |calls| ==> Quiescent(calls[i]))
            && RunTurn(s, ids, ctx, replies).plan.runs == s.runs + |calls|
            && |calls| <= MAX_TURNS
  {
    hide Drained, Dispatched, Rounds, PlanOk, EngineCalls, Quiescent, Slots;
    OkTidy(s);
    DispatchedTidy(s.net);
    SlotsFull(s.net);
    var idle := s.cancelled || s.persistence != NothingPending || s.pendingReads != map[] || s.readBacklog != [];
    if !idle && !(s.net.backlog != [] && (Slots(s.net) > 0 || s.mail.queue == [])) {
      CallsAreQuiescent(s, ids, ctx, replies, 0);
      CallsAtMost(s, ids, ctx, replies, 0);
    }
  }

  lemma SlotsFull(f: Frontier)
    ensures Slots(f) == 0 && f.backlog != [] ==> |f.retained| >= MAX_RETAINED
  {
  }

  lemma {:induction false} CallsAtMost(s: PlanState, ids: nat, ctx: TurnContext, replies: seq<EngineReply>, k: nat)
    requires k <= MAX_TURNS <= |replies|
    ensures |EngineCalls(s, ids, ctx, replies, k)| <= MAX_TURNS - k
    decreases MAX_TURNS - k
  {
    hide Round, Advances, AtEngine;
    if k < MAX_TURNS {
      var r := Round(s, ids, ctx, replies[k]);
      if r.turn.None? {
        CallsAtMost(r.plan, r.ids, ctx, replies, k + 1);
      }
    }
  }

  /** The outcomes a turn records are the engine's answers to its calls, in order. */
  ghost predicate Answered(outcomes: seq<StepOutcome>, replies: seq<EngineReply>, k: nat, calls: nat) {
    |outcomes| == calls && k + calls <= |replies| && forall i :: 0 <= i < calls ==> outcomes[i] == replies[k + i].outcome
  }

  lemma RoundAnswered(s: PlanState, ids: nat, ctx: TurnContext, reply: EngineReply)
    ensures Round(s, ids, ctx, reply).outcomes == if Advances(s, reply) then [reply.outcome] else []
    ensures !Advances(s, reply) ==> Round(s, ids, ctx, reply).turn.Some?
  {
    hide AtEngine, FeedOf, Restarts, Retired, Elements, Dispatched, Slots, WriteIncrement, Respond;
  }

  lemma NothingAnswered(replies: seq<EngineReply>, k: nat)
    requires k <= |replies|
    ensures Answered([], replies, k, 0)
  {
  }

  /** One round before the others. */
  lemma AnsweredFirst(first: seq<StepOutcome>, others: seq<StepOutcome>, replies: seq<EngineReply>, k: nat, calls: nat)
    requires k < |replies| && first == [replies[k].outcome] && Answered(others, replies, k + 1, calls)
    ensures Answered(first + others, replies, k, 1 + calls)
  {
    var all := first + others;
    forall i | 0 <= i < 1 + calls
      ensures all[i] == replies[k + i].outcome
    {
      if i > 0 {
        assert others[i - 1] == replies[k + 1 + (i - 1)].outcome;
      }
    }
  }

  lemma AnsweredOnce(s: PlanState, ids: nat, ctx: TurnContext, replies: seq<EngineReply>, k: nat)
    requires k < |replies|
    ensures Answered(Round(s, ids, ctx, replies[k]).outcomes, replies, k, if Advances(s, replies[k]) then 1 else 0)
  {
    hide Round, Advances;
    RoundAnswered(s, ids, ctx, replies[k]);
  }

  /** The rounds of a turn that ends with this one. */
  lemma LastRound(s: PlanState, ids: nat, ctx: TurnContext, replies: seq<EngineReply>, k: nat)
    requires k < MAX_TURNS <= |replies| && Round(s, ids, ctx, replies[k]).turn.Some?
    ensures Rounds(s, ids, ctx, replies, k) == Round(s, ids, ctx, replies[k])
    ensures |EngineCalls(s, ids, ctx, replies, k)| == if Advances(s, replies[k]) then 1 else 0
  {
    hide Round, Advances, AtEngine;
  }

  /** The rounds of a turn that goes on after this one. */
  lemma FurtherRounds(s: PlanState, ids: nat, ctx: TurnContext, replies: seq<EngineReply>, k: nat)
    requires k < MAX_TURNS <= |replies| && Round(s, ids, ctx, replies[k]).turn.None?
    ensures var r := Round(s, ids, ctx, replies[k]);
            && Rounds(s, ids, ctx, replies, k).outcomes == r.outcomes + Rounds(r.plan, r.ids, ctx, replies, k + 1).outcomes
            && |EngineCalls(s, ids, ctx, replies, k)|
               == (if Advances(s, replies[k]) then 1 else 0) + |EngineCalls(r.plan, r.ids, ctx, replies, k + 1)|
  {
    hide Round, Advances, AtEngine;
  }

  lemma {:induction false} CallsAreAnswered(s: PlanState, ids: nat, ctx: TurnContext, replies: seq<EngineReply>, k: nat)
    requires k <= MAX_TURNS <= |replies|
    ensures Answered(Rounds(s, ids, ctx, replies, k).outcomes, replies, k, |EngineCalls(s, ids, ctx, replies, k)|)
    decreases MAX_TURNS - k
  {
    if k == MAX_TURNS {
      NothingAnswered(replies, k);
    } else {
      hide Round, Advances, Answered, Rounds, EngineCalls;
      RoundAnswered(s, ids, ctx, replies[k]);
      AnsweredOnce(s, ids, ctx, replies, k);
      var r := Round(s, ids, ctx, replies[k]);
      if r.turn.Some? {
        LastRound(s, ids, ctx, replies, k);
      } else {
        FurtherRounds(s, ids, ctx, replies, k);
        CallsAreAnswered(r.plan, r.ids, ctx, replies, k + 1);
        AnsweredFirst(r.outcomes, Rounds(r.plan, r.ids, ctx, replies, k + 1).outcomes, replies, k,
                      |EngineCalls(r.plan, r.ids, ctx, replies, k + 1)|);
      }
    }
  }

  lemma TurnAnswered(s: PlanState, ids: nat, ctx: TurnContext, replies: seq<EngineReply>)
    requires PlanOk(s) && MAX_TURNS <= |replies|
    ensures Answered(RunTurn(s, ids, ctx, replies).outcomes, replies, 0, |TurnCalls(s, ids, ctx, replies)|)
  {
    hide Drained, Dispatched, Rounds, PlanOk, EngineCalls, Slots;
    OkTidy(s);
    DispatchedTidy(s.net);
    var idle := s.cancelled || s.persistence != NothingPending || s.pendingReads != map[] || s.readBacklog != [];
    if !idle && !(s.net.backlog != [] && (Slots(s.net) > 0 || s.mail.queue == [])) {
      CallsAreAnswered(s, ids, ctx, replies, 0);
    }
  }

  /**
    No announced work is lost: whatever each call of the engine announced
    during a turn is, when the turn ends, requested, waiting, or suppressed as
    recent, also when a write takes the turn over.
  */
  lemma NoAnnouncedWorkLost(s: PlanState, ids: nat, ctx: TurnContext, replies: seq<EngineReply>)
    requires PlanOk(s) && Replies(replies)
    ensures |TurnCalls(s, ids, ctx, replies)| <= |replies|
    ensures forall i :: 0 <= i < |TurnCalls(s, ids, ctx, replies)| ==>
              WorkKept(RunTurn(s, ids, ctx, replies).plan, replies[i].outcome)
  {
    hide RunTurn, TurnCalls, WorkKept, PlanOk, FrontierMoves, ReadsMove, KeysMove, PersistMoves;
    RunTurnFacts(s, ids, ctx, replies);
    TurnAnswered(s, ids, ctx, replies);
    var r := RunTurn(s, ids, ctx, replies);
    forall i | 0 <= i < |TurnCalls(s, ids, ctx, replies)|
      ensures WorkKept(r.plan, replies[i].outcome)
    {
      assert r.outcomes[i] == replies[0 + i].outcome;
    }
  }

  // ------------------------------------------------------------------------
  // The mailbox during a turn.
  // ------------------------------------------------------------------------

  /** `t` has some of the oldest packets of `s` taken out, its counters still exact. */
  ghost predicate MailMoves(s: PlanState, t: PlanState) {
    && (Exact(s.mail) ==> Exact(t.mail))
    && |t.mail.queue| <= |s.mail.queue|
    && t.mail.queue == s.mail.queue[|s.mail.queue| - |t.mail.queue|..]
  }

  lemma MailUnmoved(s: PlanState, t: PlanState)
    requires t.mail == s.mail
    ensures MailMoves(s, t)
  {
    assert t.mail.queue == s.mail.queue[0..];
  }

  lemma MailTrans(s: PlanState, t: PlanState, u: PlanState)
    requires MailMoves(s, t) && MailMoves(t, u)
    ensures MailMoves(s, u)
  {
    hide Exact;
    var m, n := |s.mail.queue| - |t.mail.queue|, |t.mail.queue| - |u.mail.queue|;
    assert s.mail.queue[m..][n..] == s.mail.queue[m + n..];
  }

  lemma AtEngineMail(s: PlanState, reply: EngineReply)
    ensures MailMoves(s, AtEngine(s, reply))
  {
    hide Exact, FedPackets, AtEngine;
    PacketsFed(Feeding(s.mail, NoFeed()), s.rooted, reply.feeds);
    MailAtEngine(s, reply);
  }

  /** Crediting peers touches no mail. */
  lemma MailAtEngine(s: PlanState, reply: EngineReply)
    ensures AtEngine(s, reply).mail == FedPackets(Feeding(s.mail, NoFeed()), s.rooted, reply.feeds).mail
  {
    hide FedPackets, MergeScores, ReplyLanes, Empty, NoFeed;
  }

  lemma AnswersKeepMail(t: PlanState, ids: nat, ctx: TurnContext, reply: EngineReply, attached: bool)
    ensures WriteIncrement(t, ids, ctx, reply).plan.mail == t.mail
    ensures Respond(t, ids, ctx, reply, attached).plan.mail == t.mail
  {
    IncrementKeepsMail(t, ids, ctx, reply);
    hide Admitted, Enqueued, Dispatched, Slots, WriteIncrement;
    match reply.outcome
    case Ready =>
    case Yielded =>
    case NeedsReads(_) =>
    case NeedsNetwork(_) =>
    case CompleteTree =>
    case InvalidTree =>
  }

  lemma IncrementKeepsMail(t: PlanState, ids: nat, ctx: TurnContext, reply: EngineReply)
    ensures WriteIncrement(t, ids, ctx, reply).plan.mail == t.mail
  {
    hide Enqueued, DeferredReads, Mint, AfterMint;
    assert KeptForLater(t, reply.outcome).mail == t.mail;
    hide KeptForLater;
  }

  lemma RoundMail(s: PlanState, ids: nat, ctx: TurnContext, reply: EngineReply)
    ensures MailMoves(s, Round(s, ids, ctx, reply).plan)
  {
    hide AtEngine, FeedOf, Restarts, Elements, Retired, Dispatched, Slots, WriteIncrement, Respond, MailMoves;
    AtEngineMail(s, reply);
    var ran := Settled(s, reply).(runs := Settled(s, reply).runs + 1);
    AnswersKeepMail(ran, ids, ctx, reply, FeedOf(s, reply).attached);
    MailUnmoved(AtEngine(s, reply), Round(s, ids, ctx, reply).plan);
    MailTrans(s, AtEngine(s, reply), Round(s, ids, ctx, reply).plan);
  }

  lemma {:induction false} RoundsMail(s: PlanState, ids: nat, ctx: TurnContext, replies: seq<EngineReply>, k: nat)
    requires k <= MAX_TURNS <= |replies|
    ensures MailMoves(s, Rounds(s, ids, ctx, replies, k).plan)
    decreases MAX_TURNS - k
  {
    hide Round, MailMoves;
    if k == MAX_TURNS {
      MailUnmoved(s, s);
    } else {
      RoundMail(s, ids, ctx, replies[k]);
      var r := Round(s, ids, ctx, replies[k]);
      if r.turn.None? {
        RoundsMail(r.plan, r.ids, ctx, replies, k + 1);
        MailTrans(s, r.plan, Rounds(r.plan, r.ids, ctx, replies, k + 1).plan);
      }
    }
  }

  /** A turn only ever takes the oldest packets, and keeps the mailbox counters exact. */
  lemma TurnMail(s: PlanState, ids: nat, ctx: TurnContext, replies: seq<EngineReply>)
    requires MAX_TURNS <= |replies|
    ensures MailMoves(s, RunTurn(s, ids, ctx, replies).plan)
  {
    hide Drained, Dispatched, Rounds, Slots, MailMoves;
    var d := s.(net := Dispatched(s.net));
    RoundsMail(s, ids, ctx, replies, 0);
    RoundsMail(d, ids, ctx, replies, 0);
    MailUnmoved(s, d);
    MailTrans(s, d, Rounds(d, ids, ctx, replies, 0).plan);
    var r := RunTurn(s, ids, ctx, replies);
    if r.plan.mail == s.mail {
      MailUnmoved(s, r.plan);
    }
  }
}

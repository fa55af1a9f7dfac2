/**
  What the session plan computes, operation by operation, as functions on the
  plan's state.

  The tree engine is adversarial: every call into it may answer anything. A
  turn therefore takes the engine's answers as an argument, one `EngineReply`
  for each of the four rounds a turn may run.
*/
module PlanSpec {
  import opened Basics
  import opened Identity
  import opened Frontiers
  import opened Sessions
  import opened Mailbox

  const MAX_TURNS := 4
  const MAX_FEEDS := 4

  datatype ReadNeed = ReadNeed(hash: Hash, ledgerSeq: nat, nodeId: nat, branch: nat)

  type PersistNode = nat

  datatype ReadRequest = ReadRequest(op: OperationRef, key: Hash, ledgerSeq: nat, generation: nat, priority: nat)

  /** A batch without a fence is incremental; the final batch carries one. */
  datatype WriteBatch = WriteBatch(
    op: OperationRef, fence: Option<OperationRef>, generation: nat, ledgerSeq: nat, nodes: seq<PersistNode>)

  datatype TurnContext = TurnContext(session: SessionRef, storeGeneration: nat, priority: nat)

  datatype Lane = ReplyLane(peer: PeerId) | AddedLane(peer: PeerId) | TimeoutLane(peers: seq<PeerId>)

  datatype Persistence =
    | NothingPending
    | IncrementalWritePending(op: OperationRef)
    | FinalWritePending(op: OperationRef, fence: OperationRef)
    | FencePending(op: OperationRef)
    | Durable
    | PersistFailed(reason: FailureReason)

  datatype StepOutcome =
    | Ready
    | Yielded
    | NeedsReads(needs: seq<ReadNeed>)
    | NeedsNetwork(nodes: seq<Need>)
    | CompleteTree
    | InvalidTree

  /** What applying packets to the engine reported. */
  datatype PacketFeed = PacketFeed(attached: bool, useful: bool, peers: map<PeerId, int>, resolved: seq<Need>)

  /** Everything the engine answers in one round of a turn. */
  datatype EngineReply = EngineReply(
    feeds: seq<PacketFeed>,
    replyPeers: seq<PeerId>,
    outcome: StepOutcome,
    runnable: bool,
    writes: seq<PersistNode>,
    ledgerSequence: Option<nat>,
    finalSequence: Option<nat>)

  /** Reads announced together have distinct hashes. */
  ghost predicate DistinctReads(outcome: StepOutcome) {
    outcome.NeedsReads? ==>
      forall i, j :: 0 <= i < j < |outcome.needs| ==> outcome.needs[i].hash != outcome.needs[j].hash
  }

  ghost predicate Replies(replies: seq<EngineReply>) {
    |replies| == MAX_TURNS && forall k :: 0 <= k < MAX_TURNS ==> |replies[k].feeds| == MAX_FEEDS && DistinctReads(replies[k].outcome)
  }

  datatype PlanTurn =
    | Continue
    | YieldedTurn
    | Reads(requests: seq<ReadRequest>)
    | Network(needs: seq<Need>)
    | Persist(batch: WriteBatch)
    | InvalidTurn

  datatype PlanState = PlanState(
    rooted: bool,
    mail: MailboxState,
    pendingReads: map<Hash, OperationRef>,
    recoveryReads: map<OperationRef, Need>,
    readBacklog: seq<ReadNeed>,
    net: Frontier,
    scores: map<PeerId, int>,
    lanes: seq<Lane>,
    recent: set<Hash>,
    persistence: Persistence,
    timeouts: nat,
    progress: bool,
    maxTimeouts: nat,
    readsCap: nat,
    cancelled: bool,
    runs: nat)

  function NewPlan(maxPackets: nat, maxBytes: nat, maxTimeouts: nat, readsCap: nat): PlanState {
    PlanState(false, MailboxState([], 0, 0, maxPackets, maxBytes), map[], map[], [], Empty(), map[], [], {},
              NothingPending, 0, false, maxTimeouts, readsCap, false, 0)
  }

  // ------------------------------------------------------------------------
  // Reads.
  // ------------------------------------------------------------------------

  /** An operation takes two ids from the counter. */
  function Mint(session: SessionRef, kind: OperationKind, ids: nat): OperationRef {
    OperationRef(session, kind, ids, Succ(ids))
  }

  function AfterMint(ids: nat): nat {
    Succ(Succ(ids))
  }

  /** Reads in flight, reads waiting, the id counter and the requests made so far. */
  datatype ReadRound = ReadRound(
    pending: map<Hash, OperationRef>, backlog: seq<ReadNeed>, ids: nat, requests: seq<ReadRequest>)

  function Submitted(r: ReadRound, need: ReadNeed, ctx: TurnContext): ReadRound {
    var op := Mint(ctx.session, Read, r.ids);
    ReadRound(r.pending[need.hash := op], r.backlog, AfterMint(r.ids),
              r.requests + [ReadRequest(op, need.hash, need.ledgerSeq, ctx.storeGeneration, ctx.priority)])
  }

  /** Drains the backlog in order while the cap allows. */
  function Drained(r: ReadRound, ctx: TurnContext, cap: nat): ReadRound
    decreases |r.backlog|
  {
    if r.backlog == [] || |r.pending| >= cap then r
    else Drained(Submitted(r.(backlog := r.backlog[1..]), r.backlog[0], ctx), ctx, cap)
  }

  /** Admits announced reads up to the cap; the overflow waits in order. */
  function Admitted(r: ReadRound, needs: seq<ReadNeed>, ctx: TurnContext, cap: nat): ReadRound
    decreases |needs|
  {
    if needs == [] then r
    else if needs[0].hash in r.pending then Admitted(r, needs[1..], ctx, cap)
    else if |r.pending| >= cap then Admitted(r.(backlog := r.backlog + [needs[0]]), needs[1..], ctx, cap)
    else Admitted(Submitted(r, needs[0], ctx), needs[1..], ctx, cap)
  }

  function ReadHashes(backlog: seq<ReadNeed>): set<Hash> {
    set n | n in backlog :: n.hash
  }

  /** Keeps announced reads for after the incremental write of the same turn. */
  function DeferredReads(backlog: seq<ReadNeed>, pending: map<Hash, OperationRef>, needs: seq<ReadNeed>): seq<ReadNeed>
    decreases |needs|
  {
    if needs == [] then backlog
    else
      DeferredReads(
        if needs[0].hash in pending || needs[0].hash in ReadHashes(backlog) then backlog else backlog + [needs[0]],
        pending, needs[1..])
  }

  /** Recovery reads in flight while a reprobe batch is submitted. */
  datatype Probing = Probing(inFlight: map<OperationRef, Need>, ids: nat, requests: seq<ReadRequest>)

  predicate AlreadyProbed(p: Probing, need: Need) {
    || (exists op :: op in p.inFlight && p.inFlight[op] == need)
    || (exists i :: 0 <= i < |p.requests| && p.requests[i].key == need.hash)
  }

  function Probed(p: Probing, needs: seq<Need>, ordinary: nat, cap: nat, ctx: TurnContext, ledgerSeq: nat): Probing
    decreases |needs|
  {
    if needs == [] then p
    else if AlreadyProbed(p, needs[0]) || ordinary + |p.inFlight| + |p.requests| >= cap then
      Probed(p, needs[1..], ordinary, cap, ctx, ledgerSeq)
    else
      var op := Mint(ctx.session, RecoveryRead, p.ids);
      var request := ReadRequest(op, needs[0].hash, ledgerSeq, ctx.storeGeneration, ctx.priority);
      Probed(Probing(p.inFlight[op := needs[0]], AfterMint(p.ids), p.requests + [request]),
             needs[1..], ordinary, cap, ctx, ledgerSeq)
  }

  datatype ProbeResult = ProbeResult(plan: PlanState, ids: nat, requests: seq<ReadRequest>)

  /** `reprobe_network_batch`; `ledgerSequence` is the engine's header sequence. */
  function Reprobe(s: PlanState, ids: nat, needs: seq<Need>, ctx: TurnContext, ledgerSequence: Option<nat>): ProbeResult {
    if s.cancelled || s.persistence != NothingPending || !s.rooted || ledgerSequence in {None, Some(0)} then
      ProbeResult(s, ids, [])
    else
      var p := Probed(Probing(s.recoveryReads, ids, []), needs, |s.pendingReads|, s.readsCap, ctx, ledgerSequence.value);
      ProbeResult(s.(recoveryReads := p.inFlight), p.ids, p.requests)
  }

  // ------------------------------------------------------------------------
  // One turn.
  // ------------------------------------------------------------------------

  function Larger(a: int, b: int): int {
    if a < b then b else a
  }

  function MergeScores(a: map<PeerId, int>, b: map<PeerId, int>): map<PeerId, int> {
    map p | p in a.Keys + b.Keys :: if p !in b then a[p] else if p !in a then b[p] else Larger(a[p], b[p])
  }

  function NoFeed(): PacketFeed {
    PacketFeed(false, false, map[], [])
  }

  function Merged(a: PacketFeed, b: PacketFeed): PacketFeed {
    PacketFeed(a.attached || b.attached, a.useful || b.useful, MergeScores(a.peers, b.peers), a.resolved + b.resolved)
  }

  datatype Feeding = Feeding(mail: MailboxState, feed: PacketFeed)

  /** Pops packets and feeds them to the engine, one answer each. */
  function FedPackets(f: Feeding, rooted: bool, feeds: seq<PacketFeed>): Feeding
    decreases |feeds|
  {
    if feeds == [] || !rooted || f.mail.queue == [] then f
    else FedPackets(Feeding(Popped(f.mail), Merged(f.feed, feeds[0])), rooted, feeds[1..])
  }

  function ReplyLanes(peers: seq<PeerId>): seq<Lane> {
    if peers == [] then [] else [ReplyLane(peers[0])] + ReplyLanes(peers[1..])
  }

  /** The last packet was fed and useful peers opened the first lane: a fresh scan starts. */
  predicate StartsScan(s: PlanState, feed: PacketFeed, replyPeers: seq<PeerId>) {
    && s.mail.queue == []
    && MergeScores(s.scores, feed.peers) != map[]
    && s.lanes == [] && replyPeers != []
    && s.rooted
  }

  /** Credits useful peers; an emptied mailbox turns scores into reply lanes. */
  function Credited(s: PlanState, feed: PacketFeed, replyPeers: seq<PeerId>): PlanState {
    var scores := MergeScores(s.scores, feed.peers);
    if s.mail.queue == [] && scores != map[] then
      s.(scores := map[],
         lanes := s.lanes + ReplyLanes(replyPeers),
         net := if StartsScan(s, feed, replyPeers) then Empty() else s.net)
    else s.(scores := scores)
  }

  function WithProgress(s: PlanState, useful: bool): PlanState {
    if useful then s.(progress := true) else s
  }

  /**
    The result of a turn. `outcomes`, `retired` and `restarted` record what
    happened on the way: the outcomes the engine announced, the needs peers
    resolved, and whether a fresh scan dropped the old frontier.
  */
  datatype TurnResult = TurnResult(
    plan: PlanState, ids: nat, turn: Option<PlanTurn>, outcomes: seq<StepOutcome>, retired: set<Need>, restarted: bool)

  function DispatchTurn(s: PlanState): PlanTurn {
    var moved := s.net.backlog[..Slots(s.net)];
    if moved == [] then Continue else Network(moved)
  }

  predicate HasSequence(sequence: Option<nat>) {
    sequence.Some? && sequence.value != 0
  }

  /** The effect the engine announced is kept while its accepted nodes are written. */
  function KeptForLater(s: PlanState, outcome: StepOutcome): PlanState {
    match outcome
    case NeedsReads(needs) => s.(readBacklog := DeferredReads(s.readBacklog, s.pendingReads, needs))
    case NeedsNetwork(nodes) => s.(net := Enqueued(s.net, s.recent, nodes))
    case _ => s
  }

  datatype Answer = Answer(plan: PlanState, ids: nat, turn: Option<PlanTurn>)

  function WriteIncrement(s: PlanState, ids: nat, ctx: TurnContext, reply: EngineReply): Answer {
    var kept := KeptForLater(s, reply.outcome);
    if !HasSequence(reply.ledgerSequence) then Answer(kept, ids, Some(InvalidTurn))
    else
      var op := Mint(ctx.session, Write, ids);
      Answer(kept.(persistence := IncrementalWritePending(op)), AfterMint(ids),
             Some(Persist(WriteBatch(op, None, ctx.storeGeneration, reply.ledgerSequence.value, reply.writes))))
  }

  function OnComplete(s: PlanState, ids: nat, ctx: TurnContext, reply: EngineReply): Answer {
    if !HasSequence(reply.finalSequence) then Answer(s, ids, Some(InvalidTurn))
    else
      var write := Mint(ctx.session, Write, ids);
      var fence := Mint(ctx.session, DurabilityFence, AfterMint(ids));
      Answer(s.(persistence := FinalWritePending(write, fence)), AfterMint(AfterMint(ids)),
             Some(Persist(WriteBatch(write, Some(fence), ctx.storeGeneration, reply.finalSequence.value, reply.writes))))
  }

  /** What the plan does with an announced outcome when nothing has to be written first. */
  function Respond(s: PlanState, ids: nat, ctx: TurnContext, reply: EngineReply, attached: bool): Answer {
    match reply.outcome
    case Ready => Answer(s, ids, if attached || reply.runnable then None else Some(Continue))
    case Yielded => Answer(s, ids, Some(YieldedTurn))
    case NeedsReads(needs) =>
      var r := Admitted(ReadRound(s.pendingReads, s.readBacklog, ids, []), needs, ctx, s.readsCap);
      Answer(s.(pendingReads := r.pending, readBacklog := r.backlog), r.ids,
             Some(if r.requests == [] then Continue else Reads(r.requests)))
    case NeedsNetwork(nodes) =>
      var queued := s.(net := Enqueued(s.net, s.recent, nodes));
      Answer(queued.(net := Dispatched(queued.net)), ids, Some(DispatchTurn(queued)))
    case CompleteTree => OnComplete(s, ids, ctx, reply)
    case InvalidTree => Answer(s, ids, Some(InvalidTurn))
  }

  /** The plan as the engine finds it: packets fed and peers credited. */
  function AtEngine(s: PlanState, reply: EngineReply): PlanState {
    var fed := FedPackets(Feeding(s.mail, NoFeed()), s.rooted, reply.feeds);
    Credited(s.(mail := fed.mail), fed.feed, reply.replyPeers)
  }

  function FeedOf(s: PlanState, reply: EngineReply): PacketFeed {
    FedPackets(Feeding(s.mail, NoFeed()), s.rooted, reply.feeds).feed
  }

  predicate Restarts(s: PlanState, reply: EngineReply) {
    var fed := FedPackets(Feeding(s.mail, NoFeed()), s.rooted, reply.feeds);
    StartsScan(s.(mail := fed.mail), fed.feed, reply.replyPeers)
  }

  /** Output is backlogged behind a full frontier: packets may free slots, the engine must wait. */
  predicate Blocked(s: PlanState) {
    s.net.backlog != [] && |s.net.retained| >= MAX_RETAINED
  }

  /** The round reaches the engine's `advance`. */
  predicate Advances(s: PlanState, reply: EngineReply) {
    !Blocked(AtEngine(s, reply)) && s.rooted
  }

  /** One round of the turn's loop; no turn yet means another round follows. */
  function Round(s: PlanState, ids: nat, ctx: TurnContext, reply: EngineReply): TurnResult {
    var at, feed := AtEngine(s, reply), FeedOf(s, reply);
    var gone := Elements(feed.resolved);
    var settled := WithProgress(at.(net := Retired(at.net, gone)), feed.useful);
    if Blocked(at) then
      TurnResult(settled.(net := Dispatched(settled.net)), ids, Some(DispatchTurn(settled)), [], gone, Restarts(s, reply))
    else if !s.rooted then
      TurnResult(at, ids, Some(Continue), [], {}, Restarts(s, reply))
    else
      var ran := settled.(runs := settled.runs + 1);
      var a :=
        if !reply.outcome.CompleteTree? && reply.writes != [] then WriteIncrement(ran, ids, ctx, reply)
        else Respond(ran, ids, ctx, reply, feed.attached);
      TurnResult(a.plan, a.ids, a.turn, [reply.outcome], gone, Restarts(s, reply))
  }

  /** The rounds from the `k`-th on; after four the turn gives up its slice. */
  function Rounds(s: PlanState, ids: nat, ctx: TurnContext, replies: seq<EngineReply>, k: nat): TurnResult
    requires k <= MAX_TURNS <= |replies|
    decreases MAX_TURNS - k
  {
    if k == MAX_TURNS then TurnResult(s, ids, Some(Continue), [], {}, false)
    else
      var r := Round(s, ids, ctx, replies[k]);
      if r.turn.Some? then r
      else
        var rest := Rounds(r.plan, r.ids, ctx, replies, k + 1);
        rest.(outcomes := r.outcomes + rest.outcomes, retired := r.retired + rest.retired,
              restarted := r.restarted || rest.restarted)
  }

  function Quiet(s: PlanState, ids: nat, turn: PlanTurn): TurnResult {
    TurnResult(s, ids, Some(turn), [], {}, false)
  }

  /** `run_turn`. */
  function RunTurn(s: PlanState, ids: nat, ctx: TurnContext, replies: seq<EngineReply>): TurnResult
    requires MAX_TURNS <= |replies|
  {
    if s.cancelled || s.persistence != NothingPending || s.pendingReads != map[] then Quiet(s, ids, Continue)
    else if s.readBacklog != [] then
      var r := Drained(ReadRound(s.pendingReads, s.readBacklog, ids, []), ctx, s.readsCap);
      Quiet(s.(pendingReads := r.pending, readBacklog := r.backlog), r.ids,
            if r.requests == [] then Continue else Reads(r.requests))
    else if s.net.backlog != [] then
      var d := s.(net := Dispatched(s.net));
      if Slots(s.net) > 0 || s.mail.queue == [] then Quiet(d, ids, DispatchTurn(s))
      else Rounds(d, ids, ctx, replies, 0)
    else Rounds(s, ids, ctx, replies, 0)
  }

  // ------------------------------------------------------------------------
  // Completions, timers and lifecycle.
  // ------------------------------------------------------------------------

  /** How the engine took a read: attached with some number of resolved edges, or not. */
  datatype ReadApply = Applied(attachedEdges: nat) | NotApplied

  datatype ReadOutcome = ReadApplied | ReadStale

  ghost predicate LeastMatch(pending: map<Hash, OperationRef>, op: OperationRef, h: Hash) {
    h in pending && pending[h] == op && forall g :: g in pending && pending[g] == op ==> h <= g
  }

  datatype ReadResult = ReadResult(plan: PlanState, outcome: ReadOutcome)

  /** The first pending hash, in hash order, whose read was dispatched as `op`. */
  ghost function FirstMatch(pending: map<Hash, OperationRef>, op: OperationRef): (h: Option<Hash>)
    ensures h.Some? ==> LeastMatch(pending, op, h.value)
    ensures h.None? ==> forall g :: !LeastMatch(pending, op, g)
  {
    if g :| LeastMatch(pending, op, g) then Some(g) else None
  }

  /** `on_read`. */
  ghost function OnRead(s: PlanState, op: OperationRef, apply: ReadApply): ReadResult {
    var h := FirstMatch(s.pendingReads, op);
    var attached := apply.Applied? && apply.attachedEdges >= 1;
    if !s.rooted then ReadResult(s, ReadStale)
    else if op.kind == Read && h.Some? then
      ReadResult(WithProgress(s.(pendingReads := s.pendingReads - {h.value}), attached), ReadApplied)
    else if op.kind == RecoveryRead && op in s.recoveryReads then
      var t := s.(recoveryReads := s.recoveryReads - {op},
                  net := if apply.Applied? then Retired(s.net, {s.recoveryReads[op]}) else s.net);
      ReadResult(WithProgress(t, attached), ReadApplied)
    else ReadResult(s, ReadStale)
  }

  datatype WriteOutcome = WriteAccepted | WriteFailed | WriteCancelled | WriteStale

  datatype PlanWriteOutcome =
    | IncrementalAccepted | FinalAccepted | FailedWrite(reason: FailureReason) | CancelledWrite(cause: CancelReason) | StaleWrite

  datatype WriteResult = WriteResult(plan: PlanState, outcome: PlanWriteOutcome)

  /** `on_write`. */
  function OnWrite(s: PlanState, op: OperationRef, outcome: WriteOutcome): WriteResult {
    var p := s.persistence;
    if op.kind != Write || !(p.IncrementalWritePending? || p.FinalWritePending?) || !p.op.IsExpectedFor(op) then
      WriteResult(s, StaleWrite)
    else match outcome
      case WriteAccepted =>
        if p.FinalWritePending? then WriteResult(s.(persistence := FencePending(p.fence)), FinalAccepted)
        else WriteResult(s.(persistence := NothingPending), IncrementalAccepted)
      case WriteFailed => WriteResult(s.(persistence := PersistFailed(WriteFailure)), FailedWrite(WriteFailure))
      case WriteCancelled => WriteResult(s.(persistence := NothingPending), CancelledWrite(StoreRotated))
      case WriteStale => WriteResult(s, StaleWrite)
  }

  datatype FenceOutcome = FencePassed | FenceFailed | FenceStale

  datatype PlanFenceOutcome = DurableNow | FailedFence(reason: FailureReason) | StaleFence

  datatype FenceResult = FenceResult(plan: PlanState, outcome: PlanFenceOutcome)

  /** `on_durability`. */
  function OnDurability(s: PlanState, op: OperationRef, outcome: FenceOutcome): FenceResult {
    var p := s.persistence;
    if op.kind != DurabilityFence || !p.FencePending? || !p.op.IsExpectedFor(op) then FenceResult(s, StaleFence)
    else match outcome
      case FencePassed => FenceResult(s.(persistence := Durable), DurableNow)
      case FenceFailed => FenceResult(s.(persistence := PersistFailed(DurabilityFenceFailed)), FailedFence(DurabilityFenceFailed))
      case FenceStale => FenceResult(s, StaleFence)
  }

  datatype TimeoutVerdict = KeepGoing | GiveUp

  datatype TimeoutResult = TimeoutResult(plan: PlanState, verdict: TimeoutVerdict)

  /** `on_timeout`. */
  function OnTimeout(s: PlanState, noProgress: bool): TimeoutResult {
    if s.cancelled then TimeoutResult(s, GiveUp)
    else if !noProgress then TimeoutResult(s, KeepGoing)
    else
      var t := s.(timeouts := if s.timeouts >= U32_MAX then U32_MAX else s.timeouts + 1);
      if t.timeouts > t.maxTimeouts then TimeoutResult(t.(cancelled := true), GiveUp) else TimeoutResult(t, KeepGoing)
  }

  /** `take_next_normal_network_batch`: the plan afterwards; the batch is `NormalBatch`. */
  function NormalBatch(s: PlanState, max: nat): seq<Need> {
    if s.cancelled || max == 0 then [] else NextBatch(s.net, max)
  }

  function BatchTaken(s: PlanState, max: nat): PlanState {
    if s.cancelled || max == 0 then s
    else s.(net := Emitted(s.net, max), recent := s.recent + Hashes(NextBatch(s.net, max)))
  }

  /** `next_timeout_recovery_batch`. */
  function TimeoutBatch(s: PlanState): seq<Need> {
    if s.cancelled then [] else RecoveryBatch(s.net)
  }

  function TimeoutRotated(s: PlanState): PlanState {
    if s.cancelled then s else s.(net := Rotated(s.net))
  }

  function AddedLanes(peers: seq<PeerId>): seq<Lane> {
    if peers == [] then [] else [AddedLane(peers[0])] + AddedLanes(peers[1..])
  }

  /** `begin_timeout_scan`. */
  function TimeoutScan(s: PlanState, existing: seq<PeerId>, added: seq<PeerId>): PlanState {
    s.(recent := {}, lanes := s.lanes + [TimeoutLane(existing)] + AddedLanes(added))
  }

  /** `finish_network_lane`. */
  function LaneFinished(s: PlanState): PlanState {
    if s.lanes == [] then s else s.(lanes := s.lanes[1..], net := TailDiscarded(s.net))
  }

  function Installed(s: PlanState): PlanState {
    if s.cancelled || s.rooted then s else s.(rooted := true)
  }

  function Suspended(s: PlanState): PlanState {
    s.(pendingReads := map[], recoveryReads := map[])
  }

  /** `terminalize_retaining_engine`: every permit is dropped, the engine stays. */
  function Terminalized(s: PlanState): PlanState {
    s.(cancelled := true, mail := Cleared(s.mail), pendingReads := map[], recoveryReads := map[], readBacklog := [],
       net := Empty(), scores := map[], lanes := [], recent := {}, persistence := NothingPending)
  }

  /** `cancel`: the same, and the engine goes too. */
  function CancelledPlan(s: PlanState): PlanState {
    Terminalized(s).(rooted := false)
  }

  function PeerNoted(s: PlanState, peer: PeerId, count: int): PlanState {
    s.(scores := MergeScores(s.scores, map[peer := count]))
  }
}

/**
  The shadow runner, operation by operation, as functions on its state: a
  mirror of acquisition sessions kept in session order, the derived service
  phase, the latched recovery owner, and the trail of observations.
*/
module ShadowSpec {
  import opened Basics
  import opened Identity
  import opened Sessions
  import opened SyncPhases

  datatype AcquireReason = Consensus | Generic | History

  datatype Outcome = DurableOutcome | FailedOutcome(failure: FailureReason) | CancelledOutcome(cause: CancelReason)

  datatype Kind =
    | Match | PhaseMismatch | OutcomeMismatch | TargetMismatch | SessionPresenceMismatch | DerivedRejected | StaleEvent

  datatype Observation = Observation(
    session: Option<SessionRef>, kind: Kind, phase: Option<SyncPhase>, outcome: Option<Outcome>, depth: nat)

  /** One mirrored session, keyed by its `session`. */
  datatype Mirror = Mirror(
    session: SessionRef, target: LedgerTarget, phase: SessionPhase, reason: AcquireReason, depth: nat,
    outcome: Option<Outcome>, sweepEligible: bool, expiryTimer: Option<OperationRef>, scanning: bool)

  datatype Recovery = Recovery(target: Option<LedgerTarget>, session: Option<SessionRef>, candidate: Option<LedgerTarget>)

  datatype Config = Config(enabled: bool, maxSessions: nat, maxBuffered: nat)

  datatype Shadow = Shadow(
    config: Config, runEpoch: nat, phase: SyncPhase, nextId: nat, generation: nat, usable: bool,
    latest: Option<LedgerTarget>, recovery: Recovery, mirror: seq<Mirror>, depth: nat, trail: seq<Observation>)

  datatype ReadResult = Found | Missing | ReadStale | ReadCancelled

  datatype WriteResult = WriteAccepted | WriteFailed | WriteStale | WriteCancelled

  datatype FenceResult = FencePassed | FenceFailed | FenceStale

  datatype Event =
    | StartupMode(phase: SyncPhase)
    | Connectivity(usable: bool)
    | TransportConnectivity(usable: bool)
    | QuorumLost
    | QuorumAvailable
    | AcquireRequested(target: LedgerTarget, reason: AcquireReason)
    | ValidationTarget(target: LedgerTarget)
    | ValidationRecoveryTarget(recovery: Option<LedgerTarget>)
    | PacketAdmitted(session: SessionRef)
    | ReadCompleted(session: SessionRef, kind: OperationKind, read: ReadResult)
    | PlanSliceReady
    | WriteCompleted(session: SessionRef, written: WriteResult)
    | DurabilityFenced(session: SessionRef, fenced: FenceResult)
    | HandoffAcknowledged(session: SessionRef)
    | HandoffRejected(session: SessionRef)
    | TimerFired(op: OperationRef, expiry: bool)
    | ConsensusTarget(target: LedgerTarget, reason: AcquireReason)
    | ViewChange
    | LclDivergence(target: LedgerTarget)
    | LclReconciled(lcl: LedgerIdentity)
    | Blocked
    | LclInstalled(lcl: LedgerIdentity)
    | PublicationCommitted(lcl: LedgerIdentity, isFresh: bool)
    | StoreRotated(generation: nat)
    | FetchPackAvailable
    | Heartbeat
    | RegistrySweep
    | ShutdownRequested

  function NewShadow(config: Config, runEpoch: nat): Shadow {
    Shadow(config, runEpoch, Disconnected, 1, 1, false, None, Recovery(None, None, None), [], 0, [])
  }

  // ------------------------------------------------------------------------
  // The mirror.
  // ------------------------------------------------------------------------

  /** Session references are ordered field by field. */
  predicate Before(a: SessionRef, b: SessionRef) {
    || a.runEpoch < b.runEpoch
    || (a.runEpoch == b.runEpoch
        && (|| a.sessionId < b.sessionId
            || (a.sessionId == b.sessionId
                && (|| a.targetHash < b.targetHash
                    || (a.targetHash == b.targetHash
                        && (|| a.planEpoch < b.planEpoch
                            || (a.planEpoch == b.planEpoch && a.storeGeneration < b.storeGeneration)))))))
  }

  /** The place of a key, or the length when it is not tracked. */
  function Find(mirror: seq<Mirror>, key: SessionRef): (i: nat)
    ensures i <= |mirror|
    ensures i < |mirror| ==> mirror[i].session == key
    ensures forall k :: 0 <= k < i ==> mirror[k].session != key
  {
    if mirror == [] || mirror[0].session == key then 0 else 1 + Find(mirror[1..], key)
  }

  predicate Tracked(mirror: seq<Mirror>, key: SessionRef) {
    Find(mirror, key) < |mirror|
  }

  predicate Live(mirror: seq<Mirror>, key: SessionRef) {
    Tracked(mirror, key) && !mirror[Find(mirror, key)].phase.IsTerminal()
  }

  /** Puts a session at its place in the order, replacing one of the same key. */
  function Inserted(mirror: seq<Mirror>, m: Mirror): seq<Mirror> {
    if mirror == [] then [m]
    else if mirror[0].session == m.session then [m] + mirror[1..]
    else if Before(m.session, mirror[0].session) then [m] + mirror
    else [mirror[0]] + Inserted(mirror[1..], m)
  }

  /** Drops the oldest sessions until one more fits. */
  function Evicted(mirror: seq<Mirror>, max: nat): seq<Mirror> {
    if |mirror| < max || mirror == [] then mirror else Evicted(mirror[1..], max)
  }

  /** A live session for the hash with the least id, the first in order among equals. */
  function Owner(mirror: seq<Mirror>, hash: Hash): Option<SessionRef> {
    if mirror == [] then None
    else
      var rest := Owner(mirror[1..], hash);
      if mirror[0].phase.IsTerminal() || mirror[0].target.hash != hash then rest
      else if rest.Some? && rest.value.sessionId < mirror[0].session.sessionId then rest
      else Some(mirror[0].session)
  }

  /** The session neither failed nor was cancelled. */
  predicate Viable(mirror: seq<Mirror>, hash: Hash) {
    exists i :: 0 <= i < |mirror| && mirror[i].target.hash == hash && !mirror[i].phase.Failed? && !mirror[i].phase.Cancelled?
  }

  // ------------------------------------------------------------------------
  // Observations.
  // ------------------------------------------------------------------------

  function Note(s: Shadow, session: Option<SessionRef>, kind: Kind, phase: Option<SyncPhase>, outcome: Option<Outcome>, depth: nat): Shadow {
    s.(trail := s.trail + [Observation(session, kind, phase, outcome, depth)])
  }

  function Matched(s: Shadow): Shadow {
    Note(s, None, Match, Some(s.phase), None, s.depth)
  }

  function Stale(s: Shadow, key: SessionRef): Shadow {
    Note(s, Some(key), StaleEvent, None, None, s.depth)
  }

  function Rejected(s: Shadow, key: SessionRef): Shadow {
    Note(s, Some(key), DerivedRejected, Some(s.phase), None, s.depth)
  }

  /** Replaces one session and notes its outcome. */
  function Touched(s: Shadow, i: nat, m: Mirror, outcome: Option<Outcome>): Shadow
    requires i < |s.mirror|
  {
    Note(s.(mirror := s.mirror[i := m]), Some(m.session), Match, Some(s.phase), outcome, m.depth)
  }

  /** Applies a fact, if there is one, and notes whether the table allowed it. */
  function Facted(s: Shadow, session: Option<SessionRef>, fact: Option<Fact>, depth: nat): Shadow {
    if fact.None? then Note(s, session, Match, Some(s.phase), None, depth)
    else
      var t := s.(phase := Applied(s.phase, fact.value));
      var kind := if Transition(s.phase, fact.value).Some? then Match else DerivedRejected;
      Note(t, session, kind, Some(t.phase), None, depth)
  }

  // ------------------------------------------------------------------------
  // Acquisition.
  // ------------------------------------------------------------------------

  predicate Reusable(m: Mirror, target: LedgerTarget) {
    && !m.phase.IsTerminal()
    && m.target.hash == target.hash
    && (m.target == target || (m.target.sequence.None? && target.sequence.Some? && m.depth == 0))
  }

  function FirstReusable(mirror: seq<Mirror>, target: LedgerTarget): (i: nat)
    ensures i <= |mirror|
    ensures i < |mirror| ==> Reusable(mirror[i], target)
    ensures forall k :: 0 <= k < i ==> !Reusable(mirror[k], target)
  {
    if mirror == [] || Reusable(mirror[0], target) then 0 else 1 + FirstReusable(mirror[1..], target)
  }

  function Reused(m: Mirror, target: LedgerTarget, preferred: bool): Mirror {
    var n := m.(target := target);
    if preferred && m.reason == Consensus && m.phase == Dormant then n.(phase := Active) else n
  }

  function MintRef(s: Shadow, hash: Hash): SessionRef {
    SessionRef(s.runEpoch, s.nextId, hash, 1, s.generation)
  }

  function Minted(s: Shadow, target: LedgerTarget, reason: AcquireReason): Shadow {
    var m := Mirror(MintRef(s, target.hash), target, Active, reason, 0, None, false, None, true);
    s.(nextId := Succ(s.nextId), mirror := Inserted(Evicted(s.mirror, s.config.maxSessions), m))
  }

  /** Finds or starts the session for a target. */
  function Acquire(s: Shadow, target: LedgerTarget, reason: AcquireReason, preferred: bool, neutral: bool): Shadow {
    if !s.usable then Note(s, None, DerivedRejected, Some(s.phase), None, s.depth)
    else
      var fact := if neutral || s.phase.Tracking? || s.phase.Full? then None else Some(TargetRequired(target));
      var i := FirstReusable(s.mirror, target);
      if i < |s.mirror| then
        Facted(s.(mirror := s.mirror[i := Reused(s.mirror[i], target, preferred)]), Some(s.mirror[i].session), fact, 0)
      else Facted(Minted(s, target, reason), Some(MintRef(s, target.hash)), fact, 0)
  }

  function RecoveryTarget(s: Shadow, target: Option<LedgerTarget>): Shadow {
    var r := s.recovery;
    if target.None? then Matched(s.(recovery := r.(candidate := None)))
    else if r.target.Some? && r.target.value.hash != target.value.hash then
      Note(s.(recovery := r.(candidate := target)), r.session, Match, Some(s.phase), None, s.depth)
    else
      Acquire(s.(recovery := r.(target := if r.target.Some? then r.target else target, candidate := None)),
              target.value, Consensus, false, true)
  }

  /** Latches a live owner for the recovery target after every event. */
  function Reconcile(s: Shadow): Shadow {
    var r := s.recovery;
    if r.session.Some? && Live(s.mirror, r.session.value) then s
    else
      var t := if r.session.Some? then s.(recovery := Recovery(r.candidate, None, None)) else s;
      if t.recovery.target.None? then t
      else
        var target := t.recovery.target.value;
        if Owner(t.mirror, target.hash).Some? then
          t.(recovery := t.recovery.(session := Owner(t.mirror, target.hash)))
        else if t.usable then
          var u := Acquire(t, target, Consensus, false, true);
          u.(recovery := u.recovery.(session := Owner(u.mirror, target.hash)))
        else t
  }

  /** Moves the anchor to the latest consensus target once no session can complete the old one. */
  function Promote(s: Shadow): Shadow {
    if s.phase.Syncing? && !Viable(s.mirror, s.phase.target.hash)
       && s.latest.Some? && s.latest.value.hash != s.phase.target.hash && Viable(s.mirror, s.latest.value.hash)
    then Matched(s.(phase := Syncing(s.latest.value)))
    else s
  }

  // ------------------------------------------------------------------------
  // One session.
  // ------------------------------------------------------------------------

  function Packet(s: Shadow, key: SessionRef): Shadow {
    var i := Find(s.mirror, key);
    if i == |s.mirror| || s.mirror[i].phase != Active then Stale(s, key)
    else
      Touched(s.(depth := s.depth + 1), i, s.mirror[i].(depth := s.mirror[i].depth + 1, scanning := true), None)
  }

  function ReadDone(s: Shadow, key: SessionRef, kind: OperationKind, read: ReadResult): Shadow {
    var i := Find(s.mirror, key);
    if i == |s.mirror| || s.mirror[i].phase != Active || read.ReadStale? || read.ReadCancelled? then Stale(s, key)
    else Touched(s, i, s.mirror[i].(scanning := kind != HeaderRead || read.Found?), None)
  }

  function FailWith(m: Mirror, failure: FailureReason): Mirror {
    m.(phase := Failed(failure), outcome := Some(FailedOutcome(failure)))
  }

  function CancelWith(m: Mirror, cause: CancelReason): Mirror {
    m.(phase := Cancelled(cause), outcome := Some(CancelledOutcome(cause)))
  }

  function WriteDone(s: Shadow, key: SessionRef, written: WriteResult): Shadow {
    var i := Find(s.mirror, key);
    if i == |s.mirror| || s.mirror[i].phase.IsTerminal() || s.mirror[i].phase == Dormant || written.WriteStale? then
      Stale(s, key)
    else
      var m := s.mirror[i].(scanning := false);
      if written.WriteAccepted? && m.phase == Active then Touched(s, i, m.(phase := Persisting), None)
      else if written.WriteFailed? then Touched(s, i, FailWith(m, WriteFailure), Some(FailedOutcome(WriteFailure)))
      else if written.WriteCancelled? then
        Touched(s, i, CancelWith(m, CancelReason.StoreRotated), Some(CancelledOutcome(CancelReason.StoreRotated)))
      else Rejected(s, key)
  }

  function FenceDone(s: Shadow, key: SessionRef, fenced: FenceResult): Shadow {
    var i := Find(s.mirror, key);
    if i == |s.mirror| || s.mirror[i].phase.IsTerminal() || s.mirror[i].phase == Dormant || fenced.FenceStale? then
      Stale(s, key)
    else
      var m := s.mirror[i];
      if fenced.FencePassed? && m.phase == Persisting then Touched(s, i, m.(phase := DurablePending), None)
      else if fenced.FenceFailed? then
        Touched(s, i, FailWith(m, DurabilityFenceFailed), Some(FailedOutcome(DurabilityFenceFailed)))
      else Rejected(s, key)
  }

  function Acknowledged(s: Shadow, key: SessionRef): Shadow {
    var i := Find(s.mirror, key);
    if i == |s.mirror| then Stale(s, key)
    else
      var m := s.mirror[i];
      if m.phase == DurablePending then
        Touched(s, i, m.(phase := Complete, outcome := Some(DurableOutcome)), Some(DurableOutcome))
      else
        Note(s, Some(key), if m.phase.IsTerminal() then StaleEvent else DerivedRejected, Some(s.phase), None, m.depth)
  }

  function HandoffRefused(s: Shadow, key: SessionRef): Shadow {
    var i := Find(s.mirror, key);
    var pending := i < |s.mirror| && s.mirror[i].phase == DurablePending;
    Note(s, Some(key), if pending then Match else StaleEvent, Some(s.phase), None, s.depth)
  }

  function TimerDone(s: Shadow, op: OperationRef, expiry: bool): Shadow {
    var i := Find(s.mirror, op.session);
    if i == |s.mirror| then Stale(s, op.session)
    else
      var m := s.mirror[i];
      if expiry then
        if !(m.phase == Active || m.phase == Dormant) || m.expiryTimer != Some(op) then Stale(s, op.session)
        else Touched(s, i, m.(expiryTimer := None, sweepEligible := true), None)
      else if m.phase == Active || m.phase == DurablePending then Touched(s, i, m, None)
      else Stale(s, op.session)
  }

  // ------------------------------------------------------------------------
  // Many sessions.
  // ------------------------------------------------------------------------

  /** Which sessions an event cancels. */
  datatype Bulk = Expired | Superseding(hash: Hash) | OlderThan(generation: nat) | AllLive

  predicate Selected(m: Mirror, bulk: Bulk) {
    match bulk
    case Expired => m.sweepEligible && (m.phase == Active || m.phase == Dormant) && !m.scanning
    case Superseding(hash) => m.target.hash == hash && (m.phase == Active || m.phase == Dormant || m.phase == Persisting)
    case OlderThan(generation) => !m.phase.IsTerminal() && m.session.storeGeneration < generation
    case AllLive => !m.phase.IsTerminal()
  }

  function CauseOf(bulk: Bulk): CancelReason {
    match bulk
    case Expired => IdleExpired
    case Superseding(_) => CancelReason.LclInstalled
    case OlderThan(_) => CancelReason.StoreRotated
    case AllLive => CancelReason.Shutdown
  }

  function CancelEach(mirror: seq<Mirror>, bulk: Bulk): (r: seq<Mirror>)
    ensures |r| == |mirror|
    ensures forall i :: 0 <= i < |r| ==>
              r[i] == if Selected(mirror[i], bulk) then CancelWith(mirror[i], CauseOf(bulk)) else mirror[i]
  {
    if mirror == [] then []
    else
      [if Selected(mirror[0], bulk) then CancelWith(mirror[0], CauseOf(bulk)) else mirror[0]]
      + CancelEach(mirror[1..], bulk)
  }

  /** The observations of a bulk cancellation, in session order. */
  function CancelTrail(s: Shadow, mirror: seq<Mirror>, bulk: Bulk): seq<Observation> {
    if mirror == [] then []
    else
      (if Selected(mirror[0], bulk) then
         [Observation(Some(mirror[0].session), Match, Some(s.phase), Some(CancelledOutcome(CauseOf(bulk))),
                      if bulk.OlderThan? || bulk.AllLive? then mirror[0].depth else s.depth)]
       else [])
      + CancelTrail(s, mirror[1..], bulk)
  }

  function CancelBulk(s: Shadow, bulk: Bulk): Shadow {
    s.(mirror := CancelEach(s.mirror, bulk), trail := s.trail + CancelTrail(s, s.mirror, bulk))
  }

  predicate AnySelected(mirror: seq<Mirror>, bulk: Bulk) {
    exists i :: 0 <= i < |mirror| && Selected(mirror[i], bulk)
  }

  function Installed(s: Shadow, lcl: LedgerIdentity): Shadow {
    var t := if s.latest.Some? && s.latest.value.hash == lcl.hash then s.(latest := None) else s;
    var u :=
      if (t.phase.Syncing? && t.phase.target.hash == lcl.hash) || t.phase.Connected? then
        Facted(t, None, Some(TargetInstalledAsLcl(lcl)), t.depth)
      else if t.phase.Tracking? then
        Matched(if lcl.sequence > t.phase.lcl.sequence then t.(phase := Tracking(lcl)) else t)
      else if t.phase.Full? then
        Matched(if lcl.sequence > t.phase.lcl.sequence then t.(phase := Full(lcl, t.phase.published)) else t)
      else Note(t, None, DerivedRejected, Some(t.phase), None, t.depth);
    CancelBulk(u, Superseding(lcl.hash))
  }

  function Published(s: Shadow, lcl: LedgerIdentity, isFresh: bool): Shadow {
    if s.phase.Tracking? && isFresh then Facted(s, None, Some(ChainContiguous(s.phase.lcl, lcl)), s.depth)
    else if s.phase.Full? && lcl.sequence > s.phase.published.sequence then Matched(s.(phase := Full(s.phase.lcl, lcl)))
    else Note(s, None, DerivedRejected, Some(s.phase), None, s.depth)
  }

  function Rotated(s: Shadow, generation: nat): Shadow {
    var t := s.(generation := generation);
    if AnySelected(t.mirror, OlderThan(generation)) then CancelBulk(t, OlderThan(generation)) else Matched(t)
  }

  function ShutDown(s: Shadow): Shadow {
    var t := s.(phase := Applied(s.phase, Fact.Shutdown));
    if AnySelected(t.mirror, AllLive) then CancelBulk(t, AllLive)
    else
      Note(t, None, if Transition(s.phase, Fact.Shutdown).Some? then Match else DerivedRejected, Some(t.phase), None, t.depth)
  }

  function ActiveTrail(s: Shadow, mirror: seq<Mirror>): seq<Observation> {
    if mirror == [] then []
    else
      (if mirror[0].phase == Active then
         [Observation(Some(mirror[0].session), Match, Some(s.phase), None, mirror[0].depth)]
       else [])
      + ActiveTrail(s, mirror[1..])
  }

  function FetchPack(s: Shadow): Shadow {
    var trail := ActiveTrail(s, s.mirror);
    if trail == [] then Matched(s) else s.(trail := s.trail + trail)
  }

  // ------------------------------------------------------------------------
  // The runner's public operations.
  // ------------------------------------------------------------------------

  /** Facts that carry no session. */
  predicate IsPlain(e: Event) {
    || e.Connectivity? || e.TransportConnectivity? || e.QuorumLost? || e.QuorumAvailable? || e.ViewChange?
    || e.LclDivergence? || e.LclReconciled? || e.Blocked? || e.PublicationCommitted? || e.StartupMode? || e.Heartbeat?
    || e.PlanSliceReady?
  }

  function Plain(s: Shadow, e: Event): Shadow
    requires IsPlain(e)
  {
    match e
    case StartupMode(phase) => Matched(s.(phase := phase))
    case Connectivity(usable) =>
      var fact :=
        if usable then if s.phase == Disconnected then Some(PeerCapabilityAvailable) else None
        else if s.phase != Disconnected then Some(PeerCapabilityLost) else None;
      Facted(s.(usable := usable), None, fact, s.depth)
    case TransportConnectivity(usable) => Facted(s.(usable := usable), None, None, s.depth)
    case QuorumLost => Facted(s, None, Some(ConsensusQuorumLost), s.depth)
    case QuorumAvailable => Facted(s, None, Some(ConsensusQuorumAvailable), s.depth)
    case ViewChange => Facted(s, None, Some(ConsensusViewChange), s.depth)
    case LclDivergence(target) => Facted(s, None, Some(PreferredLclDivergence(target)), s.depth)
    case LclReconciled(lcl) => Facted(s.(latest := None), None, Some(PreferredLclReconciled(lcl)), s.depth)
    case Blocked => Facted(s, None, Some(BlockedWithNoTarget), s.depth)
    case PublicationCommitted(lcl, isFresh) => Published(s, lcl, isFresh)
    case Heartbeat => Matched(s)
    case PlanSliceReady => s
  }

  /** Events about one tracked session. */
  predicate IsOfSession(e: Event) {
    || e.PacketAdmitted? || e.ReadCompleted? || e.WriteCompleted? || e.DurabilityFenced? || e.HandoffAcknowledged?
    || e.HandoffRejected? || e.TimerFired?
  }

  function OfSession(s: Shadow, e: Event): Shadow
    requires IsOfSession(e)
  {
    match e
    case PacketAdmitted(session) => Packet(s, session)
    case ReadCompleted(session, kind, read) => ReadDone(s, session, kind, read)
    case WriteCompleted(session, written) => WriteDone(s, session, written)
    case DurabilityFenced(session, fenced) => FenceDone(s, session, fenced)
    case HandoffAcknowledged(session) => Acknowledged(s, session)
    case HandoffRejected(session) => HandoffRefused(s, session)
    case TimerFired(op, expiry) => TimerDone(s, op, expiry)
  }

  function Derived(s: Shadow, e: Event): Shadow {
    if IsPlain(e) then Plain(s, e)
    else if IsOfSession(e) then OfSession(s, e)
    else match e
      case AcquireRequested(target, reason) => Acquire(s, target, reason, false, false)
      case ValidationTarget(target) => Acquire(s, target, Consensus, false, true)
      case ValidationRecoveryTarget(target) => RecoveryTarget(s, target)
      case ConsensusTarget(target, reason) => Acquire(s.(latest := Some(target)), target, reason, true, false)
      case LclInstalled(lcl) => Installed(s, lcl)
      case StoreRotated(generation) => Rotated(s, generation)
      case FetchPackAvailable => FetchPack(s)
      case RegistrySweep => CancelBulk(s, Expired)
      case ShutdownRequested => ShutDown(s)
  }

  /** `record`. */
  function Recorded(s: Shadow, e: Event): Shadow {
    if !s.config.enabled then s else Promote(Reconcile(Derived(s, e)))
  }

  /** The last live session for a hash in session order, or the length. */
  function LastLive(mirror: seq<Mirror>, hash: Hash): (i: nat)
    ensures i <= |mirror|
    ensures i < |mirror| ==> !mirror[i].phase.IsTerminal() && mirror[i].target.hash == hash
  {
    if mirror == [] then 0
    else
      var last := |mirror| - 1;
      if !mirror[last].phase.IsTerminal() && mirror[last].target.hash == hash then last
      else var i := LastLive(mirror[..last], hash); if i < last then i else |mirror|
  }

  /** A started production session takes over the mirror entry made for its hash. */
  function Adopted(s: Shadow, production: SessionRef): Shadow {
    var i := LastLive(s.mirror, production.targetHash);
    if !s.config.enabled || Tracked(s.mirror, production) || i == |s.mirror| then s
    else
      s.(mirror := Inserted(s.mirror[..i] + s.mirror[i + 1..], s.mirror[i].(session := production)))
  }

  /** An armed expiry timer replaces the one the mirror waits for. */
  function Armed(s: Shadow, op: OperationRef): Shadow {
    var i := Find(s.mirror, op.session);
    if !s.config.enabled || i == |s.mirror| || !(s.mirror[i].phase == Active || s.mirror[i].phase == Dormant) then s
    else s.(mirror := s.mirror[i := s.mirror[i].(expiryTimer := Some(op), sweepEligible := false)])
  }

  datatype Reference = Reference(
    session: SessionRef, phase: Option<SyncPhase>, outcome: Option<Outcome>, targetHash: Option<Hash>, depth: nat)

  /** `compare_reference`. */
  function Compared(s: Shadow, reference: Reference): Shadow {
    var i := Find(s.mirror, reference.session);
    if !s.config.enabled then s
    else if i == |s.mirror| then
      Note(s, Some(reference.session), SessionPresenceMismatch, Some(s.phase), None, reference.depth)
    else
      var m := s.mirror[i];
      var kind :=
        if reference.targetHash.Some? && reference.targetHash.value != m.session.targetHash then TargetMismatch
        else if m.outcome != reference.outcome then OutcomeMismatch
        else if reference.phase.Some? && reference.phase.value != s.phase then PhaseMismatch
        else Match;
      Note(s, Some(reference.session), kind, Some(s.phase), m.outcome, reference.depth)
  }
}
